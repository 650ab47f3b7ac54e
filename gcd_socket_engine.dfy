/**
 * The `GCDSocketEngine` class itself: the Swift object's fields, updated in place by one
 * method per entry point. The socket and the heartbeat timer are not visible here; what
 * the engine does to them is kept in ghost state: whether the timer runs, the commands
 * issued to the socket and the notifications sent to the delegate, each in order.
 *
 * Every method is proved against the handler of the same name in `EngineModel`: the new
 * fields are that handler's next engine, and the logs grow by exactly what it emits.
 * `Valid` is the log invariant every method keeps: each write is a probe whose tag is below
 * the bound and at most the current index, whose text carries the tag plus one, and write
 * tags never go down. `heartBeatIndex`, `testHeartBeat` and `delegateAttached` are public
 * fields a caller may assign; such an assignment is not an entry point, and one that lowers
 * the index can break `Valid`, so what is proved here holds between such assignments.
 */
module SocketEngine {
  import opened Wrappers
  import opened EngineModel

  class GCDSocketEngine {
    var socketHost: string
    var socketPort: int
    var testHeartBeat: bool
    var heartBeatIndex: nat
    var heartbeatInterval: int
    var connectTimeout: int
    var heartBeatStartTime: int
    var status: ConnectStatus
    /** Whether the weak `delegate` reference is set. */
    var delegateAttached: bool

    ghost var timerRunning: bool
    ghost var commands: seq<SocketCommand>
    ghost var notifications: seq<Notification>

    ghost function State(): Engine
      reads this
    {
      Engine(socketHost, socketPort, testHeartBeat, heartBeatIndex, heartbeatInterval,
             connectTimeout, heartBeatStartTime, status, delegateAttached, timerRunning)
    }

    ghost predicate Valid()
      reads this
    {
      (forall c | c in commands && c.WriteData? :: IsProbeWrite(c) && c.tag <= heartBeatIndex) &&
      WriteTagsOrdered(commands)
    }

    /** The engine now is `o.next`, and the logs are the earlier ones followed by what `o` emitted. */
    ghost predicate Became(o: Output, commands0: seq<SocketCommand>, notifications0: seq<Notification>)
      reads this
    {
      State() == o.next && commands == commands0 + o.commands && notifications == notifications0 + o.notes
    }

    constructor ()
      ensures Valid() && State() == Initial
      ensures status == Disconnected && heartBeatIndex == 0 && heartBeatStartTime == 0 && !timerRunning
      ensures connectTimeout == DefaultTimeOut && heartbeatInterval == DefaultHeartbeatInterval
      ensures socketHost == DefaultHost && socketPort == DefaultPort && !testHeartBeat && !delegateAttached
      ensures commands == [] && notifications == []
    {
      socketHost, socketPort := DefaultHost, DefaultPort;
      testHeartBeat, heartBeatIndex := false, 0;
      connectTimeout, heartbeatInterval := DefaultTimeOut, DefaultHeartbeatInterval;
      heartBeatStartTime := 0;
      status, delegateAttached := Disconnected, false;
      timerRunning, commands, notifications := false, [], [];
    }

    /** `connectToServer`, with `connectThrows` the outcome of the socket's throwing connect call. */
    method ConnectToServer(host: string, port: int, connectThrows: bool)
      requires Valid()
      requires status == Disconnected ==> 0 <= port < 0x1_0000
      modifies this
      ensures Valid()
      ensures Became(EngineModel.ConnectToServer(old(State()), host, port, connectThrows),
                     old(commands), old(notifications))
    {
      socketHost := host;
      socketPort := port;
      if status != Disconnected {
        return;
      }
      commands := commands + [OpenConnection(socketHost, socketPort, connectTimeout)];
      if !connectThrows {
        status := Connecting;
      }
    }

    /** `sendHeartBeatRequest`, the timer callback; `now` is the clock in milliseconds, `timestamp` the Unix time in seconds. */
    method SendHeartBeatRequest(now: int, timestamp: int)
      requires Valid()
      modifies this
      ensures Valid()
      ensures Became(EngineModel.SendHeartBeatRequest(old(State()), now, timestamp),
                     old(commands), old(notifications))
    {
      if heartBeatIndex < MaxHeartBeatCount {
        heartBeatStartTime := now;
        var probe := ProbeWrite(heartBeatIndex, timestamp);
        HeartBeatWritesProbe(State(), now, timestamp);
        assert probe in EngineModel.SendHeartBeatRequest(State(), now, timestamp).commands;
        commands := commands + [probe];
      } else {
        timerRunning := false;
      }
    }

    method DisconnectToServer()
      requires Valid()
      modifies this
      ensures Valid()
      ensures Became(EngineModel.DisconnectToServer(old(State())), old(commands), old(notifications))
    {
      status := Disconnected;
      timerRunning := false;
      commands := commands + [CloseConnection];
    }

    /** The socket's `didConnectToHost` callback. */
    method DidConnectToHost(host: string, port: Port)
      requires Valid()
      modifies this
      ensures Valid()
      ensures Became(EngineModel.DidConnectToHost(old(State()), host, port), old(commands), old(notifications))
    {
      status := Connected;
      if delegateAttached {
        notifications := notifications + [ConnectResult(true, host, port, None)];
      }
      if testHeartBeat {
        timerRunning := true;
      }
    }

    /** The socket's `socketDidDisconnect` callback; `err` is the error's code, if an error came. */
    method SocketDidDisconnect(err: Option<int>)
      requires Valid()
      modifies this
      ensures Valid()
      ensures Became(EngineModel.SocketDidDisconnect(old(State()), err), old(commands), old(notifications))
    {
      status := Disconnected;
      timerRunning := false;
      if err.Some? && delegateAttached {
        notifications := notifications + [ConnectResult(false, socketHost, socketPort, Some(err.value))];
      }
    }

    /** The socket's `didWriteDataWithTag` callback. */
    method DidWriteData(tag: int)
      requires Valid()
      modifies this
      ensures Valid()
      ensures Became(EngineModel.DidWriteData(old(State()), tag), old(commands), old(notifications))
    {
      commands := commands + [ReadData(NoTimeout, heartBeatIndex)];
    }

    /** The socket's `didRead` callback; `now` is the clock in milliseconds. */
    method DidReadData(tag: int, now: int)
      requires Valid()
      modifies this
      ensures Valid()
      ensures Became(EngineModel.DidReadData(old(State()), tag, now), old(commands), old(notifications))
    {
      if delegateAttached {
        notifications := notifications + [ProbeResult(tag, now - heartBeatStartTime, socketPort)];
      }
      heartBeatIndex := heartBeatIndex + 1;
    }
  }
}
