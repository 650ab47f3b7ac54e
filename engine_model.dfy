/**
 * The heartbeat-probe engine of GCDSocketEngine.swift as a pure state machine.
 *
 * `Engine` holds the engine's fields together with whether its heartbeat timer is
 * running. Each entry point of the Swift class (the two caller commands, the timer
 * callback and the four socket-delegate callbacks) is one handler function from an
 * `Engine` to an `Output`: the next `Engine`, the commands it issued to the socket and
 * the notifications it sent to its delegate, in order. Every entry point is one atomic
 * step. `Run` folds the handlers over a trace of events; the lemmas at the end hold for
 * every trace.
 */
module EngineModel {
  import opened Wrappers
  import opened ProbePayload

  const DefaultTimeOut := 5
  const DefaultHeartbeatInterval := 5
  const MaxHeartBeatCount := 3
  /** The timeout the engine passes with each probe write and read: negative, that is, none. */
  const NoTimeout := -1
  const DefaultHost := "127.0.0.1"
  const DefaultPort := 80

  /** The range of `UInt16`, the type the socket takes a port in. */
  type Port = p: int | 0 <= p < 0x1_0000

  datatype ConnectStatus = Disconnected | Connecting | Connected

  /** What the engine asks of its socket. */
  datatype SocketCommand =
    | OpenConnection(host: string, port: Port, timeout: int)
    | WriteData(data: string, timeout: int, tag: int)
    | ReadData(timeout: int, tag: int)
    | CloseConnection

  /** What the engine tells its delegate. */
  datatype Notification =
    | ConnectResult(succ: bool, host: string, port: int, errorCode: Option<int>)
    | ProbeResult(tag: int, time: int, port: int)

  /**
   * The engine's fields. `heartBeatStartTime` is in milliseconds; `delegateAttached`
   * says whether the weak delegate reference is currently non-nil.
   */
  datatype Engine = Engine(
    socketHost: string,
    socketPort: int,
    testHeartBeat: bool,
    heartBeatIndex: nat,
    heartbeatInterval: int,
    connectTimeout: int,
    heartBeatStartTime: int,
    status: ConnectStatus,
    delegateAttached: bool,
    timerRunning: bool)

  datatype Output = Output(next: Engine, commands: seq<SocketCommand>, notes: seq<Notification>)

  /** The engine as `init` leaves it (delegate not yet set, heartbeat testing off). */
  const Initial := Engine(DefaultHost, DefaultPort, false, 0, DefaultHeartbeatInterval,
                          DefaultTimeOut, 0, Disconnected, false, false)

  /** A call through the optional delegate: it happens only when the delegate is set. */
  function Notify(e: Engine, n: Notification): (ns: seq<Notification>)
    ensures ns == [] || ns == [n]
    ensures |ns| == 1 <==> e.delegateAttached
  {
    if e.delegateAttached then [n] else []
  }

  /**
   * `connectToServer`: stores the endpoint, then, only from Disconnected, asks the socket
   * to connect; the engine moves to Connecting unless that call threw. The port must fit
   * `UInt16` once the guard is passed, or the conversion would trap.
   */
  function ConnectToServer(e: Engine, host: string, port: int, connectThrows: bool): (o: Output)
    requires e.status == Disconnected ==> 0 <= port < 0x1_0000
    ensures o.next == e.(socketHost := host, socketPort := port, status := o.next.status)
    ensures o.notes == []
    ensures e.status != Disconnected ==> o.next.status == e.status && o.commands == []
    ensures e.status == Disconnected ==> o.commands == [OpenConnection(host, port, e.connectTimeout)]
    ensures o.next.status == Connecting <==>
              e.status == Connecting || (e.status == Disconnected && !connectThrows)
    ensures e.status == Disconnected && connectThrows ==> o.next.status == Disconnected
  {
    var stored := e.(socketHost := host, socketPort := port);
    if e.status != Disconnected then Output(stored, [], [])
    else
      var attempt := [OpenConnection(host, port, e.connectTimeout)];
      if connectThrows then Output(stored, attempt, [])
      else Output(stored.(status := Connecting), attempt, [])
  }

  /** A write the engine may issue: a probe whose tag is below the bound and whose text carries the tag plus one. */
  predicate IsProbeWrite(c: SocketCommand) {
    c.WriteData? && 0 <= c.tag < MaxHeartBeatCount &&
    Decode(c.data).Some? && Decode(c.data).value.seqNo == c.tag + 1
  }

  /** The probe write for index `i` at Unix time `timestamp`: tagged `i`, numbered `i + 1`, no timeout. */
  function ProbeWrite(i: nat, timestamp: int): SocketCommand {
    WriteData(Encode(Probe(i + 1, timestamp)), NoTimeout, i)
  }

  /**
   * `sendHeartBeatRequest`, the timer callback: below the probe bound it records the start
   * time and writes one probe tagged with the current index; at the bound it suspends the
   * timer instead. The index and the connection status are never touched.
   */
  function SendHeartBeatRequest(e: Engine, now: int, timestamp: int): (o: Output)
    ensures o.next == e.(heartBeatStartTime := o.next.heartBeatStartTime, timerRunning := o.next.timerRunning)
    ensures o.notes == []
    ensures e.heartBeatIndex < MaxHeartBeatCount ==>
              o.commands == [ProbeWrite(e.heartBeatIndex, timestamp)] &&
              o.next.heartBeatStartTime == now && o.next.timerRunning == e.timerRunning
    ensures e.heartBeatIndex >= MaxHeartBeatCount ==>
              o.commands == [] && o.next.heartBeatStartTime == e.heartBeatStartTime && !o.next.timerRunning
  {
    if e.heartBeatIndex < MaxHeartBeatCount then
      Output(e.(heartBeatStartTime := now), [ProbeWrite(e.heartBeatIndex, timestamp)], [])
    else
      Output(e.(timerRunning := false), [], [])
  }

  /**
   * The timer callback writes exactly when the index is below the bound, and what it writes
   * is a probe tagged with the index whose text reads back as number tag + 1 and the timestamp.
   */
  lemma HeartBeatWritesProbe(e: Engine, now: int, timestamp: int)
    ensures var o := SendHeartBeatRequest(e, now, timestamp);
      (o.commands != [] <==> e.heartBeatIndex < MaxHeartBeatCount) &&
      forall c | c in o.commands ::
        IsProbeWrite(c) && c.tag == e.heartBeatIndex && Decode(c.data) == Some(Probe(c.tag + 1, timestamp))
  {
    DecodeEncode(Probe(e.heartBeatIndex + 1, timestamp));
  }

  /** `disconnectToServer`: from any state, Disconnected, timer suspended, socket closed, delegate not told. */
  function DisconnectToServer(e: Engine): (o: Output)
    ensures o.next.status == Disconnected && !o.next.timerRunning
    ensures o.next == e.(status := Disconnected, timerRunning := false)
    ensures o.commands == [CloseConnection] && o.notes == []
  {
    Output(e.(status := Disconnected, timerRunning := false), [CloseConnection], [])
  }

  /**
   * The socket's connected event: Connected, one success report carrying the host and port
   * the event gives, and the timer started exactly when heartbeat testing is on.
   */
  function DidConnectToHost(e: Engine, host: string, port: Port): (o: Output)
    ensures o.next.status == Connected
    ensures o.next.timerRunning == (e.testHeartBeat || e.timerRunning)
    ensures o.next == e.(status := Connected, timerRunning := o.next.timerRunning)
    ensures o.commands == [] && o.notes == Notify(e, ConnectResult(true, host, port, None))
  {
    var connected := e.(status := Connected);
    var started := if e.testHeartBeat then connected.(timerRunning := true) else connected;
    Output(started, [], Notify(e, ConnectResult(true, host, port, None)))
  }

  /**
   * The socket's disconnected event: Disconnected, timer suspended, and a failure report
   * with the stored endpoint and the error's code only when an error came with the event.
   */
  function SocketDidDisconnect(e: Engine, err: Option<int>): (o: Output)
    ensures o.next == e.(status := Disconnected, timerRunning := false)
    ensures o.commands == []
    ensures err.None? ==> o.notes == []
    ensures err.Some? ==> o.notes == Notify(e, ConnectResult(false, e.socketHost, e.socketPort, err))
  {
    var reset := e.(status := Disconnected, timerRunning := false);
    match err
    case None => Output(reset, [], [])
    case Some(code) => Output(reset, [], Notify(e, ConnectResult(false, e.socketHost, e.socketPort, Some(code))))
  }

  /** The socket's write-complete event: one read, tagged with the current index and not with the echoed tag. */
  function DidWriteData(e: Engine, tag: int): (o: Output)
    ensures o.next == e && o.notes == []
    ensures o.commands == [ReadData(NoTimeout, e.heartBeatIndex)]
  {
    Output(e, [ReadData(NoTimeout, e.heartBeatIndex)], [])
  }

  /** The socket's data-received event: report the tag, the elapsed time and the port, then advance the index by one. */
  function DidReadData(e: Engine, tag: int, now: int): (o: Output)
    ensures o.next == e.(heartBeatIndex := e.heartBeatIndex + 1)
    ensures o.commands == []
    ensures o.notes == Notify(e, ProbeResult(tag, now - e.heartBeatStartTime, e.socketPort))
  {
    Output(e.(heartBeatIndex := e.heartBeatIndex + 1), [],
           Notify(e, ProbeResult(tag, now - e.heartBeatStartTime, e.socketPort)))
  }

  /**
   * Everything that can happen to the engine. `CallConnect` carries whether the socket's
   * connect call throws; `TimerFire` and `SocketRead` carry the clock in milliseconds and
   * `TimerFire` the Unix time in seconds put into the probe text.
   */
  datatype Event =
    | CallConnect(host: string, port: Port, connectThrows: bool)
    | CallDisconnect
    | TimerFire(now: int, timestamp: int)
    | SocketConnected(host: string, port: Port)
    | SocketDisconnected(err: Option<int>)
    | SocketWrote(tag: int)
    | SocketRead(tag: int, now: int)

  /**
   * One event, one handler. A suspended timer does not fire, so `TimerFire` changes nothing
   * then. Only a read moves the index, only a running timer's fire writes, and only the
   * connected event can start the timer.
   */
  function Step(e: Engine, ev: Event): (o: Output)
    ensures |o.commands| <= 1
    ensures o.next.heartBeatIndex == e.heartBeatIndex + (if ev.SocketRead? then 1 else 0)
    ensures forall c | c in o.commands && c.WriteData? ::
              ev.TimerFire? && e.timerRunning && e.heartBeatIndex < MaxHeartBeatCount &&
              c == ProbeWrite(e.heartBeatIndex, ev.timestamp)
    ensures o.next.timerRunning && !e.timerRunning ==> ev.SocketConnected?
    ensures forall n | n in o.notes && n.ConnectResult? && !n.succ ::
              ev.SocketDisconnected? && ev.err.Some? && n.errorCode == ev.err
  {
    match ev
    case CallConnect(host, port, connectThrows) => ConnectToServer(e, host, port, connectThrows)
    case CallDisconnect => DisconnectToServer(e)
    case TimerFire(now, timestamp) =>
      if e.timerRunning then SendHeartBeatRequest(e, now, timestamp) else Output(e, [], [])
    case SocketConnected(host, port) => DidConnectToHost(e, host, port)
    case SocketDisconnected(err) => SocketDidDisconnect(e, err)
    case SocketWrote(tag) => DidWriteData(e, tag)
    case SocketRead(tag, now) => DidReadData(e, tag, now)
  }

  /** Output `b` following output `a`. */
  function Then(a: Output, b: Output): Output {
    Output(b.next, a.commands + b.commands, a.notes + b.notes)
  }

  /** A trace of events folded through a step function: the last state and everything produced, in order. */
  function Fold(step: (Engine, Event) -> Output, e: Engine, evs: seq<Event>): Output
    decreases |evs|
  {
    if evs == [] then Output(e, [], [])
    else
      var o := step(e, evs[0]);
      Then(o, Fold(step, o.next, evs[1..]))
  }

  /** The engine after a trace of events, with every command and notification it produced, in order. */
  function Run(e: Engine, evs: seq<Event>): Output {
    Fold(Step, e, evs)
  }

  function ReadCount(evs: seq<Event>): nat
    decreases |evs|
  {
    if evs == [] then 0 else (if evs[0].SocketRead? then 1 else 0) + ReadCount(evs[1..])
  }

  predicate NoWrites(cs: seq<SocketCommand>) {
    forall c | c in cs :: !c.WriteData?
  }

  /** Write tags never go down along a command log. */
  predicate WriteTagsOrdered(cs: seq<SocketCommand>) {
    forall i, j | 0 <= i < j < |cs| && cs[i].WriteData? && cs[j].WriteData? :: cs[i].tag <= cs[j].tag
  }

  lemma {:induction false} FoldAppend(step: (Engine, Event) -> Output, e: Engine, a: seq<Event>, b: seq<Event>)
    ensures Fold(step, e, a + b) == Then(Fold(step, e, a), Fold(step, Fold(step, e, a).next, b))
    decreases |a|
  {
    if a == [] {
      assert a + b == b;
    } else {
      assert (a + b)[0] == a[0];
      assert (a + b)[1..] == a[1..] + b;
      FoldAppend(step, step(e, a[0]).next, a[1..], b);
    }
  }

  /** Running two traces one after the other is running their concatenation. */
  lemma RunAppend(e: Engine, a: seq<Event>, b: seq<Event>)
    ensures Run(e, a + b) == Then(Run(e, a), Run(Run(e, a).next, b))
  {
    FoldAppend(Step, e, a, b);
  }

  /** The index only moves on a read, by exactly one: it is never decreased or reset, a reconnect included. */
  lemma {:induction false} IndexCountsReads(e: Engine, evs: seq<Event>)
    ensures Run(e, evs).next.heartBeatIndex == e.heartBeatIndex + ReadCount(evs)
    decreases |evs|
  {
    if evs != [] {
      IndexCountsReads(Step(e, evs[0]).next, evs[1..]);
    }
  }

  /**
   * Over any trace, every write the engine issues is a probe: its tag is below the bound,
   * its text carries the tag plus one, and the tag lies between the index at the start and
   * the index at the end.
   */
  lemma {:induction false} ProbesWellFormed(e: Engine, evs: seq<Event>)
    ensures var r := Run(e, evs);
      forall c | c in r.commands && c.WriteData? ::
        IsProbeWrite(c) && e.heartBeatIndex <= c.tag <= r.next.heartBeatIndex
    decreases |evs|
  {
    if evs != [] {
      var o := Step(e, evs[0]);
      var rest := Run(o.next, evs[1..]);
      ProbesWellFormed(o.next, evs[1..]);
      assert Run(e, evs).commands == o.commands + rest.commands;
      forall c | c in o.commands && c.WriteData?
        ensures IsProbeWrite(c) && e.heartBeatIndex <= c.tag <= rest.next.heartBeatIndex
      {
        HeartBeatWritesProbe(e, evs[0].now, evs[0].timestamp);
        IndexCountsReads(o.next, evs[1..]);
      }
    }
  }

  /** Over any trace, write tags never go down from one write to the next. */
  lemma {:induction false} WriteTagsNeverDecrease(e: Engine, evs: seq<Event>)
    ensures WriteTagsOrdered(Run(e, evs).commands)
    decreases |evs|
  {
    if evs != [] {
      var o := Step(e, evs[0]);
      var rest := Run(o.next, evs[1..]);
      WriteTagsNeverDecrease(o.next, evs[1..]);
      ProbesWellFormed(o.next, evs[1..]);
      var cs := Run(e, evs).commands;
      assert cs == o.commands + rest.commands;
      forall i, j | 0 <= i < j < |cs| && cs[i].WriteData? && cs[j].WriteData?
        ensures cs[i].tag <= cs[j].tag
      {
        var k := |o.commands|;
        if i < k {
          assert cs[i] in o.commands;
          assert cs[j] == rest.commands[j - k];
        } else {
          assert cs[i] == rest.commands[i - k];
          assert cs[j] == rest.commands[j - k];
        }
      }
    }
  }

  /** Once the bound is reached, no probe is ever written again, whatever happens, reconnects included. */
  lemma {:induction false} ExhaustedSessionNeverProbes(e: Engine, evs: seq<Event>)
    requires e.heartBeatIndex >= MaxHeartBeatCount
    ensures NoWrites(Run(e, evs).commands)
  {
    ProbesWellFormed(e, evs);
  }

  /**
   * With the timer suspended, no probe is written until a connected event restarts it: in
   * particular none after `disconnectToServer`, whatever timer fires were still pending.
   * A direct call of the public `sendHeartBeatRequest` is not an event and is not covered.
   */
  lemma {:induction false} NoProbeWhileSuspended(e: Engine, evs: seq<Event>)
    requires !e.timerRunning
    requires forall k | 0 <= k < |evs| :: !evs[k].SocketConnected?
    ensures NoWrites(Run(e, evs).commands) && !Run(e, evs).next.timerRunning
    decreases |evs|
  {
    if evs != [] {
      NoProbeWhileSuspended(Step(e, evs[0]).next, evs[1..]);
    }
  }

  /**
   * After `disconnectToServer`, events other than a new connection produce no probe (a direct
   * call of `sendHeartBeatRequest` is not an event).
   */
  lemma NoProbeAfterDisconnect(e: Engine, evs: seq<Event>)
    requires forall k | 0 <= k < |evs| :: !evs[k].SocketConnected?
    ensures NoWrites(Run(e, [CallDisconnect] + evs).commands)
  {
    RunAppend(e, [CallDisconnect], evs);
    NoProbeWhileSuspended(DisconnectToServer(e).next, evs);
  }

  /** Repeated connects while Connecting or Connected reach neither the socket nor the delegate, and change no state but the stored endpoint. */
  lemma {:induction false} RedundantConnectsDropped(e: Engine, evs: seq<Event>)
    requires e.status != Disconnected
    requires forall k | 0 <= k < |evs| :: evs[k].CallConnect?
    ensures Run(e, evs).commands == [] && Run(e, evs).notes == []
    ensures Run(e, evs).next.(socketHost := e.socketHost, socketPort := e.socketPort) == e
    decreases |evs|
  {
    if evs != [] {
      RedundantConnectsDropped(Step(e, evs[0]).next, evs[1..]);
    }
  }

  /** A failure is reported only for a disconnected event that carries an error, and always with that error's code. */
  lemma {:induction false} FailureReportsNeedError(e: Engine, evs: seq<Event>)
    ensures forall n | n in Run(e, evs).notes && n.ConnectResult? && !n.succ ::
              n.errorCode.Some? && SocketDisconnected(n.errorCode) in evs
    decreases |evs|
  {
    if evs != [] {
      var o := Step(e, evs[0]);
      FailureReportsNeedError(o.next, evs[1..]);
      assert Run(e, evs).notes == o.notes + Run(o.next, evs[1..]).notes;
      forall n | n in Run(e, evs).notes && n.ConnectResult? && !n.succ
        ensures n.errorCode.Some? && SocketDisconnected(n.errorCode) in evs
      {
        if n !in o.notes {
          assert SocketDisconnected(n.errorCode) in evs[1..];
        }
      }
    }
  }

  /**
   * Probe tags go up only through reads: two timer fires with no echo read in between
   * write two probes with the same tag.
   */
  lemma FireTwiceRepeatsTag(e: Engine, now: int, timestamp: int, now2: int, timestamp2: int)
    requires e.timerRunning && e.heartBeatIndex < MaxHeartBeatCount
    ensures Run(e, [TimerFire(now, timestamp), TimerFire(now2, timestamp2)]).commands ==
            [ProbeWrite(e.heartBeatIndex, timestamp), ProbeWrite(e.heartBeatIndex, timestamp2)]
  {
    var fire, fire2 := TimerFire(now, timestamp), TimerFire(now2, timestamp2);
    assert [fire, fire2] == [fire] + [fire2];
    RunAppend(e, [fire], [fire2]);
    RunOne(e, fire);
    RunOne(Step(e, fire).next, fire2);
  }

  /** `disconnectToServer` twice leaves the engine as once does. */
  lemma DisconnectIdempotent(e: Engine)
    ensures DisconnectToServer(DisconnectToServer(e).next).next == DisconnectToServer(e).next
  {
  }

  /**
   * A completion that arrives after a disconnect is still acted on: the report is sent and
   * the index advances, whatever the connection status.
   */
  lemma LateReadStillCounted(e: Engine, tag: int, now: int)
    requires e.status == Disconnected && e.delegateAttached
    ensures Step(e, SocketRead(tag, now)).next.heartBeatIndex == e.heartBeatIndex + 1
    ensures Step(e, SocketRead(tag, now)).notes == [ProbeResult(tag, now - e.heartBeatStartTime, e.socketPort)]
  {
  }

  /** One probe round trip: the timer fires, the write completes, the echo is read. */
  function ProbeRound(tag: nat, now: int, timestamp: int, echoAt: int): seq<Event> {
    [TimerFire(now, timestamp), SocketWrote(tag), SocketRead(tag, echoAt)]
  }

  /** `n` probe round trips with tags `from`, `from + 1`, ... */
  function ProbeRounds(from: nat, n: nat, now: int, timestamp: int, echoAt: int): seq<Event>
    decreases n
  {
    if n == 0 then [] else ProbeRound(from, now, timestamp, echoAt) + ProbeRounds(from + 1, n - 1, now, timestamp, echoAt)
  }

  /** The socket commands of `n` round trips: each probe's write and the read it arms. */
  function ProbeCommands(from: nat, n: nat, timestamp: int): seq<SocketCommand>
    decreases n
  {
    if n == 0 then []
    else [ProbeWrite(from, timestamp), ReadData(NoTimeout, from)]
         + ProbeCommands(from + 1, n - 1, timestamp)
  }

  /** The delegate reports of `n` round trips. */
  function ProbeReports(from: nat, n: nat, time: int, port: int): seq<Notification>
    decreases n
  {
    if n == 0 then [] else [ProbeResult(from, time, port)] + ProbeReports(from + 1, n - 1, time, port)
  }

  /** A one-event trace is one step. */
  lemma RunOne(e: Engine, ev: Event)
    ensures Run(e, [ev]) == Step(e, ev)
  {
    var o := Step(e, ev);
    assert [ev][0] == ev && [ev][1..] == [];
    assert Fold(Step, o.next, []) == Output(o.next, [], []);
    assert Fold(Step, e, [ev]) == Then(o, Fold(Step, o.next, []));
    assert o.commands + [] == o.commands && o.notes + [] == o.notes;
  }

  /** A write completion followed by its echo: one read armed, one report, the index advanced. */
  lemma EchoRoundTrip(e: Engine, echoAt: int)
    ensures var i := e.heartBeatIndex;
      Run(e, [SocketWrote(i), SocketRead(i, echoAt)]) ==
      Output(e.(heartBeatIndex := i + 1), [ReadData(NoTimeout, i)],
             Notify(e, ProbeResult(i, echoAt - e.heartBeatStartTime, e.socketPort)))
  {
    var i := e.heartBeatIndex;
    var wrote, read := SocketWrote(i), SocketRead(i, echoAt);
    assert [wrote, read] == [wrote] + [read];
    RunAppend(e, [wrote], [read]);
    RunOne(e, wrote);
    RunOne(e, read);
  }

  lemma OneRound(e: Engine, now: int, timestamp: int, echoAt: int)
    requires e.timerRunning && e.heartBeatIndex < MaxHeartBeatCount
    ensures var i := e.heartBeatIndex;
      Run(e, ProbeRound(i, now, timestamp, echoAt)) ==
      Output(e.(heartBeatIndex := i + 1, heartBeatStartTime := now),
             [ProbeWrite(i, timestamp), ReadData(NoTimeout, i)],
             Notify(e, ProbeResult(i, echoAt - now, e.socketPort)))
  {
    var i := e.heartBeatIndex;
    var fire := TimerFire(now, timestamp);
    var echo := [SocketWrote(i), SocketRead(i, echoAt)];
    var e1 := e.(heartBeatStartTime := now);
    assert ProbeRound(i, now, timestamp, echoAt) == [fire] + echo;
    RunAppend(e, [fire], echo);
    RunOne(e, fire);
    assert Step(e, fire) == Output(e1, [ProbeWrite(i, timestamp)], []);
    EchoRoundTrip(e1, echoAt);
  }

  /** The engine after `n` orderly round trips that stay within the bound: the index advanced by `n`. */
  function AfterRounds(e: Engine, n: nat, now: int): Engine {
    if n == 0 then e else e.(heartBeatIndex := e.heartBeatIndex + n, heartBeatStartTime := now)
  }

  /**
   * `n` orderly round trips from a running timer, while the index stays within the bound:
   * one write and one read per round with tags `i`, `i + 1`, ..., one report per round, and
   * the index advanced by `n`.
   */
  lemma {:induction false} RoundsWithinBound(e: Engine, n: nat, now: int, timestamp: int, echoAt: int)
    requires e.timerRunning && e.heartBeatIndex + n <= MaxHeartBeatCount
    ensures Run(e, ProbeRounds(e.heartBeatIndex, n, now, timestamp, echoAt)) ==
            Output(AfterRounds(e, n, now), ProbeCommands(e.heartBeatIndex, n, timestamp),
                   if e.delegateAttached then ProbeReports(e.heartBeatIndex, n, echoAt - now, e.socketPort) else [])
    decreases n
  {
    if n > 0 {
      var i := e.heartBeatIndex;
      var round := ProbeRound(i, now, timestamp, echoAt);
      var rest := ProbeRounds(i + 1, n - 1, now, timestamp, echoAt);
      var e1 := e.(heartBeatIndex := i + 1, heartBeatStartTime := now);
      assert ProbeRounds(i, n, now, timestamp, echoAt) == round + rest;
      RunAppend(e, round, rest);
      OneRound(e, now, timestamp, echoAt);
      RoundsWithinBound(e1, n - 1, now, timestamp, echoAt);
      assert AfterRounds(e1, n - 1, now) == AfterRounds(e, n, now);
    }
  }

  /**
   * A whole heartbeat session: from index 0 with the timer running, three orderly round
   * trips write exactly the probes tagged 0, 1 and 2, and the next fire writes nothing and
   * suspends the timer.
   */
  lemma Session(e: Engine, now: int, timestamp: int, echoAt: int, later: int, laterStamp: int)
    requires e.timerRunning && e.heartBeatIndex == 0
    ensures var r := Run(e, ProbeRounds(0, MaxHeartBeatCount, now, timestamp, echoAt) + [TimerFire(later, laterStamp)]);
      r.commands == ProbeCommands(0, MaxHeartBeatCount, timestamp) &&
      r.next.heartBeatIndex == MaxHeartBeatCount && !r.next.timerRunning && r.next.status == e.status
  {
    var rounds := ProbeRounds(0, MaxHeartBeatCount, now, timestamp, echoAt);
    var e3 := e.(heartBeatIndex := MaxHeartBeatCount, heartBeatStartTime := now);
    RunAppend(e, rounds, [TimerFire(later, laterStamp)]);
    RoundsWithinBound(e, MaxHeartBeatCount, now, timestamp, echoAt);
    RunOne(e3, TimerFire(later, laterStamp));
    assert ProbeCommands(0, MaxHeartBeatCount, timestamp) + [] == ProbeCommands(0, MaxHeartBeatCount, timestamp);
  }

  /**
   * Connect to 127.0.0.1:9000 with heartbeat testing on and a delegate set; the connect
   * succeeds and three round trips follow: one success report, then reports for probes
   * 0, 1 and 2, and nothing after the fourth fire.
   */
  lemma ConnectAndProbeScenario(now: int, timestamp: int, echoAt: int, later: int, laterStamp: int)
    ensures var e := Initial.(testHeartBeat := true, delegateAttached := true);
      var r := Run(e, [CallConnect("127.0.0.1", 9000, false), SocketConnected("127.0.0.1", 9000)]
                      + ProbeRounds(0, MaxHeartBeatCount, now, timestamp, echoAt)
                      + [TimerFire(later, laterStamp)]);
      r.notes == [ConnectResult(true, "127.0.0.1", 9000, None),
                  ProbeResult(0, echoAt - now, 9000), ProbeResult(1, echoAt - now, 9000), ProbeResult(2, echoAt - now, 9000)] &&
      r.next.status == Connected && !r.next.timerRunning
  {
    var e := Initial.(testHeartBeat := true, delegateAttached := true);
    var connect, connected := CallConnect("127.0.0.1", 9000, false), SocketConnected("127.0.0.1", 9000);
    var rounds := ProbeRounds(0, MaxHeartBeatCount, now, timestamp, echoAt);
    var fire := [TimerFire(later, laterStamp)];
    var e1 := e.(socketHost := "127.0.0.1", socketPort := 9000, status := Connecting);
    var e2 := e1.(status := Connected, timerRunning := true);
    assert [connect, connected] + rounds + fire == [connect] + ([connected] + (rounds + fire));
    RunAppend(e, [connect], [connected] + (rounds + fire));
    RunOne(e, connect);
    RunAppend(e1, [connected], rounds + fire);
    RunOne(e1, connected);
    assert Step(e1, connected) == Output(e2, [], [ConnectResult(true, "127.0.0.1", 9000, None)]);
    RunAppend(e2, rounds, fire);
    RoundsWithinBound(e2, MaxHeartBeatCount, now, timestamp, echoAt);
    RunOne(e2.(heartBeatIndex := MaxHeartBeatCount, heartBeatStartTime := now), fire[0]);
  }

  /** A refused connect (error code 61): one failure report with the endpoint, no probe report, back to Disconnected. */
  lemma RefusedConnectScenario(host: string, port: Port)
    ensures var e := Initial.(delegateAttached := true);
      var r := Run(e, [CallConnect(host, port, false), SocketDisconnected(Some(61))]);
      r.notes == [ConnectResult(false, host, port, Some(61))] &&
      r.commands == [OpenConnection(host, port, DefaultTimeOut)] &&
      r.next.status == Disconnected
  {
    var e := Initial.(delegateAttached := true);
    var connect, refused := CallConnect(host, port, false), SocketDisconnected(Some(61));
    assert [connect, refused] == [connect] + [refused];
    RunAppend(e, [connect], [refused]);
    RunOne(e, connect);
    RunOne(Step(e, connect).next, refused);
  }
}
