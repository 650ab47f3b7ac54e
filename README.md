# GCDSocketEngine heartbeat probe, modelled in Dafny

`GCDSocketEngine` is a single-connection TCP probe client. It opens a socket to a host and
port, tracks its connection status (disconnected, connecting, connected), and, once
connected with heartbeat testing on, lets a repeating timer send probe messages
numbered 1 to 3 (tags 0 to 2). The number of writes is not bounded: while an echo has not
been read, every further timer fire writes the same tag again. Each probe is `"msg<n>-<unix time>"`, written with the probe index as its tag.
A completed write arms a read, and a completed read reports the round-trip time to the
delegate and advances the probe index.

The project has four modules:

- `Wrappers` (wrappers.dfy): `Option`, for Swift optionals.
- `ProbePayload` (probe_payload.dfy): the decimal text Swift interpolation produces. `Encode` builds the probe text and `Decode` reads it back; the round trip is proved.
- `EngineModel` (engine_model.dfy): the engine as a pure state machine. `Engine` holds the fields and whether the heartbeat timer runs. There is one handler function per Swift entry point. Each returns the next engine, the commands issued to the socket (`OpenConnection`, `WriteData`, `ReadData`, `CloseConnection`) and the notifications sent to the delegate (`ConnectResult`, `ProbeResult`). `Run` folds the handlers over any trace of events. The lemmas state what holds over every trace.
- `SocketEngine` (gcd_socket_engine.dfy): the class `GCDSocketEngine`, with the Swift fields updated in place. Ghost state records whether the timer runs, the socket commands issued and the delegate notifications sent. Each method is proved to produce exactly the next state and output of the `EngineModel` handler of the same name. Each method also keeps `Valid`: every write in the log is a probe whose tag is below 3 and at most the current index, its text carries the tag plus one, and write tags never go down.

Clock readings are integer milliseconds passed in as parameters. The Unix timestamp in the probe text is an integer parameter. Whether the socket's `connect` call throws is a parameter too.

A reader might expect the engine to mark itself connecting before the connect call, to discard late completions, to reset the probe index on reconnect, to number probes with strictly increasing tags and to write only while connected. The code does none of these, and this model follows the code:

- `connectToServer` sets the status to connecting only after the socket's connect call returns without throwing. A throw leaves it disconnected. The connect attempt is still recorded as issued.
- Completions that arrive after a disconnect are not discarded. A late read still reports and still advances the index (`LateReadStillCounted`).
- The engine never resets the probe index, not even on reconnect. Once it reaches 3, no event makes the engine write a probe again (`ExhaustedSessionNeverProbes`); only a caller assigning the public `heartBeatIndex` starts a new session.
- Probe tags are non-decreasing, not strictly increasing. Two timer fires with no read in between write two probes with the same tag (`FireTwiceRepeatsTag`).
- A write is issued whatever the connection status. The write-complete handler arms its read with the current index, not with the tag the socket echoes.

## Model

| member | source | states |
|---|---|---|
| `ProbePayload.NatToDecimal` | GCDSocketEngine.swift:83 | the rendering of an index or timestamp is a non-empty run of decimal digits that denotes the number, with no leading zero except for 0 itself |
| `ProbePayload.IntToDecimalRoundTrip` | GCDSocketEngine.swift:83 | the interpolation of any `Int`, negative ones included, parses back to the same integer |
| `ProbePayload.DecodeEncode` | GCDSocketEngine.swift:83 | the probe text `msg<n>-<t>` reads back as exactly `(n, t)` for every non-negative probe number and every timestamp |
| `EngineModel.Notify` | GCDSocketEngine.swift:43 | a call through the weak delegate produces one notification when the delegate is set and none when it is nil |
| `EngineModel.ConnectToServer` | GCDSocketEngine.swift:59-77 | the endpoint is always stored; when not disconnected nothing else changes and no connect is issued; otherwise exactly one connect with the stored host, port and timeout; the status becomes connecting exactly when the connect did not throw; no notification |
| `EngineModel.SendHeartBeatRequest` | GCDSocketEngine.swift:79-88 | below 3 it writes exactly one probe tagged with the index and records the start time; at 3 or more it writes nothing and suspends the timer; index and status unchanged either way |
| `EngineModel.HeartBeatWritesProbe` | GCDSocketEngine.swift:80-83 | the timer callback writes if and only if the index is below 3, and what it writes has tag = index < 3 and text that decodes to number tag + 1 and the given timestamp |
| `EngineModel.DisconnectToServer` | GCDSocketEngine.swift:90-97 | from any state: disconnected, timer suspended, one socket disconnect, no notification, index and every other field unchanged |
| `EngineModel.DidConnectToHost` | GCDSocketEngine.swift:103-110 | connected; exactly one success report carrying the host and port of the event, when a delegate is set; the timer is started exactly when `testHeartBeat` is on; no socket command |
| `EngineModel.SocketDidDisconnect` | GCDSocketEngine.swift:112-122 | disconnected and timer suspended; one failure report with the stored host and port and the error code when an error is present, none when it is nil |
| `EngineModel.DidWriteData` | GCDSocketEngine.swift:124-127 | exactly one read is armed, tagged with the current index whatever tag the event echoes; nothing else changes |
| `EngineModel.DidReadData` | GCDSocketEngine.swift:129-133 | one report of (event tag, now - start time, stored port) when a delegate is set, and the index goes up by exactly one |
| `EngineModel.Step` | GCDSocketEngine.swift:52-54 | per event: at most one socket command; only a read moves the index, by one; only a running timer's fire writes, and only a probe for the current index below 3; only the connected event starts the timer; a failure report only for a disconnected event with an error |
| `EngineModel.IndexCountsReads` | GCDSocketEngine.swift:129-133 | over any trace of events the index ends at its start value plus the number of read events: no event decreases or resets it, reconnects included |
| `EngineModel.ProbesWellFormed` | GCDSocketEngine.swift:80-83 | over any trace every write is a probe with tag < 3, text numbered tag + 1, and tag between the index at the start and at the end |
| `EngineModel.WriteTagsNeverDecrease` | GCDSocketEngine.swift:79-88 | over any trace of events the tags of successive writes never go down |
| `EngineModel.ExhaustedSessionNeverProbes` | GCDSocketEngine.swift:79-86 | once the index has reached 3, no trace of events, reconnects included, produces another write |
| `EngineModel.NoProbeWhileSuspended` | GCDSocketEngine.swift:112-122 | with the timer suspended, no write is produced and the timer stays suspended until a connected event |
| `EngineModel.NoProbeAfterDisconnect` | GCDSocketEngine.swift:90-97 | after a caller disconnect, no pending timer fire or other event short of a new connection produces a probe |
| `EngineModel.RedundantConnectsDropped` | GCDSocketEngine.swift:64-67 | any number of connects while connecting or connected reach neither the socket nor the delegate, and change no field but the stored endpoint |
| `EngineModel.FailureReportsNeedError` | GCDSocketEngine.swift:119-121 | over any trace every failure report carries an error code, and a disconnected event with that code occurs in the trace |
| `EngineModel.FireTwiceRepeatsTag` | GCDSocketEngine.swift:80-83 | two fires with no read in between write two probes with the same tag |
| `EngineModel.DisconnectIdempotent` | GCDSocketEngine.swift:90-97 | disconnecting twice leaves the engine as disconnecting once |
| `EngineModel.LateReadStillCounted` | GCDSocketEngine.swift:129-133 | a read completing while disconnected still reports and still advances the index |
| `EngineModel.EchoRoundTrip` | GCDSocketEngine.swift:124-133 | a write completion followed by its read: one read armed with the index, one report, index + 1 |
| `EngineModel.RoundsWithinBound` | GCDSocketEngine.swift:79-133 | n orderly round trips within the bound, with the same clock readings in every round, produce exactly the probe writes and reads for tags i, i+1, ..., one report each, and advance the index by n |
| `EngineModel.Session` | GCDSocketEngine.swift:79-88 | from index 0 with the timer running, three round trips write exactly the probes tagged 0, 1, 2; the fourth fire writes nothing and suspends the timer |
| `EngineModel.ConnectAndProbeScenario` | GCDSocketEngine.swift:59-133 | connecting to 127.0.0.1:9000 with heartbeat testing on yields one success report, then reports for probes 0, 1 and 2, and the timer stops after the fourth fire |
| `EngineModel.RefusedConnectScenario` | GCDSocketEngine.swift:112-122 | a refused connect (code 61) yields one connect command, exactly one failure report with the endpoint and code 61, and the disconnected status |
| `SocketEngine.GCDSocketEngine.constructor` | GCDSocketEngine.swift:45-57 | disconnected, index 0, connect timeout and heartbeat interval 5, start time 0, timer not running, default endpoint 127.0.0.1:80, empty logs |
| `SocketEngine.GCDSocketEngine.ConnectToServer` | GCDSocketEngine.swift:59-77 | the fields and logs become exactly those of `EngineModel.ConnectToServer`, and the probe-log invariant is kept |
| `SocketEngine.GCDSocketEngine.SendHeartBeatRequest` | GCDSocketEngine.swift:79-88 | the fields and logs become exactly those of `EngineModel.SendHeartBeatRequest`, and the probe-log invariant is kept through the new write |
| `SocketEngine.GCDSocketEngine.DisconnectToServer` | GCDSocketEngine.swift:90-97 | the fields and logs become exactly those of `EngineModel.DisconnectToServer`, and the invariant is kept |
| `SocketEngine.GCDSocketEngine.DidConnectToHost` | GCDSocketEngine.swift:103-110 | the fields and logs become exactly those of `EngineModel.DidConnectToHost`, and the invariant is kept |
| `SocketEngine.GCDSocketEngine.SocketDidDisconnect` | GCDSocketEngine.swift:112-122 | the fields and logs become exactly those of `EngineModel.SocketDidDisconnect`, and the invariant is kept |
| `SocketEngine.GCDSocketEngine.DidWriteData` | GCDSocketEngine.swift:124-127 | the fields and logs become exactly those of `EngineModel.DidWriteData`, and the invariant is kept |
| `SocketEngine.GCDSocketEngine.DidReadData` | GCDSocketEngine.swift:129-133 | the fields and logs become exactly those of `EngineModel.DidReadData`, and the invariant is kept as the index grows |

## Left out

- Concurrency is not modelled. The serial `barrierQueue`, the separate socket callback queue and the unsynchronised write of `status` in `disconnectToServer` are left out. Every entry point is one atomic step, and the asynchronous hop inside `connectToServer` is part of that step.
- GCDAsyncSocket and CustomTimer are not part of this model. They appear only as the ghost command log and the `timerRunning` flag. Timer intervals, the delay before the first fire, and what the socket does with a write while not connected are not modelled.
- Clocks are integers, not floating point. `CFAbsoluteTimeGetCurrent` becomes an integer millisecond parameter, and latency is `now - start`. The `* 1000` conversion and its truncation to `Int` are not modelled. Latency is not claimed to be non-negative, because the source's clock is not monotonic.
- The probe's UTF-8 encoding is not modelled: the payload is kept as text, which is ASCII. The write and read timeout of -1 is recorded as `NoTimeout`.
- `(error as NSError).code` is modelled as the error arriving as its integer code.
- Logging (`print`), UIKit and the `static let shared` singleton are left out.
- The weak `delegate` is a flag: `delegateAttached`. A nil delegate means no notification is recorded.
- The out-of-range trap of `UInt16(socketPort)` is modelled only as a precondition: the port must fit in 0..65535 when the connect guard is passed. Trace events carry ports of that range.
- Caller assignments to the public fields `heartBeatIndex`, `testHeartBeat` and `delegate` are not events. The trace lemmas (`IndexCountsReads`, `ProbesWellFormed`, `WriteTagsNeverDecrease`, `ExhaustedSessionNeverProbes`, `NoProbeWhileSuspended`) hold for the events between two such assignments, with the assigned values as the start state. A caller resetting `heartBeatIndex` to 0 starts a new session whose write tags begin again at 0.
- NoProbeWhileSuspended and NoProbeAfterDisconnect: a direct call to the public `sendHeartBeatRequest` is not a trace event; the only event that reaches it is `TimerFire`, which a suspended timer ignores. Such a direct call writes a probe whenever the index is below 3, whatever the timer and status, and the class method `SendHeartBeatRequest` is unguarded, as in the source. The two lemmas say nothing about direct calls.
- `heartBeatIndex` is a `nat`. A negative value assigned by a caller, and `Int` overflow, are not modelled.
- SimpleDownloadEngine.swift is not part of this model. It is a URLSession download with file-size lookup and floating-point timing: I/O plumbing with no logic to prove.
- Traceroute/TracerouteTool.h, Traceroute/NetTraceRouteICMP.h and NetPing/NetPing.h are not part of this model. They hold declarations only (ICMP header layout, type constants, a checksum signature), so any model would be invented behaviour.
