# eVodnik proxy: a verified model

The eVodnik integration sits between a water controller and its vendor's server. It forwards
their TCP traffic, adds its own status reads and valve commands to it, keeps a meter reading,
and mirrors what it knows to Home Assistant and MQTT. This project models that core in Dafny
and proves what the integration is for.

| part | files | program |
|---|---|---|
| wire codec and check sequence | `Bits`, `Crc`, `Period`, `Protocol`, `Envelope`, `Distance`, `Framing` | `protocol.py` |
| partial-frame deadline | `Stream` | `read_stream` in `proxy.py` |
| sessions and transactions | `ProxyModel`, `ProxyObjects`, and the proofs `ProxyInvariant`, `ProxySafety`, `ProxyProgress`, `ProxyState`, `ProxyBalance`, `ProxyTheorems`, `ProxyBounds`, `ProxyCallers`, `ProxyService`, `ProxyLaws`, `ProxyExactly`, `ProxyChanges`, `ProxyStages`, `ProxySigns`, `ProxyRuns` | `proxy.py` |
| polling in real time | `Polling` | `_poll` in `proxy.py` |
| topic registry | `RegistryModel`, `RegistryObjects`, `RegistryTheorems`, `RegistryReports`, `RegistryLaws` | `mqtt_discovery.py`, `_publish_discovery` in `mqtt.py` |
| meter, freshness, publisher | `Meter`, `HomeModel`, `HomeObjects`, `HomeTheorems`, `HomeCommands`, `HomeLaws` | `meter.py`, `runtime.py`, `mqtt.py` |

## How the model is built

**The proxy is a state machine.** One `Step` is what a coroutine does between two awaits. The
device reader, the worker, the cloud loop and the poller of every session, the callers, new
device connections, `stop` and the clock take turns in any order; what the outside world does
(a frame, a lost connection, a timeout, a cancellation) is a step that may come at any time.
Retired sessions stay in the state and their tasks may still run. `history`, `requests`,
`observedAt`, `offered`, `back` and `failed` only record what happened. A run starts from a new
proxy and takes enabled steps; the main theorems hold in every state of every run. The device
history lists writes and accepted answers in order, each write with the request it serves.

`SessionObject` and `ProxyObject` have the program's fields and update them in place. Each of
their methods is proved to change the abstract state exactly as the machine's step does.
`ReadStream`, `Parser`, `Crc16`, `DecodeWire` and `EncodeFields` are the program's loops, proved
against functions that know no loop state.

**The registry** runs against a disk that is written atomically and a broker that retains
messages. Home Assistant may crash before any step. An empty publish may take effect and still
raise. Each stretch of `DiscoveryRegistry` between two awaits is proved to be a step of the
machine; its whole calls are proved to be runs of it.

**The home machine** takes the proxy's own steps and adds the meter, `set_meter_reading` and
the publisher, so that its theorems are about the same sessions and histories. A publish is
sent when it is called, or raises.

**Exact laws.** Invariants say what never happens. `Envelope`, `ProxyLaws`, `ProxyExactly`,
`ProxyChanges`, `ProxyStages`, `HomeLaws` and `RegistryLaws` say what does: when a vendor frame is
taken, a call returns, a frame is written, an answer accepted, the state changed or a message
published, in both directions, and in bytes, fields and steps rather than in the functions of the
model.

**Times.** The clock never goes back. The home machine counts microseconds; the polling model and
the stream reader use real numbers. Data that is already there when a read begins is delivered
even after the deadline: whether it is there is an input of `ReadStream`.

## Where the code and its own description differ

* The registry describes itself as persisting ownership before publication. The code does so for
  discovery topics (`SavedBeforePublished`). State and availability topics are published first
  and registered afterwards, after a start even before the registry is loaded
  (`ReportsAreNotWrittenAhead`). `ReportSafetyIsExact` says when such a
  report can be lost: exactly when its topic is not yet on disk, or a removal of it is under way. Before the registry
  is loaded, being on disk is all there is to ask.
  A publisher that registered first would never lose one (`RegisteredReportsAreSafe`).
* A caller can be left waiting for ever exactly if the session's task is not running when it
  calls: not yet started, or cancelled before it started (`CallersAreStrandedExactly`,
  `ReplacedBeforeItsFirstStep`, `StrandedForEver`).
* A retired worker can still blank the shared valve: `RetiredWorkerBlanks` is a run in which it
  blanks the position of its successor, `RetiredBlankExactly` the exact condition.
* `feed` drops the frames it had completed when a later byte of the same chunk raises
  (`RaisingLosesOneChunk`).
* Two entries that list the same topic break the registry. Two enabled entries may not share a
  prefix, so this takes an old registration that still stands: when an entry was given another
  prefix and a second entry takes over the old one before the first has registered again, the
  first clears what the second owns (`SharedTopicIsCleared`; the exact condition is in
  `RegisterKeepsOwners`).
* The freshness bounds of the poller need a first poll that is not too late
  (`FreshnessIsBounded` has the exact condition; the defaults satisfy it).

## Model

Paths are relative to the repository.

| member | source | states |
|---|---|---|
| Crc.Crc16 | custom_components/evodnik/protocol.py:18-25 | the byte and bit loops compute the frame check sequence `Fcs` |
| Crc.FcsIsSerialDivision | custom_components/evodnik/protocol.py:18-25 | that value is the complement of the bit-serial polynomial division of the message, least significant bit first (the FCS of appendix C of RFC 1662) |
| Crc.BurstChangesFcs | custom_components/evodnik/protocol.py:18-25 | two messages that differ only inside one window of 16 consecutive bits never have the same check value |
| Crc.CheckedBodyIsEven | custom_components/evodnik/protocol.py:18-25 | a message followed by its own check value has an even number of 1 bits |
| Envelope.CheckVector | custom_components/evodnik/protocol.py:18-25 | the nine digits 1 to 9 have the check value 0x906E, that of CRC-16/X-25 |
| Protocol.DecodeWire | custom_components/evodnik/protocol.py:63-91 | the unescaping loop with its early exits returns the same frame or error as `Decode`, for every byte string |
| Protocol.EncodeFields | custom_components/evodnik/protocol.py:94-108 | the escaping loop returns the same frame or error as `Encode` |
| Envelope.DecodesExactly | custom_components/evodnik/protocol.py:63-91 | a frame is decoded if and only if the wire is at most 4096 bytes between 0xC0 and 0xC1, its inside is some stuffing of a body of at least 10 bytes (0x7D before a byte with bit 5 flipped), the check value is the last two bytes, big endian, and the fields are those at their offsets |
| Envelope.EncodedBytes | custom_components/evodnik/protocol.py:98-107 | every byte of an encoded body: fields at their offsets, address and check value big endian, between the two delimiters |
| Envelope.EscapedBytes | custom_components/evodnik/protocol.py:102-106 | exactly three bytes are escaped, as 7D E0, 7D E1 and 7D 5D |
| Protocol.EncodeInverts | custom_components/evodnik/protocol.py:63-108 | encoding succeeds exactly when the wire fits 4096 bytes, and decoding that wire gives the fields back |
| Protocol.ReencodeIsShortest | custom_components/evodnik/protocol.py:63-108 | re-encoding any accepted wire, non-canonical escapes included, gives a wire with the same fields that is never longer |
| Protocol.DecodedBodyIsEven | custom_components/evodnik/protocol.py:79-82 | every accepted body, check value included, has an even number of 1 bits |
| Protocol.OddFlipsAreRejected | custom_components/evodnik/protocol.py:79-82 | any odd number of flipped bits in the body of an accepted wire is rejected |
| Protocol.BurstIsRejected | custom_components/evodnik/protocol.py:79-82 | any nonempty burst of at most 16 bits in header and payload is rejected |
| Period.NoEarlyReturn | custom_components/evodnik/protocol.py:22-24 | a register of the division started at 1 does not return to 1 within 32766 steps |
| Distance.FewFlipsAreRejected | custom_components/evodnik/protocol.py:63-91 | one, two or three flipped bits anywhere in the body of an accepted wire, check value included, are rejected |
| Protocol.StatusReadYieldsValues | custom_components/evodnik/protocol.py:111-112 | every response that matches a status read reports a status, without counter |
| Protocol.SnapshotReadYieldsCounter | custom_components/evodnik/protocol.py:115-116 | every response that matches a snapshot read reports a status and a counter; `ReportedBytes` says which bytes they are |
| Envelope.ReportedBytes | custom_components/evodnik/protocol.py:124-136 | a status is reported by exactly two shapes of frame: the position is byte 13 of the 16-byte report and byte 45 of the 128-byte snapshot, 0xC7 open and 0xC8 closed, and the counter of the snapshot is its bytes 48 to 51, least significant first |
| Envelope.LocalRequests | custom_components/evodnik/protocol.py:111-121 | the three local requests, field by field, and that their wires decode to them |
| Envelope.CommandBytes | custom_components/evodnik/protocol.py:40-44 | a frame is a valve command if and only if it has opcode 0x20, address 0x1A and the two bytes 00 C7 (open) or 00 C8 (closed) |
| Envelope.MatchedFields | custom_components/evodnik/protocol.py:46-59 | a frame that matches a request has swapped endpoints and its opcode and, for an empty read, its address and length |
| Envelope.EndpointsSuffice | custom_components/evodnik/protocol.py:46-60 | and that is enough |
| Envelope.OneTagOnly | custom_components/evodnik/protocol.py:46-53 | a frame that matches two requests matches the same tag, address and opcode: never two local requests with different tags |
| Protocol.CommandFrameCommands | custom_components/evodnik/protocol.py:119-121 | the frame built for a valve position is recognised as the command for that position |
| Framing.Parser.FeedChunk | custom_components/evodnik/protocol.py:150-170 | `feed` returns the frames and leaves the buffer that `Feed` gives, or raises its error |
| Framing.Parser.Finish | custom_components/evodnik/protocol.py:172-174 | the end of the stream is an error exactly inside a frame |
| Framing.FeedAppend | custom_components/evodnik/protocol.py:150-170 | feeding two chunks is feeding their concatenation, byte positions of errors included |
| Framing.ChunkingIsInvisible | custom_components/evodnik/protocol.py:139-170 | every chunking of a stream gives the same frames and parser state, and raises at the same byte or not at all |
| Framing.RaisingLosesOneChunk | custom_components/evodnik/protocol.py:150-170 | a raising stream has delivered exactly the frames of the chunks before the raising one |
| Framing.BytesAreConserved | custom_components/evodnik/protocol.py:146-170 | the wires of the frames followed by the buffer are exactly the bytes fed; the buffer stays within 4096 bytes; every frame decodes from its own wire |
| Framing.CompletionRestarts | custom_components/evodnik/protocol.py:150-170 | a chunk that completes a frame carries the first byte of whatever is still partial; otherwise it only extends the buffer |
| Framing.ConcatenatedWires | custom_components/evodnik/protocol.py:139-170 | accepted wires one after the other parse to exactly their frames with nothing pending |
| Framing.EncodedStreamRoundTrip | custom_components/evodnik/protocol.py:94-170 | encoded messages, concatenated and cut anywhere, come back with their fields |
| Framing.ParserRefinesSplitter | custom_components/evodnik/protocol.py:139-170 | the incremental parser agrees with a batch splitter that searches unescaped delimiters, on every byte string |
| Stream.ReadStream | custom_components/evodnik/proxy.py:97-113 | the deadline in force during every read is the one `DeadlineAt` derives from the bytes alone; a read is cut off exactly when its deadline passes before its data is there; which way the stream ends; which frames were yielded |
| Stream.DeadlineIsNotExtended | custom_components/evodnik/proxy.py:107-111 | bytes that complete no frame leave the deadline of the partial frame where it was |
| Stream.DeadlineIsRenewed | custom_components/evodnik/proxy.py:107-111 | a partial frame that began in the newest chunk has that chunk's arrival plus the timeout as its deadline |
| ProxyObjects.ProxyObject.AcceptDevice | custom_components/evodnik/proxy.py:176-203 | `_accept` changes the whole state as the machine's step: nothing while closing, else retire, blank and install |
| ProxyObjects.ProxyObject.Call | custom_components/evodnik/proxy.py:223-241 | `set_valve` and `refresh` up to their await: DeviceUnavailable without a current session and nothing changes, else a queued request or QueueFull |
| ProxyObjects.ProxyObject.SubmitLocal | custom_components/evodnik/proxy.py:208-221 | a fresh tag; then DeviceUnavailable for a session that is not current, QueueFull for a full queue, else the request is queued with a pending waiter |
| ProxyObjects.ProxyObject.ReceiveFrame | custom_components/evodnik/proxy.py:291-299 | the reader resolves the one pending answer or ends |
| ProxyObjects.ProxyObject.TakeRequest | custom_components/evodnik/proxy.py:333-346 | the worker's path from the queue to the device write, with every reason to skip or fail |
| ProxyObjects.ProxyObject.FinishExchange | custom_components/evodnik/proxy.py:312-351 | the worker's path from the answer to the vendor write or to its next await |
| ProxyObjects.ProxyObject.FinishForward | custom_components/evodnik/proxy.py:347-365 | what follows the vendor write, whether it drained or closed that connection |
| ProxyObjects.ProxyObject.Observe | custom_components/evodnik/proxy.py:320-331 | an answer updates connection, valve, counter and their times |
| ProxyObjects.ProxyObject.EnqueueCloud | custom_components/evodnik/proxy.py:367-375 | a vendor frame is queued, or dropped and counted; a full queue closes only the vendor connection |
| ProxyObjects.ProxyObject.AttachCloud | custom_components/evodnik/proxy.py:381-390 | a new vendor connection is adopted only by the current session |
| ProxyObjects.ProxyObject.DetachCloud | custom_components/evodnik/proxy.py:396-403 | a closed vendor connection is forgotten and, by the current session, reported |
| ProxyObjects.ProxyObject.EndSession | custom_components/evodnik/proxy.py:253-289 | the session's cleanup: report, blank, drop, reject |
| ProxyObjects.SessionObject.RejectRequests | custom_components/evodnik/proxy.py:275-285 | the two draining loops reject exactly the waiters still waiting and count exactly the vendor requests left |
| ProxyObjects.ProxyObject.StopListening | custom_components/evodnik/proxy.py:154-163 | `stop` cancels exactly the session tasks that are not over, those still closing their writers included, and waits for those |
| ProxyObjects.ProxyObject.StopFinished | custom_components/evodnik/proxy.py:167-174 | after its wait `stop` forgets the session and blanks the state |
| ProxyTheorems.StepKeepsInv | custom_components/evodnik/proxy.py:176-427 | every step of every task keeps the invariant of the whole proxy |
| ProxyTheorems.ExclusiveTransactions | custom_components/evodnik/proxy.py:291-318 | in every run, each session's writes and accepted answers alternate strictly and the k-th answer matches the k-th write: its endpoints are those of the write, swapped, its opcode the same, and an empty read is answered with its own address and length |
| ProxyTheorems.AnswersReachTheirOriginator | custom_components/evodnik/proxy.py:333-360 | a local caller gets the answer to its own write (the confirming read for a valve command), at one single position of the history |
| ProxyTheorems.ExtraFrameEndsTheReader | custom_components/evodnik/proxy.py:291-298 | a frame with no write waiting for it, or not matching it, ends the reader and is not used |
| ProxyTheorems.NoAnswerAfterTheReader | custom_components/evodnik/proxy.py:291-299 | after its reader has ended a session accepts no answer and makes at most one more write, in any continuation of the run |
| ProxyCallers.SessionsCanEnd | custom_components/evodnik/proxy.py:243-289 | from every state of a running session, one whose reader has ended included, at most six of its own failing steps lead to its cleanup |
| ProxyTheorems.RunGrows | custom_components/evodnik/proxy.py:176-365 | along every run the logs of a session only grow and ended tasks stay ended |
| ProxyTheorems.AtMostOneWrite | custom_components/evodnik/proxy.py:333-346 | over all sessions a request is written at most once, in its own frame and in the session it was submitted to |
| ProxyTheorems.RetirementIsFinal | custom_components/evodnik/proxy.py:176-206 | a session that was replaced, or is no longer alive, is not the current one in any later state of the run |
| ProxyTheorems.DoomedRequestsAreNeverWritten | custom_components/evodnik/proxy.py:333-346 | a request not yet written when its caller cancels, its vendor connection is replaced or its session is retired is never written |
| ProxyTheorems.TransparentForwarding | custom_components/evodnik/proxy.py:333-375 | for every vendor connection, the frames written to the device are a prefix of those enqueued from it, and those written back a prefix of the device's answers to them, wires included; nothing local is among them; while connection and worker are up, what is not yet written is exactly what is queued and every observed answer was written back |
| ProxyLaws.OfferedIsGot | custom_components/evodnik/proxy.py:367-375 | the frames enqueued from a connection are, in every state, exactly the vendor frames that came while the session was current, the connection its own and open, and the queue not full; read off the steps alone |
| ProxyLaws.VendorFramesAreForwarded | custom_components/evodnik/proxy.py:333-375 | transparent forwarding against those frames, with nothing missing while connection and worker are up |
| ProxyLaws.DropsExactly | custom_components/evodnik/proxy.py:272-285 | every step raises the drop counter by exactly the vendor frames it does not take, the queued ones whose connection is gone, and those a session leaves behind |
| ProxyRuns.VendorIsAnswered | custom_components/evodnik/proxy.py:333-375 | a whole run in which a vendor frame reaches the device and its answer the vendor, and nothing is dropped |
| ProxyTheorems.AnswersMatchWrites | custom_components/evodnik/proxy.py:346-351 | among the observed exchanges the vendor's answers match its writes one by one |
| ProxyTheorems.WaitersResolveOnce | custom_components/evodnik/proxy.py:213-221 | every accepted local request is queued, active or completed, completed at most once, and not pending after its session's cleanup |
| ProxyTheorems.CompletionIsFinal | custom_components/evodnik/proxy.py:281-285 | a completed future keeps its result in every later state |
| ProxyCallers.CallersAreStrandedExactly | custom_components/evodnik/proxy.py:213-241 | in every reachable state, a call whose request is queued has a continuation that ends its session and leaves it waiting if and only if the session task is not running when the call is made |
| ProxyCallers.StartedSessionsStrandNobody | custom_components/evodnik/proxy.py:243-289 | once a session task has taken its first step, its end leaves no caller waiting, early or late |
| ProxyCallers.StrandedForEver | custom_components/evodnik/proxy.py:213-221 | a caller left by a session that never started waits in every later state, unless it cancels itself |
| ProxyTheorems.EndedSessionsStrandNobody | custom_components/evodnik/proxy.py:243-289 | a caller still waiting when a session is over belongs to a session that never started, and its request is still queued there |
| ProxyTheorems.ReplacedBeforeItsFirstStep | custom_components/evodnik/proxy.py:180-203 | a run in which a caller is left waiting by a session replaced before its first step |
| ProxyTheorems.ConfirmedWrites | custom_components/evodnik/proxy.py:223-234 | when `set_valve` returns, the history has four events in a row: command, empty acknowledgment, status read, and a matching response that reports the position |
| ProxyExactly.OutcomesExactly | custom_components/evodnik/proxy.py:221-241 | over all runs: a call returns normally if and only if its answer came and, for `set_valve`, the session is still current and the answer's position byte is the one asked for; not confirmed, unavailable and cancelled each if and only if as well |
| ProxyExactly.FuturesExactly | custom_components/evodnik/proxy.py:272-285 | a waiting future is cancelled by its caller, resolved by the answer to its own request (the confirming one for a command), rejected by the cleanup of a session that still holds it, and touched by nothing else |
| ProxyExactly.CallsExactly | custom_components/evodnik/proxy.py:208-241 | a call is accepted exactly by a current session: the next of 64 tags, the request's bytes, appended with a waiter if there is room, refused otherwise with nothing else changed |
| ProxyRuns.SetValveReturns | custom_components/evodnik/proxy.py:223-234 | a whole run in which `set_valve` returns: command, acknowledgment, confirming read, its report |
| ProxyChanges.EventsExactly | custom_components/evodnik/proxy.py:291-360 | a frame is written to the device exactly when a wanted request is dequeued by a current session or a command was acknowledged empty, and an answer is accepted exactly when it answers the write that waits |
| ProxyStages.WorkerExactly | custom_components/evodnik/proxy.py:333-365 | where the worker is after every step, with each condition for waiting, forwarding, confirming and ending |
| ProxyStages.CallersAreFree | custom_components/evodnik/proxy.py:146-241 | devices, `stop` and time come at any time; a caller may cancel while it is known and goes on exactly once its future is done |
| ProxyStages.WorldIsFree | custom_components/evodnik/proxy.py:291-299 | in a running session any frame, end or failure may come next exactly while its task waits for it, and cleanup exactly when its four tasks are over |
| ProxyStages.VendorIsFree | custom_components/evodnik/proxy.py:377-403 | the same for the vendor connection |
| ProxyStages.TasksExactly | custom_components/evodnik/proxy.py:176-206 | where reader, poller, vendor loop and session task are after every step |
| ProxyChanges.StartAndTickExactly | custom_components/evodnik/proxy.py:146-152 | starting again only opens the proxy to devices, and time only passes |
| ProxyChanges.StopExactly | custom_components/evodnik/proxy.py:154-163 | `stop` closes the proxy, cancels exactly the session tasks that are not over, and waits for those |
| ProxyChanges.AcceptExactly | custom_components/evodnik/proxy.py:176-203 | a new device gets a fresh session and retires only the current one; while closing, nothing changes |
| ProxyChanges.StopEndsExactly | custom_components/evodnik/proxy.py:160-174 | `stop` ends if and only if every task it waits for is over, and then forgets the session and blanks five fields of the state |
| ProxyChanges.ClosesExactly | custom_components/evodnik/proxy.py:180-188 | the exact steps that close a vendor connection: replacement, cleanup, its own end, a full queue, a failed write back |
| ProxyTheorems.ConnectionIsEvidence | custom_components/evodnik/proxy.py:320-331 | the device counts as connected exactly when the current session has observed an answer |
| ProxyTheorems.VisibleValveIsReported | custom_components/evodnik/proxy.py:320-331 | a visible valve position is that of the position byte of the newest report the current session accepted, with its time; no later answer was a report |
| ProxyTheorems.VisibleTotalIsCounted | custom_components/evodnik/proxy.py:320-331 | a visible counter has the four bytes of the newest snapshot the current session accepted, with its time; no later answer was a snapshot |
| ProxyTheorems.UnconfirmedValveIsHidden | custom_components/evodnik/proxy.py:344-358 | from the write of a valve command until its confirming status is observed no position is visible |
| ProxyChanges.StateExactly | custom_components/evodnik/proxy.py:320-331 | the shared state after every step, field by field and with the bytes of the observed answer; steps not listed change nothing |
| ProxySigns.SignsAreTrue | custom_components/evodnik/proxy.py:389-403 | in every run: no error and the time of its last answer are shown of a current session, and the vendor is shown connected while the session has a connection not yet forgotten, and not while it has none |
| ProxyTheorems.RetiredSessionsOnlyBlank | custom_components/evodnik/proxy.py:253-271 | a step of a retired session can change the state only by blanking the valve, or by the cleanup of a session that is still the proxy's |
| ProxyCallers.RetiredBlankExactly | custom_components/evodnik/proxy.py:333-346 | a step of a session that is not the proxy's changes the shared state if and only if its worker dequeues a valve command that is still wanted while a position is visible; it then blanks that position and nothing else |
| ProxyCallers.RetiredWorkerBlanks | custom_components/evodnik/proxy.py:344-345 | a run in which the worker of a replaced session blanks the position its successor reported |
| ProxyTheorems.VendorFramesAreConserved | custom_components/evodnik/proxy.py:272-285 | frames offered by vendors equal those dropped, queued, in flight, exchanged or failed in flight, and at most one failed in flight per session |
| ProxyTheorems.WorkerIsNeverBlocked | custom_components/evodnik/proxy.py:301-365 | the conditions under which the machine lets a worker go on always hold where the program goes on |
| ProxyService.HeadCanBeServed | custom_components/evodnik/proxy.py:333-365 | in every reachable state of a current, running session, the wanted request at the head of its queue has a continuation that writes it to the device if and only if the worker has not ended, waits for no answer that nobody reads, and holds no answer to a valve command that is not an empty acknowledgment or cannot be confirmed |
| ProxyService.CanServe | custom_components/evodnik/proxy.py:333-365 | that continuation takes at most seven steps |
| ProxyBounds.QueuesAreBounded | custom_components/evodnik/proxy.py:213-221 | with a positive queue limit no session's queue is ever longer than it |
| ProxyBounds.DeadSessionsAreDetached | custom_components/evodnik/proxy.py:180-188 | a session that was replaced or has ended has no open vendor connection, and never gets one |
| Polling.FreshnessIsBounded | custom_components/evodnik/proxy.py:407-427 | after the first snapshot the status is always younger than 2 intervals plus the latency, and the counter younger than the snapshot interval, one interval and 2 latencies, if and only if the first poll is early enough |
| Polling.LateFirstPoll | custom_components/evodnik/proxy.py:407-421 | a run that breaks a bound for every configuration whose first poll is too late |
| Polling.StatusBoundIsTight | custom_components/evodnik/proxy.py:412-427 | no smaller status bound holds, provided the snapshot interval is at least one polling interval |
| Polling.CounterBoundIsTight | custom_components/evodnik/proxy.py:412-427 | no smaller counter bound holds, provided the snapshot interval is longer than one polling interval |
| Polling.DefaultsNeverExpire | custom_components/evodnik/proxy.py:37-39 | with the default intervals and answers within 30 s the limits of 120 s and 600 s are never reached |
| RegistryModel.Sorted | custom_components/evodnik/mqtt_discovery.py:95 | the removal order: each pending topic once, in character order |
| RegistryTheorems.StepKeepsInv | custom_components/evodnik/mqtt_discovery.py:45-103 | loading, registering, flushing, announcing and crashing keep the registry's invariant |
| RegistryTheorems.CrashSafeOwnership | custom_components/evodnik/mqtt_discovery.py:74-103 | at every point of every run, each discovery topic retained on the broker is on disk, owned or pending |
| RegistryTheorems.SavedBeforePublished | custom_components/evodnik/mqtt.py:199-219 | when a discovery message goes out the saved data already list its topic for that entry |
| RegistryTheorems.NothingIsForgotten | custom_components/evodnik/mqtt_discovery.py:74-103 | every registered topic stays owned, pending or cleared, on disk and in memory |
| RegistryTheorems.ReportsAreNotWrittenAhead | custom_components/evodnik/mqtt.py:302-304 | a run in which the first report after a start and a crash leave a retained state topic that the disk does not know |
| RegistryReports.SafeReportsAreCovered | custom_components/evodnik/mqtt.py:302-304 | if every report of a run is sent when its topic is covered on disk and, once loaded, in memory, and no removal is about to forget it, every retained report is covered on disk in every later state |
| RegistryReports.ReportSafetyIsExact | custom_components/evodnik/mqtt.py:302-304 | in every reachable state, loaded or not, a report is covered on disk through every continuation, crashes included, if and only if it is sent in such a safe state |
| RegistryReports.RegisteredReportsAreSafe | custom_components/evodnik/mqtt.py:199-212 | a topic that the entry has registered, and whose save is not awaited, is safe to report |
| RegistryLaws.AdoptsExactly | custom_components/evodnik/mqtt_discovery.py:50-56 | loading keeps the lists of entries with MQTT enabled and makes pending exactly the topics of all others |
| RegistryLaws.RegistersExactly | custom_components/evodnik/mqtt_discovery.py:77-85 | registering replaces one list; pending are exactly the topics pending or listed before that the new list does not name |
| RegistryLaws.RegistrationTakesEffect | custom_components/evodnik/mqtt_discovery.py:76-88 | a whole `set_topics`: memory and disk hold the new list, exactly its discovery topics may be announced, and a list in force is not written again |
| RegistryLaws.AuthorityExactly | custom_components/evodnik/mqtt.py:199-217 | an entry may announce a topic from its saved registration on until it is revoked, a new list is registered or Home Assistant crashes |
| RegistryLaws.TopicsAreKnown | custom_components/evodnik/mqtt_discovery.py:74-103 | in every run, what the broker retains and what counts as registered or cleared is read off the steps: announced and not cleared since, saved, removed and not saved since |
| RegistryLaws.LexicographicOrder | custom_components/evodnik/mqtt_discovery.py:95 | the removal order compares topics at the first character in which they differ |
| RegistryTheorems.AdoptCovers | custom_components/evodnik/mqtt_discovery.py:49-56 | loading covers exactly the topics the disk covers, whatever entries are gone |
| RegistryTheorems.RegisterCovers | custom_components/evodnik/mqtt_discovery.py:77-85 | registering covers what was covered and the listed topics, and no others |
| RegistryTheorems.FlushKeepsTheRest | custom_components/evodnik/mqtt_discovery.py:90-103 | an interrupted flush keeps exactly the tail of the sorted list it did not complete; the broker lost a prefix at most one longer; owners are untouched |
| RegistryTheorems.RestartCleansUp | custom_components/evodnik/mqtt_discovery.py:45-103 | after a crash at any point, loading and one connected, unfailing flush leave only discovery topics that an entry with MQTT enabled owns, nothing pending |
| RegistryTheorems.ExhaustedFlushLeavesNoOrphan | custom_components/evodnik/mqtt_discovery.py:95-100 | the same when publishers work meanwhile: once a flush is through its list every retained discovery topic is owned |
| RegistryTheorems.RegisterKeepsOwners | custom_components/evodnik/mqtt_discovery.py:77-85 | registering makes an owned topic pending if and only if it drops a topic that another entry lists |
| RegistryTheorems.AdoptKeepsOwners | custom_components/evodnik/mqtt_discovery.py:52-56 | loading does so if and only if a dropped entry shares a topic with a kept one |
| RegistryTheorems.OwnedTopicsAreNeverCleared | custom_components/evodnik/mqtt_discovery.py:94-100 | while registered lists are disjoint no reachable state has a topic owned and pending, in memory or on disk, and no empty message goes to an owned topic |
| RegistryTheorems.SharedTopicIsCleared | custom_components/evodnik/mqtt_discovery.py:77-98 | a run in which an entry takes over a topic while another still has it registered, and the other's next registration is about to clear it |
| RegistryObjects.DiscoveryRegistry.Load | custom_components/evodnik/mqtt_discovery.py:45-57 | `load` reads the disk once and gives up the topics of entries that are gone or switched off |
| RegistryObjects.DiscoveryRegistry.BeginSet | custom_components/evodnik/mqtt_discovery.py:76-86 | `set_topics` up to its save, or to its end if the list is not new |
| RegistryObjects.DiscoveryRegistry.EndSet | custom_components/evodnik/mqtt_discovery.py:86-87 | the save of `set_topics` returns: the disk has the data and the publisher may announce |
| RegistryObjects.DiscoveryRegistry.Check | custom_components/evodnik/mqtt_discovery.py:95-97 | the head of the removal loop: the next topic, or the end |
| RegistryObjects.DiscoveryRegistry.Published | custom_components/evodnik/mqtt_discovery.py:98-103 | a removal that returns leaves `pending`; one that raises ends the flush and stays |
| RegistryObjects.DiscoveryRegistry.Saved | custom_components/evodnik/mqtt_discovery.py:100 | the save after a removal returns and the loop goes on |
| RegistryObjects.DiscoveryRegistry.SetTopics | custom_components/evodnik/mqtt_discovery.py:74-88 | a whole call of `set_topics` in which nothing else acts is a run of the machine: nothing if the list is unchanged, else mutate, save and flush |
| RegistryObjects.DiscoveryRegistry.Flush | custom_components/evodnik/mqtt_discovery.py:90-103 | a whole `flush` in which nothing else acts is a run of the machine for every behaviour of the broker, and leaves the uncompleted tail pending |
| Meter.MeterObject.ObserveRaw | custom_components/evodnik/meter.py:45-52 | `observe` ignores missing and repeated values and turns a decrease into a detected reset |
| Meter.MeterObject.Calibrate | custom_components/evodnik/meter.py:55-58 | `set_reading` installs the new offset and forgets an earlier reset |
| Meter.MeterObject.Load | custom_components/evodnik/meter.py:35-39 | `load` restores what was saved, if anything was |
| Meter.MeterAgreement | custom_components/evodnik/meter.py:45-63 | over every history the meter reads what was entered plus what the counter gained since, until the first decrease; then nothing and `counter_reset` until recalibrated |
| Meter.DuplicatesAddNothing | custom_components/evodnik/meter.py:46-47 | observing the last value again changes nothing |
| Meter.IncreaseTelescopes | custom_components/evodnik/meter.py:60-63 | without a decrease the gains add up to the last value minus the first |
| HomeObjects.RuntimeObject.MakePayload | custom_components/evodnik/mqtt.py:230-255 | the payload computed from the objects is the payload of the machine |
| HomeObjects.RuntimeObject.MeterLiters | custom_components/evodnik/runtime.py:56-63 | the meter reading shown is that of the fresh counter |
| HomeObjects.RuntimeObject.Valve | custom_components/evodnik/runtime.py:44-54 | the valve position is shown only while connected and at most 120 s old |
| HomeObjects.RuntimeObject.ProxyChanged | custom_components/evodnik/runtime.py:40-42 | a change of the proxy's state shows the fresh counter to the meter |
| HomeObjects.RuntimeObject.StartCalibration | custom_components/evodnik/runtime.py:65-73 | `set_meter_reading` up to its await, with every way to end early |
| HomeObjects.RuntimeObject.FinishCalibration | custom_components/evodnik/runtime.py:74-79 | the visible counter becomes the base and is saved, or nothing changes |
| HomeLaws.CalibrationsBeginExactly | custom_components/evodnik/runtime.py:65-73 | a calibration begins if and only if the reading is not negative, the runtime runs and the session is current; it then submits one snapshot read |
| HomeLaws.CalibrationsEndExactly | custom_components/evodnik/runtime.py:72-79 | it ends in a new, saved reading if and only if its answer came, the runtime still runs and the counter is at most 600 s old; else the meter stays as it is |
| HomeObjects.PublisherObject.OnConnection | custom_components/evodnik/mqtt.py:48-55 | a connection or birth event starts a new generation, asks for a refresh and a rediscovery, and losing MQTT cancels the running command |
| HomeObjects.PublisherObject.OnCommand | custom_components/evodnik/mqtt.py:64-78 | a command is passed on only if the publisher is not stopping, MQTT is connected, the message is not retained and says OPEN or CLOSE, the report is available and no other command runs |
| HomeObjects.PublisherObject.Stop | custom_components/evodnik/mqtt.py:322-333 | `stop` refuses further commands and cancels the running one |
| HomeObjects.PublisherObject.BeginDiscovering | custom_components/evodnik/mqtt.py:199-201 | `_publish_discovery` remembers the generation in which it begins |
| HomeObjects.PublisherObject.EndDiscovering | custom_components/evodnik/mqtt.py:218-219 | only a complete discovery that no event overtook is not done again |
| HomeObjects.PublisherObject.Refresh | custom_components/evodnik/mqtt.py:306-309 | one snapshot is requested after an event |
| HomeObjects.PublisherObject.Start | custom_components/evodnik/mqtt.py:257-268 | `_publish` up to its first await: `offline` first unless the report is available |
| HomeObjects.PublisherObject.Resume | custom_components/evodnik/mqtt.py:262-284 | each later publish of the job, with the second look at generation and payload before `online` |
| HomeTheorems.EveryStepKeepsHomeOk | custom_components/evodnik/runtime.py:39-99 | every step of proxy, runtime, meter and publisher keeps the invariant of the whole |
| HomeTheorems.ReadingAgrees | custom_components/evodnik/runtime.py:39-63 | across reconnections and clean reloads, a reading is shown exactly when the counter is fresh, calibrated and not fallen since, and is the entered value plus the counter's gain up to the visible value |
| HomeTheorems.CalibrationUsesANewCount | custom_components/evodnik/runtime.py:65-79 | the base of a calibration is a count that the proxy had not observed when the call began, from the session of then or a later one |
| HomeTheorems.OnlineMeansEvidence | custom_components/evodnik/mqtt.py:257-284 | every `online` follows an available report of the same `_publish` and generation; at that moment the valve is a report of the current session, at most 120 s old, accepted no earlier than any connect or birth event so far |
| HomeTheorems.NeverOnlineWhileUnavailable | custom_components/evodnik/mqtt.py:260-284 | whatever publishes failed, the last availability is not `online` while the last state report says unavailable |
| HomeLaws.ReportsExactly | custom_components/evodnik/mqtt.py:230-255 | a report is available if and only if there is evidence (connected, a position at most 120 s old and no older than the connection event), and each of its fields is that of state and meter |
| HomeLaws.PublishesExactly | custom_components/evodnik/mqtt.py:257-284 | over all histories: a `_publish` whose messages are all sent sends exactly the report, the bridge and, if available, at last an availability that is online if and only if the generation is still its own and there is evidence at that moment; else `offline` first |
| HomeLaws.FailuresEndTheJob | custom_components/evodnik/mqtt.py:260-284 | a publish that fails sends nothing and ends the job |
| HomeLaws.NothingIsHeldUp | custom_components/evodnik/mqtt.py:286-333 | events, commands and stops come at any time; a job or a discovery begins exactly between two of the publisher's awaits, and any of its waits may end |
| HomeLaws.ConnectionIsKnown | custom_components/evodnik/mqtt.py:47-55 | in every history the connection time is that of the latest event that said up, unless the link was found down since, and a snapshot is due if and only if that event was not served yet |
| HomeCommands.DiscoveryIsRedone | custom_components/evodnik/mqtt.py:199-219 | the publisher holds its discovery for done only if a complete one began after the latest connection or birth event |
| HomeLaws.DiscoveryIsKnown | custom_components/evodnik/mqtt.py:199-219 | and conversely: discovery counts as done if and only if a complete one began and ended after the latest event |
| HomeCommands.CommandsNeedEvidence | custom_components/evodnik/mqtt.py:64-84 | an MQTT command reaches the proxy only on a report of the current session that is at most 120 s old and no older than any connection event, is submitted to that session, and runs alone |
| HomeLaws.CommandsExactly | custom_components/evodnik/mqtt.py:64-84 | an MQTT command is submitted if and only if there is evidence, no other runs and the session is current; otherwise nothing changes |
| HomeLaws.PositionsExactly | custom_components/evodnik/mqtt.py:66-76 | OPEN commands open, CLOSE commands closed, everything else and every retained message nothing |
| HomeLaws.RefreshesExactly | custom_components/evodnik/mqtt.py:306-309 | the snapshot after an event is submitted once, to a current session |
| HomeLaws.RestartsExactly | custom_components/evodnik/runtime.py:81-99 | a clean restart saves the meter and loads the same values, with a new proxy and a publisher that knows no connection |
| HomeLaws.CancelsExactly | custom_components/evodnik/mqtt.py:53-54 | losing MQTT cancels exactly the running command's caller, if it still waits |
| HomeCommands.LostConnectionStopsCommands | custom_components/evodnik/mqtt.py:53-54 | a command still waiting and unwritten when MQTT is lost never reaches the device, whatever happens afterwards |

## Left out

- Sockets, the event loop and transport aborts: a write with its wait for the answer is one await, and timeouts and cancellations are steps that may come at any time.
- ProxyTheorems.ExtraFrameEndsTheReader: that the task group then cancels the session's other tasks is not forced; they may end at any time, and `ProxyCallers.SessionsCanEnd` says that nothing keeps them from it.
- Reconnect backoff, and the poll timer inside the proxy machine, where a poll may come at any time; `Polling` has the timer.
- Polling: the answer is observed and the poller resumes at the same instant, sleeps are exact, and the queue is never full; sessions that end are not followed.
- RegistryTheorems.CrashSafeOwnership: a save that fails or is cancelled without a crash is not modelled, nor are the contents of retained messages; for state and availability topics see `RegistryReports`.
- RegistryObjects.DiscoveryRegistry.SetTopics: a call in which publishers or another flush act between two awaits is a run of the machine through the methods for single stretches, not through this one.
- RegistryObjects.DiscoveryRegistry.Flush: the same.
- The registry's background task and connection listener: a flush may begin at any time.
- HomeObjects.RuntimeObject: sees the proxy through its abstract state; that the proxy's objects have that state is proved in `ProxyObjects`.
- HomeTheorems.ReadingAgrees: a reload is clean, that is, the meter is saved before it is loaded; what a crash loses of a delayed save is not modelled.
- MQTT subscriptions and payload formats: a publish or a connection event may come at any time.
- Home Assistant entities and platforms, diagnostics, configuration forms, translations, logging, packaging: user interface and wrappers.
- Physical valve position and firmware behaviour: the device may answer anything at any time.
