/**
 The proxy as a state machine. One `Step` is what runs between two `await` points of one
 of its coroutines: the four tasks of a session, the callers, the listener and `stop`.
 Any enabled step may come next; reads, writes, timeouts and cancellations of the outside
 world are steps of their own. Fields below the line in a record are observations: no
 step depends on them.
 */
module ProxyModel {
  import opened Base
  import opened Protocol

  /** The source tags of local requests cycle through 64 values. */
  type Tag = t: int | 0x80 <= t < 0xC0 witness 0x80

  /** A future; `Rejected` is the exception DeviceUnavailable. */
  datatype Future = Pending | Resolved(frame: Frame) | Rejected | Cancelled

  datatype Origin = Local | Vendor(cloud: nat)

  /** A queued request. Local requests have a waiter with the same id. */
  datatype Request = Request(id: nat, frame: Frame, origin: Origin)

  datatype Purpose = SetValve(valve: Valve) | Refresh | Poll

  datatype Outcome = Returned | Unavailable | NotConfirmed | CallCancelled

  /** The caller awaiting a local request; `completions` counts how often its future was completed. */
  datatype Waiter = Waiter(purpose: Purpose, future: Future, outcome: Option<Outcome>, completions: nat)

  datatype Cloud = Cloud(
    alive: bool,
    // ----------
    offered: seq<Frame>,    // frames accepted into the queue from this connection
    back: seq<Frame>)       // responses written to this connection

  /** What happened on the device connection. A confirming write is the status read after a valve command. */
  datatype Event = Wrote(request: Request, frame: Frame, confirming: bool) | Answered(frame: Frame)

  datatype InFlight = InFlight(frame: Frame, answer: Future)

  datatype WorkerAt =
    | Checking                                   // at the loop test
    | Dequeuing                                  // awaiting the queue
    | Exchanging(confirming: bool)               // awaiting the write and the answer
    | Forwarding(response: Frame)                // awaiting the vendor connection's drain
    | WorkerDone

  datatype CloudTaskAt = Disconnected | Serving(cloud: nat) | Closing(cloud: nat) | CloudDone

  /** The session task: not yet run, running, cleaned up, or cancelled before its first step. */
  datatype Phase = Created | Running | Cleaned | Skipped

  datatype Session = Session(
    alive: bool,
    cancelled: bool,
    phase: Phase,
    queue: seq<Request>,
    current: Option<InFlight>,
    active: Option<Request>,
    cloud: Option<nat>,
    clouds: map<nat, Cloud>,
    tag: Tag,
    worker: WorkerAt,
    cloudTask: CloudTaskAt,
    readerDone: bool,
    pollDone: bool,
    closed: bool,                  // the cleanup has closed its writers, and the session task is over
    waiters: map<nat, Waiter>,
    // ----------
    requests: map<nat, Request>,   // every request ever accepted into the queue
    history: seq<Event>,
    observedAt: seq<int>,          // when the k-th answer was observed by the worker
    failed: nat)                   // vendor requests that failed in flight

  datatype State = State(
    deviceConnected: bool,
    cloudConnected: bool,
    valve: Option<Valve>,
    valveUpdated: Option<int>,
    totalLiters: Option<nat>,
    lastResponse: Option<int>,
    counterUpdated: Option<int>,
    error: Option<string>)

  datatype Proxy = Proxy(
    limit: nat,
    sessions: seq<Session>,        // every session there has been, retired ones included
    session: Option<nat>,
    closing: bool,
    state: State,
    dropped: nat,
    nextId: nat,
    nextCloud: nat,
    stops: seq<set<nat>>,          // the session tasks each running `stop` waits for
    clock: int,
    // ----------
    offered: nat)                  // frames offered to the queue by vendor connections

  const BLANK := State(false, false, None, None, None, None, None, None)

  function Initial(limit: nat, clock: int): Proxy {
    Proxy(limit, [], None, false, BLANK, 0, 0, 0, [], clock, 0)
  }

  function NewSession(): Session {
    Session(true, false, Created, [], None, None, None, map[], 0x80, Checking, Disconnected, false, false, false, map[],
            map[], [], [], 0)
  }

  // ----- Small helpers of the program -------------------------------------------------

  predicate Has(px: Proxy, s: nat) {
    s < |px.sessions|
  }

  predicate IsCurrent(px: Proxy, s: nat)
    requires Has(px, s)
  {
    !px.closing && px.sessions[s].alive && px.session == Some(s)
  }

  function NextTag(tag: Tag): Tag {
    0x80 + (tag - 0x80 + 1) % 64
  }

  predicate Full(limit: nat, queue: seq<Request>) {
    0 < limit <= |queue|
  }

  predicate Done(future: Future) {
    !future.Pending?
  }

  function Complete(ses: Session, id: nat, future: Future): Session
    requires id in ses.waiters
  {
    var w := ses.waiters[id];
    ses.(waiters := ses.waiters[id := w.(future := future, completions := w.completions + 1)])
  }

  predicate Connected(ses: Session, c: nat) {
    c in ses.clouds && ses.clouds[c].alive && ses.cloud == Some(c)
  }

  function CloseCloud(ses: Session, c: nat): Session {
    if c in ses.clouds then ses.(clouds := ses.clouds[c := ses.clouds[c].(alive := false)]) else ses
  }

  function CloseCurrentCloud(ses: Session): Session {
    if ses.cloud.Some? then CloseCloud(ses, ses.cloud.value) else ses
  }

  function With(px: Proxy, s: nat, ses: Session): Proxy
    requires Has(px, s)
  {
    px.(sessions := px.sessions[s := ses])
  }

  /** The state after losing the device: what `_accept`, cleanup and `stop` all blank. */
  function Blanked(state: State): State {
    state.(deviceConnected := false, cloudConnected := false, valve := None, totalLiters := None, counterUpdated := None)
  }

  // ----- Listener -----------------------------------------------------------------------

  function Retire(ses: Session): Session {
    CloseCurrentCloud(ses).(alive := false, cancelled := true)
  }

  function Accept(px: Proxy): Proxy {
    if px.closing then px
    else
      var sessions :=
        if px.session.Some? && Has(px, px.session.value)
        then px.sessions[px.session.value := Retire(px.sessions[px.session.value])]
        else px.sessions;
      px.(sessions := sessions + [NewSession()],
          session := Some(|px.sessions|),
          state := Blanked(px.state).(lastResponse := None, error := None))
  }

  predicate Unfinished(ses: Session) {
    ses.phase.Created? || ses.phase.Running? || (ses.phase.Cleaned? && !ses.closed)
  }

  function CancelTask(ses: Session): Session {
    if Unfinished(ses) then ses.(cancelled := true) else ses
  }

  function BeginStop(px: Proxy): Proxy {
    px.(closing := true,
        sessions := seq(|px.sessions|, i requires 0 <= i < |px.sessions| => CancelTask(px.sessions[i])),
        stops := px.stops + [set i: nat | i < |px.sessions| && Unfinished(px.sessions[i])])
  }

  function EndStop(px: Proxy, i: nat): Proxy
    requires i < |px.stops|
  {
    px.(session := None, state := Blanked(px.state), stops := px.stops[..i] + px.stops[i + 1..])
  }

  // ----- Callers ------------------------------------------------------------------------

  function RequestFrame(tag: Tag, purpose: Purpose, snapshot: bool): Frame {
    match purpose
    case SetValve(valve) => CommandFrame(tag, valve)
    case Refresh => ReadSnapshot(tag)
    case Poll => if snapshot then ReadSnapshot(tag) else ReadStatus(tag)
  }

  /** `_submit` after a fresh tag; the tag is used up even when the queue is full. */
  function Submit(px: Proxy, s: nat, purpose: Purpose, snapshot: bool): Proxy
    requires Has(px, s)
  {
    var ses := px.sessions[s].(tag := NextTag(px.sessions[s].tag));
    if Full(px.limit, ses.queue) then With(px, s, ses)
    else
      var request := Request(px.nextId, RequestFrame(ses.tag, purpose, snapshot), Local);
      With(px, s, ses.(
        queue := ses.queue + [request],
        requests := ses.requests[request.id := request],
        waiters := ses.waiters[request.id := Waiter(purpose, Pending, None, 0)])).(nextId := px.nextId + 1)
  }

  function CancelWaiter(ses: Session, id: nat): Session
    requires id in ses.waiters
  {
    if Done(ses.waiters[id].future) then ses else Complete(ses, id, Cancelled)
  }

  /** The caller continues once its future is done; only `set_valve` looks at the response. */
  function Verdict(px: Proxy, s: nat, w: Waiter): Outcome
    requires Has(px, s)
  {
    match w.future
    case Cancelled => CallCancelled
    case Resolved(response) =>
      if !w.purpose.SetValve? then Returned
      else if !IsCurrent(px, s) then Unavailable
      else
        var values := StatusValues(response);
        if values == None || values.value.valve != Some(w.purpose.valve) then NotConfirmed else Returned
    case _ => Unavailable
  }

  function Resume(px: Proxy, s: nat, id: nat): Proxy
    requires Has(px, s) && id in px.sessions[s].waiters
  {
    var ses := px.sessions[s];
    var w := ses.waiters[id];
    With(px, s, ses.(waiters := ses.waiters[id := w.(outcome := Some(Verdict(px, s, w)))]))
  }

  // ----- Device reader ------------------------------------------------------------------

  predicate Expected(ses: Session, frame: Frame) {
    ses.current.Some? && !Done(ses.current.value.answer) && frame.Matches(ses.current.value.frame)
  }

  function Receive(px: Proxy, s: nat, frame: Frame): Proxy
    requires Has(px, s)
  {
    var ses := px.sessions[s];
    if !IsCurrent(px, s) || !Expected(ses, frame) then With(px, s, ses.(readerDone := true))
    else With(px, s, ses.(current := Some(ses.current.value.(answer := Resolved(frame))),
                          history := ses.history + [Answered(frame)]))
  }

  // ----- Worker -------------------------------------------------------------------------

  /** The inner `finally`: a failed local operation stays active until cleanup rejects its waiter. */
  function ReleaseActive(ses: Session): Session {
    match ses.active
    case None => ses
    case Some(r) =>
      if r.origin.Local? && r.id in ses.waiters && !Done(ses.waiters[r.id].future) then ses else ses.(active := None)
  }

  /** The worker ends with an exception while handling `active`. */
  function FailWorker(ses: Session): Session {
    ReleaseActive(ses.(
      current := None,
      worker := WorkerDone,
      failed := ses.failed + if ses.worker == Exchanging(false) && IsVendor(ses.active) then 1 else 0))
  }

  predicate IsVendor(active: Option<Request>) {
    active.Some? && active.value.origin.Vendor?
  }

  /** The first half of `_exchange`: remember the frame and write it. */
  function WriteFrame(ses: Session, request: Request, frame: Frame, confirming: bool): Session {
    ses.(current := Some(InFlight(frame, Pending)),
         worker := Exchanging(confirming),
         history := ses.history + [Wrote(request, frame, confirming)])
  }

  function CheckLoop(px: Proxy, s: nat): Proxy
    requires Has(px, s)
  {
    With(px, s, px.sessions[s].(worker := if IsCurrent(px, s) then Dequeuing else WorkerDone))
  }

  function Dequeue(px: Proxy, s: nat): Proxy
    requires Has(px, s) && px.sessions[s].queue != []
  {
    var request := px.sessions[s].queue[0];
    var ses := px.sessions[s].(queue := px.sessions[s].queue[1..], active := Some(request));
    if request.origin.Local? && request.id in ses.waiters && ses.waiters[request.id].future.Cancelled? then
      With(px, s, ses.(active := None, worker := Checking))
    else if request.origin.Vendor? && !Connected(ses, request.origin.cloud) then
      With(px, s, ses.(active := None, worker := Checking)).(dropped := px.dropped + 1)
    else
      // The blanking is not guarded: a retired worker still does it.
      var state := if request.frame.ValveCommand().Some? then px.state.(valve := None) else px.state;
      if !IsCurrent(px, s) then With(px, s, FailWorker(ses.(worker := Exchanging(false)))).(state := state)
      else With(px, s, WriteFrame(ses, request, request.frame, false)).(state := state)
  }

  function Observed(state: State, response: Frame, now: int): State {
    var base := state.(deviceConnected := true, lastResponse := Some(now), error := None);
    match StatusValues(response)
    case None => base
    case Some(Values(valve, None)) => base.(valve := valve, valveUpdated := Some(now))
    case Some(Values(valve, Some(total))) =>
      base.(valve := valve, valveUpdated := Some(now), totalLiters := Some(total), counterUpdated := Some(now))
  }

  /** The request is finished: hand the response to the waiter, if there is one still waiting. */
  function Finish(ses: Session, response: Frame): Session
    requires ses.active.Some?
  {
    var r := ses.active.value;
    var resolved :=
      if r.origin.Local? && r.id in ses.waiters && !Done(ses.waiters[r.id].future)
      then Complete(ses, r.id, Resolved(response)) else ses;
    ReleaseActive(resolved).(worker := Checking)
  }

  predicate EmptyAcknowledgment(response: Frame) {
    response.address == 0 && response.length == 0 && response.payload == []
  }

  /** After the vendor has its copy: a valve command is confirmed by a status read of the proxy. */
  function AfterForward(px: Proxy, s: nat, response: Frame): Proxy
    requires Has(px, s) && px.sessions[s].active.Some?
  {
    var ses := px.sessions[s];
    if ses.active.value.frame.ValveCommand() == None then With(px, s, Finish(ses, response))
    else if !EmptyAcknowledgment(response) then With(px, s, FailWorker(ses))
    else
      var tagged := ses.(tag := NextTag(ses.tag));
      if !IsCurrent(px, s) then With(px, s, FailWorker(tagged))
      else With(px, s, WriteFrame(tagged, ses.active.value, ReadStatus(tagged.tag), true))
  }

  /** The second half of `_exchange` and what the worker does before its next await. */
  function TakeAnswer(px: Proxy, s: nat): Proxy
    requires Has(px, s)
    requires px.sessions[s].worker.Exchanging? && px.sessions[s].active.Some?
    requires px.sessions[s].current.Some? && px.sessions[s].current.value.answer.Resolved?
  {
    var ses := px.sessions[s];
    var response := ses.current.value.answer.frame;
    if !IsCurrent(px, s) then With(px, s, FailWorker(ses))
    else
      var seen := ses.(current := None, observedAt := ses.observedAt + [px.clock], worker := Forwarding(response));
      var px1 := px.(state := Observed(px.state, response, px.clock));
      var r := ses.active.value;
      if ses.worker.confirming then With(px1, s, Finish(seen, response))
      else if r.origin.Vendor? && Connected(seen, r.origin.cloud) then
        var c := r.origin.cloud;
        var cloud := seen.clouds[c];
        With(px1, s, seen.(clouds := seen.clouds[c := cloud.(back := cloud.back + [response])]))
      else AfterForward(With(px1, s, seen), s, response)
  }

  function Forwarded(px: Proxy, s: nat, drained: bool): Proxy
    requires Has(px, s)
    requires px.sessions[s].worker.Forwarding? && IsVendor(px.sessions[s].active)
  {
    var ses := px.sessions[s];
    var px1 := if drained then px else With(px, s, CloseCloud(ses, ses.active.value.origin.cloud));
    AfterForward(px1, s, ses.worker.response)
  }

  // ----- Cloud loop ---------------------------------------------------------------------

  function ConnectCloud(px: Proxy, s: nat): Proxy
    requires Has(px, s)
  {
    var ses := px.sessions[s];
    if !IsCurrent(px, s) then With(px, s, ses.(cloudTask := CloudDone))
    else
      var c := px.nextCloud;
      With(px, s, ses.(clouds := ses.clouds[c := Cloud(true, [], [])], cloud := Some(c), cloudTask := Serving(c)))
      .(nextCloud := c + 1, state := px.state.(cloudConnected := true))
  }

  function Offer(px: Proxy, s: nat, frame: Frame): Proxy
    requires Has(px, s) && px.sessions[s].cloudTask.Serving?
  {
    var ses := px.sessions[s];
    var c := ses.cloudTask.cloud;
    var px1 := px.(offered := px.offered + 1);
    if !IsCurrent(px, s) || !Connected(ses, c) then px1.(dropped := px.dropped + 1)
    else if Full(px.limit, ses.queue) then
      With(px1, s, CloseCloud(ses, c).(cloudTask := Closing(c))).(dropped := px.dropped + 1)
    else
      var request := Request(px.nextId, frame, Vendor(c));
      var cloud := ses.clouds[c];
      With(px1, s, ses.(queue := ses.queue + [request],
                        requests := ses.requests[request.id := request],
                        clouds := ses.clouds[c := cloud.(offered := cloud.offered + [frame])]))
      .(nextId := px.nextId + 1)
  }

  function DropCloud(ses: Session): Session
    requires ses.cloudTask.Serving?
  {
    CloseCloud(ses, ses.cloudTask.cloud).(cloudTask := Closing(ses.cloudTask.cloud))
  }

  function ClearCloud(px: Proxy, s: nat): Proxy
    requires Has(px, s) && px.sessions[s].cloudTask.Closing?
  {
    var ses := px.sessions[s];
    var cleared := if ses.cloud == Some(ses.cloudTask.cloud) then ses.(cloud := None) else ses;
    With(px, s, cleared.(cloudTask := Disconnected))
    .(state := if IsCurrent(px, s) then px.state.(cloudConnected := false) else px.state)
  }

  // ----- Cleanup ------------------------------------------------------------------------

  function VendorCount(queue: seq<Request>): nat {
    if queue == [] then 0 else (if queue[0].origin.Vendor? then 1 else 0) + VendorCount(queue[1..])
  }

  predicate Mentions(requests: seq<Request>, id: nat) {
    exists i :: 0 <= i < |requests| && requests[i].id == id
  }

  /** Rejects the waiter of every listed request that is still waiting. */
  function RejectAll(waiters: map<nat, Waiter>, requests: seq<Request>): map<nat, Waiter> {
    map id | id in waiters ::
      if Mentions(requests, id) && !Done(waiters[id].future)
      then waiters[id].(future := Rejected, completions := waiters[id].completions + 1)
      else waiters[id]
  }

  function Leftover(ses: Session): seq<Request> {
    (if ses.active.Some? then [ses.active.value] else []) + ses.queue
  }

  predicate TasksDone(ses: Session) {
    ses.worker.WorkerDone? && ses.readerDone && ses.cloudTask.CloudDone? && ses.pollDone
  }

  function Swept(ses: Session): Session {
    CloseCurrentCloud(ses).(
      alive := false, phase := Cleaned, current := None, queue := [],
      waiters := RejectAll(ses.waiters, Leftover(ses)))
  }

  /** The `finally` of the session task; `error` is what its handlers reported, if anything. */
  function Cleanup(px: Proxy, s: nat, error: Option<string>): Proxy
    requires Has(px, s)
  {
    var ses := px.sessions[s];
    var reported := if error.Some? && IsCurrent(px, s) then px.state.(error := error) else px.state;
    var px1 := if px.session == Some(s)
               then px.(session := None, state := Blanked(reported).(valveUpdated := None))
               else px.(state := reported);
    With(px1, s, Swept(ses)).(dropped := px.dropped + VendorCount(Leftover(ses)))
  }

  // ----- The machine --------------------------------------------------------------------

  datatype Step =
    | StepStart
    | StepAccept
    | StepBeginStop
    | StepEndStop(stop: nat)
    | StepCall(purpose: Purpose)                     // set_valve or refresh
    | StepPoll(s: nat, snapshot: bool)
    | StepCancelWaiter(s: nat, id: nat)
    | StepResume(s: nat, id: nat)
    | StepBegin(s: nat)
    | StepSkip(s: nat)
    | StepReceive(s: nat, frame: Frame)
    | StepReaderEnds(s: nat)
    | StepCheck(s: nat)
    | StepDequeue(s: nat)
    | StepTakeAnswer(s: nat)
    | StepForwarded(s: nat, drained: bool)
    | StepWorkerFails(s: nat)
    | StepConnectCloud(s: nat)
    | StepOffer(s: nat, frame: Frame)
    | StepDropCloud(s: nat)
    | StepClearCloud(s: nat)
    | StepCloudEnds(s: nat)
    | StepPollEnds(s: nat)
    | StepCleanup(s: nat, error: Option<string>)
    | StepClosed(s: nat)
    | StepTick(time: nat)

  predicate InTask(px: Proxy, s: nat) {
    Has(px, s) && px.sessions[s].phase.Running?
  }

  predicate Enabled(px: Proxy, step: Step) {
    match step
    case StepStart => true
    case StepAccept => true
    case StepBeginStop => true
    case StepEndStop(i) => i < |px.stops| && forall s :: s in px.stops[i] ==> Has(px, s) && !Unfinished(px.sessions[s])
    case StepCall(purpose) =>
      !purpose.Poll? && px.session.Some? && Has(px, px.session.value) && IsCurrent(px, px.session.value)
    case StepPoll(s, _) => InTask(px, s) && !px.sessions[s].pollDone && IsCurrent(px, s)
    case StepCancelWaiter(s, id) => Has(px, s) && id in px.sessions[s].waiters
    case StepResume(s, id) =>
      Has(px, s) && id in px.sessions[s].waiters && Done(px.sessions[s].waiters[id].future)
      && px.sessions[s].waiters[id].outcome == None
    case StepBegin(s) => Has(px, s) && px.sessions[s].phase.Created? && !px.sessions[s].cancelled
    case StepSkip(s) => Has(px, s) && px.sessions[s].phase.Created? && px.sessions[s].cancelled
    case StepReceive(s, _) => InTask(px, s) && !px.sessions[s].readerDone
    case StepReaderEnds(s) => InTask(px, s) && !px.sessions[s].readerDone
    case StepCheck(s) => InTask(px, s) && px.sessions[s].worker.Checking?
    case StepDequeue(s) => InTask(px, s) && px.sessions[s].worker.Dequeuing? && px.sessions[s].queue != []
    case StepTakeAnswer(s) =>
      InTask(px, s) && px.sessions[s].worker.Exchanging? && px.sessions[s].active.Some?
      && px.sessions[s].current.Some? && px.sessions[s].current.value.answer.Resolved?
    case StepForwarded(s, _) => InTask(px, s) && px.sessions[s].worker.Forwarding? && IsVendor(px.sessions[s].active)
    case StepWorkerFails(s) => InTask(px, s) && !px.sessions[s].worker.WorkerDone?
    case StepConnectCloud(s) => InTask(px, s) && px.sessions[s].cloudTask.Disconnected?
    case StepOffer(s, _) => InTask(px, s) && px.sessions[s].cloudTask.Serving?
    case StepDropCloud(s) => InTask(px, s) && px.sessions[s].cloudTask.Serving?
    case StepClearCloud(s) => InTask(px, s) && px.sessions[s].cloudTask.Closing?
    case StepCloudEnds(s) =>
      InTask(px, s) && (px.sessions[s].cloudTask.Disconnected? || px.sessions[s].cloudTask.Closing?)
    case StepPollEnds(s) => InTask(px, s) && !px.sessions[s].pollDone
    case StepCleanup(s, _) => InTask(px, s) && TasksDone(px.sessions[s])
    case StepClosed(s) => Has(px, s) && px.sessions[s].phase.Cleaned? && !px.sessions[s].closed
    case StepTick(_) => true
  }

  function Do(px: Proxy, step: Step): Proxy
    requires Enabled(px, step)
  {
    match step
    case StepStart => px.(closing := false)
    case StepAccept => Accept(px)
    case StepBeginStop => BeginStop(px)
    case StepEndStop(i) => EndStop(px, i)
    case StepCall(purpose) => Submit(px, px.session.value, purpose, true)
    case StepPoll(s, snapshot) => Submit(px, s, Poll, snapshot)
    case StepCancelWaiter(s, id) => With(px, s, CancelWaiter(px.sessions[s], id))
    case StepResume(s, id) => Resume(px, s, id)
    case StepBegin(s) => With(px, s, px.sessions[s].(phase := Running))
    case StepSkip(s) => With(px, s, px.sessions[s].(phase := Skipped))
    case StepReceive(s, frame) => Receive(px, s, frame)
    case StepReaderEnds(s) => With(px, s, px.sessions[s].(readerDone := true))
    case StepCheck(s) => CheckLoop(px, s)
    case StepDequeue(s) => Dequeue(px, s)
    case StepTakeAnswer(s) => TakeAnswer(px, s)
    case StepForwarded(s, drained) => Forwarded(px, s, drained)
    case StepWorkerFails(s) => With(px, s, FailWorker(px.sessions[s]))
    case StepConnectCloud(s) => ConnectCloud(px, s)
    case StepOffer(s, frame) => Offer(px, s, frame)
    case StepDropCloud(s) => With(px, s, DropCloud(px.sessions[s]))
    case StepClearCloud(s) => ClearCloud(px, s)
    case StepCloudEnds(s) => With(px, s, px.sessions[s].(cloudTask := CloudDone))
    case StepPollEnds(s) => With(px, s, px.sessions[s].(pollDone := true))
    case StepCleanup(s, error) => Cleanup(px, s, error)
    case StepClosed(s) => With(px, s, px.sessions[s].(closed := true))
    case StepTick(time) => px.(clock := px.clock + time)
  }

  /** A run: every state follows from the one before by an enabled step. */
  ghost predicate IsRun(run: seq<Proxy>, steps: seq<Step>) {
    && |run| == |steps| + 1
    && (exists limit, clock :: run[0] == Initial(limit, clock))
    && forall i :: 0 <= i < |steps| ==> Enabled(run[i], steps[i]) && run[i + 1] == Do(run[i], steps[i])
  }
}
