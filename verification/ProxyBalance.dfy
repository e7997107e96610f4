/**
 Conservation of vendor frames: every frame a vendor connection offers is, at any time,
 counted as dropped, waiting in a queue, in flight, exchanged with the device, or failed in
 flight, and each in exactly one of these ways.
 */
module ProxyBalance {
  import opened Base
  import opened Protocol
  import opened ProxyModel
  import opened ProxyInvariant
  import opened ProxySafety
  import opened ProxyState

  /** The vendor requests among the first `m` exchanges, confirming reads not counted. */
  function Exchanged(history: seq<Event>, m: nat): nat {
    if m == 0 || |history| < 2 * m then 0
    else
      var e := history[2 * m - 2];
      Exchanged(history, m - 1) + if e.Wrote? && !e.confirming && e.request.origin.Vendor? then 1 else 0
  }

  function InFlightCount(ses: Session): nat {
    if ses.worker == Exchanging(false) && IsVendor(ses.active) then 1 else 0
  }

  /** The vendor frames session `ses` accounts for. */
  function Load(ses: Session): nat {
    VendorCount(ses.queue) + InFlightCount(ses) + Exchanged(ses.history, |ses.observedAt|) + ses.failed
  }

  function TotalLoad(sessions: seq<Session>): nat {
    if |sessions| == 0 then 0 else TotalLoad(sessions[..|sessions| - 1]) + Load(sessions[|sessions| - 1])
  }

  ghost predicate Balanced(px: Proxy) {
    px.offered == px.dropped + TotalLoad(px.sessions)
  }

  // ----- Sums ----------------------------------------------------------------------------

  lemma {:induction false} LoadUpdate(sessions: seq<Session>, s: nat, ses: Session)
    requires s < |sessions|
    ensures TotalLoad(sessions[s := ses]) + Load(sessions[s]) == TotalLoad(sessions) + Load(ses)
  {
    hide Load;
    var n := |sessions| - 1;
    if s < n {
      LoadUpdate(sessions[..n], s, ses);
      assert sessions[s := ses][..n] == sessions[..n][s := ses];
    } else {
      assert sessions[s := ses][..n] == sessions[..n];
    }
  }

  lemma {:induction false} SameLoads(a: seq<Session>, b: seq<Session>)
    requires |a| == |b| && forall s :: 0 <= s < |a| ==> Load(a[s]) == Load(b[s])
    ensures TotalLoad(a) == TotalLoad(b)
  {
    hide Load;
    if |a| > 0 {
      SameLoads(a[..|a| - 1], b[..|b| - 1]);
    }
  }

  lemma {:induction false} VendorCountAppend(queue: seq<Request>, r: Request)
    ensures VendorCount(queue + [r]) == VendorCount(queue) + if r.origin.Vendor? then 1 else 0
  {
    if queue == [] {
      assert [r][1..] == [];
      assert queue + [r] == [r];
    } else {
      assert (queue + [r])[1..] == queue[1..] + [r];
      VendorCountAppend(queue[1..], r);
    }
  }

  lemma {:induction false} ExchangedKept(history: seq<Event>, e: Event, m: nat)
    requires 2 * m <= |history|
    ensures Exchanged(history + [e], m) == Exchanged(history, m)
  {
    if m > 0 {
      assert (history + [e])[2 * m - 2] == history[2 * m - 2];
      ExchangedKept(history, e, m - 1);
    }
  }

  // ----- Steps -----------------------------------------------------------------------------

  /** What session `s` and the counters gain and lose cancels out. */
  ghost predicate Conserves(px: Proxy, px': Proxy, s: nat) {
    && Has(px, s) && Has(px', s) && |px'.sessions| == |px.sessions|
    && px'.offered + px.dropped + Load(px.sessions[s]) == px.offered + px'.dropped + Load(px'.sessions[s])
  }

  lemma SameLoad(ses: Session, ses': Session)
    requires ses'.queue == ses.queue && ses'.history == ses.history && ses'.observedAt == ses.observedAt
    requires ses'.failed == ses.failed
    requires (ses'.worker == ses.worker && ses'.active == ses.active)
             || (!ses.worker.Exchanging? && !ses'.worker.Exchanging?)
    ensures Load(ses') == Load(ses)
  {
  }

  lemma FailWorkerLoad(ses: Session)
    ensures Load(FailWorker(ses)) == Load(ses)
  {
    hide VendorCount, Exchanged, FailWorker;
    FailFields(ses);
  }

  lemma FinishLoad(ses: Session, response: Frame)
    requires ses.active.Some? && !ses.worker.Exchanging?
    ensures Load(Finish(ses, response)) == Load(ses)
  {
    hide VendorCount, Exchanged, Finish;
    FinishFields(ses, response);
  }

  lemma ConfirmLoad(ses: Session, r: Request, frame: Frame)
    requires !ses.worker.Exchanging? && 2 * |ses.observedAt| <= |ses.history|
    ensures Load(WriteFrame(ses, r, frame, true)) == Load(ses)
  {
    hide VendorCount;
    ExchangedKept(ses.history, Wrote(r, frame, true), |ses.observedAt|);
  }

  lemma AfterForwardLoad(px: Proxy, s: nat, response: Frame)
    requires Has(px, s) && px.sessions[s].active.Some? && px.sessions[s].worker.Forwarding?
    requires 2 * |px.sessions[s].observedAt| <= |px.sessions[s].history|
    ensures Conserves(px, AfterForward(px, s, response), s)
  {
    hide Load, FailWorker, Finish, WriteFrame, ReadStatus;
    var ses := px.sessions[s];
    var tagged := ses.(tag := NextTag(ses.tag));
    FinishLoad(ses, response);
    FailWorkerLoad(ses);
    FailWorkerLoad(tagged);
    SameLoad(ses, tagged);
    ConfirmLoad(tagged, ses.active.value, ReadStatus(tagged.tag));
  }

  lemma SeenLoad(ses: Session, response: Frame, now: int)
    requires WorkerOk(ses) && ses.worker.Exchanging? && ses.current.value.answer == Resolved(response)
    ensures Load(Seen(ses, response, now)) == Load(ses)
    ensures 2 * |Seen(ses, response, now).observedAt| <= |ses.history|
  {
    hide VendorCount;
  }

  lemma TakeAnswerLoad(px: Proxy, s: nat)
    requires Enabled(px, StepTakeAnswer(s)) && SessionOk(px.sessions[s])
    ensures Conserves(px, TakeAnswer(px, s), s)
  {
    hide Load, FailWorker, Finish, AfterForward, Observed, SessionOk;
    var ses := px.sessions[s];
    var response := ses.current.value.answer.frame;
    SessionParts(ses);
    FailWorkerLoad(ses);
    if IsCurrent(px, s) {
      var seen := Seen(ses, response, px.clock);
      var r := ses.active.value;
      SeenLoad(ses, response, px.clock);
      FinishLoad(seen, response);
      if !ses.worker.confirming && r.origin.Vendor? && Connected(seen, r.origin.cloud) {
        SameLoad(seen, SentBack(seen, r.origin.cloud, response));
      }
      AfterForwardLoad(With(px.(state := Observed(px.state, response, px.clock)), s, seen), s, response);
    }
  }

  lemma ForwardedLoad(px: Proxy, s: nat, drained: bool)
    requires Enabled(px, StepForwarded(s, drained)) && SessionOk(px.sessions[s])
    ensures Conserves(px, Forwarded(px, s, drained), s)
  {
    hide Load, AfterForward, SessionOk, CloseCloud;
    var ses := px.sessions[s];
    var mid := if drained then px else With(px, s, CloseCloud(ses, ses.active.value.origin.cloud));
    ForwardingLogs(ses);
    CloseCloudLoad(ses, ses.active.value.origin.cloud);
    AfterForwardLoad(mid, s, ses.worker.response);
  }

  lemma ForwardingLogs(ses: Session)
    requires SessionOk(ses) && ses.worker.Forwarding?
    ensures |ses.history| == 2 * |ses.observedAt|
  {
    hide HistoryOk, QueueOk, WaitersOk, CloudsOk, PhaseOk;
  }

  lemma CloseCloudLoad(ses: Session, c: nat)
    ensures var closed := CloseCloud(ses, c);
            && Load(closed) == Load(ses) && closed.history == ses.history && closed.observedAt == ses.observedAt
            && closed.worker == ses.worker && closed.active == ses.active && closed.queue == ses.queue
  {
  }

  lemma DequeueLoad(px: Proxy, s: nat)
    requires Enabled(px, StepDequeue(s)) && SessionOk(px.sessions[s])
    ensures Conserves(px, Dequeue(px, s), s)
  {
    hide FailWorker, WriteFrame, SessionOk, Connected, Frame.ValveCommand, Load;
    var ses := px.sessions[s];
    DequeuingLogs(ses);
    DroppedLoad(ses);
    TakenLoad(ses);
    FailWorkerLoad(Head(ses).(worker := Exchanging(false)));
  }

  lemma DroppedLoad(ses: Session)
    requires ses.queue != [] && ses.worker.Dequeuing?
    ensures Load(ses.(queue := ses.queue[1..], active := None, worker := Checking))
            + (if ses.queue[0].origin.Vendor? then 1 else 0) == Load(ses)
  {
    hide Exchanged;
  }

  lemma TakenLoad(ses: Session)
    requires ses.queue != [] && ses.worker.Dequeuing? && 2 * |ses.observedAt| <= |ses.history|
    ensures var r := ses.queue[0];
            && Load(WriteFrame(Head(ses), r, r.frame, false)) == Load(ses)
            && Load(Head(ses).(worker := Exchanging(false))) == Load(ses)
  {
    hide Exchanged;
    var r := ses.queue[0];
    ExchangedKept(ses.history, Wrote(r, r.frame, false), |ses.observedAt|);
  }

  lemma ReceiveLoad(px: Proxy, s: nat, frame: Frame)
    requires Enabled(px, StepReceive(s, frame)) && SessionOk(px.sessions[s])
    ensures Conserves(px, Receive(px, s, frame), s)
  {
    hide SessionOk, Expected, VendorCount;
    var ses := px.sessions[s];
    LogBounds(ses);
    ExchangedKept(ses.history, Answered(frame), |ses.observedAt|);
  }

  lemma LogBounds(ses: Session)
    requires SessionOk(ses)
    ensures 2 * |ses.observedAt| <= |ses.history|
  {
    hide HistoryOk, QueueOk, WaitersOk, CloudsOk, PhaseOk;
  }

  lemma SubmitLoad(px: Proxy, s: nat, purpose: Purpose, snapshot: bool)
    requires Has(px, s)
    ensures Conserves(px, Submit(px, s, purpose, snapshot), s)
  {
    hide RequestFrame, VendorCount, Exchanged;
    var ses := px.sessions[s];
    VendorCountAppend(ses.queue, Request(px.nextId, RequestFrame(NextTag(ses.tag), purpose, snapshot), Local));
  }

  lemma OfferLoad(px: Proxy, s: nat, frame: Frame)
    requires Enabled(px, StepOffer(s, frame))
    ensures Conserves(px, Offer(px, s, frame), s)
  {
    hide VendorCount, Exchanged, CloseCloud;
    var ses := px.sessions[s];
    CloseCloudLoad(ses, ses.cloudTask.cloud);
    CloseCloudFailed(ses, ses.cloudTask.cloud);
    VendorCountAppend(ses.queue, Request(px.nextId, frame, Vendor(ses.cloudTask.cloud)));
  }

  lemma CloseCloudFailed(ses: Session, c: nat)
    ensures CloseCloud(ses, c).failed == ses.failed
  {
  }

  lemma CleanupLoad(px: Proxy, s: nat, error: Option<string>)
    requires Enabled(px, StepCleanup(s, error)) && SessionOk(px.sessions[s])
    ensures Conserves(px, Cleanup(px, s, error), s)
  {
    var ses := px.sessions[s];
    DoneWorkerHoldsLocal(ses);
    LeftoverCount(ses);
    SweptLoad(ses);
    hide Swept, SessionOk, VendorCount, Leftover, Load;
  }

  lemma SweptLoad(ses: Session)
    requires ses.worker.WorkerDone?
    ensures Load(Swept(ses)) + VendorCount(ses.queue) == Load(ses)
  {
    assert VendorCount([]) == 0;
    hide RejectAll, Exchanged, VendorCount, Leftover;
  }

  lemma LeftoverCount(ses: Session)
    ensures VendorCount(Leftover(ses)) == VendorCount(ses.queue) + if IsVendor(ses.active) then 1 else 0
  {
    if ses.active.Some? {
      assert Leftover(ses)[1..] == ses.queue;
    } else {
      assert Leftover(ses) == ses.queue;
    }
  }

  lemma DoneWorkerHoldsLocal(ses: Session)
    requires SessionOk(ses) && ses.worker.WorkerDone?
    ensures !IsVendor(ses.active)
  {
    hide HistoryOk, QueueOk, WaitersOk, CloudsOk, PhaseOk;
  }

  ghost predicate PlainStep(step: Step) {
    step.StepCancelWaiter? || step.StepResume? || step.StepBegin? || step.StepSkip? || step.StepReaderEnds?
    || step.StepCheck? || step.StepConnectCloud? || step.StepDropCloud? || step.StepClearCloud? || step.StepCloudEnds?
    || step.StepPollEnds? || step.StepClosed?
  }

  lemma PlainLoad(px: Proxy, step: Step, s: nat)
    requires Enabled(px, step) && Subject(px, step) == Some(s) && PlainStep(step) && Has(px, s)
    ensures Conserves(px, Do(px, step), s)
  {
    hide Conserves, Do, Enabled;
    if step.StepCancelWaiter? || step.StepResume? {
      CallerLoad(px, step, s);
    } else if step.StepConnectCloud? || step.StepDropCloud? || step.StepClearCloud? || step.StepCloudEnds? {
      CloudLoad(px, step, s);
    } else {
      FlagLoad(px, step, s);
    }
  }

  lemma CallerLoad(px: Proxy, step: Step, s: nat)
    requires Enabled(px, step) && Subject(px, step) == Some(s) && Has(px, s)
    requires step.StepCancelWaiter? || step.StepResume?
    ensures Conserves(px, Do(px, step), s)
  {
    hide Verdict, Load;
    SameLoad(px.sessions[s], Do(px, step).sessions[s]);
  }

  lemma FlagLoad(px: Proxy, step: Step, s: nat)
    requires Enabled(px, step) && Subject(px, step) == Some(s) && Has(px, s)
    requires step.StepBegin? || step.StepSkip? || step.StepReaderEnds? || step.StepCheck? || step.StepPollEnds?
             || step.StepClosed?
    ensures Conserves(px, Do(px, step), s)
  {
    hide Load;
    SameLoad(px.sessions[s], Do(px, step).sessions[s]);
  }

  lemma CloudLoad(px: Proxy, step: Step, s: nat)
    requires Enabled(px, step) && Subject(px, step) == Some(s) && Has(px, s)
    requires step.StepConnectCloud? || step.StepDropCloud? || step.StepClearCloud? || step.StepCloudEnds?
    ensures Conserves(px, Do(px, step), s)
  {
    hide Load, DropCloud, ConnectCloud, ClearCloud;
    match step
    case StepDropCloud(_) => DropLoad(px.sessions[s]);
    case StepConnectCloud(_) => ConnectLoad(px, s);
    case StepClearCloud(_) => ClearLoad(px, s);
    case StepCloudEnds(_) => SameLoad(px.sessions[s], px.sessions[s].(cloudTask := CloudDone));
  }

  lemma ConnectLoad(px: Proxy, s: nat)
    requires Has(px, s)
    ensures Conserves(px, ConnectCloud(px, s), s)
  {
    hide Load;
    SameLoad(px.sessions[s], ConnectCloud(px, s).sessions[s]);
  }

  lemma ClearLoad(px: Proxy, s: nat)
    requires Enabled(px, StepClearCloud(s))
    ensures Conserves(px, ClearCloud(px, s), s)
  {
    hide Load;
    SameLoad(px.sessions[s], ClearCloud(px, s).sessions[s]);
  }

  lemma DropLoad(ses: Session)
    requires ses.cloudTask.Serving?
    ensures Load(DropCloud(ses)) == Load(ses)
  {
    hide Load, CloseCloud;
    CloseFields(ses, ses.cloudTask.cloud);
    SameLoad(ses, DropCloud(ses));
  }

  lemma WorkerLoad(px: Proxy, step: Step, s: nat)
    requires Enabled(px, step) && Subject(px, step) == Some(s) && Has(px, s) && SessionOk(px.sessions[s])
    requires !PlainStep(step)
    ensures Conserves(px, Do(px, step), s)
  {
    hide Submit, Receive, Dequeue, TakeAnswer, Forwarded, Offer, Cleanup, FailWorker, Load, SessionOk;
    match step
    case StepCall(purpose) => SubmitLoad(px, s, purpose, true);
    case StepPoll(_, snapshot) => SubmitLoad(px, s, Poll, snapshot);
    case StepReceive(_, frame) => ReceiveLoad(px, s, frame);
    case StepDequeue(_) => DequeueLoad(px, s);
    case StepTakeAnswer(_) => TakeAnswerLoad(px, s);
    case StepForwarded(_, drained) => ForwardedLoad(px, s, drained);
    case StepWorkerFails(_) => FailWorkerLoad(px.sessions[s]);
    case StepOffer(_, frame) => OfferLoad(px, s, frame);
    case StepCleanup(_, error) => CleanupLoad(px, s, error);
  }

  lemma BalanceIsKept(px: Proxy, step: Step)
    requires Enabled(px, step) && PointersOk(px) && SessionsOk(px) && Balanced(px)
    ensures Balanced(Do(px, step))
  {
    hide *;
    if Subject(px, step) == None {
      ListenerBalance(px, step);
    } else {
      SubjectBalance(px, step);
    }
  }

  lemma SubjectBalance(px: Proxy, step: Step)
    requires Enabled(px, step) && PointersOk(px) && SessionsOk(px) && Balanced(px) && Subject(px, step).Some?
    ensures Balanced(Do(px, step))
  {
    hide SessionOk, Load, Do, Enabled, SessionsOk, PointersOk, OnlySession;
    var px' := Do(px, step);
    var s := Subject(px, step).value;
    SubjectGood(px, step);
    if PlainStep(step) {
      PlainLoad(px, step, s);
    } else {
      WorkerLoad(px, step, s);
    }
    StepsTouchOneSession(px, step);
    OneUpdate(px, px', s);
    LoadUpdate(px.sessions, s, px'.sessions[s]);
  }

  lemma OneUpdate(px: Proxy, px': Proxy, s: nat)
    requires OnlySession(px, px', s)
    ensures Has(px', s) && px'.sessions == px.sessions[s := px'.sessions[s]]
  {
  }

  lemma ListenerBalance(px: Proxy, step: Step)
    requires Enabled(px, step) && PointersOk(px) && Balanced(px) && Subject(px, step) == None
    ensures Balanced(Do(px, step))
  {
    hide Load, Accept, BeginStop;
    if step.StepAccept? {
      AcceptBalance(px);
    } else if step.StepBeginStop? {
      BeginStopBalance(px);
    }
  }

  lemma AcceptBalance(px: Proxy)
    requires PointersOk(px) && Balanced(px)
    ensures Balanced(Accept(px))
  {
    hide Load, Retire;
    if !px.closing {
      NewSessionLoad();
      var sessions := Accept(px).sessions;
      var earlier := sessions[..|px.sessions|];
      assert sessions == earlier + [NewSession()];
      if px.session.Some? {
        RetireLoad(px.sessions[px.session.value]);
      }
      SameLoads(px.sessions, earlier);
    }
  }

  lemma BeginStopBalance(px: Proxy)
    requires Balanced(px)
    ensures Balanced(BeginStop(px))
  {
    hide Load, CancelTask;
    forall s | 0 <= s < |px.sessions| ensures Load(BeginStop(px).sessions[s]) == Load(px.sessions[s]) {
      RetireLoad(px.sessions[s]);
    }
    SameLoads(px.sessions, BeginStop(px).sessions);
  }

  lemma RetireLoad(ses: Session)
    ensures Load(Retire(ses)) == Load(ses) && Load(CancelTask(ses)) == Load(ses)
  {
    hide VendorCount, Exchanged;
  }

  lemma NewSessionLoad()
    ensures Load(NewSession()) == 0
  {
  }
}
