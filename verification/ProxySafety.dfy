/**
 The invariant of the whole proxy and the proof that every step keeps it, so that it holds
 in every state of every run.
 */
module ProxySafety {
  import opened Base
  import opened Protocol
  import opened ProxyModel
  import opened ProxyInvariant

  // ----- Sessions ----------------------------------------------------------------------

  ghost predicate CloudsBelow(ses: Session, bound: nat) {
    forall c :: c in ses.clouds ==> c < bound
  }

  ghost predicate Good(px: Proxy, ses: Session) {
    SessionOk(ses) && IdsBelow(ses, px.nextId) && CloudsBelow(ses, px.nextCloud)
  }

  ghost predicate SessionsOk(px: Proxy) {
    forall s :: 0 <= s < |px.sessions| ==> Good(px, px.sessions[s])
  }

  ghost predicate Sound(px: Proxy, s: nat) {
    Has(px, s) && SessionOk(px.sessions[s])
  }

  ghost predicate Disjoint(a: Session, b: Session) {
    a.requests.Keys !! b.requests.Keys && a.clouds.Keys !! b.clouds.Keys
  }

  /** A request or a vendor connection belongs to one session only. */
  ghost predicate Apart(px: Proxy) {
    forall s, t :: 0 <= s < t < |px.sessions| ==> Disjoint(px.sessions[s], px.sessions[t])
  }

  ghost predicate Below(waited: set<nat>, bound: nat) {
    forall s :: s in waited ==> s < bound
  }

  ghost predicate PointersOk(px: Proxy) {
    && (px.session.Some? ==> Has(px, px.session.value))
    && (forall i :: 0 <= i < |px.stops| ==> Below(px.stops[i], |px.sessions|))
  }

  lemma RequestFrameOk(tag: Tag, purpose: Purpose, snapshot: bool)
    requires purpose.Refresh? ==> snapshot
    ensures PurposeOk(RequestFrame(tag, purpose, snapshot), purpose)
  {
  }

  lemma SubmitOk(px: Proxy, s: nat, purpose: Purpose, snapshot: bool)
    requires Has(px, s) && SessionOk(px.sessions[s]) && IdsBelow(px.sessions[s], px.nextId)
    requires px.sessions[s].alive && (purpose.Refresh? ==> snapshot)
    ensures Sound(Submit(px, s, purpose, snapshot), s)
  {
    hide SessionOk, RequestFrame, PurposeOk;
    var ses := px.sessions[s];
    assert !ses.phase.Cleaned? by { AliveIsNotCleaned(ses); }
    var tagged := ses.(tag := NextTag(ses.tag));
    TagOk(ses, NextTag(ses.tag));
    if !Full(px.limit, tagged.queue) {
      RequestFrameOk(tagged.tag, purpose, snapshot);
      EnqueueLocalOk(tagged, Request(px.nextId, RequestFrame(tagged.tag, purpose, snapshot), Local), purpose);
    }
  }

  lemma AliveIsNotCleaned(ses: Session)
    requires SessionOk(ses) && ses.alive
    ensures !ses.phase.Cleaned?
  {
    hide HistoryOk, WorkerOk, QueueOk, WaitersOk, CloudsOk;
  }

  lemma TagOk(ses: Session, tag: Tag)
    requires SessionOk(ses)
    ensures SessionOk(ses.(tag := tag))
  {
    hide HistoryOk, WorkerOk, QueueOk, WaitersOk, CloudsOk;
    FlagsOk(ses, ses.(tag := tag));
  }

  lemma ReaderDoneOk(ses: Session)
    requires SessionOk(ses) && ses.phase.Running?
    ensures SessionOk(ses.(readerDone := true))
  {
    hide HistoryOk, WorkerOk, QueueOk, WaitersOk, CloudsOk;
    FlagsOk(ses, ses.(readerDone := true));
  }

  lemma ClosedOk(ses: Session)
    requires SessionOk(ses) && ses.phase.Cleaned?
    ensures SessionOk(ses.(closed := true))
  {
    hide HistoryOk, QueueOk, WaitersOk, CloudsOk;
    FlagsOk(ses, ses.(closed := true));
  }

  lemma PollDoneOk(ses: Session)
    requires SessionOk(ses) && ses.phase.Running?
    ensures SessionOk(ses.(pollDone := true))
  {
    hide HistoryOk, WorkerOk, QueueOk, WaitersOk, CloudsOk;
    FlagsOk(ses, ses.(pollDone := true));
  }

  lemma WorkerMovesOk(ses: Session, worker: WorkerAt)
    requires SessionOk(ses) && ses.phase.Running? && ses.worker.Checking?
    requires worker.Dequeuing? || worker.WorkerDone?
    ensures SessionOk(ses.(worker := worker))
  {
    hide HistoryOk, WorkerOk, QueueOk, WaitersOk, CloudsOk;
    FlagsOk(ses, ses.(worker := worker));
  }

  lemma PhaseMovesOk(ses: Session, phase: Phase)
    requires SessionOk(ses) && ses.phase.Created?
    requires phase.Running? || (phase.Skipped? && ses.cancelled)
    ensures SessionOk(ses.(phase := phase))
  {
    hide HistoryOk, WorkerOk, QueueOk, WaitersOk, CloudsOk;
    FlagsOk(ses, ses.(phase := phase));
  }

  lemma ReceivedOk(px: Proxy, s: nat, frame: Frame)
    requires Has(px, s) && SessionOk(px.sessions[s]) && px.sessions[s].phase.Running?
    ensures Sound(Receive(px, s, frame), s)
  {
    hide SessionOk;
    var ses := px.sessions[s];
    if IsCurrent(px, s) && Expected(ses, frame) {
      ReceiveOk(ses, frame);
    } else {
      ReaderDoneOk(ses);
    }
  }

  lemma DequeuedOk(px: Proxy, s: nat)
    requires Has(px, s) && SessionOk(px.sessions[s]) && Enabled(px, StepDequeue(s))
    ensures Sound(Dequeue(px, s), s)
  {
    hide SessionOk, FailWorker, WriteFrame;
    var ses := px.sessions[s];
    var r := ses.queue[0];
    var head := Head(ses);
    if r.origin.Local? && r.id in ses.waiters && ses.waiters[r.id].future.Cancelled? {
      DropHeadOk(ses);
    } else if r.origin.Vendor? && !Connected(head, r.origin.cloud) {
      DropHeadOk(ses);
    } else if !IsCurrent(px, s) {
      FailHeadOk(ses);
    } else {
      WriteHeadOk(ses);
    }
  }

  lemma AfterForwardOk(px: Proxy, s: nat, response: Frame)
    requires Has(px, s) && Holding(px.sessions[s], response, false)
    ensures Sound(AfterForward(px, s, response), s)
  {
    hide SessionOk, FailWorker, WriteFrame, Finish, ReadStatus;
    var ses := px.sessions[s];
    if ses.active.value.frame.ValveCommand() == None {
      FinishOk(ses, response, false);
    } else if !EmptyAcknowledgment(response) {
      FailHoldingOk(ses, response);
    } else {
      var tag := NextTag(ses.tag);
      if !IsCurrent(px, s) {
        HoldingTag(ses, response, tag);
        FailHoldingOk(ses.(tag := tag), response);
      } else {
        ConfirmOk(ses, response, tag);
      }
    }
  }

  lemma HoldingTag(ses: Session, response: Frame, tag: Tag)
    requires Holding(ses, response, false)
    ensures Holding(ses.(tag := tag), response, false)
  {
    hide HistoryOk, WaitersOk, CloudsOk;
    var ses' := ses.(tag := tag);
    SameHistoryOk(ses, ses');
    SameWaitersOk(ses, ses');
    SameCloudsOk(ses, ses');
  }

  lemma TakeAnswerOk(px: Proxy, s: nat)
    requires Has(px, s) && SessionOk(px.sessions[s]) && Enabled(px, StepTakeAnswer(s))
    ensures Sound(TakeAnswer(px, s), s)
  {
    hide SessionOk, FailWorker, Finish, AfterForward, Holding, Observed;
    var ses := px.sessions[s];
    var response := ses.current.value.answer.frame;
    if !IsCurrent(px, s) {
      FailWorkerOk(ses);
    } else {
      var seen := Seen(ses, response, px.clock);
      var px1 := px.(state := Observed(px.state, response, px.clock));
      var r := ses.active.value;
      SeenHolds(ses, response, px.clock);
      if ses.worker.confirming {
        ConfirmingIsCommand(ses);
        FinishOk(seen, response, true);
      } else if r.origin.Vendor? && Connected(seen, r.origin.cloud) {
        HoldingIsForwarding(SentBack(seen, r.origin.cloud, response), response);
      } else {
        AfterForwardOk(With(px1, s, seen), s, response);
      }
    }
  }

  lemma ConfirmingIsCommand(ses: Session)
    requires SessionOk(ses) && ses.worker == Exchanging(true)
    ensures ses.active.Some? && ses.active.value.frame.ValveCommand().Some?
  {
    hide HistoryOk, QueueOk, WaitersOk, CloudsOk, PhaseOk;
  }

  lemma ForwardedOk(px: Proxy, s: nat, drained: bool)
    requires Has(px, s) && SessionOk(px.sessions[s]) && Enabled(px, StepForwarded(s, drained))
    ensures Sound(Forwarded(px, s, drained), s)
  {
    hide SessionOk, AfterForward, Holding;
    var ses := px.sessions[s];
    ForwardingHolds(ses);
    var c := ses.active.value.origin.cloud;
    CloseCloudHolds(ses, c, ses.worker.response);
    AfterForwardOk(if drained then px else With(px, s, CloseCloud(ses, c)), s, ses.worker.response);
  }

  lemma CheckedOk(px: Proxy, s: nat)
    requires Has(px, s) && SessionOk(px.sessions[s]) && Enabled(px, StepCheck(s))
    ensures Sound(CheckLoop(px, s), s)
  {
    hide SessionOk;
    WorkerMovesOk(px.sessions[s], if IsCurrent(px, s) then Dequeuing else WorkerDone);
  }

  lemma CleanedOk(px: Proxy, s: nat, error: Option<string>)
    requires Has(px, s) && SessionOk(px.sessions[s]) && Enabled(px, StepCleanup(s, error))
    ensures Sound(Cleanup(px, s, error), s)
  {
    hide SessionOk, Swept;
    SweptOk(px.sessions[s]);
  }

  lemma OfferedOk(px: Proxy, s: nat, frame: Frame)
    requires Has(px, s) && SessionOk(px.sessions[s]) && IdsBelow(px.sessions[s], px.nextId)
    requires Enabled(px, StepOffer(s, frame))
    ensures Sound(Offer(px, s, frame), s)
  {
    hide SessionOk;
    var ses := px.sessions[s];
    var c := ses.cloudTask.cloud;
    if IsCurrent(px, s) && Connected(ses, c) {
      if Full(px.limit, ses.queue) {
        CloseCloudOk(ses, c);
        CloudTaskOk(CloseCloud(ses, c), ses.cloud, Closing(c));
      } else {
        AliveIsNotCleaned(ses);
        EnqueueVendorOk(ses, Request(px.nextId, frame, Vendor(c)));
      }
    }
  }

  lemma CloudTaskClouds(ses: Session)
    requires SessionOk(ses)
    ensures ses.cloudTask.Serving? || ses.cloudTask.Closing? ==> ses.cloudTask.cloud in ses.clouds
  {
    hide HistoryOk, QueueOk, WaitersOk, WorkerOk, PhaseOk;
  }

  lemma CloudStepOk(px: Proxy, step: Step, s: nat)
    requires Has(px, s) && SessionOk(px.sessions[s]) && CloudsBelow(px.sessions[s], px.nextCloud) && Enabled(px, step)
    requires step == StepConnectCloud(s) || step == StepDropCloud(s) || step == StepClearCloud(s) || step == StepCloudEnds(s)
    ensures Sound(Do(px, step), s)
  {
    hide SessionOk, DropCloud, ConnectCloud, ClearCloud;
    match step
    case StepConnectCloud(_) => ConnectedOk(px, s);
    case StepDropCloud(_) => DropCloudOk(px.sessions[s]);
    case StepClearCloud(_) => ClearedOk(px, s);
    case StepCloudEnds(_) => CloudTaskOk(px.sessions[s], px.sessions[s].cloud, CloudDone);
  }

  lemma ConnectedOk(px: Proxy, s: nat)
    requires InTask(px, s) && SessionOk(px.sessions[s]) && CloudsBelow(px.sessions[s], px.nextCloud)
    ensures Sound(ConnectCloud(px, s), s)
  {
    hide SessionOk;
    if IsCurrent(px, s) {
      ConnectCloudOk(px.sessions[s], px.nextCloud);
    } else {
      CloudTaskOk(px.sessions[s], px.sessions[s].cloud, CloudDone);
    }
  }

  lemma ClearedOk(px: Proxy, s: nat)
    requires Enabled(px, StepClearCloud(s)) && SessionOk(px.sessions[s])
    ensures Sound(ClearCloud(px, s), s)
  {
    hide SessionOk;
    CloudTaskOk(px.sessions[s], None, Disconnected);
    CloudTaskOk(px.sessions[s], px.sessions[s].cloud, Disconnected);
  }

  lemma DropCloudOk(ses: Session)
    requires SessionOk(ses) && ses.phase.Running? && ses.cloudTask.Serving?
    ensures SessionOk(DropCloud(ses))
  {
    hide SessionOk;
    CloudTaskClouds(ses);
    CloseCloudOk(ses, ses.cloudTask.cloud);
    CloudTaskOk(CloseCloud(ses, ses.cloudTask.cloud), ses.cloud, Closing(ses.cloudTask.cloud));
  }

  /** The session a step works on, when it is a single one. */
  function Subject(px: Proxy, step: Step): Option<nat> {
    match step
    case StepStart => None
    case StepAccept => None
    case StepBeginStop => None
    case StepEndStop(_) => None
    case StepTick(_) => None
    case StepCall(_) => px.session
    case StepPoll(s, _) => Some(s)
    case StepCancelWaiter(s, _) => Some(s)
    case StepResume(s, _) => Some(s)
    case StepBegin(s) => Some(s)
    case StepSkip(s) => Some(s)
    case StepReceive(s, _) => Some(s)
    case StepReaderEnds(s) => Some(s)
    case StepCheck(s) => Some(s)
    case StepDequeue(s) => Some(s)
    case StepTakeAnswer(s) => Some(s)
    case StepForwarded(s, _) => Some(s)
    case StepWorkerFails(s) => Some(s)
    case StepConnectCloud(s) => Some(s)
    case StepOffer(s, _) => Some(s)
    case StepDropCloud(s) => Some(s)
    case StepClearCloud(s) => Some(s)
    case StepCloudEnds(s) => Some(s)
    case StepPollEnds(s) => Some(s)
    case StepCleanup(s, _) => Some(s)
    case StepClosed(s) => Some(s)
  }

  /** What a step on one session may do to the rest of the proxy. */
  ghost predicate OnlySession(px: Proxy, px': Proxy, s: nat) {
    && Has(px, s) && |px'.sessions| == |px.sessions|
    && (forall t :: 0 <= t < |px.sessions| && t != s ==> px'.sessions[t] == px.sessions[t])
    && px'.limit == px.limit && px'.closing == px.closing && px'.stops == px.stops && px'.clock == px.clock
    && (px'.session == px.session || (px'.session == None && px.session == Some(s)))
    && px.nextId <= px'.nextId && px.nextCloud <= px'.nextCloud
    && px.dropped <= px'.dropped && px.offered <= px'.offered
    && px.sessions[s].requests.Keys <= px'.sessions[s].requests.Keys
    && (forall id :: id in px'.sessions[s].requests && id !in px.sessions[s].requests ==> px.nextId <= id < px'.nextId)
    && px.sessions[s].clouds.Keys <= px'.sessions[s].clouds.Keys
    && (forall c :: c in px'.sessions[s].clouds && c !in px.sessions[s].clouds ==> px.nextCloud <= c < px'.nextCloud)
  }

  ghost predicate SameTables(ses: Session, ses': Session) {
    ses'.requests == ses.requests && ses'.clouds.Keys == ses.clouds.Keys
  }

  lemma WorkerTables(px: Proxy, s: nat)
    requires Has(px, s)
    ensures SameTables(px.sessions[s], FailWorker(px.sessions[s]))
    ensures px.sessions[s].active.Some? ==> forall response :: SameTables(px.sessions[s], Finish(px.sessions[s], response))
  {
    hide FailWorker, Finish;
    var ses := px.sessions[s];
    FailFields(ses);
    if ses.active.Some? {
      forall response ensures SameTables(ses, Finish(ses, response)) {
        FinishFields(ses, response);
      }
    }
  }

  lemma AfterForwardTouches(px: Proxy, s: nat, response: Frame)
    requires Has(px, s) && px.sessions[s].active.Some?
    ensures var px' := AfterForward(px, s, response);
            px' == px.(sessions := px.sessions[s := px'.sessions[s]]) && SameTables(px.sessions[s], px'.sessions[s])
  {
    hide ReadStatus, FailWorker, Finish;
    var tagged := With(px, s, px.sessions[s].(tag := NextTag(px.sessions[s].tag)));
    WorkerTables(px, s);
    WorkerTables(tagged, s);
  }

  lemma WithTouches(px: Proxy, s: nat, ses': Session)
    requires Has(px, s) && SameTables(px.sessions[s], ses')
    ensures OnlySession(px, With(px, s, ses'), s)
  {
  }

  lemma DequeueTouches(px: Proxy, s: nat)
    requires Enabled(px, StepDequeue(s))
    ensures OnlySession(px, Dequeue(px, s), s)
  {
    hide FailWorker, Dequeue;
    DequeueForms(px, s);
    FailFields(Head(px.sessions[s]).(worker := Exchanging(false)));
  }

  lemma TakeAnswerTouches(px: Proxy, s: nat)
    requires Enabled(px, StepTakeAnswer(s))
    ensures OnlySession(px, TakeAnswer(px, s), s)
  {
    hide FailWorker, Finish, AfterForward, Observed;
    var ses := px.sessions[s];
    var response := ses.current.value.answer.frame;
    var seen := Seen(ses, response, px.clock);
    WorkerTables(px, s);
    WorkerTables(With(px, s, seen), s);
    var mid := With(px.(state := Observed(px.state, response, px.clock)), s, seen);
    AfterForwardTouches(mid, s, response);
  }

  lemma ForwardedTouches(px: Proxy, s: nat, drained: bool)
    requires Enabled(px, StepForwarded(s, drained))
    ensures OnlySession(px, Forwarded(px, s, drained), s)
  {
    hide AfterForward;
    var ses := px.sessions[s];
    AfterForwardTouches(if drained then px else With(px, s, CloseCloud(ses, ses.active.value.origin.cloud)), s,
                        ses.worker.response);
  }

  lemma SubmitTouches(px: Proxy, s: nat, purpose: Purpose, snapshot: bool)
    requires Has(px, s)
    ensures OnlySession(px, Submit(px, s, purpose, snapshot), s)
  {
    hide RequestFrame;
  }

  lemma ReceiveTouches(px: Proxy, s: nat, frame: Frame)
    requires Has(px, s)
    ensures OnlySession(px, Receive(px, s, frame), s)
  {
    hide Expected;
  }

  lemma OfferTouches(px: Proxy, s: nat, frame: Frame)
    requires Enabled(px, StepOffer(s, frame))
    ensures OnlySession(px, Offer(px, s, frame), s)
  {
  }

  lemma ConnectTouches(px: Proxy, s: nat)
    requires Has(px, s)
    ensures OnlySession(px, ConnectCloud(px, s), s)
  {
  }

  lemma ClearTouches(px: Proxy, s: nat)
    requires Enabled(px, StepClearCloud(s))
    ensures OnlySession(px, ClearCloud(px, s), s)
  {
  }

  lemma CleanupTouches(px: Proxy, s: nat, error: Option<string>)
    requires Has(px, s)
    ensures OnlySession(px, Cleanup(px, s, error), s)
  {
    hide RejectAll, VendorCount, Leftover;
  }

  lemma StepsTouchOneSession(px: Proxy, step: Step)
    requires Enabled(px, step) && PointersOk(px) && Subject(px, step).Some?
    ensures OnlySession(px, Do(px, step), Subject(px, step).value)
  {
    hide Do, Enabled, OnlySession;
    if step.StepBegin? || step.StepSkip? || step.StepReaderEnds? || step.StepCloudEnds? || step.StepPollEnds?
       || step.StepClosed? || step.StepWorkerFails? || step.StepDropCloud? || step.StepCancelWaiter? || step.StepResume? {
      SmallStepsTouchOneSession(px, step);
    } else {
      LargeStepsTouchOneSession(px, step);
    }
  }

  lemma LargeStepsTouchOneSession(px: Proxy, step: Step)
    requires Enabled(px, step) && PointersOk(px) && Subject(px, step).Some?
    requires step.StepCall? || step.StepPoll? || step.StepReceive? || step.StepCheck? || step.StepDequeue?
             || step.StepTakeAnswer? || step.StepForwarded? || step.StepConnectCloud? || step.StepOffer?
             || step.StepClearCloud? || step.StepCleanup?
    ensures OnlySession(px, Do(px, step), Subject(px, step).value)
  {
    hide Submit, Receive, Dequeue, TakeAnswer, Forwarded, Offer, ConnectCloud, ClearCloud, Cleanup, OnlySession, Done,
      CheckLoop;
    var s := Subject(px, step).value;
    match step
    case StepCall(purpose) => SubmitTouches(px, s, purpose, true);
    case StepPoll(_, snapshot) => SubmitTouches(px, s, Poll, snapshot);
    case StepReceive(_, frame) => ReceiveTouches(px, s, frame);
    case StepCheck(_) => CheckTouches(px, s);
    case StepDequeue(_) => DequeueTouches(px, s);
    case StepTakeAnswer(_) => TakeAnswerTouches(px, s);
    case StepForwarded(_, drained) => ForwardedTouches(px, s, drained);
    case StepConnectCloud(_) => ConnectTouches(px, s);
    case StepOffer(_, frame) => OfferTouches(px, s, frame);
    case StepClearCloud(_) => ClearTouches(px, s);
    case StepCleanup(_, error) => CleanupTouches(px, s, error);
  }

  lemma SmallStepsTouchOneSession(px: Proxy, step: Step)
    requires Enabled(px, step) && PointersOk(px) && Subject(px, step).Some?
    requires step.StepBegin? || step.StepSkip? || step.StepReaderEnds? || step.StepCloudEnds? || step.StepPollEnds?
             || step.StepClosed? || step.StepWorkerFails? || step.StepDropCloud? || step.StepCancelWaiter? || step.StepResume?
    ensures OnlySession(px, Do(px, step), Subject(px, step).value)
  {
    hide FailWorker, OnlySession, Done, Verdict, DropCloud;
    var s := Subject(px, step).value;
    var ses := px.sessions[s];
    match step
    case StepCancelWaiter(_, id) => WithTouches(px, s, CancelWaiter(ses, id));
    case StepResume(_, id) => WithTouches(px, s, Resume(px, s, id).sessions[s]);
    case StepBegin(_) => WithTouches(px, s, ses.(phase := Running));
    case StepSkip(_) => WithTouches(px, s, ses.(phase := Skipped));
    case StepReaderEnds(_) => WithTouches(px, s, ses.(readerDone := true));
    case StepWorkerFails(_) =>
      WorkerTables(px, s);
      WithTouches(px, s, FailWorker(ses));
    case StepDropCloud(_) => DropTouches(px, s);
    case StepCloudEnds(_) => WithTouches(px, s, ses.(cloudTask := CloudDone));
    case StepPollEnds(_) => WithTouches(px, s, ses.(pollDone := true));
    case StepClosed(_) => WithTouches(px, s, ses.(closed := true));
  }

  lemma DropTouches(px: Proxy, s: nat)
    requires Enabled(px, StepDropCloud(s))
    ensures OnlySession(px, With(px, s, DropCloud(px.sessions[s])), s)
  {
    hide OnlySession;
    WithTouches(px, s, DropCloud(px.sessions[s]));
  }

  lemma CheckTouches(px: Proxy, s: nat)
    requires Has(px, s)
    ensures OnlySession(px, CheckLoop(px, s), s)
  {
  }

  lemma CallerOrTaskOk(px: Proxy, step: Step, s: nat)
    requires Enabled(px, step) && Subject(px, step) == Some(s)
    requires Has(px, s) && SessionOk(px.sessions[s]) && IdsBelow(px.sessions[s], px.nextId)
    requires step.StepCall? || step.StepPoll? || step.StepCancelWaiter? || step.StepResume? || step.StepBegin?
             || step.StepSkip? || step.StepReceive? || step.StepReaderEnds? || step.StepCheck? || step.StepPollEnds?
             || step.StepCleanup? || step.StepClosed?
    ensures Sound(Do(px, step), s)
  {
    hide SessionOk, Submit, Receive, CheckLoop, Cleanup, CancelWaiter, Resume, Done, IdsBelow;
    var ses := px.sessions[s];
    match step
    case StepCall(purpose) => SubmitOk(px, s, purpose, true);
    case StepPoll(_, snapshot) => SubmitOk(px, s, Poll, snapshot);
    case StepCancelWaiter(_, id) => CancelWaiterOk(ses, id);
    case StepResume(_, id) => ResumeOk(px, s, id);
    case StepBegin(_) => PhaseMovesOk(ses, Running);
    case StepSkip(_) => PhaseMovesOk(ses, Skipped);
    case StepReceive(_, frame) => ReceivedOk(px, s, frame);
    case StepReaderEnds(_) => ReaderDoneOk(ses);
    case StepCheck(_) => CheckedOk(px, s);
    case StepPollEnds(_) => PollDoneOk(ses);
    case StepClosed(_) => ClosedOk(ses);
    case StepCleanup(_, error) => CleanedOk(px, s, error);
  }

  lemma WorkerStepOk(px: Proxy, step: Step, s: nat)
    requires Enabled(px, step) && Subject(px, step) == Some(s) && Has(px, s) && SessionOk(px.sessions[s])
    requires step.StepDequeue? || step.StepTakeAnswer? || step.StepForwarded? || step.StepWorkerFails?
    ensures Sound(Do(px, step), s)
  {
    hide SessionOk, Dequeue, TakeAnswer, Forwarded, FailWorker;
    match step
    case StepDequeue(_) => DequeuedOk(px, s);
    case StepTakeAnswer(_) => TakeAnswerOk(px, s);
    case StepForwarded(_, drained) => ForwardedOk(px, s, drained);
    case StepWorkerFails(_) => FailWorkerOk(px.sessions[s]);
  }

  lemma OfferStepOk(px: Proxy, step: Step, s: nat)
    requires Enabled(px, step) && step.StepOffer? && step.s == s && Has(px, s)
    requires SessionOk(px.sessions[s]) && IdsBelow(px.sessions[s], px.nextId)
    ensures Sound(Do(px, step), s)
  {
    hide SessionOk, Offer;
    OfferedOk(px, s, step.frame);
  }

  lemma SubjectGood(px: Proxy, step: Step)
    requires Enabled(px, step) && PointersOk(px) && SessionsOk(px) && Subject(px, step).Some?
    ensures var s := Subject(px, step).value; Has(px, s) && Good(px, px.sessions[s])
  {
    hide Do, Good;
    StepsTouchOneSession(px, step);
  }

  lemma SubjectOk(px: Proxy, step: Step)
    requires Enabled(px, step) && Subject(px, step).Some?
    requires var s := Subject(px, step).value; Has(px, s) && Good(px, px.sessions[s])
    ensures Sound(Do(px, step), Subject(px, step).value)
  {
    hide Do, Enabled, SessionOk, IdsBelow, CloudsBelow;
    var s := Subject(px, step).value;
    if step.StepDequeue? || step.StepTakeAnswer? || step.StepForwarded? || step.StepWorkerFails? {
      WorkerStepOk(px, step, s);
    } else if step.StepOffer? {
      OfferStepOk(px, step, s);
    } else if step.StepConnectCloud? || step.StepDropCloud? || step.StepClearCloud? || step.StepCloudEnds? {
      CloudStepOk(px, step, s);
    } else {
      CallerOrTaskOk(px, step, s);
    }
  }

  lemma RetireTables(ses: Session)
    ensures SameTables(ses, Retire(ses)) && SameTables(ses, CancelTask(ses))
  {
  }

  /** A step on one session keeps what holds of all of them. */
  lemma OneSessionKept(px: Proxy, px': Proxy, s: nat)
    requires PointersOk(px) && SessionsOk(px) && Apart(px) && OnlySession(px, px', s) && SessionOk(px'.sessions[s])
    ensures PointersOk(px') && SessionsOk(px') && Apart(px')
  {
    hide SessionOk;
    forall t | 0 <= t < |px'.sessions| ensures Good(px', px'.sessions[t]) {
      assert Good(px, px.sessions[t]);
    }
    forall t, u | 0 <= t < u < |px'.sessions| ensures Disjoint(px'.sessions[t], px'.sessions[u]) {
      assert Disjoint(px.sessions[t], px.sessions[u]);
      assert Good(px, px.sessions[t]) && Good(px, px.sessions[u]);
    }
  }

  lemma SessionsKept(px: Proxy, step: Step)
    requires Enabled(px, step) && PointersOk(px) && SessionsOk(px) && Apart(px)
    ensures PointersOk(Do(px, step)) && SessionsOk(Do(px, step)) && Apart(Do(px, step))
  {
    if Subject(px, step).Some? {
      hide *;
      SubjectGood(px, step);
      SubjectOk(px, step);
      StepsTouchOneSession(px, step);
      OneSessionKept(px, Do(px, step), Subject(px, step).value);
    } else if step.StepAccept? {
      AcceptKept(px);
    } else if step.StepBeginStop? {
      BeginStopKept(px);
    } else {
      hide SessionOk;
      forall t | 0 <= t < |px.sessions| ensures Good(Do(px, step), px.sessions[t]) {
        assert Good(px, px.sessions[t]);
      }
      assert forall t, u :: 0 <= t < u < |px.sessions| ==> Disjoint(px.sessions[t], px.sessions[u]);
    }
  }

  lemma AcceptKept(px: Proxy)
    requires PointersOk(px) && SessionsOk(px) && Apart(px)
    ensures PointersOk(Accept(px)) && SessionsOk(Accept(px)) && Apart(Accept(px))
  {
    hide SessionOk, Retire;
    var px' := Accept(px);
    NewSessionOk();
    if px.session.Some? {
      assert Good(px, px.sessions[px.session.value]);
      RetireOk(px.sessions[px.session.value]);
      RetireTables(px.sessions[px.session.value]);
    }
    forall t | 0 <= t < |px'.sessions| ensures Good(px', px'.sessions[t]) {
      assert t < |px.sessions| ==> Good(px, px.sessions[t]);
    }
    forall t, u | 0 <= t < u < |px'.sessions| ensures Disjoint(px'.sessions[t], px'.sessions[u]) {
      assert u < |px.sessions| ==> Disjoint(px.sessions[t], px.sessions[u]);
    }
  }

  lemma BeginStopKept(px: Proxy)
    requires PointersOk(px) && SessionsOk(px) && Apart(px)
    ensures PointersOk(BeginStop(px)) && SessionsOk(BeginStop(px)) && Apart(BeginStop(px))
  {
    hide SessionOk, CancelTask;
    var px' := BeginStop(px);
    forall t | 0 <= t < |px.sessions|
      ensures Good(px', px'.sessions[t]) && SameTables(px.sessions[t], px'.sessions[t])
    {
      assert Good(px, px.sessions[t]);
      CancelTaskOk(px.sessions[t]);
      RetireTables(px.sessions[t]);
    }
    forall t, u | 0 <= t < u < |px'.sessions| ensures Disjoint(px'.sessions[t], px'.sessions[u]) {
      assert Disjoint(px.sessions[t], px.sessions[u]);
    }
  }
}
