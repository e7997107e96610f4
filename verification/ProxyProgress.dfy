/**
 What one step may change: logs only grow, completed futures and closed connections stay as
 they are, and a request is written only by the current session, from the head of its queue,
 while somebody still wants it.
 */
module ProxyProgress {
  import opened Base
  import opened Protocol
  import opened ProxyModel
  import opened ProxyInvariant
  import opened ProxySafety

  ghost predicate WaiterAdvances(w: Waiter, w': Waiter) {
    && w'.purpose == w.purpose
    && w.completions <= w'.completions
    && (Done(w.future) ==> w'.future == w.future && w'.completions == w.completions)
    && (w.outcome.Some? ==> w'.outcome == w.outcome)
  }

  ghost predicate CloudAdvances(ses: Session, ses': Session, c: nat) {
    && c in ses.clouds && c in ses'.clouds
    && ses.clouds[c].offered <= ses'.clouds[c].offered
    && ses.clouds[c].back <= ses'.clouds[c].back
    && (!Connected(ses, c) ==> !Connected(ses', c))
  }

  ghost predicate TasksAdvance(ses: Session, ses': Session) {
    && (ses'.alive ==> ses.alive)
    && (ses.cancelled ==> ses'.cancelled)
    && (ses.readerDone ==> ses'.readerDone)
    && (ses.worker.WorkerDone? ==> ses'.worker.WorkerDone?)
    && (ses.phase.Cleaned? || ses.phase.Skipped? ==> ses'.phase == ses.phase)
    && (ses.phase.Running? ==> ses'.phase.Running? || ses'.phase.Cleaned?)
  }

  ghost predicate LogsAdvance(ses: Session, ses': Session) {
    && ses.history <= ses'.history && |ses'.history| <= |ses.history| + 1
    && ses.observedAt <= ses'.observedAt
    && (forall id :: id in ses.requests ==> id in ses'.requests && ses'.requests[id] == ses.requests[id])
  }

  ghost predicate Advances(ses: Session, ses': Session) {
    && TasksAdvance(ses, ses') && LogsAdvance(ses, ses')
    && (forall id :: id in ses.waiters ==> id in ses'.waiters && WaiterAdvances(ses.waiters[id], ses'.waiters[id]))
    && (forall c :: c in ses.clouds ==> CloudAdvances(ses, ses', c))
  }

  /** Nobody cancelled a local request, and a vendor request's connection is still the session's. */
  ghost predicate Wanted(ses: Session, r: Request) {
    match r.origin
    case Local => !(r.id in ses.waiters && ses.waiters[r.id].future.Cancelled?)
    case Vendor(c) => Connected(ses, c)
  }

  /** The conditions under which the history of session `s` gets its next event. */
  ghost predicate EventIsDue(px: Proxy, s: nat, ses': Session)
    requires Has(px, s)
  {
    var ses := px.sessions[s];
    |ses'.history| == |ses.history| + 1 ==>
      && IsCurrent(px, s)
      && match ses'.history[|ses.history|]
         case Wrote(r, _, confirming) => confirming || (ses.queue != [] && ses.queue[0] == r && Wanted(ses, r))
         case Answered(frame) => !ses.readerDone && Expected(ses, frame)
  }

  ghost predicate GoodStep(px: Proxy, px': Proxy, s: nat) {
    && Has(px, s) && Has(px', s)
    && Advances(px.sessions[s], px'.sessions[s])
    && EventIsDue(px, s, px'.sessions[s])
  }

  lemma Stutters(ses: Session)
    ensures Advances(ses, ses)
  {
  }

  /** Changes that leave the history alone. */
  lemma QuietStep(px: Proxy, s: nat, px': Proxy)
    requires Has(px, s) && Has(px', s) && Advances(px.sessions[s], px'.sessions[s])
    requires px'.sessions[s].history == px.sessions[s].history
    ensures GoodStep(px, px', s)
  {
    hide Advances;
  }

  lemma FlagsAdvance(ses: Session, ses': Session)
    requires TasksAdvance(ses, ses')
    requires ses'.history == ses.history && ses'.observedAt == ses.observedAt && ses'.requests == ses.requests
    requires ses'.waiters == ses.waiters && ses'.clouds == ses.clouds && ses'.cloud == ses.cloud
    ensures Advances(ses, ses')
  {
  }

  lemma CloseCloudAdvances(ses: Session, c: nat)
    ensures Advances(ses, CloseCloud(ses, c))
  {
    hide CloseCloud;
    CloseFields(ses, c);
  }

  lemma RetireAdvances(ses: Session)
    ensures Advances(ses, Retire(ses)) && Advances(ses, CancelTask(ses))
  {
    hide Advances, CloseCloud;
    var closed := CloseCurrentCloud(ses);
    if ses.cloud.Some? {
      CloseCloudAdvances(ses, ses.cloud.value);
      CloseFields(ses, ses.cloud.value);
    } else {
      Stutters(ses);
    }
    FlagsAdvance(closed, Retire(ses));
    AdvancesTransitively(ses, closed, Retire(ses));
    FlagsAdvance(ses, CancelTask(ses));
  }

  lemma CompleteAdvances(ses: Session, id: nat, future: Future)
    requires id in ses.waiters && !Done(ses.waiters[id].future)
    ensures Advances(ses, Complete(ses, id, future))
  {
  }

  lemma FailWorkerAdvances(ses: Session)
    ensures Advances(ses, FailWorker(ses)) && FailWorker(ses).history == ses.history
  {
    hide Advances, FailWorker;
    FailFields(ses);
    FlagsAdvance(ses, FailWorker(ses));
  }

  lemma FinishAdvances(ses: Session, response: Frame)
    requires ses.active.Some? && !ses.worker.WorkerDone?
    ensures Advances(ses, Finish(ses, response)) && Finish(ses, response).history == ses.history
  {
    hide Advances, Complete, ReleaseActive;
    var r := ses.active.value;
    if r.origin.Local? && r.id in ses.waiters && !Done(ses.waiters[r.id].future) {
      var resolved := Complete(ses, r.id, Resolved(response));
      CompleteFields(ses, r.id, Resolved(response));
      CompleteAdvances(ses, r.id, Resolved(response));
      ReleaseAdvances(resolved);
      AdvancesTransitively(ses, resolved, Finish(ses, response));
    } else {
      ReleaseAdvances(ses);
    }
  }

  lemma ReleaseAdvances(ses: Session)
    requires !ses.worker.WorkerDone?
    ensures var ses' := ReleaseActive(ses).(worker := Checking);
            Advances(ses, ses') && ses'.history == ses.history
  {
    ReleaseFields(ses);
    hide Advances, ReleaseActive;
    FlagsAdvance(ses, ReleaseActive(ses).(worker := Checking));
  }

  lemma CompleteFields(ses: Session, id: nat, future: Future)
    requires id in ses.waiters
    ensures Complete(ses, id, future) == ses.(waiters := Complete(ses, id, future).waiters)
    ensures id in Complete(ses, id, future).waiters && Complete(ses, id, future).waiters[id].future == future
  {
  }

  /** Advancing without a new event composes. */
  lemma AdvancesTransitively(a: Session, b: Session, c: Session)
    requires Advances(a, b) && Advances(b, c) && a.history == b.history
    ensures Advances(a, c)
  {
    assert TasksAdvance(a, c) && LogsAdvance(a, c);
    forall id | id in a.waiters ensures id in c.waiters && WaiterAdvances(a.waiters[id], c.waiters[id]) {
      assert WaiterAdvances(a.waiters[id], b.waiters[id]);
      assert WaiterAdvances(b.waiters[id], c.waiters[id]);
    }
    forall d | d in a.clouds ensures CloudAdvances(a, c, d) {
      assert CloudAdvances(a, b, d);
      assert CloudAdvances(b, c, d);
    }
  }

  lemma WriteAdvances(ses: Session, r: Request, frame: Frame, confirming: bool)
    requires !ses.worker.WorkerDone?
    ensures Advances(ses, WriteFrame(ses, r, frame, confirming))
  {
  }

  lemma AfterForwardAdvances(px: Proxy, s: nat, response: Frame)
    requires Has(px, s) && px.sessions[s].active.Some? && !px.sessions[s].worker.WorkerDone?
    ensures GoodStep(px, AfterForward(px, s, response), s)
  {
    hide FailWorker, Finish, WriteFrame, Advances, ReadStatus;
    var ses := px.sessions[s];
    var tagged := ses.(tag := NextTag(ses.tag));
    FlagsAdvance(ses, tagged);
    FinishAdvances(ses, response);
    FailWorkerAdvances(ses);
    FailWorkerAdvances(tagged);
    AdvancesTransitively(ses, tagged, FailWorker(tagged));
    WriteAdvances(tagged, ses.active.value, ReadStatus(tagged.tag), true);
    AdvancesTransitively(ses, tagged, WriteFrame(tagged, ses.active.value, ReadStatus(tagged.tag), true));
    WrittenHistory(tagged, ses.active.value, ReadStatus(tagged.tag), true);
  }

  lemma WrittenHistory(ses: Session, r: Request, frame: Frame, confirming: bool)
    ensures WriteFrame(ses, r, frame, confirming).history == ses.history + [Wrote(r, frame, confirming)]
  {
  }

  lemma DequeueAdvances(px: Proxy, s: nat)
    requires Enabled(px, StepDequeue(s))
    ensures GoodStep(px, Dequeue(px, s), s)
  {
    hide FailWorker, WriteFrame, Advances;
    var ses := px.sessions[s];
    var r := ses.queue[0];
    var head := Head(ses);
    var failing := head.(worker := Exchanging(false));
    FlagsAdvance(ses, head);
    FlagsAdvance(ses, failing);
    FlagsAdvance(ses, head.(active := None, worker := Checking));
    FailWorkerAdvances(failing);
    AdvancesTransitively(ses, failing, FailWorker(failing));
    WriteAdvances(head, r, r.frame, false);
    AdvancesTransitively(ses, head, WriteFrame(head, r, r.frame, false));
    WrittenHistory(head, r, r.frame, false);
  }

  lemma SeenAdvances(ses: Session, response: Frame, now: int)
    requires !ses.worker.WorkerDone?
    ensures Advances(ses, Seen(ses, response, now))
    ensures forall c :: c in ses.clouds ==> Advances(ses, SentBack(Seen(ses, response, now), c, response))
  {
    hide Advances;
    var seen := Seen(ses, response, now);
    assert Advances(ses, seen) by { ObservingAdvances(ses, response, now); }
    forall c | c in ses.clouds ensures Advances(ses, SentBack(seen, c, response)) {
      SentBackAdvances(seen, c, response);
      AdvancesTransitively(ses, seen, SentBack(seen, c, response));
    }
  }

  lemma ObservingAdvances(ses: Session, response: Frame, now: int)
    requires !ses.worker.WorkerDone?
    ensures Advances(ses, Seen(ses, response, now))
  {
  }

  lemma SentBackAdvances(ses: Session, c: nat, response: Frame)
    requires c in ses.clouds
    ensures Advances(ses, SentBack(ses, c, response))
  {
  }

  lemma TakeAnswerAdvances(px: Proxy, s: nat)
    requires Enabled(px, StepTakeAnswer(s))
    ensures GoodStep(px, TakeAnswer(px, s), s)
  {
    hide FailWorker, Finish, AfterForward, Advances, Observed;
    var ses := px.sessions[s];
    var response := ses.current.value.answer.frame;
    FailWorkerAdvances(ses);
    if IsCurrent(px, s) {
      var seen := Seen(ses, response, px.clock);
      SeenAdvances(ses, response, px.clock);
      FinishAdvances(seen, response);
      AdvancesTransitively(ses, seen, Finish(seen, response));
      var mid := With(px.(state := Observed(px.state, response, px.clock)), s, seen);
      AfterForwardAdvances(mid, s, response);
      AdvancesTransitively(ses, seen, AfterForward(mid, s, response).sessions[s]);
      AfterSeen(px, mid, s, AfterForward(mid, s, response));
    }
  }

  /** A confirming write after the answer was seen is due in the state before, too. */
  lemma AfterSeen(px: Proxy, mid: Proxy, s: nat, px': Proxy)
    requires Has(px, s) && Has(mid, s) && Has(px', s) && GoodStep(mid, px', s)
    requires IsCurrent(px, s) && mid.sessions[s].history == px.sessions[s].history
    requires mid.sessions[s].queue == px.sessions[s].queue && mid.sessions[s].waiters == px.sessions[s].waiters
    requires mid.sessions[s].clouds == px.sessions[s].clouds && mid.sessions[s].cloud == px.sessions[s].cloud
    requires mid.sessions[s].current == None
    ensures EventIsDue(px, s, px'.sessions[s])
  {
    hide Advances;
  }

  lemma ForwardedAdvances(px: Proxy, s: nat, drained: bool)
    requires Enabled(px, StepForwarded(s, drained)) && px.sessions[s].current == None
    ensures GoodStep(px, Forwarded(px, s, drained), s)
  {
    hide AfterForward, Advances;
    var ses := px.sessions[s];
    var c := ses.active.value.origin.cloud;
    if drained {
      AfterForwardAdvances(px, s, ses.worker.response);
    } else {
      var mid := With(px, s, CloseCloud(ses, c));
      CloseCloudAdvances(ses, c);
      AfterForwardAdvances(mid, s, ses.worker.response);
      AdvancesTransitively(ses, mid.sessions[s], AfterForward(mid, s, ses.worker.response).sessions[s]);
      ClosedEvent(px, mid, s, AfterForward(mid, s, ses.worker.response), c);
    }
  }

  lemma ClosedEvent(px: Proxy, mid: Proxy, s: nat, px': Proxy, c: nat)
    requires Has(px, s) && mid == With(px, s, CloseCloud(px.sessions[s], c)) && GoodStep(mid, px', s)
    ensures EventIsDue(px, s, px'.sessions[s])
  {
    hide Advances;
  }

  lemma ReceiveAdvances(px: Proxy, s: nat, frame: Frame)
    requires Enabled(px, StepReceive(s, frame))
    ensures GoodStep(px, Receive(px, s, frame), s)
  {
  }

  lemma SubmitAdvances(px: Proxy, s: nat, purpose: Purpose, snapshot: bool)
    requires Has(px, s) && Good(px, px.sessions[s])
    ensures GoodStep(px, Submit(px, s, purpose, snapshot), s)
  {
    hide SessionOk, RequestFrame, Advances;
    NewIdIsNew(px, s);
    var ses := px.sessions[s].(tag := NextTag(px.sessions[s].tag));
    FlagsAdvance(px.sessions[s], ses);
    if !Full(px.limit, ses.queue) {
      var request := Request(px.nextId, RequestFrame(ses.tag, purpose, snapshot), Local);
      QueuedAdvances(px.sessions[s], ses.tag, request, purpose);
    }
    QuietStep(px, s, Submit(px, s, purpose, snapshot));
  }

  lemma QueuedAdvances(ses: Session, tag: Tag, request: Request, purpose: Purpose)
    requires request.id !in ses.requests && request.id !in ses.waiters
    ensures Advances(ses, ses.(tag := tag, queue := ses.queue + [request], requests := ses.requests[request.id := request],
                               waiters := ses.waiters[request.id := Waiter(purpose, Pending, None, 0)]))
  {
  }

  lemma NewIdIsNew(px: Proxy, s: nat)
    requires Has(px, s) && Good(px, px.sessions[s])
    ensures px.nextId !in px.sessions[s].requests && px.nextId !in px.sessions[s].waiters
  {
    hide HistoryOk, WorkerOk, QueueOk, CloudsOk, PhaseOk;
    var ses := px.sessions[s];
    forall id | id in ses.waiters ensures id in ses.requests {
      assert WaiterOk(ses, id);
    }
  }

  lemma OfferAdvances(px: Proxy, s: nat, frame: Frame)
    requires Enabled(px, StepOffer(s, frame)) && Good(px, px.sessions[s])
    ensures GoodStep(px, Offer(px, s, frame), s)
  {
    hide SessionOk, CloseCloud, Advances;
    var ses := px.sessions[s];
    var c := ses.cloudTask.cloud;
    NewIdIsNew(px, s);
    CloseCloudAdvances(ses, c);
    CloseFields(ses, c);
    var closed := CloseCloud(ses, c);
    FlagsAdvance(closed, closed.(cloudTask := Closing(c)));
    AdvancesTransitively(ses, closed, closed.(cloudTask := Closing(c)));
    Stutters(ses);
    if Connected(ses, c) {
      OfferedAdvances(ses, Request(px.nextId, frame, Vendor(c)), c);
    }
  }

  lemma OfferedAdvances(ses: Session, r: Request, c: nat)
    requires Connected(ses, c) && r.id !in ses.requests
    ensures Advances(ses, ses.(
      queue := ses.queue + [r],
      requests := ses.requests[r.id := r],
      clouds := ses.clouds[c := ses.clouds[c].(offered := ses.clouds[c].offered + [r.frame])]))
  {
  }

  lemma ConnectAdvances(px: Proxy, s: nat)
    requires Enabled(px, StepConnectCloud(s)) && Good(px, px.sessions[s])
    ensures GoodStep(px, ConnectCloud(px, s), s)
  {
    hide SessionOk;
  }

  lemma ClearAdvances(px: Proxy, s: nat)
    requires Enabled(px, StepClearCloud(s))
    ensures GoodStep(px, ClearCloud(px, s), s)
  {
    hide Advances;
    ForgettingAdvances(px.sessions[s], None);
    ForgettingAdvances(px.sessions[s], px.sessions[s].cloud);
    QuietStep(px, s, ClearCloud(px, s));
  }

  lemma ForgettingAdvances(ses: Session, cloud: Option<nat>)
    requires cloud == None || cloud == ses.cloud
    ensures Advances(ses, ses.(cloud := cloud, cloudTask := Disconnected))
  {
  }

  lemma SweptAdvances(ses: Session)
    requires ses.phase.Running? && TasksDone(ses)
    ensures Advances(ses, Swept(ses))
  {
    hide CloseCloud, Advances, RejectAll, Leftover;
    var closed := CloseCurrentCloud(ses);
    if ses.cloud.Some? {
      CloseFields(ses, ses.cloud.value);
      CloseCloudAdvances(ses, ses.cloud.value);
    } else {
      Stutters(ses);
    }
    RejectingAdvances(closed, Leftover(ses));
    AdvancesTransitively(ses, closed, Swept(ses));
  }

  lemma RejectingAdvances(ses: Session, leftover: seq<Request>)
    requires ses.phase.Running? && TasksDone(ses)
    ensures Advances(ses, ses.(alive := false, phase := Cleaned, current := None, queue := [],
                               waiters := RejectAll(ses.waiters, leftover)))
  {
    hide Mentions;
  }

  lemma CleanupAdvances(px: Proxy, s: nat, error: Option<string>)
    requires Enabled(px, StepCleanup(s, error))
    ensures GoodStep(px, Cleanup(px, s, error), s)
  {
    hide Swept, Advances, VendorCount;
    SweptAdvances(px.sessions[s]);
    QuietSwept(px.sessions[s]);
    QuietStep(px, s, Cleanup(px, s, error));
  }

  lemma QuietSwept(ses: Session)
    ensures Swept(ses).history == ses.history
  {
  }

  lemma FlagStep(px: Proxy, s: nat, ses': Session)
    requires Has(px, s) && TasksAdvance(px.sessions[s], ses')
    requires var ses := px.sessions[s];
             ses'.history == ses.history && ses'.observedAt == ses.observedAt && ses'.requests == ses.requests
             && ses'.waiters == ses.waiters && ses'.clouds == ses.clouds && ses'.cloud == ses.cloud
    ensures GoodStep(px, With(px, s, ses'), s)
  {
    hide Advances, TasksAdvance;
    FlagsAdvance(px.sessions[s], ses');
    QuietStep(px, s, With(px, s, ses'));
  }

  lemma CallerStep(px: Proxy, step: Step, s: nat)
    requires Enabled(px, step) && Subject(px, step) == Some(s) && Has(px, s) && Good(px, px.sessions[s])
    requires step.StepCall? || step.StepPoll? || step.StepCancelWaiter? || step.StepResume?
    ensures GoodStep(px, Do(px, step), s)
  {
    hide SessionOk, Submit, Verdict, GoodStep;
    match step
    case StepCall(purpose) => SubmitAdvances(px, s, purpose, true);
    case StepPoll(_, snapshot) => SubmitAdvances(px, s, Poll, snapshot);
    case StepCancelWaiter(_, id) => CancelAdvances(px, s, id);
    case StepResume(_, id) => ResumeAdvances(px, s, id);
  }

  lemma CancelAdvances(px: Proxy, s: nat, id: nat)
    requires Enabled(px, StepCancelWaiter(s, id))
    ensures GoodStep(px, With(px, s, CancelWaiter(px.sessions[s], id)), s)
  {
  }

  lemma ResumeAdvances(px: Proxy, s: nat, id: nat)
    requires Enabled(px, StepResume(s, id))
    ensures GoodStep(px, Resume(px, s, id), s)
  {
    hide Verdict;
  }

  lemma MarkStep(px: Proxy, step: Step, s: nat)
    requires Enabled(px, step) && Subject(px, step) == Some(s) && Has(px, s)
    requires step.StepReaderEnds? || step.StepPollEnds? || step.StepClosed?
    ensures GoodStep(px, Do(px, step), s)
  {
    hide GoodStep;
    var ses := px.sessions[s];
    match step
    case StepReaderEnds(_) => FlagStep(px, s, ses.(readerDone := true));
    case StepPollEnds(_) => FlagStep(px, s, ses.(pollDone := true));
    case StepClosed(_) => FlagStep(px, s, ses.(closed := true));
  }

  lemma PhaseStep(px: Proxy, step: Step, s: nat)
    requires Enabled(px, step) && Subject(px, step) == Some(s) && Has(px, s)
    requires step.StepBegin? || step.StepSkip? || step.StepCheck?
    ensures GoodStep(px, Do(px, step), s)
  {
    hide GoodStep;
    var ses := px.sessions[s];
    match step
    case StepBegin(_) => FlagStep(px, s, ses.(phase := Running));
    case StepSkip(_) => FlagStep(px, s, ses.(phase := Skipped));
    case StepCheck(_) => FlagStep(px, s, ses.(worker := if IsCurrent(px, s) then Dequeuing else WorkerDone));
  }

  lemma TaskStep(px: Proxy, step: Step, s: nat)
    requires Enabled(px, step) && Subject(px, step) == Some(s) && Has(px, s)
    requires step.StepReceive? || step.StepCleanup? || step.StepWorkerFails?
    ensures GoodStep(px, Do(px, step), s)
  {
    hide Receive, Cleanup, FailWorker, GoodStep;
    var ses := px.sessions[s];
    match step
    case StepReceive(_, frame) => ReceiveAdvances(px, s, frame);
    case StepCleanup(_, error) => CleanupAdvances(px, s, error);
    case StepWorkerFails(_) =>
      FailWorkerAdvances(ses);
      QuietStep(px, s, With(px, s, FailWorker(ses)));
  }

  lemma WorkerStep(px: Proxy, step: Step, s: nat)
    requires Enabled(px, step) && Subject(px, step) == Some(s) && Has(px, s) && SessionOk(px.sessions[s])
    requires step.StepDequeue? || step.StepTakeAnswer? || step.StepForwarded?
    ensures GoodStep(px, Do(px, step), s)
  {
    hide Dequeue, TakeAnswer, Forwarded, GoodStep, SessionOk;
    match step
    case StepDequeue(_) => DequeueAdvances(px, s);
    case StepTakeAnswer(_) => TakeAnswerAdvances(px, s);
    case StepForwarded(_, drained) =>
      assert px.sessions[s].current == None by { ForwardingIsIdle(px.sessions[s]); }
      ForwardedAdvances(px, s, drained);
  }

  lemma ForwardingIsIdle(ses: Session)
    requires SessionOk(ses) && ses.worker.Forwarding?
    ensures ses.current == None
  {
    hide HistoryOk, QueueOk, WaitersOk, CloudsOk, PhaseOk;
  }

  lemma CloudStep(px: Proxy, step: Step, s: nat)
    requires Enabled(px, step) && Subject(px, step) == Some(s) && Has(px, s) && Good(px, px.sessions[s])
    requires step.StepOffer? || step.StepConnectCloud? || step.StepDropCloud? || step.StepClearCloud?
             || step.StepCloudEnds?
    ensures GoodStep(px, Do(px, step), s)
  {
    hide Offer, ConnectCloud, ClearCloud, GoodStep, SessionOk;
    var ses := px.sessions[s];
    match step
    case StepOffer(_, frame) => OfferAdvances(px, s, frame);
    case StepConnectCloud(_) => ConnectAdvances(px, s);
    case StepDropCloud(_) => DropAdvances(px, s);
    case StepClearCloud(_) => ClearAdvances(px, s);
    case StepCloudEnds(_) => FlagStep(px, s, ses.(cloudTask := CloudDone));
  }

  lemma DropAdvances(px: Proxy, s: nat)
    requires Enabled(px, StepDropCloud(s))
    ensures GoodStep(px, With(px, s, DropCloud(px.sessions[s])), s)
  {
    hide Advances, CloseCloud;
    var ses := px.sessions[s];
    var closed := CloseCloud(ses, ses.cloudTask.cloud);
    CloseFields(ses, ses.cloudTask.cloud);
    CloseCloudAdvances(ses, ses.cloudTask.cloud);
    FlagsAdvance(closed, DropCloud(ses));
    AdvancesTransitively(ses, closed, DropCloud(ses));
    QuietStep(px, s, With(px, s, DropCloud(ses)));
  }

  lemma SubjectAdvances(px: Proxy, step: Step, s: nat)
    requires Enabled(px, step) && Subject(px, step) == Some(s) && Has(px, s) && Good(px, px.sessions[s])
    ensures GoodStep(px, Do(px, step), s)
  {
    hide Do, Enabled, GoodStep, SessionOk;
    if step.StepDequeue? || step.StepTakeAnswer? || step.StepForwarded? {
      WorkerStep(px, step, s);
    } else if step.StepCall? || step.StepPoll? || step.StepCancelWaiter? || step.StepResume? {
      CallerStep(px, step, s);
    } else if step.StepOffer? || step.StepConnectCloud? || step.StepDropCloud? || step.StepClearCloud?
              || step.StepCloudEnds? {
      CloudStep(px, step, s);
    } else if step.StepBegin? || step.StepSkip? || step.StepCheck? {
      PhaseStep(px, step, s);
    } else if step.StepReaderEnds? || step.StepPollEnds? || step.StepClosed? {
      MarkStep(px, step, s);
    } else {
      TaskStep(px, step, s);
    }
  }

  /** Every step of the machine advances every session. */
  lemma EveryStepAdvances(px: Proxy, step: Step, s: nat)
    requires Enabled(px, step) && PointersOk(px) && SessionsOk(px) && Has(px, s)
    ensures GoodStep(px, Do(px, step), s)
  {
    var ses := px.sessions[s];
    if Subject(px, step).Some? {
      hide *;
      SubjectGood(px, step);
      var t := Subject(px, step).value;
      if s == t {
        SubjectAdvances(px, step, s);
      } else {
        StepsTouchOneSession(px, step);
        Untouched(px, Do(px, step), t, s);
      }
    } else {
      OtherSteps(px, step, s);
    }
  }

  lemma Untouched(px: Proxy, px': Proxy, t: nat, s: nat)
    requires OnlySession(px, px', t) && s != t && Has(px, s)
    ensures GoodStep(px, px', s)
  {
    hide Advances;
    Stutters(px.sessions[s]);
    QuietStep(px, s, px');
  }

  lemma OtherSteps(px: Proxy, step: Step, s: nat)
    requires Enabled(px, step) && Subject(px, step) == None && Has(px, s)
    ensures GoodStep(px, Do(px, step), s)
  {
    hide Advances, Retire, CancelTask;
    var ses := px.sessions[s];
    Stutters(ses);
    RetireAdvances(ses);
    RetireIsQuiet(ses);
    QuietStep(px, s, Do(px, step));
  }

  lemma RetireIsQuiet(ses: Session)
    ensures Retire(ses).history == ses.history && CancelTask(ses).history == ses.history
  {
  }
}
