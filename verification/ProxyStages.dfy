/**
 Where the tasks of a session are after each step: the worker, the vendor loop, the reader, the
 poller and the session task itself.
 */
module ProxyStages {
  import opened Base
  import opened Protocol
  import opened Envelope
  import opened ProxyModel
  import opened ProxyInvariant
  import opened ProxySafety
  import opened ProxyTheorems
  import opened ProxyService
  import opened ProxyLaws
  import opened ProxyExactly
  import opened ProxyChanges

  // ----- The worker ----------------------------------------------------------------------------

  /** After the vendor has its answer, or there is no vendor to get it. */
  ghost function Onward(acts: bool, commands: bool, empty: bool): WorkerAt {
    if !commands then Checking else if empty && acts then Exchanging(true) else WorkerDone
  }

  /** Where the worker of session `s` is after a step. */
  ghost function StageAfter(px: Proxy, step: Step, s: nat): WorkerAt
    requires Has(px, s)
  {
    var ses := px.sessions[s];
    match step
    case StepCheck(t) => if t != s then ses.worker else if Acts(px, s) then Dequeuing else WorkerDone
    case StepDequeue(t) =>
      if t != s || ses.queue == [] then ses.worker
      else if !Asked(ses, ses.queue[0]) then Checking
      else if Acts(px, s) then Exchanging(false) else WorkerDone
    case StepTakeAnswer(t) =>
      if t != s || !ses.worker.Exchanging? || ses.active == None || ses.current == None
         || !ses.current.value.answer.Resolved? then ses.worker
      else
        var answer, r := ses.current.value.answer.frame, ses.active.value;
        if !Acts(px, s) then WorkerDone
        else if ses.worker.confirming then Checking
        else if r.origin.Vendor? && Live(ses, r.origin.cloud) then Forwarding(answer)
        else Onward(true, Commands(r.frame), Empty(answer))
    case StepForwarded(t, _) =>
      if t != s || !ses.worker.Forwarding? || ses.active == None then ses.worker
      else Onward(Acts(px, s), Commands(ses.active.value.frame), Empty(ses.worker.response))
    case StepWorkerFails(t) => if t == s then WorkerDone else ses.worker
    case _ => ses.worker
  }

  /** The worker moves exactly as written. */
  lemma WorkerExactly(px: Proxy, step: Step, s: nat)
    requires PointersOk(px) && Enabled(px, step) && Has(px, s)
    ensures Has(Do(px, step), s) && Do(px, step).sessions[s].worker == StageAfter(px, step, s)
  {
    hide Commands, Onward;
    if Subject(px, step) == None {
      ListenerStage(px, step, s);
    } else if Subject(px, step) != Some(s) {
      hide Do, Enabled;
      StepsTouchOneSession(px, step);
    } else {
      hide PointersOk;
      SubjectStage(px, step, s);
    }
  }

  lemma ListenerStage(px: Proxy, step: Step, s: nat)
    requires Enabled(px, step) && Subject(px, step) == None && Has(px, s)
    ensures Has(Do(px, step), s) && Do(px, step).sessions[s].worker == px.sessions[s].worker == StageAfter(px, step, s)
  {
    hide Retire;
    RetireFrame(px.sessions[s]);
  }

  lemma SubjectStage(px: Proxy, step: Step, s: nat)
    requires Enabled(px, step) && Subject(px, step) == Some(s) && Has(px, s)
    ensures Has(Do(px, step), s) && Do(px, step).sessions[s].worker == StageAfter(px, step, s)
  {
    hide Do, Enabled, StageAfter;
    match step
    case StepDequeue(_) => DequeueStage(px, s);
    case StepTakeAnswer(_) => TakeStage(px, s);
    case StepForwarded(_, drained) => ForwardStage(px, s, drained);
    case _ => OtherStage(px, step, s);
  }

  lemma DequeueStage(px: Proxy, s: nat)
    requires Enabled(px, StepDequeue(s))
    ensures var step := StepDequeue(s); Has(Do(px, step), s) && Do(px, step).sessions[s].worker == StageAfter(px, step, s)
  {
    DequeuedWorker(px, s);
    hide Dequeue;
  }

  lemma DequeuedWorker(px: Proxy, s: nat)
    requires Has(px, s) && px.sessions[s].queue != []
    ensures var px', ses := Dequeue(px, s), px.sessions[s];
            Has(px', s) && px'.sessions[s].worker == if !Asked(ses, ses.queue[0]) then Checking
                                                     else if IsCurrent(px, s) then Exchanging(false) else WorkerDone
  {
    hide FailWorker, Frame.ValveCommand;
    FailFields(Head(px.sessions[s]).(worker := Exchanging(false)));
  }

  lemma TakeStage(px: Proxy, s: nat)
    requires Enabled(px, StepTakeAnswer(s))
    ensures var step := StepTakeAnswer(s); Has(Do(px, step), s) && Do(px, step).sessions[s].worker == StageAfter(px, step, s)
  {
    hide TakeAnswer, Proceeded, Frame.ValveCommand, Commands, Onward;
    var ses := px.sessions[s];
    TakeAnswerForms(px, s);
    CommandsAre(ses.active.value.frame);
    ProceededStage(ses, IsCurrent(px, s), px.clock);
  }

  lemma ProceededStage(ses: Session, current: bool, now: int)
    requires ses.worker.Exchanging? && ses.active.Some? && ses.current.Some? && ses.current.value.answer.Resolved?
    ensures var answer, r := ses.current.value.answer.frame, ses.active.value;
            Proceeded(ses, current, now).worker ==
              if !current then WorkerDone
              else if ses.worker.confirming then Checking
              else if r.origin.Vendor? && Connected(ses, r.origin.cloud) then Forwarding(answer)
              else Onward(true, r.frame.ValveCommand().Some?, EmptyAcknowledgment(answer))
  {
    hide Continued, Finish, FailWorker, Frame.ValveCommand, EmptyAcknowledgment, Onward;
    var response := ses.current.value.answer.frame;
    var seen := Seen(ses, response, now);
    FailFields(ses);
    FinishFields(seen, response);
    ContinuedStage(seen, true, response);
  }

  lemma ContinuedStage(ses: Session, current: bool, response: Frame)
    requires ses.active.Some?
    ensures Continued(ses, current, response).worker
            == Onward(current, ses.active.value.frame.ValveCommand().Some?, EmptyAcknowledgment(response))
  {
    hide Finish, FailWorker, Frame.ValveCommand, ReadStatus;
    FailFields(ses);
    FailFields(ses.(tag := NextTag(ses.tag)));
    FinishFields(ses, response);
  }

  lemma ForwardStage(px: Proxy, s: nat, drained: bool)
    requires Enabled(px, StepForwarded(s, drained))
    ensures var step := StepForwarded(s, drained);
            Has(Do(px, step), s) && Do(px, step).sessions[s].worker == StageAfter(px, step, s)
  {
    hide AfterForward, Continued, CloseCloud, Frame.ValveCommand, Commands, Onward;
    var ses := px.sessions[s];
    var c := ses.active.value.origin.cloud;
    CloseFields(ses, c);
    var closed := if drained then ses else CloseCloud(ses, c);
    var mid := With(px, s, closed);
    assert drained ==> mid == px;
    AfterForwardForms(mid, s, ses.worker.response);
    ContinuedStage(closed, IsCurrent(mid, s), ses.worker.response);
    CommandsAre(ses.active.value.frame);
  }

  lemma OtherStage(px: Proxy, step: Step, s: nat)
    requires Enabled(px, step) && Subject(px, step) == Some(s) && Has(px, s)
    requires !step.StepDequeue? && !step.StepTakeAnswer? && !step.StepForwarded?
    ensures Has(Do(px, step), s) && Do(px, step).sessions[s].worker == StageAfter(px, step, s)
  {
    match step
    case StepWorkerFails(_) =>
      FailFields(px.sessions[s]);
      hide FailWorker;
    case StepCheck(_) => CheckExactly(px, s); hide Do;
    case _ =>
      hide Do, Enabled;
      RestingStage(px, step, s);
  }

  lemma RestingStage(px: Proxy, step: Step, s: nat)
    requires Enabled(px, step) && Subject(px, step) == Some(s) && Has(px, s)
    requires !step.StepDequeue? && !step.StepTakeAnswer? && !step.StepForwarded? && !step.StepWorkerFails? && !step.StepCheck?
    ensures Has(Do(px, step), s) && Do(px, step).sessions[s].worker == px.sessions[s].worker
  {
    hide CloseCloud, Awaited, Swept;
    var ses := px.sessions[s];
    if step.StepReceive? {
      ReceiveExactly(px, s, step.frame);
      hide Do;
    } else if step.StepOffer? {
      OfferFrame(px, s, step.frame);
      CloseFields(ses, ses.cloudTask.cloud);
      hide Do;
    } else if step.StepCleanup? {
      CleanupFrame(px, s, step.error);
      SweptFrame(ses);
      hide Do;
    } else if step.StepCall? || step.StepPoll? || step.StepCancelWaiter? || step.StepResume? {
      CallerFrame(px, step, s);
      hide Do;
    } else if step.StepDropCloud? {
      CloseFields(ses, ses.cloudTask.cloud);
    }
  }

  // ----- The other tasks -----------------------------------------------------------------------------

  ghost predicate Held(ses: Session, ses': Session) {
    && ses'.alive == ses.alive && ses'.cancelled == ses.cancelled && ses'.phase == ses.phase
    && ses'.cloud == ses.cloud && ses'.cloudTask == ses.cloudTask
    && ses'.readerDone == ses.readerDone && ses'.pollDone == ses.pollDone && ses'.closed == ses.closed
  }

  /** What a step does to the tasks of session `s`; a step that is not listed does nothing to them. */
  ghost predicate TasksAfter(px: Proxy, step: Step, s: nat, ses': Session)
    requires Has(px, s)
  {
    var ses := px.sessions[s];
    match step
    case StepAccept =>
      Held(if !px.closing && px.session == Some(s) then ses.(alive := false, cancelled := true) else ses, ses')
    case StepBeginStop =>
      var over := ses.phase.Skipped? || (ses.phase.Cleaned? && ses.closed);
      Held(ses.(cancelled := ses.cancelled || !over), ses')
    case StepBegin(t) => Held(if t == s then ses.(phase := Running) else ses, ses')
    case StepSkip(t) => Held(if t == s then ses.(phase := Skipped) else ses, ses')
    case StepReceive(t, f) => Held(if t == s && !Awaited(px, s, f) then ses.(readerDone := true) else ses, ses')
    case StepReaderEnds(t) => Held(if t == s then ses.(readerDone := true) else ses, ses')
    case StepPollEnds(t) => Held(if t == s then ses.(pollDone := true) else ses, ses')
    case StepConnectCloud(t) =>
      Held(if t != s then ses
           else if Acts(px, s) then ses.(cloud := Some(px.nextCloud), cloudTask := Serving(px.nextCloud))
           else ses.(cloudTask := CloudDone), ses')
    case StepOffer(t, _) =>
      Held(if t == s && ses.cloudTask.Serving? && Acts(px, s) && Live(ses, ses.cloudTask.cloud) && !Room(px, ses)
           then ses.(cloudTask := Closing(ses.cloudTask.cloud)) else ses, ses')
    case StepDropCloud(t) =>
      Held(if t == s && ses.cloudTask.Serving? then ses.(cloudTask := Closing(ses.cloudTask.cloud)) else ses, ses')
    case StepClearCloud(t) =>
      Held(if t == s && ses.cloudTask.Closing?
           then ses.(cloudTask := Disconnected, cloud := if ses.cloud == Some(ses.cloudTask.cloud) then None else ses.cloud)
           else ses, ses')
    case StepCloudEnds(t) => Held(if t == s then ses.(cloudTask := CloudDone) else ses, ses')
    case StepCleanup(t, _) => Held(if t == s then ses.(alive := false, phase := Cleaned) else ses, ses')
    case StepClosed(t) => Held(if t == s then ses.(closed := true) else ses, ses')
    case _ => Held(ses, ses')
  }

  /** Each step moves the other tasks of a session exactly as written, and every other step not at all. */
  lemma TasksExactly(px: Proxy, step: Step, s: nat)
    requires PointersOk(px) && Enabled(px, step) && Has(px, s)
    ensures Has(Do(px, step), s) && TasksAfter(px, step, s, Do(px, step).sessions[s])
  {
    hide Held;
    HeldItself(px.sessions[s]);
    if Subject(px, step) == None {
      ListenerTasks(px, step, s);
    } else if Subject(px, step) != Some(s) {
      hide Do, Enabled;
      StepsTouchOneSession(px, step);
    } else {
      hide PointersOk;
      SubjectTasks(px, step, s);
    }
  }

  lemma HeldItself(ses: Session)
    ensures Held(ses, ses)
  {
  }

  lemma ListenerTasks(px: Proxy, step: Step, s: nat)
    requires PointersOk(px) && Enabled(px, step) && Subject(px, step) == None && Has(px, s)
    ensures Has(Do(px, step), s) && TasksAfter(px, step, s, Do(px, step).sessions[s])
  {
    match step
    case StepAccept =>
      RetireFrame(px.sessions[s]);
      hide Retire;
    case StepBeginStop => StopExactly(px); hide Do;
    case _ =>
  }

  lemma WorkerHolds(ses: Session, ses': Session)
    requires WorkerOnly(ses, ses')
    ensures Held(ses, ses')
  {
  }

  lemma SubjectTasks(px: Proxy, step: Step, s: nat)
    requires Enabled(px, step) && Subject(px, step) == Some(s) && Has(px, s)
    ensures Has(Do(px, step), s) && TasksAfter(px, step, s, Do(px, step).sessions[s])
  {
    hide Do, Enabled, TasksAfter;
    if step.StepDequeue? || step.StepTakeAnswer? || step.StepForwarded? || step.StepWorkerFails? || step.StepCall?
       || step.StepPoll? || step.StepCancelWaiter? || step.StepResume? {
      QuietTasks(px, step, s);
      NothingMoves(px, step, s, Do(px, step).sessions[s]);
    } else if step.StepConnectCloud? || step.StepOffer? || step.StepDropCloud? || step.StepClearCloud? {
      CloudTasks(px, step, s);
    } else {
      FlagTasks(px, step, s);
    }
  }

  lemma NothingMoves(px: Proxy, step: Step, s: nat, ses': Session)
    requires Has(px, s) && Held(px.sessions[s], ses')
    requires step.StepDequeue? || step.StepTakeAnswer? || step.StepForwarded? || step.StepWorkerFails? || step.StepCall?
             || step.StepPoll? || step.StepCancelWaiter? || step.StepResume?
    ensures TasksAfter(px, step, s, ses')
  {
  }

  lemma QuietTasks(px: Proxy, step: Step, s: nat)
    requires Enabled(px, step) && Subject(px, step) == Some(s) && Has(px, s)
    requires step.StepDequeue? || step.StepTakeAnswer? || step.StepForwarded? || step.StepWorkerFails? || step.StepCall?
             || step.StepPoll? || step.StepCancelWaiter? || step.StepResume?
    ensures Has(Do(px, step), s) && Held(px.sessions[s], Do(px, step).sessions[s])
  {
    hide WorkerOnly, FailWorker, Commands, Frame.ValveCommand, ReadStatus;
    var ses := px.sessions[s];
    if step.StepDequeue? {
      DequeueFrame(px, s);
      WorkerHolds(ses, Do(px, step).sessions[s]);
      hide Do, Held;
    } else if step.StepTakeAnswer? {
      TakeFrame(px, s);
      WorkerHolds(ses, Do(px, step).sessions[s]);
      hide Do, Held;
    } else if step.StepForwarded? {
      ForwardFrame(px, s, step.drained);
      WorkerHolds(ses, Do(px, step).sessions[s]);
      hide Do, Held;
    } else if step.StepWorkerFails? {
      FailFrame(ses);
      WorkerHolds(ses, FailWorker(ses));
      hide Held;
    } else {
      CallerFrame(px, step, s);
      hide Do;
    }
  }

  lemma CloudTasks(px: Proxy, step: Step, s: nat)
    requires Enabled(px, step) && Subject(px, step) == Some(s) && Has(px, s)
    requires step.StepConnectCloud? || step.StepOffer? || step.StepDropCloud? || step.StepClearCloud?
    ensures Has(Do(px, step), s) && TasksAfter(px, step, s, Do(px, step).sessions[s])
  {
    hide CloseCloud;
    match step
    case StepConnectCloud(_) => ConnectExactly(px, s); hide Do;
    case StepOffer(_, frame) =>
      hide Do, TasksAfter;
      OfferTasks(px, s, frame);
    case StepDropCloud(_) =>
      DropExactly(px, s);
      CloseFields(px.sessions[s], px.sessions[s].cloudTask.cloud);
      hide Do;
    case StepClearCloud(_) => ForgetExactly(px, s); hide Do;
  }

  lemma OfferTasks(px: Proxy, s: nat, frame: Frame)
    requires Enabled(px, StepOffer(s, frame)) && Has(px, s)
    ensures var step := StepOffer(s, frame); Has(Do(px, step), s) && TasksAfter(px, step, s, Do(px, step).sessions[s])
  {
    hide CloseCloud;
    OfferFrame(px, s, frame);
    CloseFields(px.sessions[s], px.sessions[s].cloudTask.cloud);
    hide Do;
  }

  lemma FlagTasks(px: Proxy, step: Step, s: nat)
    requires Enabled(px, step) && Subject(px, step) == Some(s) && Has(px, s)
    requires step.StepBegin? || step.StepSkip? || step.StepReceive? || step.StepReaderEnds? || step.StepCheck?
             || step.StepCloudEnds? || step.StepPollEnds? || step.StepCleanup? || step.StepClosed?
    ensures Has(Do(px, step), s) && TasksAfter(px, step, s, Do(px, step).sessions[s])
  {
    match step
    case StepReceive(_, frame) =>
      hide Do, TasksAfter;
      ReceiveTasks(px, s, frame);
    case StepCleanup(_, error) =>
      hide Do, TasksAfter;
      CleanupTasks(px, s, error);
    case _ =>
  }

  lemma ReceiveTasks(px: Proxy, s: nat, frame: Frame)
    requires Enabled(px, StepReceive(s, frame)) && Has(px, s)
    ensures var step := StepReceive(s, frame); Has(Do(px, step), s) && TasksAfter(px, step, s, Do(px, step).sessions[s])
  {
    ReceiveExactly(px, s, frame);
    hide Do, Awaited;
  }

  lemma CleanupTasks(px: Proxy, s: nat, error: Option<string>)
    requires Enabled(px, StepCleanup(s, error)) && Has(px, s)
    ensures var step := StepCleanup(s, error); Has(Do(px, step), s) && TasksAfter(px, step, s, Do(px, step).sessions[s])
  {
    CleanupFrame(px, s, error);
    SweptFrame(px.sessions[s]);
    hide Do, Swept;
  }

  // ----- What may come at any time ---------------------------------------------------------------------

  /** Devices, `stop` and time come at any time; what a caller may do depends on its own waiter only. */
  lemma CallersAreFree(px: Proxy, s: nat, id: nat, time: nat)
    requires Has(px, s)
    ensures Enabled(px, StepAccept) && Enabled(px, StepStart) && Enabled(px, StepBeginStop) && Enabled(px, StepTick(time))
    ensures var ses := px.sessions[s];
            && (Enabled(px, StepCancelWaiter(s, id)) <==> id in ses.waiters)
            && (Enabled(px, StepResume(s, id)) <==>
                  id in ses.waiters && !ses.waiters[id].future.Pending? && ses.waiters[id].outcome == None)
            && (Enabled(px, StepBegin(s)) <==> ses.phase.Created? && !ses.cancelled)
            && (Enabled(px, StepSkip(s)) <==> ses.phase.Created? && ses.cancelled)
            && (Enabled(px, StepClosed(s)) <==> ses.phase.Cleaned? && !ses.closed)
  {
  }

  /** Whatever a running task waits for may come next, with any content, and any of its waits may end. */
  lemma WorldIsFree(px: Proxy, s: nat, f: Frame, error: Option<string>)
    requires Has(px, s) && px.sessions[s].phase.Running?
    ensures var ses := px.sessions[s];
            && (Enabled(px, StepReceive(s, f)) <==> !ses.readerDone)
            && (Enabled(px, StepReaderEnds(s)) <==> !ses.readerDone)
            && (Enabled(px, StepPollEnds(s)) <==> !ses.pollDone)
            && (Enabled(px, StepCleanup(s, error)) <==>
                  ses.worker.WorkerDone? && ses.readerDone && ses.cloudTask.CloudDone? && ses.pollDone)
  {
  }

  /** The same for the vendor's side. */
  lemma VendorIsFree(px: Proxy, s: nat, f: Frame)
    requires Has(px, s) && px.sessions[s].phase.Running?
    ensures var ses := px.sessions[s];
            && (Enabled(px, StepOffer(s, f)) <==> ses.cloudTask.Serving?)
            && (Enabled(px, StepDropCloud(s)) <==> ses.cloudTask.Serving?)
            && (Enabled(px, StepConnectCloud(s)) <==> ses.cloudTask.Disconnected?)
            && (Enabled(px, StepClearCloud(s)) <==> ses.cloudTask.Closing?)
            && (Enabled(px, StepCloudEnds(s)) <==> ses.cloudTask.Disconnected? || ses.cloudTask.Closing?)
  {
  }
}
