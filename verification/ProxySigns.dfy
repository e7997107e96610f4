/**
 What the shared state tells of the current session, in every run: the time of its last answer, no
 error, and whether the vendor is connected.
 */
module ProxySigns {
  import opened Base
  import opened Protocol
  import opened Envelope
  import opened ProxyModel
  import opened ProxyInvariant
  import opened ProxySafety
  import opened ProxyState
  import opened ProxyBalance
  import opened ProxyTheorems
  import opened ProxyService
  import opened ProxyLaws
  import opened ProxyExactly
  import opened ProxyChanges

  ghost predicate Opened(ses: Session) {
    ses.cloudTask.Serving? || ses.cloudTask.Closing?
  }

  /** The current session is alive, and cancelled once the proxy closes. */
  ghost predicate Standing(px: Proxy, ses: Session) {
    && ses.alive && !ses.phase.Cleaned? && (ses.phase.Skipped? ==> ses.cancelled) && (px.closing ==> ses.cancelled)
  }

  ghost predicate Shown(state: State, ses: Session) {
    && state.error == None
    && state.lastResponse == (if ses.observedAt == [] then None else Some(ses.observedAt[|ses.observedAt| - 1]))
    && (Opened(ses) ==> state.cloudConnected)
    && (ses.cloudTask.Disconnected? && !ses.cancelled ==> !state.cloudConnected)
  }

  ghost predicate SignsOk(px: Proxy) {
    match px.session
    case None => !px.state.cloudConnected
    case Some(s) => Has(px, s) && Standing(px, px.sessions[s]) && Shown(px.state, px.sessions[s])
  }

  /** The parts of a session that these signs are read from. */
  ghost predicate SameSigns(ses: Session, ses': Session) {
    && ses'.observedAt == ses.observedAt && ses'.alive == ses.alive && ses'.cancelled == ses.cancelled
    && (ses'.phase == ses.phase || ses'.phase.Running? || (ses'.phase.Skipped? && ses.cancelled))
    && (Opened(ses') ==> Opened(ses)) && (ses'.cloudTask.Disconnected? ==> ses.cloudTask.Disconnected?)
  }

  ghost predicate SameShown(st: State, st': State) {
    st'.error == st.error && st'.lastResponse == st.lastResponse && st'.cloudConnected == st.cloudConnected
  }

  lemma QuietSigns(px: Proxy, px': Proxy, s: nat)
    requires SignsOk(px) && px'.session == px.session == Some(s) && px'.closing == px.closing && Has(px', s)
    requires SameShown(px.state, px'.state) && SameSigns(px.sessions[s], px'.sessions[s])
    ensures SignsOk(px')
  {
  }

  lemma SignsStay(px: Proxy, step: Step)
    requires Inv(px) && Enabled(px, step) && SignsOk(px)
    ensures SignsOk(Do(px, step))
  {
    hide StateOk, TimesOk, Balanced, Apart, SessionsOk, Do, Enabled;
    if Subject(px, step) == None {
      hide Shown;
      ListenerSigns(px, step);
    } else if px.session != Subject(px, step) {
      StepsTouchOneSession(px, step);
      OtherSigns(px, step);
    } else {
      SubjectSigns(px, step, px.session.value);
    }
  }

  lemma ListenerSigns(px: Proxy, step: Step)
    requires PointersOk(px) && Enabled(px, step) && SignsOk(px) && Subject(px, step) == None
    ensures SignsOk(Do(px, step))
  {
    match step
    case StepAccept => AcceptExactly(px); hide Do;
    case StepBeginStop => StopExactly(px); hide Do;
    case StepEndStop(i) => StopEndsExactly(px, i); hide Do;
    case _ =>
  }

  /** A session that is not the proxy's leaves these signs alone. */
  lemma OtherSigns(px: Proxy, step: Step)
    requires PointersOk(px) && Enabled(px, step) && SignsOk(px) && Subject(px, step).Some?
    requires px.session != Subject(px, step) && OnlySession(px, Do(px, step), Subject(px, step).value)
    ensures SignsOk(Do(px, step))
  {
    hide Do, Enabled, Shown;
    StateExactly(px, step);
    OtherShown(px, step, Do(px, step).state);
    hide StateAfter;
    if px.session.Some? {
      QuietSigns(px, Do(px, step), px.session.value);
    }
  }

  lemma OtherShown(px: Proxy, step: Step, st': State)
    requires Subject(px, step).Some? && px.session != Subject(px, step) && StateAfter(px, step, st')
    ensures SameShown(px.state, st')
  {
  }

  lemma SubjectSigns(px: Proxy, step: Step, s: nat)
    requires PointersOk(px) && Enabled(px, step) && SignsOk(px) && Subject(px, step) == px.session == Some(s)
    ensures SignsOk(Do(px, step))
  {
    match step
    case StepTakeAnswer(_) => TakeSigns(px, s);
    case StepConnectCloud(_) => ConnectExactly(px, s); hide Do;
    case StepClearCloud(_) => ForgetExactly(px, s); hide Do;
    case StepCleanup(_, error) => CleanupFrame(px, s, error); hide Do, Swept;
    case _ =>
      hide Do, Enabled, SignsOk;
      PlainSigns(px, step, s);
  }

  lemma TakeSigns(px: Proxy, s: nat)
    requires PointersOk(px) && Enabled(px, StepTakeAnswer(s)) && SignsOk(px) && px.session == Some(s)
    ensures SignsOk(Do(px, StepTakeAnswer(s)))
  {
    TakeFrame(px, s);
    StateExactly(px, StepTakeAnswer(s));
    hide Do, TakesToConfirm, ReadStatus, StatusShape, SnapshotShape, CounterBytes, PositionByte;
  }

  lemma PlainSigns(px: Proxy, step: Step, s: nat)
    requires PointersOk(px) && Enabled(px, step) && SignsOk(px) && Subject(px, step) == px.session == Some(s)
    requires !step.StepTakeAnswer? && !step.StepConnectCloud? && !step.StepClearCloud? && !step.StepCleanup?
    ensures SignsOk(Do(px, step))
  {
    hide Do, Enabled, SameSigns, SignsOk, SameShown, OnlySession;
    StepsTouchOneSession(px, step);
    OnlySessions(px, step, s);
    StateExactly(px, step);
    PlainShown(px, step, Do(px, step).state);
    hide StateAfter, PointersOk;
    PlainSession(px, step, s);
    assert Has(px, s) by { HasSigns(px); }
    SessionStays(px, step, s);
    QuietSigns(px, Do(px, step), s);
  }

  lemma HasSigns(px: Proxy)
    requires SignsOk(px)
    ensures px.session.Some? ==> Has(px, px.session.value)
  {
  }

  lemma OnlySessions(px: Proxy, step: Step, s: nat)
    requires Enabled(px, step) && OnlySession(px, Do(px, step), s)
    ensures Has(px, s) && Has(Do(px, step), s) && Do(px, step).closing == px.closing
  {
    hide Do, Enabled;
  }

  lemma SessionStays(px: Proxy, step: Step, s: nat)
    requires Enabled(px, step) && Subject(px, step) == Some(s) && Has(px, s) && !step.StepCleanup?
    ensures Do(px, step).session == px.session
  {
    hide FailWorker, DropCloud, Verdict, Finish, ReadStatus, RequestFrame, Frame.Matches;
  }

  lemma PlainShown(px: Proxy, step: Step, st': State)
    requires Subject(px, step).Some? && StateAfter(px, step, st')
    requires !step.StepTakeAnswer? && !step.StepConnectCloud? && !step.StepClearCloud? && !step.StepCleanup?
    ensures SameShown(px.state, st')
  {
  }

  lemma PlainSession(px: Proxy, step: Step, s: nat)
    requires Enabled(px, step) && Subject(px, step) == Some(s) && Has(px, s)
    requires !step.StepTakeAnswer? && !step.StepConnectCloud? && !step.StepClearCloud? && !step.StepCleanup?
    ensures Has(Do(px, step), s) && SameSigns(px.sessions[s], Do(px, step).sessions[s])
  {
    hide WorkerOnly, Commands, ReadStatus, Frame.ValveCommand, CloseCloud;
    var ses := px.sessions[s];
    if step.StepDequeue? {
      DequeueFrame(px, s);
      WorkerSigns(ses, Do(px, step).sessions[s]);
      hide Do, SameSigns;
    } else if step.StepForwarded? {
      ForwardFrame(px, s, step.drained);
      WorkerSigns(ses, Do(px, step).sessions[s]);
      hide Do, SameSigns;
    } else if step.StepWorkerFails? {
      FailFrame(ses);
      WorkerSigns(ses, FailWorker(ses));
      hide FailWorker, SameSigns;
    } else if step.StepOffer? {
      OfferFrame(px, s, step.frame);
      CloseFields(ses, ses.cloudTask.cloud);
      hide Do;
    } else if step.StepReceive? {
      ReceiveExactly(px, s, step.frame);
      hide Do, Awaited;
    } else {
      CallerSigns(px, step, s);
      hide Do;
    }
  }

  lemma WorkerSigns(ses: Session, ses': Session)
    requires WorkerOnly(ses, ses') && ses'.observedAt == ses.observedAt
    ensures SameSigns(ses, ses')
  {
  }

  lemma CallerSigns(px: Proxy, step: Step, s: nat)
    requires Enabled(px, step) && Subject(px, step) == Some(s) && Has(px, s)
    requires !step.StepTakeAnswer? && !step.StepConnectCloud? && !step.StepClearCloud? && !step.StepCleanup?
             && !step.StepDequeue? && !step.StepForwarded? && !step.StepWorkerFails? && !step.StepOffer? && !step.StepReceive?
    ensures Has(Do(px, step), s) && SameSigns(px.sessions[s], Do(px, step).sessions[s])
  {
    if step.StepCall? || step.StepPoll? || step.StepCancelWaiter? || step.StepResume? {
      CallerFrame(px, step, s);
      hide Do;
    } else if step.StepDropCloud? {
      hide CloseCloud;
      CloseFields(px.sessions[s], px.sessions[s].cloudTask.cloud);
    }
  }

  lemma {:induction false} SignsOkAlways(run: seq<Proxy>, steps: seq<Step>, n: nat)
    requires IsRun(run, steps) && n < |run|
    ensures SignsOk(run[n])
  {
    RunLength(run, steps);
    hide Inv, Do, Enabled;
    if n == 0 {
      assert exists limit, clock :: run[0] == Initial(limit, clock);
    } else {
      hide IsRun, SignsOk;
      SignsOkAlways(run, steps, n - 1);
      RunInv(run, steps, n - 1);
      RunStep(run, steps, n - 1);
      SignsStay(run[n - 1], steps[n - 1]);
    }
  }

  /**
   While there is a current session no error is shown, and the time of its last answer is. The vendor
   is shown connected while the session has a connection that is not yet forgotten; it is shown
   disconnected while there is no session, and while a session that was not cancelled has none.
   */
  lemma SignsAreTrue(run: seq<Proxy>, steps: seq<Step>, n: nat)
    requires IsRun(run, steps) && n < |run|
    ensures var px := run[n];
            match px.session
            case None => !px.state.cloudConnected
            case Some(s) =>
              && Has(px, s) && px.state.error == None
              && var ses := px.sessions[s];
                 && px.state.lastResponse
                    == (if ses.observedAt == [] then None else Some(ses.observedAt[|ses.observedAt| - 1]))
                 && (ses.cloudTask.Serving? || ses.cloudTask.Closing? ==> px.state.cloudConnected)
                 && (ses.cloudTask.Disconnected? && !ses.cancelled ==> !px.state.cloudConnected)
  {
    SignsOkAlways(run, steps, n);
    hide IsRun;
  }
}
