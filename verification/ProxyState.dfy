/**
 Where the shared state comes from. The visible valve, counter and connection flag are
 exactly what the worker of the current session last observed, or blank; in particular
 nothing an earlier session reported is ever visible.
 */
module ProxyState {
  import opened Base
  import opened Protocol
  import opened ProxyModel
  import opened ProxyInvariant
  import opened ProxySafety

  /** The most recent of the first `m` answers that reports a status. */
  function LastReport(history: seq<Event>, m: nat): Option<nat> {
    if m == 0 || |history| < 2 * m then None
    else if history[2 * m - 1].Answered? && StatusValues(history[2 * m - 1].frame).Some? then Some(m - 1)
    else LastReport(history, m - 1)
  }

  /** The most recent of the first `m` answers that carries the counter. */
  function LastCount(history: seq<Event>, m: nat): Option<nat> {
    if m == 0 || |history| < 2 * m then None
    else if history[2 * m - 1].Answered? && Counter(history[2 * m - 1].frame).Some? then Some(m - 1)
    else LastCount(history, m - 1)
  }

  function Counter(frame: Frame): Option<nat> {
    match StatusValues(frame)
    case None => None
    case Some(values) => values.counter
  }

  function Position(frame: Frame): Option<Valve> {
    match StatusValues(frame)
    case None => None
    case Some(values) => values.valve
  }

  /** The last write is a valve command, or the status read that confirms one and is not yet observed. */
  ghost predicate Unconfirmed(history: seq<Event>, m: nat) {
    var n := |history|;
    && n > 0
    && var last := if n % 2 == 1 then n - 1 else n - 2;
       0 <= last && history[last].Wrote?
       && if history[last].confirming then last >= 2 * m else history[last].request.frame.ValveCommand().Some?
  }

  ghost predicate Times(observedAt: seq<int>, clock: int) {
    && (forall i :: 0 <= i < |observedAt| ==> observedAt[i] <= clock)
    && (forall i, j :: 0 <= i < j < |observedAt| ==> observedAt[i] <= observedAt[j])
  }

  /** The state that shows what session `ses` has observed. */
  ghost predicate Shows(state: State, ses: Session) {
    var h, m := ses.history, |ses.observedAt|;
    && (state.deviceConnected <==> m > 0)
    && (match LastReport(h, m)
        case None => state.valve == None
        case Some(k) =>
          k < m && state.valveUpdated == Some(ses.observedAt[k])
          && 2 * k + 1 < |h| && h[2 * k + 1].Answered?
          && (state.valve.Some? ==> Position(h[2 * k + 1].frame) == state.valve))
    && (match LastCount(h, m)
        case None => state.totalLiters == None
        case Some(k) =>
          k < m && state.counterUpdated == Some(ses.observedAt[k])
          && 2 * k + 1 < |h| && h[2 * k + 1].Answered?
          && state.totalLiters.Some? && Counter(h[2 * k + 1].frame) == state.totalLiters)
    && (Unconfirmed(h, m) ==> state.valve == None)
  }

  ghost predicate StateOk(px: Proxy) {
    match px.session
    case None =>
      !px.state.deviceConnected && px.state.valve == None && px.state.totalLiters == None
    case Some(s) => Has(px, s) && Shows(px.state, px.sessions[s])
  }

  ghost predicate TimesOk(px: Proxy) {
    forall s :: 0 <= s < |px.sessions| ==> Times(px.sessions[s].observedAt, px.clock)
  }

  // ----- Logs that grow ------------------------------------------------------------------

  lemma {:induction false} ReportsKept(history: seq<Event>, e: Event, m: nat)
    requires 2 * m <= |history|
    ensures LastReport(history + [e], m) == LastReport(history, m)
    ensures LastCount(history + [e], m) == LastCount(history, m)
  {
    hide StatusValues, Counter;
    if m > 0 {
      assert (history + [e])[2 * m - 1] == history[2 * m - 1];
      ReportsKept(history, e, m - 1);
    }
  }

  lemma {:induction false} ReportBounds(history: seq<Event>, m: nat)
    ensures LastReport(history, m).Some? ==>
              var k := LastReport(history, m).value; k < m && 2 * k + 1 < |history| && history[2 * k + 1].Answered?
    ensures LastCount(history, m).Some? ==>
              var k := LastCount(history, m).value; k < m && 2 * k + 1 < |history| && history[2 * k + 1].Answered?
  {
    hide StatusValues, Counter;
    if m > 0 {
      ReportBounds(history, m - 1);
    }
  }

  lemma ShowsSame(state: State, ses: Session, ses': Session, state': State)
    requires Shows(state, ses) && ses'.history == ses.history && ses'.observedAt == ses.observedAt
    requires state'.deviceConnected == state.deviceConnected && state'.valveUpdated == state.valveUpdated
    requires state'.valve == state.valve || state'.valve == None
    requires state'.totalLiters == state.totalLiters && state'.counterUpdated == state.counterUpdated
    ensures Shows(state', ses')
  {
    hide Unconfirmed, LastReport, LastCount, Counter, Position;
  }

  lemma ShowsAnswer(state: State, ses: Session, ses': Session, frame: Frame)
    requires Shows(state, ses) && WorkerOk(ses) && ses.worker.Exchanging? && ses.current.value.answer.Pending?
    requires ses'.history == ses.history + [Answered(frame)] && ses'.observedAt == ses.observedAt
    ensures Shows(state, ses')
  {
    hide LastReport, LastCount, Counter, Position;
    ReportsKept(ses.history, Answered(frame), |ses.observedAt|);
    var n := |ses.history|;
    assert ses'.history[n - 1] == ses.history[n - 1];
  }

  /** A write blanks the valve when it is a valve command, and changes nothing else. */
  lemma ShowsWrite(state: State, ses: Session, ses': Session, e: Event)
    requires Shows(state, ses) && |ses.history| == 2 * |ses.observedAt| && e.Wrote?
    requires ses'.history == ses.history + [e] && ses'.observedAt == ses.observedAt
    requires e.confirming || e.request.frame.ValveCommand().Some? ==> state.valve == None
    ensures Shows(state, ses')
  {
    hide LastReport, LastCount, Counter, Position, Frame.ValveCommand;
    var h, h' := ses.history, ses'.history;
    ReportsKept(h, e, |ses.observedAt|);
    assert forall i :: 0 <= i < |h| ==> h'[i] == h[i];
    assert h'[|h|] == e;
  }

  lemma ShowsFresh(state: State)
    ensures Shows(Blanked(state).(lastResponse := None, error := None), NewSession())
  {
  }

  /** Observing the newest answer. */
  lemma ShowsObserved(state: State, ses: Session, response: Frame, now: int, ses': Session)
    requires Shows(state, ses) && WorkerOk(ses) && HistoryOk(ses)
    requires ses.worker.Exchanging? && ses.current.value.answer == Resolved(response)
    requires ses'.history == ses.history && ses'.observedAt == ses.observedAt + [now]
    ensures Shows(Observed(state, response, now), ses')
    ensures !ses.worker.confirming && ses.active.value.frame.ValveCommand().Some? ==>
              Observed(state, response, now).valve == None
  {
    var h, m, n := ses.history, |ses.observedAt|, |ses.history|;
    assert n == 2 * m + 2 && h[2 * m + 1] == Answered(response);
    assert h[2 * m].Wrote? && h[2 * m].confirming == ses.worker.confirming && h[2 * m].request == ses.active.value;
    assert response.Matches(h[2 * m].frame);
    ReportBounds(h, m);
    if !h[2 * m].confirming && h[2 * m].request.frame.ValveCommand().Some? {
      assert h[2 * m].frame == h[2 * m].request.frame;
      assert response.opcode == 0x20;
      assert Unconfirmed(h, m);
    }
    hide HistoryOk, WorkerOk, Unconfirmed;
    ObservedReport(state, h, m, response, now);
    assert Unconfirmed(h, m + 1) ==> !h[2 * m].confirming && h[2 * m].request.frame.ValveCommand().Some? by {
      UnconfirmedAfter(h, m);
    }
    ShowsParts(state, ses, response, now, ses');
  }

  lemma UnconfirmedAfter(h: seq<Event>, m: nat)
    requires |h| == 2 * m + 2 && h[2 * m].Wrote?
    ensures Unconfirmed(h, m + 1) ==> !h[2 * m].confirming && h[2 * m].request.frame.ValveCommand().Some?
  {
  }

  lemma ObservedReport(state: State, h: seq<Event>, m: nat, response: Frame, now: int)
    requires |h| == 2 * m + 2 && h[2 * m + 1] == Answered(response)
    ensures LastReport(h, m + 1) == if StatusValues(response).Some? then Some(m) else LastReport(h, m)
    ensures LastCount(h, m + 1) == if Counter(response).Some? then Some(m) else LastCount(h, m)
    ensures StatusValues(response) == None ==>
              Observed(state, response, now).valve == state.valve
              && Observed(state, response, now).valveUpdated == state.valveUpdated
    ensures StatusValues(response).Some? ==>
              Observed(state, response, now).valve == Position(response)
              && Observed(state, response, now).valveUpdated == Some(now)
    ensures Counter(response) == None ==>
              Observed(state, response, now).totalLiters == state.totalLiters
              && Observed(state, response, now).counterUpdated == state.counterUpdated
    ensures Counter(response).Some? ==>
              Observed(state, response, now).totalLiters == Counter(response)
              && Observed(state, response, now).counterUpdated == Some(now)
    ensures Observed(state, response, now).deviceConnected
  {
    hide StatusValues;
  }

  lemma ShowsParts(state: State, ses: Session, response: Frame, now: int, ses': Session)
    requires Shows(state, ses)
    requires var h, m := ses.history, |ses.observedAt|;
             && |h| == 2 * m + 2 && h[2 * m + 1] == Answered(response)
             && h[2 * m].Wrote?
             && (!h[2 * m].confirming && h[2 * m].request.frame.ValveCommand().Some? ==>
                   StatusValues(response) == None && state.valve == None)
             && (Unconfirmed(h, m + 1) ==> !h[2 * m].confirming && h[2 * m].request.frame.ValveCommand().Some?)
    requires ses'.history == ses.history && ses'.observedAt == ses.observedAt + [now]
    ensures Shows(Observed(state, response, now), ses')
  {
    hide Unconfirmed, LastReport, LastCount, Counter, Position, StatusValues, Observed;
    ObservedReport(state, ses.history, |ses.observedAt|, response, now);
  }

  // ----- Steps -----------------------------------------------------------------------------

  lemma AfterForwardState(px: Proxy, s: nat, response: Frame)
    requires Has(px, s) && Holding(px.sessions[s], response, false)
    requires px.session == Some(s) ==> Shows(px.state, px.sessions[s])
    requires px.session == Some(s) && px.sessions[s].active.value.frame.ValveCommand().Some? ==> px.state.valve == None
    ensures var px' := AfterForward(px, s, response);
            Has(px', s) && px'.state == px.state
            && (px.session == Some(s) ==> Shows(px.state, px'.sessions[s]))
  {
    hide Shows, FailWorker, Finish, HistoryOk, QueueOk, WaitersOk, CloudsOk, PhaseOk, ReadStatus;
    var ses := px.sessions[s];
    var ses' := AfterForward(px, s, response).sessions[s];
    WorkerLogs(ses);
    WorkerLogs(ses.(tag := NextTag(ses.tag)));
    if px.session == Some(s) {
      if |ses'.history| == |ses.history| {
        ShowsSame(px.state, ses, ses', px.state);
      } else {
        ShowsWrite(px.state, ses, ses', ses'.history[|ses.history|]);
      }
    }
  }

  lemma WorkerLogs(ses: Session)
    ensures FailWorker(ses).history == ses.history && FailWorker(ses).observedAt == ses.observedAt
    ensures ses.active.Some? ==> forall response ::
              Finish(ses, response).history == ses.history && Finish(ses, response).observedAt == ses.observedAt
  {
    hide FailWorker, Finish;
    FailFields(ses);
    if ses.active.Some? {
      forall response
        ensures Finish(ses, response).history == ses.history && Finish(ses, response).observedAt == ses.observedAt
      {
        FinishFields(ses, response);
      }
    }
  }

  lemma TakeAnswerState(px: Proxy, s: nat)
    requires Enabled(px, StepTakeAnswer(s)) && SessionOk(px.sessions[s]) && StateOk(px)
    ensures StateOk(TakeAnswer(px, s))
  {
    hide Shows, FailWorker, Finish, AfterForward, Observed, SessionOk, Holding;
    var ses := px.sessions[s];
    var response := ses.current.value.answer.frame;
    WorkerLogs(ses);
    if !IsCurrent(px, s) {
      TakeAnswerTouches(px, s);
      OtherState(px, TakeAnswer(px, s), s);
    } else {
      var seen := Seen(ses, response, px.clock);
      var px1 := px.(state := Observed(px.state, response, px.clock));
      var r := ses.active.value;
      WorkerLogs(seen);
      SessionParts(ses);
      ShowsObserved(px.state, ses, response, px.clock, seen);
      SeenHolds(ses, response, px.clock);
      if ses.worker.confirming {
        ShowsSame(px1.state, seen, Finish(seen, response), px1.state);
      } else if r.origin.Vendor? && Connected(seen, r.origin.cloud) {
        ShowsSame(px1.state, seen, SentBack(seen, r.origin.cloud, response), px1.state);
      } else {
        AfterForwardState(With(px1, s, seen), s, response);
        AfterForwardTouches(With(px1, s, seen), s, response);
      }
    }
  }

  lemma SessionParts(ses: Session)
    requires SessionOk(ses)
    ensures HistoryOk(ses) && WorkerOk(ses) && QueueOk(ses)
  {
  }

  /** A step that leaves state and logs alone. */
  lemma OtherState(px: Proxy, px': Proxy, s: nat)
    requires StateOk(px) && OnlySession(px, px', s)
    requires px'.session == px.session
    requires px'.state.deviceConnected == px.state.deviceConnected && px'.state.valveUpdated == px.state.valveUpdated
    requires px'.state.valve == px.state.valve || px'.state.valve == None
    requires px'.state.totalLiters == px.state.totalLiters && px'.state.counterUpdated == px.state.counterUpdated
    requires px'.sessions[s].history == px.sessions[s].history && px'.sessions[s].observedAt == px.sessions[s].observedAt
    ensures StateOk(px')
  {
    hide Shows;
    if px.session.Some? {
      ShowsSame(px.state, px.sessions[px.session.value], px'.sessions[px.session.value], px'.state);
    }
  }

  lemma ForwardedState(px: Proxy, s: nat, drained: bool)
    requires Enabled(px, StepForwarded(s, drained)) && SessionOk(px.sessions[s]) && StateOk(px)
    ensures StateOk(Forwarded(px, s, drained))
  {
    hide Shows, AfterForward, SessionOk, Holding;
    var ses := px.sessions[s];
    var c := ses.active.value.origin.cloud;
    var response := ses.worker.response;
    var mid := if drained then px else With(px, s, CloseCloud(ses, c));
    ForwardingHolds(ses);
    CloseCloudHolds(ses, c, response);
    if px.session == Some(s) {
      ShowsSame(px.state, ses, mid.sessions[s], px.state);
      ForwardingUnconfirmed(px.state, ses);
    }
    AfterForwardState(mid, s, response);
    AfterForwardTouches(mid, s, response);
  }

  lemma ForwardingUnconfirmed(state: State, ses: Session)
    requires SessionOk(ses) && ses.worker.Forwarding? && Shows(state, ses)
    ensures ses.active.Some?
    ensures ses.active.value.frame.ValveCommand().Some? ==> state.valve == None
  {
    hide HistoryOk, QueueOk, WaitersOk, CloudsOk, PhaseOk;
  }

  /** All that dequeuing does to logs and state. */
  lemma DequeueShape(px: Proxy, s: nat)
    requires Enabled(px, StepDequeue(s))
    ensures var ses, r, px' := px.sessions[s], px.sessions[s].queue[0], Dequeue(px, s);
            && Has(px', s) && px'.session == px.session && px'.clock == px.clock
            && px'.sessions[s].observedAt == ses.observedAt
            && (px'.state == px.state || px'.state == px.state.(valve := None))
            && (px'.sessions[s].history != ses.history ==>
                  && IsCurrent(px, s) && px'.sessions[s].history == ses.history + [Wrote(r, r.frame, false)]
                  && (r.frame.ValveCommand().Some? ==> px'.state.valve == None))
  {
    hide FailWorker, Dequeue, Frame.ValveCommand;
    DequeueForms(px, s);
    FailFields(Head(px.sessions[s]).(worker := Exchanging(false)));
  }

  lemma DequeueState(px: Proxy, s: nat)
    requires Enabled(px, StepDequeue(s)) && SessionOk(px.sessions[s]) && StateOk(px)
    ensures StateOk(Dequeue(px, s))
  {
    hide Shows, SessionOk, Dequeue, OnlySession;
    var ses := px.sessions[s];
    var r := ses.queue[0];
    var px' := Dequeue(px, s);
    DequeueTouches(px, s);
    DequeueShape(px, s);
    if px'.sessions[s].history == ses.history {
      OtherState(px, px', s);
    } else {
      DequeuingLogs(ses);
      ShowsSame(px.state, ses, ses, px'.state);
      ShowsWrite(px'.state, ses, px'.sessions[s], Wrote(r, r.frame, false));
    }
  }

  lemma DequeuingLogs(ses: Session)
    requires SessionOk(ses) && ses.worker.Dequeuing?
    ensures |ses.history| == 2 * |ses.observedAt|
  {
    hide HistoryOk, QueueOk, WaitersOk, CloudsOk, PhaseOk;
  }

  lemma ReceiveState(px: Proxy, s: nat, frame: Frame)
    requires Enabled(px, StepReceive(s, frame)) && SessionOk(px.sessions[s]) && StateOk(px)
    ensures StateOk(Receive(px, s, frame))
  {
    hide Shows, SessionOk;
    var ses := px.sessions[s];
    var px' := Receive(px, s, frame);
    ReceiveTouches(px, s, frame);
    SessionParts(ses);
    if px'.sessions[s].history == ses.history {
      OtherState(px, px', s);
    } else {
      CurrentMeansExchanging(ses);
      ShowsAnswer(px.state, ses, px'.sessions[s], frame);
    }
  }

  lemma CurrentMeansExchanging(ses: Session)
    requires WorkerOk(ses) && ses.current.Some? && !Done(ses.current.value.answer)
    ensures ses.worker.Exchanging? && ses.current.value.answer.Pending?
  {
  }

  ghost predicate QuietSubject(step: Step) {
    !step.StepDequeue? && !step.StepTakeAnswer? && !step.StepForwarded? && !step.StepReceive? && !step.StepCleanup?
  }

  ghost predicate SameLogs(px: Proxy, px': Proxy, s: nat) {
    && Has(px, s) && Has(px', s) && px'.session == px.session
    && px'.state == px.state.(cloudConnected := px'.state.cloudConnected)
    && px'.sessions[s].history == px.sessions[s].history
    && px'.sessions[s].observedAt == px.sessions[s].observedAt
  }

  lemma CallerLogs(px: Proxy, step: Step, s: nat)
    requires Enabled(px, step) && Subject(px, step) == Some(s) && Has(px, s)
    requires step.StepCall? || step.StepPoll? || step.StepCancelWaiter? || step.StepResume?
    ensures SameLogs(px, Do(px, step), s)
  {
    hide RequestFrame, Verdict;
  }

  lemma CloudLogs(px: Proxy, step: Step, s: nat)
    requires Enabled(px, step) && Subject(px, step) == Some(s) && Has(px, s)
    requires step.StepOffer? || step.StepConnectCloud? || step.StepDropCloud? || step.StepClearCloud?
    ensures SameLogs(px, Do(px, step), s)
  {
    hide SameLogs, Offer, ConnectCloud, DropCloud, ClearCloud;
    match step
    case StepOffer(_, frame) => OfferLogs(px, s, frame);
    case StepConnectCloud(_) => ConnectLogs(px, s);
    case StepDropCloud(_) => DropLogs(px, s);
    case StepClearCloud(_) => ClearLogs(px, s);
  }

  lemma OfferLogs(px: Proxy, s: nat, frame: Frame)
    requires Enabled(px, StepOffer(s, frame))
    ensures SameLogs(px, Offer(px, s, frame), s)
  {
    hide CloseCloud, Connected;
    CloseFields(px.sessions[s], px.sessions[s].cloudTask.cloud);
  }

  lemma ConnectLogs(px: Proxy, s: nat)
    requires Has(px, s)
    ensures SameLogs(px, ConnectCloud(px, s), s)
  {
  }

  lemma DropLogs(px: Proxy, s: nat)
    requires Enabled(px, StepDropCloud(s))
    ensures SameLogs(px, With(px, s, DropCloud(px.sessions[s])), s)
  {
    hide CloseCloud;
    CloseFields(px.sessions[s], px.sessions[s].cloudTask.cloud);
  }

  lemma ClearLogs(px: Proxy, s: nat)
    requires Enabled(px, StepClearCloud(s))
    ensures SameLogs(px, ClearCloud(px, s), s)
  {
  }

  /** The remaining steps on a session touch neither its logs nor the reported values. */
  lemma QuietLogs(px: Proxy, step: Step, s: nat)
    requires Enabled(px, step) && Subject(px, step) == Some(s) && QuietSubject(step) && Has(px, s)
    ensures SameLogs(px, Do(px, step), s)
  {
    if step.StepCall? || step.StepPoll? || step.StepCancelWaiter? || step.StepResume? {
      CallerLogs(px, step, s);
    } else if step.StepOffer? || step.StepConnectCloud? || step.StepDropCloud? || step.StepClearCloud? {
      CloudLogs(px, step, s);
    } else {
      hide FailWorker;
      WorkerLogs(px.sessions[s]);
    }
  }

  lemma CloseCloudLogs(ses: Session)
    ensures forall c :: CloseCloud(ses, c).history == ses.history && CloseCloud(ses, c).observedAt == ses.observedAt
                        && CloseCloud(ses, c).active == ses.active
  {
  }

  lemma CleanupState(px: Proxy, s: nat, error: Option<string>)
    requires Enabled(px, StepCleanup(s, error)) && StateOk(px)
    ensures StateOk(Cleanup(px, s, error))
  {
    hide Shows, RejectAll, VendorCount, Leftover;
    if px.session.Some? && px.session != Some(s) {
      var t := px.session.value;
      ShowsSame(px.state, px.sessions[t], Cleanup(px, s, error).sessions[t], Cleanup(px, s, error).state);
    }
  }

  lemma RetiredStates(px: Proxy, step: Step)
    requires Enabled(px, step) && Subject(px, step) == None && PointersOk(px) && StateOk(px)
    ensures StateOk(Do(px, step))
  {
    hide Shows, CloseCurrentCloud;
    var px' := Do(px, step);
    if step.StepAccept? && !px.closing {
      ShowsFresh(px.state);
    } else if px.session.Some? && !step.StepEndStop? {
      var t := px.session.value;
      CancelLogs(px.sessions[t]);
      ShowsSame(px.state, px.sessions[t], px'.sessions[t], px'.state);
    }
  }

  lemma CancelLogs(ses: Session)
    ensures CancelTask(ses).history == ses.history && CancelTask(ses).observedAt == ses.observedAt
  {
  }

  lemma StateIsKept(px: Proxy, step: Step)
    requires Enabled(px, step) && PointersOk(px) && SessionsOk(px) && StateOk(px)
    ensures StateOk(Do(px, step))
  {
    hide SessionOk, StateOk, Enabled;
    if Subject(px, step) == None {
      RetiredStates(px, step);
    } else {
      SubjectGood(px, step);
      var s := Subject(px, step).value;
      if step.StepDequeue? {
        DequeueState(px, s);
      } else if step.StepTakeAnswer? {
        TakeAnswerState(px, s);
      } else if step.StepForwarded? {
        ForwardedState(px, s, step.drained);
      } else if step.StepReceive? {
        ReceiveState(px, s, step.frame);
      } else if step.StepCleanup? {
        CleanupState(px, s, step.error);
      } else {
        hide Do;
        QuietLogs(px, step, s);
        StepsTouchOneSession(px, step);
        OtherState(px, Do(px, step), s);
      }
    }
  }

  // ----- Times -------------------------------------------------------------------------------

  lemma TimesAreKept(px: Proxy, step: Step)
    requires Enabled(px, step) && PointersOk(px) && SessionsOk(px) && TimesOk(px)
    ensures TimesOk(Do(px, step))
  {
    hide Do, Enabled, SessionsOk, PointersOk;
    var px' := Do(px, step);
    forall s | 0 <= s < |px'.sessions| ensures Times(px'.sessions[s].observedAt, px'.clock) {
      if s < |px.sessions| {
        ObservationTimes(px, step, s);
        assert Times(px.sessions[s].observedAt, px.clock);
      } else {
        NewHasObservedNothing(px, step, s);
      }
    }
  }

  lemma NewHasObservedNothing(px: Proxy, step: Step, s: nat)
    requires Enabled(px, step) && PointersOk(px) && !Has(px, s) && Has(Do(px, step), s)
    ensures Do(px, step).sessions[s].observedAt == []
  {
    assert step.StepAccept? by { hide *; NewOnlyByAccept(px, step, s); }
    assert Do(px, step).sessions[s] == NewSession();
  }

  lemma NewOnlyByAccept(px: Proxy, step: Step, s: nat)
    requires Enabled(px, step) && PointersOk(px) && !Has(px, s) && Has(Do(px, step), s)
    ensures step.StepAccept?
  {
    if Subject(px, step).Some? {
      hide Do, Enabled;
      StepsTouchOneSession(px, step);
    }
  }

  /** Observation times are appended at the present. */
  lemma ObservationTimes(px: Proxy, step: Step, s: nat)
    requires Enabled(px, step) && PointersOk(px) && SessionsOk(px) && Has(px, s)
    ensures var px' := Do(px, step);
            && px.clock <= px'.clock && Has(px', s)
            && (px'.sessions[s].observedAt == px.sessions[s].observedAt
                || (px'.sessions[s].observedAt == px.sessions[s].observedAt + [px.clock]))
  {
    hide SessionOk;
    if Subject(px, step) == None {
      ListenerTimes(px, step, s);
    } else {
      SubjectTimes(px, step, s);
    }
  }

  lemma ListenerTimes(px: Proxy, step: Step, s: nat)
    requires Enabled(px, step) && PointersOk(px) && Has(px, s) && Subject(px, step) == None
    ensures var px' := Do(px, step);
            px.clock <= px'.clock && Has(px', s) && px'.sessions[s].observedAt == px.sessions[s].observedAt
  {
    CancelLogs(px.sessions[s]);
  }

  lemma SubjectTimes(px: Proxy, step: Step, s: nat)
    requires Enabled(px, step) && PointersOk(px) && SessionsOk(px) && Has(px, s) && Subject(px, step).Some?
    ensures var px' := Do(px, step);
            && px.clock <= px'.clock && Has(px', s)
            && (px'.sessions[s].observedAt == px.sessions[s].observedAt
                || (px'.sessions[s].observedAt == px.sessions[s].observedAt + [px.clock]))
  {
    hide SessionOk, Do, Enabled;
    var t := Subject(px, step).value;
    SubjectGood(px, step);
    StepsTouchOneSession(px, step);
    if s == t {
      if QuietSubject(step) {
        QuietLogs(px, step, s);
      } else {
        LoudTimes(px, step, s);
      }
    }
  }

  /** Session `s` observed nothing, or one answer now. */
  ghost predicate ObservedNow(px: Proxy, px': Proxy, s: nat) {
    && Has(px, s) && Has(px', s)
    && (px'.sessions[s].observedAt == px.sessions[s].observedAt
        || (px'.sessions[s].observedAt == px.sessions[s].observedAt + [px.clock]))
  }

  lemma DequeueTimes(px: Proxy, s: nat)
    requires Enabled(px, StepDequeue(s))
    ensures ObservedNow(px, Dequeue(px, s), s)
  {
    hide Dequeue;
    DequeueShape(px, s);
  }

  lemma TakeAnswerTimes(px: Proxy, s: nat)
    requires Enabled(px, StepTakeAnswer(s))
    ensures ObservedNow(px, TakeAnswer(px, s), s)
  {
    hide FailWorker, Finish, AfterForward, Observed;
    var ses := px.sessions[s];
    var response := ses.current.value.answer.frame;
    var seen := Seen(ses, response, px.clock);
    WorkerLogs(ses);
    WorkerLogs(seen);
    AfterForwardTimes(With(px.(state := Observed(px.state, response, px.clock)), s, seen), s, response);
  }

  lemma ForwardedTimes(px: Proxy, s: nat, drained: bool)
    requires Enabled(px, StepForwarded(s, drained))
    ensures ObservedNow(px, Forwarded(px, s, drained), s)
  {
    hide AfterForward, CloseCloud;
    var ses := px.sessions[s];
    CloseCloudLogs(ses);
    var mid := if drained then px else With(px, s, CloseCloud(ses, ses.active.value.origin.cloud));
    AfterForwardTimes(mid, s, ses.worker.response);
  }

  lemma LoudTimes(px: Proxy, step: Step, s: nat)
    requires Enabled(px, step) && Subject(px, step) == Some(s) && !QuietSubject(step) && Has(px, s)
    ensures ObservedNow(px, Do(px, step), s)
  {
    hide Dequeue, TakeAnswer, Forwarded, RejectAll, VendorCount, Leftover;
    match step
    case StepDequeue(_) => DequeueTimes(px, s);
    case StepTakeAnswer(_) => TakeAnswerTimes(px, s);
    case StepForwarded(_, drained) => ForwardedTimes(px, s, drained);
    case _ =>
  }

  lemma AfterForwardTimes(px: Proxy, s: nat, response: Frame)
    requires Has(px, s) && px.sessions[s].active.Some?
    ensures var px' := AfterForward(px, s, response);
            Has(px', s) && px'.sessions[s].observedAt == px.sessions[s].observedAt
  {
    hide FailWorker, Finish, ReadStatus;
    WorkerLogs(px.sessions[s]);
    WorkerLogs(px.sessions[s].(tag := NextTag(px.sessions[s].tag)));
  }
}
