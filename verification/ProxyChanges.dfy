/**
 The device history, the shared state, the sessions and the vendor connections: the exact change
 that each step makes to them, and that no other step makes.
 */
module ProxyChanges {
  import opened Base
  import opened Bits
  import opened Protocol
  import opened Envelope
  import opened ProxyModel
  import opened ProxyInvariant
  import opened ProxySafety
  import opened ProxyProgress
  import opened ProxyState
  import opened ProxyBalance
  import opened ProxyTheorems
  import opened ProxyService
  import opened ProxyLaws
  import opened ProxyExactly

  // ----- Frames of the remaining steps ---------------------------------------------------------

  /** A device frame answers the write that is waiting: swapped endpoints, same opcode, a known read's shape. */
  ghost predicate Answers(f: Frame, request: Frame) {
    && f.destination == request.source && f.source == request.destination && f.opcode == request.opcode
    && ((request.opcode == 0x31 || request.opcode == 0x41) && |request.payload| == 0 ==>
          f.address == request.address && f.length == request.length && |f.payload| == f.length as int)
  }

  lemma AnswersIsMatches(f: Frame, request: Frame)
    ensures Answers(f, request) <==> f.Matches(request)
  {
    if f.Matches(request) { MatchedFields(f, request); }
    if Answers(f, request) { EndpointsSuffice(f, request); }
    hide Frame.Matches;
  }

  ghost predicate Awaited(px: Proxy, s: nat, f: Frame)
    requires Has(px, s)
  {
    var ses := px.sessions[s];
    Acts(px, s) && ses.current.Some? && ses.current.value.answer.Pending? && Answers(f, ses.current.value.frame)
  }

  /** The reader hands an awaited frame to the worker; any other ends it. */
  lemma ReceiveExactly(px: Proxy, s: nat, f: Frame)
    requires Enabled(px, StepReceive(s, f))
    ensures var ses := px.sessions[s];
            Do(px, StepReceive(s, f)) == px.(sessions := px.sessions[s :=
              if Awaited(px, s, f)
              then ses.(current := Some(InFlight(ses.current.value.frame, Resolved(f))), history := ses.history + [Answered(f)])
              else ses.(readerDone := true)])
  {
    if px.sessions[s].current.Some? {
      AnswersIsMatches(f, px.sessions[s].current.value.frame);
    }
    hide Frame.Matches, Answers;
  }

  lemma SweptFrame(ses: Session)
    ensures var ses' := Swept(ses);
            && ses' == ses.(alive := false, phase := Cleaned, current := None, queue := [], waiters := ses'.waiters,
                            clouds := ses'.clouds)
            && ses'.clouds == CloseCurrentCloud(ses).clouds
  {
    hide RejectAll, Leftover, CloseCloud;
    if ses.cloud.Some? {
      CloseFields(ses, ses.cloud.value);
    }
  }

  lemma CleanupFrame(px: Proxy, s: nat, error: Option<string>)
    requires Enabled(px, StepCleanup(s, error))
    ensures var px' := Do(px, StepCleanup(s, error));
            && Has(px', s) && px'.sessions[s] == Swept(px.sessions[s])
            && px' == px.(sessions := px.sessions[s := px'.sessions[s]], session := px'.session, state := px'.state,
                          dropped := px'.dropped)
            && px'.session == (if px.session == Some(s) then None else px.session)
            && var reported := if error.Some? && Acts(px, s) then error else px.state.error;
               px'.state == if px.session == Some(s)
                            then State(false, false, None, None, None, px.state.lastResponse, None, reported)
                            else px.state.(error := reported)
  {
    hide Swept, VendorCount, Leftover;
  }

  lemma RetireFrame(ses: Session)
    ensures var ses' := Retire(ses);
            && ses' == ses.(alive := false, cancelled := true, clouds := ses'.clouds)
            && ses'.clouds == CloseCurrentCloud(ses).clouds
  {
    hide CloseCloud;
    if ses.cloud.Some? {
      CloseFields(ses, ses.cloud.value);
    }
  }

  /** The session a new device gets. */
  ghost predicate Fresh(ses: Session) {
    && ses.alive && !ses.cancelled && ses.phase.Created? && ses.queue == [] && ses.current == None && ses.active == None
    && ses.cloud == None && ses.clouds == map[] && ses.waiters == map[] && ses.history == [] && ses.observedAt == []
    && ses.worker.Checking? && ses.cloudTask.Disconnected? && !ses.readerDone && !ses.pollDone && !ses.closed
  }

  /** A new device retires the session before it, which is cancelled and loses its vendor connection. */
  lemma AcceptExactly(px: Proxy)
    requires PointersOk(px)
    ensures var px', n := Do(px, StepAccept), |px.sessions|;
            if px.closing then px' == px
            else
              && |px'.sessions| == n + 1 && px'.session == Some(n) && Fresh(px'.sessions[n])
              && px' == px.(sessions := px'.sessions, session := px'.session, state := px'.state)
              && px'.state == State(false, false, None, px.state.valveUpdated, None, None, None, None)
              && forall s :: 0 <= s < n ==>
                   px'.sessions[s] == if px.session == Some(s) then Retire(px.sessions[s]) else px.sessions[s]
  {
    hide Retire;
  }

  /** `stop` begins: it closes the proxy, cancels every task that is not over, and waits for exactly those. */
  lemma StopExactly(px: Proxy)
    ensures var px' := Do(px, StepBeginStop);
            && px'.closing && px' == px.(closing := true, sessions := px'.sessions, stops := px'.stops)
            && |px'.sessions| == |px.sessions| && |px'.stops| == |px.stops| + 1 && px'.stops[..|px.stops|] == px.stops
            && forall s: nat :: s < |px.sessions| ==>
                 var over := px.sessions[s].phase.Skipped? || (px.sessions[s].phase.Cleaned? && px.sessions[s].closed);
                 && px'.sessions[s] == px.sessions[s].(cancelled := px.sessions[s].cancelled || !over)
                 && (s in px'.stops[|px.stops|] <==> !over)
  {
  }

  /** It ends when all of those are over; it then forgets the session and blanks the state. */
  lemma StopEndsExactly(px: Proxy, i: nat)
    requires PointersOk(px)
    ensures Enabled(px, StepEndStop(i)) <==>
              i < |px.stops| && forall s :: s in px.stops[i] ==>
                px.sessions[s].phase.Skipped? || (px.sessions[s].phase.Cleaned? && px.sessions[s].closed)
    ensures Enabled(px, StepEndStop(i)) ==>
              var px' := Do(px, StepEndStop(i));
              && px'.session == None && px' == px.(session := None, state := px'.state, stops := px'.stops)
              && px'.state == State(false, false, None, px.state.valveUpdated, None, px.state.lastResponse, None, px.state.error)
              && px'.stops == px.stops[..i] + px.stops[i + 1..]
  {
    if i < |px.stops| {
      assert Below(px.stops[i], |px.sessions|);
    }
  }

  /** Starting again lets devices in; time passes; nothing else changes. */
  lemma StartAndTickExactly(px: Proxy, time: nat)
    ensures Do(px, StepStart) == px.(closing := false)
    ensures Do(px, StepTick(time)) == px.(clock := px.clock + time)
  {
  }

  /** The worker goes on to its queue only for a session that acts. */
  lemma CheckExactly(px: Proxy, s: nat)
    requires Enabled(px, StepCheck(s))
    ensures Do(px, StepCheck(s)) ==
              px.(sessions := px.sessions[s := px.sessions[s].(worker := if Acts(px, s) then Dequeuing else WorkerDone)])
  {
  }

  // ----- Vendor connections --------------------------------------------------------------------------

  /** A new connection is the session's own and open, and reported; a session that does not act gives up. */
  lemma ConnectExactly(px: Proxy, s: nat)
    requires Enabled(px, StepConnectCloud(s))
    ensures var px', ses, c := Do(px, StepConnectCloud(s)), px.sessions[s], px.nextCloud;
            if Acts(px, s)
            then px' == px.(nextCloud := c + 1, state := px.state.(cloudConnected := true),
                            sessions := px.sessions[s := ses.(clouds := ses.clouds[c := Cloud(true, [], [])],
                                                              cloud := Some(c), cloudTask := Serving(c))])
            else px' == px.(sessions := px.sessions[s := ses.(cloudTask := CloudDone)])
  {
  }

  /** A connection that ends is closed at once. */
  lemma DropExactly(px: Proxy, s: nat)
    requires Enabled(px, StepDropCloud(s))
    ensures var ses := px.sessions[s];
            var c := ses.cloudTask.cloud;
            Do(px, StepDropCloud(s)) == px.(sessions := px.sessions[s := CloseCloud(ses, c).(cloudTask := Closing(c))])
  {
    hide CloseCloud;
  }

  /** It is then forgotten, and reported by a session that acts. */
  lemma ForgetExactly(px: Proxy, s: nat)
    requires Enabled(px, StepClearCloud(s))
    ensures var ses := px.sessions[s];
            var ses' := ses.(cloudTask := Disconnected,
                             cloud := if ses.cloud == Some(ses.cloudTask.cloud) then None else ses.cloud);
            Do(px, StepClearCloud(s))
            == px.(sessions := px.sessions[s := ses'],
                   state := if Acts(px, s) then px.state.(cloudConnected := false) else px.state)
  {
  }

  /** The steps that close connection `c` of session `s`. */
  ghost predicate Closes(px: Proxy, step: Step, s: nat, c: nat)
    requires Has(px, s)
  {
    var ses := px.sessions[s];
    match step
    case StepAccept => !px.closing && px.session == Some(s) && ses.cloud == Some(c)
    case StepCleanup(t, _) => t == s && ses.cloud == Some(c)
    case StepDropCloud(t) => t == s && ses.cloudTask == Serving(c)
    case StepOffer(t, _) => t == s && ses.cloudTask == Serving(c) && Acts(px, s) && Live(ses, c) && !Room(px, ses)
    case StepForwarded(t, drained) => t == s && !drained && ses.active.Some? && ses.active.value.origin == Vendor(c)
    case _ => false
  }

  ghost predicate OpenAfter(ses: Session, ses': Session, c: nat, closes: bool)
    requires c in ses.clouds
  {
    c in ses'.clouds && (ses'.clouds[c].alive <==> ses.clouds[c].alive && !closes)
  }

  /** An open connection is closed by exactly these steps. */
  lemma ClosesExactly(px: Proxy, step: Step, s: nat, c: nat)
    requires PointersOk(px) && Enabled(px, step) && Has(px, s) && c in px.sessions[s].clouds && c < px.nextCloud
    ensures Has(Do(px, step), s)
    ensures OpenAfter(px.sessions[s], Do(px, step).sessions[s], c, Closes(px, step, s, c))
  {
    if Subject(px, step) == None {
      ListenerCloses(px, step, s, c);
    } else if Subject(px, step) != Some(s) {
      hide Do, Enabled;
      StepsTouchOneSession(px, step);
    } else {
      hide PointersOk;
      SubjectCloses(px, step, s, c);
    }
  }

  lemma ListenerCloses(px: Proxy, step: Step, s: nat, c: nat)
    requires PointersOk(px) && Enabled(px, step) && Subject(px, step) == None && Has(px, s) && c in px.sessions[s].clouds
    ensures Has(Do(px, step), s)
    ensures OpenAfter(px.sessions[s], Do(px, step).sessions[s], c, Closes(px, step, s, c))
  {
    hide Retire;
    RetireFrame(px.sessions[s]);
    CurrentClosed(px.sessions[s], c);
    hide CloseCurrentCloud;
  }

  lemma CurrentClosed(ses: Session, c: nat)
    requires c in ses.clouds
    ensures var ses' := CloseCurrentCloud(ses);
            c in ses'.clouds && (ses'.clouds[c].alive <==> ses.clouds[c].alive && ses.cloud != Some(c))
  {
    hide CloseCloud;
    if ses.cloud.Some? {
      CloseFields(ses, ses.cloud.value);
    }
  }

  lemma SubjectCloses(px: Proxy, step: Step, s: nat, c: nat)
    requires Enabled(px, step) && Subject(px, step) == Some(s) && Has(px, s)
    requires c in px.sessions[s].clouds && c < px.nextCloud
    ensures Has(Do(px, step), s)
    ensures OpenAfter(px.sessions[s], Do(px, step).sessions[s], c, Closes(px, step, s, c))
  {
    if step.StepOffer? || step.StepForwarded? || step.StepCleanup? || step.StepDropCloud? {
      hide Do, Enabled, OpenAfter, Closes;
      ClosingSteps(px, step, s, c);
    } else if step.StepTakeAnswer? {
      TakeKeepsOpen(px, s, c);
      hide Do;
    } else if step.StepDequeue? {
      DequeueFrame(px, s);
      hide Do, WorkerOnly, Commands;
    } else if step.StepWorkerFails? {
      FailFrame(px.sessions[s]);
      hide FailWorker;
    } else {
      OthersKeepOpen(px, step, s, c);
      hide Do;
    }
  }

  lemma ClosingSteps(px: Proxy, step: Step, s: nat, c: nat)
    requires Enabled(px, step) && Subject(px, step) == Some(s) && Has(px, s) && c in px.sessions[s].clouds
    requires step.StepOffer? || step.StepForwarded? || step.StepCleanup? || step.StepDropCloud?
    ensures Has(Do(px, step), s)
    ensures OpenAfter(px.sessions[s], Do(px, step).sessions[s], c, Closes(px, step, s, c))
  {
    hide Do, OpenAfter, Closes;
    match step
    case StepOffer(_, frame) => OfferCloses(px, s, frame, c);
    case StepForwarded(_, drained) => ForwardCloses(px, s, drained, c);
    case StepCleanup(_, error) => CleanupCloses(px, s, error, c);
    case StepDropCloud(_) => DropCloses(px, s, c);
  }

  lemma OfferCloses(px: Proxy, s: nat, frame: Frame, c: nat)
    requires var step := StepOffer(s, frame); Enabled(px, step) && Has(px, s) && c in px.sessions[s].clouds
    ensures var step := StepOffer(s, frame);
            Has(Do(px, step), s) && OpenAfter(px.sessions[s], Do(px, step).sessions[s], c, Closes(px, step, s, c))
  {
    hide CloseCloud;
    OfferFrame(px, s, frame);
    CloseFields(px.sessions[s], px.sessions[s].cloudTask.cloud);
    hide Do;
  }

  lemma ForwardCloses(px: Proxy, s: nat, drained: bool, c: nat)
    requires var step := StepForwarded(s, drained); Enabled(px, step) && c in px.sessions[s].clouds
    ensures var step := StepForwarded(s, drained);
            Has(Do(px, step), s) && OpenAfter(px.sessions[s], Do(px, step).sessions[s], c, Closes(px, step, s, c))
  {
    hide WorkerOnly, Commands, ReadStatus, Frame.ValveCommand, CloseCloud;
    ForwardFrame(px, s, drained);
    CloseFields(px.sessions[s], px.sessions[s].active.value.origin.cloud);
    hide Do;
  }

  lemma CleanupCloses(px: Proxy, s: nat, error: Option<string>, c: nat)
    requires var step := StepCleanup(s, error); Enabled(px, step) && c in px.sessions[s].clouds
    ensures var step := StepCleanup(s, error);
            Has(Do(px, step), s) && OpenAfter(px.sessions[s], Do(px, step).sessions[s], c, Closes(px, step, s, c))
  {
    CleanupFrame(px, s, error);
    SweptFrame(px.sessions[s]);
    CurrentClosed(px.sessions[s], c);
    hide Do, Swept, CloseCurrentCloud;
  }

  lemma DropCloses(px: Proxy, s: nat, c: nat)
    requires var step := StepDropCloud(s); Enabled(px, step) && c in px.sessions[s].clouds
    ensures var step := StepDropCloud(s);
            Has(Do(px, step), s) && OpenAfter(px.sessions[s], Do(px, step).sessions[s], c, Closes(px, step, s, c))
  {
    hide CloseCloud;
    DropExactly(px, s);
    CloseFields(px.sessions[s], px.sessions[s].cloudTask.cloud);
    hide Do;
  }

  lemma OthersKeepOpen(px: Proxy, step: Step, s: nat, c: nat)
    requires Enabled(px, step) && Subject(px, step) == Some(s) && Has(px, s)
    requires c in px.sessions[s].clouds && c < px.nextCloud
    requires !step.StepOffer? && !step.StepForwarded? && !step.StepTakeAnswer? && !step.StepDequeue?
             && !step.StepCleanup? && !step.StepDropCloud? && !step.StepWorkerFails?
    ensures Has(Do(px, step), s)
    ensures OpenAfter(px.sessions[s], Do(px, step).sessions[s], c, false)
  {
    if step.StepReceive? {
      ReceiveExactly(px, s, step.frame);
      hide Do, Awaited;
    } else if step.StepCall? || step.StepPoll? || step.StepCancelWaiter? || step.StepResume? {
      CallerFrame(px, step, s);
      hide Do;
    } else if step.StepConnectCloud? {
      ConnectExactly(px, s);
      hide Do;
    } else if step.StepClearCloud? {
      ForgetExactly(px, s);
      hide Do;
    } else {
      FlagFrame(px, step, s);
      hide Do;
    }
  }

  lemma TakeKeepsOpen(px: Proxy, s: nat, c: nat)
    requires Enabled(px, StepTakeAnswer(s)) && c in px.sessions[s].clouds
    ensures var px' := Do(px, StepTakeAnswer(s));
            && Has(px', s) && c in px'.sessions[s].clouds
            && px'.sessions[s].clouds[c].alive == px.sessions[s].clouds[c].alive
  {
    hide TakeAnswer, Proceeded;
    TakeAnswerForms(px, s);
    ProceededKeepsOpen(px.sessions[s], IsCurrent(px, s), px.clock, c);
  }

  lemma ProceededKeepsOpen(ses: Session, current: bool, now: int, c: nat)
    requires ses.worker.Exchanging? && ses.active.Some? && ses.current.Some? && ses.current.value.answer.Resolved?
    requires c in ses.clouds
    ensures var ses' := Proceeded(ses, current, now);
            c in ses'.clouds && ses'.clouds[c].alive == ses.clouds[c].alive
  {
    hide Continued, Finish, FailWorker, WorkerOnly;
    var response := ses.current.value.answer.frame;
    var seen := Seen(ses, response, now);
    FailFrame(ses);
    FinishFrame(seen, response);
    ContinuedFrame(seen, true, response);
  }

  // ----- The device history ---------------------------------------------------------------------------

  /** The event a step appends to the history of session `s`, if any. */
  ghost function EventsOf(px: Proxy, step: Step, s: nat): seq<Event>
    requires Has(px, s)
  {
    var ses := px.sessions[s];
    match step
    case StepDequeue(t) =>
      if t == s && ses.queue != [] && Acts(px, s) && Asked(ses, ses.queue[0])
      then [Wrote(ses.queue[0], ses.queue[0].frame, false)] else []
    case StepReceive(t, f) => if t == s && Awaited(px, s, f) then [Answered(f)] else []
    case StepTakeAnswer(t) =>
      if t == s && TakesToConfirm(px, s) then [Wrote(ses.active.value, ReadStatus(TagAfter(ses.tag)), true)] else []
    case StepForwarded(t, _) =>
      if t == s && ses.worker.Forwarding? && ses.active.Some? && Acts(px, s) && Commands(ses.active.value.frame)
         && Empty(ses.worker.response)
      then [Wrote(ses.active.value, ReadStatus(TagAfter(ses.tag)), true)] else []
    case _ => []
  }

  /**
   A frame is written to the device exactly when a wanted request is taken from the queue of a
   session that acts, or a valve command was acknowledged empty; an answer is accepted exactly when
   it is awaited.
   */
  lemma EventsExactly(px: Proxy, step: Step, s: nat)
    requires PointersOk(px) && Enabled(px, step) && Has(px, s)
    ensures Has(Do(px, step), s)
    ensures Do(px, step).sessions[s].history == px.sessions[s].history + EventsOf(px, step, s)
  {
    assert px.sessions[s].history + [] == px.sessions[s].history;
    if Subject(px, step) == None {
      hide ReadStatus, Commands;
      ListenerEvents(px, step, s);
    } else if Subject(px, step) != Some(s) {
      hide Do, Enabled, ReadStatus, Commands;
      StepsTouchOneSession(px, step);
    } else {
      hide PointersOk;
      SubjectEvents(px, step, s);
    }
  }

  lemma ListenerEvents(px: Proxy, step: Step, s: nat)
    requires Enabled(px, step) && Subject(px, step) == None && Has(px, s)
    ensures Has(Do(px, step), s) && Do(px, step).sessions[s].history == px.sessions[s].history
    ensures EventsOf(px, step, s) == []
  {
    hide Retire;
    RetireFrame(px.sessions[s]);
  }

  lemma TagsAfter(tag: Tag)
    ensures NextTag(tag) == TagAfter(tag)
  {
  }

  lemma SubjectEvents(px: Proxy, step: Step, s: nat)
    requires Enabled(px, step) && Subject(px, step) == Some(s) && Has(px, s)
    ensures Has(Do(px, step), s)
    ensures Do(px, step).sessions[s].history == px.sessions[s].history + EventsOf(px, step, s)
  {
    hide WorkerOnly, Commands, ReadStatus, Frame.ValveCommand, NextTag, TagAfter;
    TagsAfter(px.sessions[s].tag);
    assert px.sessions[s].history + [] == px.sessions[s].history;
    if step.StepDequeue? {
      DequeueFrame(px, s);
      hide Do;
    } else if step.StepTakeAnswer? {
      TakeFrame(px, s);
      hide Do;
    } else if step.StepForwarded? {
      ForwardFrame(px, s, step.drained);
      hide Do;
    } else if step.StepReceive? {
      ReceiveExactly(px, s, step.frame);
      hide Do, Awaited;
    } else {
      QuietEvents(px, step, s);
      hide Do;
    }
  }

  lemma QuietEvents(px: Proxy, step: Step, s: nat)
    requires Enabled(px, step) && Subject(px, step) == Some(s) && Has(px, s)
    requires !step.StepDequeue? && !step.StepTakeAnswer? && !step.StepForwarded? && !step.StepReceive?
    ensures Has(Do(px, step), s) && Do(px, step).sessions[s].history == px.sessions[s].history
  {
    if step.StepCleanup? {
      CleanupFrame(px, s, step.error);
      SweptFrame(px.sessions[s]);
      hide Do, Swept;
    } else {
      hide Do, Enabled, SameLogs;
      QuietLogs(px, step, s);
      LogsAreSame(px, Do(px, step), s);
    }
  }

  lemma LogsAreSame(px: Proxy, px': Proxy, s: nat)
    requires SameLogs(px, px', s)
    ensures Has(px', s) && px'.sessions[s].history == px.sessions[s].history
  {
  }

  // ----- The shared state -------------------------------------------------------------------------------

  /** What one observed answer does to the state, by its bytes. */
  ghost predicate ObservedAs(st: State, f: Frame, now: int, st': State) {
    && st'.deviceConnected && st'.lastResponse == Some(now) && st'.error == None
    && st'.cloudConnected == st.cloudConnected
    && (if StatusShape(f) then PositionByte(st'.valve, f.payload[13]) && st'.valveUpdated == Some(now)
        else if SnapshotShape(f) then PositionByte(st'.valve, f.payload[45]) && st'.valveUpdated == Some(now)
        else st'.valve == st.valve && st'.valveUpdated == st.valveUpdated)
    && (if SnapshotShape(f)
        then st'.totalLiters.Some? && CounterBytes(st'.totalLiters.value, f) && st'.counterUpdated == Some(now)
        else st'.totalLiters == st.totalLiters && st'.counterUpdated == st.counterUpdated)
  }

  lemma ObservedIs(st: State, f: Frame, now: int)
    ensures ObservedAs(st, f, now, Observed(st, f, now))
  {
    ReportedBytes(f);
    hide StatusShape, SnapshotShape, CounterBytes, PositionByte, StatusValues;
  }

  /** The state after a step. */
  ghost predicate StateAfter(px: Proxy, step: Step, st': State) {
    var st := px.state;
    match step
    case StepAccept =>
      st' == if px.closing then st else State(false, false, None, st.valveUpdated, None, None, None, None)
    case StepEndStop(_) => st' == State(false, false, None, st.valveUpdated, None, st.lastResponse, None, st.error)
    case StepCleanup(s, error) =>
      Has(px, s)
      && var reported := if error.Some? && Acts(px, s) then error else st.error;
         st' == if px.session == Some(s) then State(false, false, None, None, None, st.lastResponse, None, reported)
                else st.(error := reported)
    case StepConnectCloud(s) => Has(px, s) && st' == if Acts(px, s) then st.(cloudConnected := true) else st
    case StepClearCloud(s) => Has(px, s) && st' == if Acts(px, s) then st.(cloudConnected := false) else st
    case StepDequeue(s) =>
      Has(px, s) && px.sessions[s].queue != []
      && var r := px.sessions[s].queue[0];
         st' == if Asked(px.sessions[s], r) && Commands(r.frame) then st.(valve := None) else st
    case StepTakeAnswer(s) =>
      Has(px, s) && px.sessions[s].current.Some? && px.sessions[s].current.value.answer.Resolved?
      && if Acts(px, s) then ObservedAs(st, px.sessions[s].current.value.answer.frame, px.clock, st') else st' == st
    case _ => st' == st
  }

  /** Every step changes the shared state exactly as written, and the other steps not at all. */
  lemma StateExactly(px: Proxy, step: Step)
    requires PointersOk(px) && Enabled(px, step)
    ensures StateAfter(px, step, Do(px, step).state)
  {
    hide Commands, ObservedAs;
    match step
    case StepDequeue(s) => hide PointersOk; DequeueFrame(px, s); hide Do, WorkerOnly, ReadStatus;
    case StepTakeAnswer(s) => hide PointersOk; TakeState(px, s); hide Do;
    case _ =>
      hide Do;
      if step.StepAccept? || step.StepEndStop? || step.StepCleanup? || step.StepConnectCloud? || step.StepClearCloud? {
        SessionState(px, step);
      } else {
        hide PointersOk;
        UnchangedState(px, step);
      }
  }

  lemma SessionState(px: Proxy, step: Step)
    requires PointersOk(px) && Enabled(px, step)
    requires step.StepAccept? || step.StepEndStop? || step.StepCleanup? || step.StepConnectCloud? || step.StepClearCloud?
    ensures StateAfter(px, step, Do(px, step).state)
  {
    match step
    case StepAccept => AcceptExactly(px); hide Do;
    case StepEndStop(i) => StopEndsExactly(px, i); hide Do;
    case StepCleanup(s, error) => CleanupFrame(px, s, error); hide Do;
    case StepConnectCloud(s) => ConnectExactly(px, s); hide Do;
    case StepClearCloud(s) => ForgetExactly(px, s); hide Do;
  }

  lemma TakeState(px: Proxy, s: nat)
    requires Enabled(px, StepTakeAnswer(s))
    ensures var f, st' := px.sessions[s].current.value.answer.frame, Do(px, StepTakeAnswer(s)).state;
            if Acts(px, s) then ObservedAs(px.state, f, px.clock, st') else st' == px.state
  {
    var f := px.sessions[s].current.value.answer.frame;
    ObservedIs(px.state, f, px.clock);
    hide Observed, ObservedAs, FailWorker, Finish, AfterForward, Frame.ValveCommand;
    if Acts(px, s) {
      var seen := Seen(px.sessions[s], f, px.clock);
      AfterForwardForms(With(px.(state := Observed(px.state, f, px.clock)), s, seen), s, f);
    }
    hide Continued;
  }

  lemma UnchangedState(px: Proxy, step: Step)
    requires Enabled(px, step)
    requires !step.StepAccept? && !step.StepEndStop? && !step.StepCleanup? && !step.StepConnectCloud?
             && !step.StepClearCloud? && !step.StepDequeue? && !step.StepTakeAnswer?
    ensures Do(px, step).state == px.state
  {
    hide WorkerOnly, Commands, ReadStatus, Frame.ValveCommand;
    match step
    case StepForwarded(s, drained) => ForwardFrame(px, s, drained); hide Do;
    case StepOffer(s, frame) => OfferFrame(px, s, frame); hide Do;
    case StepReceive(s, frame) => ReceiveExactly(px, s, frame); hide Do, Awaited;
    case _ => PlainState(px, step);
  }

  lemma PlainState(px: Proxy, step: Step)
    requires Enabled(px, step)
    requires !step.StepAccept? && !step.StepEndStop? && !step.StepCleanup? && !step.StepConnectCloud?
             && !step.StepClearCloud? && !step.StepDequeue? && !step.StepTakeAnswer? && !step.StepForwarded?
             && !step.StepOffer? && !step.StepReceive?
    ensures Do(px, step).state == px.state
  {
    hide FailWorker, DropCloud, Verdict, RequestFrame, CancelTask;
  }
}
