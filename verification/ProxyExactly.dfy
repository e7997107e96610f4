/**
 Calls, waiters, the device history, the shared state and the connections: what changes, and when.
 */
module ProxyExactly {
  import opened Base
  import opened Bits
  import opened Protocol
  import opened Envelope
  import opened ProxyModel
  import opened ProxyInvariant
  import opened ProxySafety
  import opened ProxyProgress
  import opened ProxyState
  import opened ProxyBalance
  import opened ProxyTheorems
  import opened ProxyService
  import opened ProxyLaws

  // ----- Outcomes of calls -----------------------------------------------------------------------

  function Code(valve: Valve): byte {
    match valve case Open => 0xC7 case Closed => 0xC8
  }

  /** A status report or a snapshot whose position byte is that of `valve`. */
  ghost predicate Reports(f: Frame, valve: Valve) {
    (StatusShape(f) && f.payload[13] == Code(valve)) || (SnapshotShape(f) && f.payload[45] == Code(valve))
  }

  lemma ReportsAre(f: Frame, valve: Valve)
    ensures Reports(f, valve) <==> StatusValues(f).Some? && StatusValues(f).value.valve == Some(valve)
  {
    ReportedBytes(f);
    hide StatusValues;
  }

  /** How a caller's wait ends, decided when it continues. */
  ghost predicate OutcomeIs(px: Proxy, s: nat, w: Waiter, o: Outcome)
    requires Has(px, s)
  {
    && (o == Returned <==>
          w.future.Resolved? && (w.purpose.SetValve? ==> Acts(px, s) && Reports(w.future.frame, w.purpose.valve)))
    && (o == NotConfirmed <==>
          w.future.Resolved? && w.purpose.SetValve? && Acts(px, s) && !Reports(w.future.frame, w.purpose.valve))
    && (o == CallCancelled <==> w.future.Cancelled?)
    && (o == Unavailable <==> w.future.Rejected? || (w.future.Resolved? && w.purpose.SetValve? && !Acts(px, s)))
  }

  lemma VerdictIs(px: Proxy, s: nat, w: Waiter)
    requires Has(px, s) && Done(w.future)
    ensures OutcomeIs(px, s, w, Verdict(px, s, w))
  {
    if w.purpose.SetValve? && w.future.Resolved? {
      ReportsAre(w.future.frame, w.purpose.valve);
    }
    hide StatusValues, Reports;
  }

  /**
   A call returns normally if and only if its answer came and, for `set_valve`, the session is
   still current and the answer reports the position asked for. The other outcomes are told
   apart: not confirmed, unavailable, cancelled.
   */
  lemma OutcomesExactly(run: seq<Proxy>, steps: seq<Step>, n: nat, s: nat, id: nat)
    requires IsRun(run, steps) && n < |steps| && n + 1 < |run| && steps[n] == StepResume(s, id)
    ensures Has(run[n], s) && id in run[n].sessions[s].waiters
    ensures var w := run[n].sessions[s].waiters[id];
            && Done(w.future) && w.outcome == None
            && Has(run[n + 1], s) && id in run[n + 1].sessions[s].waiters
            && var w' := run[n + 1].sessions[s].waiters[id];
               w'.outcome.Some? && w' == w.(outcome := w'.outcome) && OutcomeIs(run[n], s, w, w'.outcome.value)
  {
    RunStep(run, steps, n);
    hide IsRun, Verdict, OutcomeIs;
    VerdictIs(run[n], s, run[n].sessions[s].waiters[id]);
  }

  // ----- Waiters -----------------------------------------------------------------------------------

  /** The answer being taken completes the waiter of local request `id`. */
  ghost predicate Completes(px: Proxy, step: Step, s: nat, id: nat) {
    && step == StepTakeAnswer(s) && Has(px, s) && Acts(px, s)
    && var ses := px.sessions[s];
       && ses.active.Some? && ses.active.value.origin.Local? && ses.active.value.id == id
       && ses.current.Some? && ses.current.value.answer.Resolved?
       && ses.worker.Exchanging? && (ses.worker.confirming || !Commands(ses.active.value.frame))
  }

  ghost predicate Left(ses: Session, id: nat) {
    (ses.active.Some? && ses.active.value.id == id) || exists i :: 0 <= i < |ses.queue| && ses.queue[i].id == id
  }

  /** What becomes of a pending future. */
  ghost function FutureAfter(px: Proxy, step: Step, s: nat, id: nat): Future
    requires Has(px, s) && id in px.sessions[s].waiters
  {
    var w := px.sessions[s].waiters[id];
    if !w.future.Pending? then w.future
    else if step == StepCancelWaiter(s, id) then Cancelled
    else if Completes(px, step, s, id) then Resolved(px.sessions[s].current.value.answer.frame)
    else if step.StepCleanup? && step.s == s && Left(px.sessions[s], id) then Rejected
    else w.future
  }

  lemma LeftIsMentioned(ses: Session, id: nat)
    ensures Left(ses, id) <==> Mentions(Leftover(ses), id)
  {
    if ses.active.Some? {
      MentionsFirst(ses.active.value, ses.queue, id);
    } else {
      assert Leftover(ses) == ses.queue;
    }
  }

  lemma MentionsFirst(r: Request, queue: seq<Request>, id: nat)
    ensures Mentions([r] + queue, id) <==> r.id == id || Mentions(queue, id)
  {
    var all := [r] + queue;
    assert all[0] == r;
    if Mentions(queue, id) {
      var i :| 0 <= i < |queue| && queue[i].id == id;
      assert all[i + 1] == queue[i];
    }
  }

  /** Every future changes exactly as written: cancelled, completed by its own answer, or rejected. */
  lemma FuturesExactly(px: Proxy, step: Step, s: nat, id: nat)
    requires Inv(px) && Enabled(px, step) && Has(px, s) && id in px.sessions[s].waiters
    ensures var px' := Do(px, step);
            && Has(px', s) && id in px'.sessions[s].waiters
            && px'.sessions[s].waiters[id].future == FutureAfter(px, step, s, id)
  {
    hide StateOk, TimesOk, Balanced, Apart, Do, Enabled, SessionOk, FutureAfter;
    assert Good(px, px.sessions[s]);
    if Subject(px, step) == None {
      ListenerFutures(px, step, s, id);
    } else if Subject(px, step) != Some(s) {
      StepsTouchOneSession(px, step);
      OtherFutures(px, step, s, id);
    } else {
      SubjectFutures(px, step, s, id);
    }
  }

  lemma ListenerFutures(px: Proxy, step: Step, s: nat, id: nat)
    requires Enabled(px, step) && Subject(px, step) == None && Has(px, s) && id in px.sessions[s].waiters
    ensures Has(Do(px, step), s) && Do(px, step).sessions[s].waiters == px.sessions[s].waiters
    ensures FutureAfter(px, step, s, id) == px.sessions[s].waiters[id].future
  {
    hide Retire;
    RetireWaiters(px.sessions[s]);
  }

  lemma RetireWaiters(ses: Session)
    ensures Retire(ses).waiters == ses.waiters
  {
    hide CloseCloud;
    if ses.cloud.Some? {
      CloseFields(ses, ses.cloud.value);
    }
  }

  lemma OtherFutures(px: Proxy, step: Step, s: nat, id: nat)
    requires Subject(px, step).Some? && Subject(px, step) != Some(s) && Has(px, s) && id in px.sessions[s].waiters
    ensures FutureAfter(px, step, s, id) == px.sessions[s].waiters[id].future
  {
  }

  lemma SubjectFutures(px: Proxy, step: Step, s: nat, id: nat)
    requires Enabled(px, step) && Subject(px, step) == Some(s) && Has(px, s) && id in px.sessions[s].waiters
    requires Good(px, px.sessions[s])
    ensures var px' := Do(px, step);
            && Has(px', s) && id in px'.sessions[s].waiters
            && px'.sessions[s].waiters[id].future == FutureAfter(px, step, s, id)
  {
    hide Do, Enabled, SessionOk, FutureAfter;
    if step.StepTakeAnswer? {
      TakeFutures(px, s, id);
    } else if step.StepCleanup? {
      CleanupFutures(px, s, step.error, id);
    } else if step.StepCall? || step.StepPoll? || step.StepCancelWaiter? || step.StepResume? {
      CallerFutures(px, step, s, id);
    } else {
      PlainFutures(px, step, s, id);
    }
  }

  lemma CallerFutures(px: Proxy, step: Step, s: nat, id: nat)
    requires Enabled(px, step) && Subject(px, step) == Some(s) && Has(px, s) && id in px.sessions[s].waiters
    requires Good(px, px.sessions[s])
    requires step.StepCall? || step.StepPoll? || step.StepCancelWaiter? || step.StepResume?
    ensures var px' := Do(px, step);
            && Has(px', s) && id in px'.sessions[s].waiters
            && px'.sessions[s].waiters[id].future == FutureAfter(px, step, s, id)
  {
    NewIdIsNew(px, s);
    hide Good;
    if step.StepCall? {
      SubmitFutures(px, s, step.purpose, true, id);
    } else if step.StepPoll? {
      SubmitFutures(px, s, Poll, step.snapshot, id);
    } else {
      AwaitFutures(px, step, s, id);
      hide Do, Enabled, FutureAfter;
    }
  }

  lemma SubmitFutures(px: Proxy, s: nat, purpose: Purpose, snapshot: bool, id: nat)
    requires Has(px, s) && id in px.sessions[s].waiters && id != px.nextId
    ensures var px' := Submit(px, s, purpose, snapshot);
            && Has(px', s) && id in px'.sessions[s].waiters
            && px'.sessions[s].waiters[id] == px.sessions[s].waiters[id]
  {
    hide RequestFrame;
  }

  lemma AwaitFutures(px: Proxy, step: Step, s: nat, id: nat)
    requires Enabled(px, step) && Subject(px, step) == Some(s) && Has(px, s) && id in px.sessions[s].waiters
    requires step.StepCancelWaiter? || step.StepResume?
    ensures var px' := Do(px, step);
            && Has(px', s) && id in px'.sessions[s].waiters
            && px'.sessions[s].waiters[id].future == FutureAfter(px, step, s, id)
  {
    match step
    case StepCancelWaiter(_, other) => CancelFutures(px, s, other, id);
    case StepResume(_, other) => ResumeFutures(px, s, other, id);
  }

  lemma CancelFutures(px: Proxy, s: nat, other: nat, id: nat)
    requires Has(px, s) && other in px.sessions[s].waiters && id in px.sessions[s].waiters
    ensures var px' := Do(px, StepCancelWaiter(s, other));
            && Has(px', s) && id in px'.sessions[s].waiters
            && px'.sessions[s].waiters[id].future == FutureAfter(px, StepCancelWaiter(s, other), s, id)
  {
  }

  lemma ResumeFutures(px: Proxy, s: nat, other: nat, id: nat)
    requires Enabled(px, StepResume(s, other)) && id in px.sessions[s].waiters
    ensures var px' := Do(px, StepResume(s, other));
            && Has(px', s) && id in px'.sessions[s].waiters
            && px'.sessions[s].waiters[id].future == FutureAfter(px, StepResume(s, other), s, id)
  {
    hide Verdict;
  }

  lemma PlainFutures(px: Proxy, step: Step, s: nat, id: nat)
    requires Enabled(px, step) && Subject(px, step) == Some(s) && Has(px, s) && id in px.sessions[s].waiters
    requires Good(px, px.sessions[s])
    requires !step.StepTakeAnswer? && !step.StepCleanup? && !step.StepCall? && !step.StepPoll?
             && !step.StepCancelWaiter? && !step.StepResume?
    ensures var px' := Do(px, step);
            && Has(px', s) && id in px'.sessions[s].waiters
            && px'.sessions[s].waiters[id].future == FutureAfter(px, step, s, id)
  {
    hide WorkerOnly, Commands, ReadStatus, Frame.ValveCommand, SessionOk;
    if step.StepDequeue? {
      DequeueFrame(px, s);
      hide Do;
    } else if step.StepForwarded? {
      ForwardedFutures(px, s, step.drained);
      hide Do;
    } else if step.StepOffer? {
      OfferFrame(px, s, step.frame);
      hide Do, CloseCloud;
      CloseFields(px.sessions[s], px.sessions[s].cloudTask.cloud);
    } else {
      QuietFutures(px, step, s);
      hide Do;
    }
  }

  lemma QuietFutures(px: Proxy, step: Step, s: nat)
    requires Enabled(px, step) && Subject(px, step) == Some(s) && Has(px, s)
    requires !step.StepTakeAnswer? && !step.StepCleanup? && !step.StepCall? && !step.StepPoll?
             && !step.StepCancelWaiter? && !step.StepResume? && !step.StepDequeue? && !step.StepForwarded? && !step.StepOffer?
    ensures Has(Do(px, step), s) && Do(px, step).sessions[s].waiters == px.sessions[s].waiters
  {
    hide FailWorker, CloseCloud, Frame.Matches;
    FailFields(px.sessions[s]);
    if step.StepDropCloud? {
      CloseFields(px.sessions[s], px.sessions[s].cloudTask.cloud);
    }
  }

  /** A vendor request has no waiter to complete. */
  lemma ForwardedFutures(px: Proxy, s: nat, drained: bool)
    requires Enabled(px, StepForwarded(s, drained)) && SessionOk(px.sessions[s])
    ensures Has(Do(px, StepForwarded(s, drained)), s)
    ensures Do(px, StepForwarded(s, drained)).sessions[s].waiters == px.sessions[s].waiters
  {
    hide AfterForward, Continued, CloseCloud, SessionOk;
    var ses := px.sessions[s];
    var c := ses.active.value.origin.cloud;
    CloseFields(ses, c);
    var closed := if drained then ses else CloseCloud(ses, c);
    var mid := With(px, s, closed);
    assert drained ==> mid == px;
    AfterForwardForms(mid, s, ses.worker.response);
    ContinuedWaiters(closed, IsCurrent(mid, s), ses.worker.response);
  }

  lemma ContinuedWaiters(ses: Session, current: bool, response: Frame)
    requires ses.active.Some?
    ensures Continued(ses, current, response).waiters ==
              if ses.active.value.frame.ValveCommand() == None && ActiveWaits(ses)
              then Complete(ses, ses.active.value.id, Resolved(response)).waiters else ses.waiters
  {
    hide Finish, FailWorker, Frame.ValveCommand, ReadStatus, Complete;
    FinishFields(ses, response);
    FailFrame(ses);
    FailFrame(ses.(tag := NextTag(ses.tag)));
  }

  lemma TakeFutures(px: Proxy, s: nat, id: nat)
    requires Enabled(px, StepTakeAnswer(s)) && Has(px, s) && id in px.sessions[s].waiters
    ensures var px' := Do(px, StepTakeAnswer(s));
            && Has(px', s) && id in px'.sessions[s].waiters
            && px'.sessions[s].waiters[id].future == FutureAfter(px, StepTakeAnswer(s), s, id)
  {
    hide Proceeded, TakeAnswer, Commands, Frame.ValveCommand;
    TakeAnswerForms(px, s);
    ProceededWaiters(px.sessions[s], IsCurrent(px, s), px.clock);
    CommandsAre(px.sessions[s].active.value.frame);
  }

  lemma ProceededWaiters(ses: Session, current: bool, now: int)
    requires ses.worker.Exchanging? && ses.active.Some? && ses.current.Some? && ses.current.value.answer.Resolved?
    ensures Proceeded(ses, current, now).waiters ==
              if current && ActiveWaits(ses) && (ses.worker.confirming || ses.active.value.frame.ValveCommand() == None)
              then Complete(ses, ses.active.value.id, Resolved(ses.current.value.answer.frame)).waiters else ses.waiters
  {
    hide Continued, Finish, FailWorker, Frame.ValveCommand;
    var response := ses.current.value.answer.frame;
    var seen := Seen(ses, response, now);
    FailFrame(ses);
    FinishFields(seen, response);
    ContinuedWaiters(seen, true, response);
  }

  lemma CleanupFutures(px: Proxy, s: nat, error: Option<string>, id: nat)
    requires Enabled(px, StepCleanup(s, error)) && Has(px, s) && id in px.sessions[s].waiters
    ensures var px' := Do(px, StepCleanup(s, error));
            && Has(px', s) && id in px'.sessions[s].waiters
            && px'.sessions[s].waiters[id].future == FutureAfter(px, StepCleanup(s, error), s, id)
  {
    LeftIsMentioned(px.sessions[s], id);
    hide VendorCount, Leftover, Left, CloseCurrentCloud, Mentions;
  }

  // ----- Calls and polls -------------------------------------------------------------------------------

  /** The tags of local requests: 64 values, in turn. */
  function TagAfter(tag: Tag): Tag {
    if tag == 0xBF then 0x80 else tag + 1
  }

  /** The frame of a local request, up to its wire. */
  ghost predicate LocalFrame(f: Frame, tag: Tag, purpose: Purpose, snapshot: bool) {
    && Decode(f.wire) == Success(f)
    && match purpose
       case SetValve(valve) => f == Frame(0x01, tag, 0x20, 0x1A, 2, [0x00, Code(valve)], f.wire)
       case Refresh => f == Frame(0x01, tag, 0x31, 0x00, 128, [], f.wire)
       case Poll => f == Frame(0x01, tag, 0x31, if snapshot then 0x00 else 0x20, if snapshot then 128 else 16, [], f.wire)
  }

  lemma LocalFrames(tag: Tag, purpose: Purpose, snapshot: bool)
    ensures LocalFrame(RequestFrame(tag, purpose, snapshot), tag, purpose, snapshot)
  {
    LocalRequests(tag, Open);
    LocalRequests(tag, Closed);
    hide Decode, ReadStatus, ReadSnapshot, CommandFrame;
  }

  /**
   A call or a poll takes the next tag and, if the queue has room, is appended to it with a pending
   waiter; a full queue refuses it and nothing else changes.
   */
  ghost predicate Submitted(px: Proxy, px': Proxy, s: nat, purpose: Purpose, snapshot: bool) {
    && Has(px, s) && Has(px', s)
    && var ses, tag := px.sessions[s], TagAfter(px.sessions[s].tag);
       if !Room(px, ses) then px' == px.(sessions := px.sessions[s := ses.(tag := tag)])
       else exists r :: QueuedAs(px, px', s, purpose, snapshot, r)
  }

  ghost predicate QueuedAs(px: Proxy, px': Proxy, s: nat, purpose: Purpose, snapshot: bool, r: Request) {
    && Has(px, s) && r.id == px.nextId && r.origin == Local
    && var ses, tag := px.sessions[s], TagAfter(px.sessions[s].tag);
       && LocalFrame(r.frame, tag, purpose, snapshot)
       && px' == px.(nextId := px.nextId + 1, sessions := px.sessions[s := ses.(
                     tag := tag, queue := ses.queue + [r], requests := ses.requests[r.id := r],
                     waiters := ses.waiters[r.id := Waiter(purpose, Pending, None, 0)])])
  }

  lemma SubmitsExactly(px: Proxy, s: nat, purpose: Purpose, snapshot: bool)
    requires Has(px, s)
    ensures Submitted(px, Submit(px, s, purpose, snapshot), s, purpose, snapshot)
  {
    var ses := px.sessions[s];
    var tag := NextTag(ses.tag);
    assert tag == TagAfter(ses.tag);
    if Room(px, ses) {
      LocalFrames(tag, purpose, snapshot);
      hide RequestFrame, LocalFrame, NextTag, TagAfter;
      var r := Request(px.nextId, RequestFrame(tag, purpose, snapshot), Local);
      assert QueuedAs(px, Submit(px, s, purpose, snapshot), s, purpose, snapshot, r);
    } else {
      hide RequestFrame, QueuedAs;
    }
  }

  /** `set_valve` and `refresh` are accepted exactly by a session that acts; polls also need its task and poller. */
  lemma CallsExactly(px: Proxy, purpose: Purpose, s: nat, snapshot: bool)
    requires PointersOk(px)
    ensures Enabled(px, StepCall(purpose)) <==> !purpose.Poll? && px.session.Some? && Acts(px, px.session.value)
    ensures Enabled(px, StepCall(purpose)) ==> Submitted(px, Do(px, StepCall(purpose)), px.session.value, purpose, true)
    ensures Enabled(px, StepPoll(s, snapshot)) <==>
              Has(px, s) && Acts(px, s) && px.sessions[s].phase.Running? && !px.sessions[s].pollDone
    ensures Enabled(px, StepPoll(s, snapshot)) ==> Submitted(px, Do(px, StepPoll(s, snapshot)), s, Poll, snapshot)
  {
    if Enabled(px, StepCall(purpose)) {
      SubmitsExactly(px, px.session.value, purpose, true);
    }
    if Enabled(px, StepPoll(s, snapshot)) {
      SubmitsExactly(px, s, Poll, snapshot);
    }
    hide Submit, Submitted;
  }
}
