/**
 Two bounds on what a session may hold: its queue never exceeds the configured limit, and once
 the session is dead none of its vendor connections is still open.
 */
module ProxyBounds {
  import opened Base
  import opened Protocol
  import opened ProxyModel
  import opened ProxyInvariant
  import opened ProxySafety
  import opened ProxyProgress
  import opened ProxyBalance
  import opened ProxyTheorems

  ghost predicate Bound(limit: nat, ses: Session) {
    && (limit > 0 ==> |ses.queue| <= limit)
    && (!ses.alive ==> forall c :: c in ses.clouds ==> !Connected(ses, c))
  }

  ghost predicate Bounds(px: Proxy) {
    forall s :: 0 <= s < |px.sessions| ==> Bound(px.limit, px.sessions[s])
  }

  /** Steps that leave the queue no longer and the session as alive as it was. */
  ghost predicate Tame(ses: Session, ses': Session) {
    |ses'.queue| <= |ses.queue| && ses'.alive == ses.alive && ses'.clouds.Keys == ses.clouds.Keys
  }

  lemma TameKeepsBound(limit: nat, ses: Session, ses': Session)
    requires Bound(limit, ses) && Tame(ses, ses') && Advances(ses, ses')
    ensures Bound(limit, ses')
  {
    forall c | !ses'.alive && c in ses'.clouds ensures !Connected(ses', c) {
      assert CloudAdvances(ses, ses', c);
    }
  }

  /** Closing the session's vendor connection leaves none open. */
  lemma CurrentClosed(ses: Session)
    ensures var ses' := CloseCurrentCloud(ses);
            ses' == ses.(clouds := ses'.clouds) && forall c :: c in ses'.clouds ==> !Connected(ses', c)
  {
    hide CloseCloud;
    if ses.cloud.Some? {
      CloseFields(ses, ses.cloud.value);
    }
  }

  lemma FailIsTame(ses: Session)
    ensures Tame(ses, FailWorker(ses))
  {
    hide FailWorker;
    FailFields(ses);
  }

  lemma FinishIsTame(ses: Session, response: Frame)
    requires ses.active.Some?
    ensures Tame(ses, Finish(ses, response))
  {
    hide Finish;
    FinishFields(ses, response);
  }

  lemma AfterForwardIsTame(px: Proxy, s: nat, response: Frame)
    requires Has(px, s) && px.sessions[s].active.Some?
    ensures var px' := AfterForward(px, s, response); Has(px', s) && Tame(px.sessions[s], px'.sessions[s])
  {
    hide FailWorker, Finish, Frame.ValveCommand, ReadStatus;
    var ses := px.sessions[s];
    FailIsTame(ses);
    FailIsTame(ses.(tag := NextTag(ses.tag)));
    FinishIsTame(ses, response);
  }

  lemma WorkerIsTame(px: Proxy, step: Step, s: nat)
    requires Enabled(px, step) && Subject(px, step) == Some(s) && Has(px, s)
    requires step.StepTakeAnswer? || step.StepForwarded? || step.StepDequeue? || step.StepWorkerFails?
    ensures Has(Do(px, step), s) && Tame(px.sessions[s], Do(px, step).sessions[s])
  {
    hide FailWorker, Finish, AfterForward, Observed, Frame.ValveCommand, Tame;
    var ses := px.sessions[s];
    match step
    case StepDequeue(_) => DequeueIsTame(px, s);
    case StepWorkerFails(_) => FailIsTame(ses);
    case StepForwarded(_, drained) => ForwardedIsTame(px, s, drained);
    case StepTakeAnswer(_) => TakeAnswerIsTame(px, s);
  }

  lemma DequeueIsTame(px: Proxy, s: nat)
    requires Enabled(px, StepDequeue(s))
    ensures Has(Dequeue(px, s), s) && Tame(px.sessions[s], Dequeue(px, s).sessions[s])
  {
    hide FailWorker, Dequeue;
    DequeueForms(px, s);
    FailFields(Head(px.sessions[s]).(worker := Exchanging(false)));
  }

  lemma ForwardedIsTame(px: Proxy, s: nat, drained: bool)
    requires Enabled(px, StepForwarded(s, drained))
    ensures Has(Forwarded(px, s, drained), s) && Tame(px.sessions[s], Forwarded(px, s, drained).sessions[s])
  {
    hide AfterForward, CloseCloud;
    var ses := px.sessions[s];
    CloseFields(ses, ses.active.value.origin.cloud);
    AfterForwardIsTame(if drained then px else With(px, s, CloseCloud(ses, ses.active.value.origin.cloud)), s,
                       ses.worker.response);
  }

  lemma TakeAnswerIsTame(px: Proxy, s: nat)
    requires Enabled(px, StepTakeAnswer(s))
    ensures Has(TakeAnswer(px, s), s) && Tame(px.sessions[s], TakeAnswer(px, s).sessions[s])
  {
    hide FailWorker, Finish, AfterForward, Observed;
    var ses := px.sessions[s];
    var response := ses.current.value.answer.frame;
    FailIsTame(ses);
    var seen := Seen(ses, response, px.clock);
    FinishIsTame(seen, response);
    AfterForwardIsTame(With(px.(state := Observed(px.state, response, px.clock)), s, seen), s, response);
  }

  /** The steps that add to a queue, open a vendor connection or end a session. */
  lemma GrowingSteps(px: Proxy, step: Step, s: nat)
    requires Enabled(px, step) && Subject(px, step) == Some(s) && Has(px, s) && Bound(px.limit, px.sessions[s])
    requires step.StepCall? || step.StepPoll? || step.StepOffer? || step.StepConnectCloud? || step.StepCleanup?
    ensures Has(Do(px, step), s) && Bound(px.limit, Do(px, step).sessions[s])
  {
    hide Submit, Offer, Swept, Leftover, VendorCount, ConnectCloud, Bound;
    match step
    case StepCall(purpose) => SubmitIsBound(px, s, purpose, true);
    case StepPoll(_, snapshot) => SubmitIsBound(px, s, Poll, snapshot);
    case StepOffer(_, frame) => OfferIsBound(px, s, frame);
    case StepCleanup(_, _) => SweptIsBound(px.limit, px.sessions[s]);
    case StepConnectCloud(_) => AttachedIsBound(px, s);
  }

  lemma AttachedIsBound(px: Proxy, s: nat)
    requires Has(px, s) && Bound(px.limit, px.sessions[s])
    ensures var px' := ConnectCloud(px, s); Has(px', s) && Bound(px.limit, px'.sessions[s])
  {
  }

  lemma SweptIsBound(limit: nat, ses: Session)
    ensures Bound(limit, Swept(ses))
  {
    hide RejectAll, Leftover, CloseCurrentCloud;
    CurrentClosed(ses);
    var closed, ses' := CloseCurrentCloud(ses), Swept(ses);
    assert forall c :: c in ses'.clouds ==> (Connected(ses', c) <==> Connected(closed, c));
  }

  lemma SubmitIsBound(px: Proxy, s: nat, purpose: Purpose, snapshot: bool)
    requires Has(px, s) && Bound(px.limit, px.sessions[s])
    ensures var px' := Submit(px, s, purpose, snapshot); Has(px', s) && Bound(px.limit, px'.sessions[s])
  {
    hide RequestFrame;
  }

  lemma OfferIsBound(px: Proxy, s: nat, frame: Frame)
    requires Enabled(px, StepOffer(s, frame)) && Bound(px.limit, px.sessions[s])
    ensures var px' := Offer(px, s, frame); Has(px', s) && Bound(px.limit, px'.sessions[s])
  {
    hide CloseCloud;
    CloseFields(px.sessions[s], px.sessions[s].cloudTask.cloud);
  }

  lemma OtherStepsAreTame(px: Proxy, step: Step, s: nat)
    requires Enabled(px, step) && Subject(px, step) == Some(s) && Has(px, s)
    requires !(step.StepCall? || step.StepPoll? || step.StepOffer? || step.StepConnectCloud? || step.StepCleanup?)
    ensures Has(Do(px, step), s) && Tame(px.sessions[s], Do(px, step).sessions[s])
  {
    hide Tame;
    if step.StepTakeAnswer? || step.StepForwarded? || step.StepDequeue? || step.StepWorkerFails? {
      WorkerIsTame(px, step, s);
    } else if step.StepDropCloud? {
      DropIsTame(px, s);
    } else if step.StepReceive? {
      ReceiveIsTame(px, s, step.frame);
    } else {
      PlainIsTame(px, step, s);
    }
  }

  lemma DropIsTame(px: Proxy, s: nat)
    requires Enabled(px, StepDropCloud(s))
    ensures Tame(px.sessions[s], DropCloud(px.sessions[s]))
  {
    hide CloseCloud;
    CloseFields(px.sessions[s], px.sessions[s].cloudTask.cloud);
  }

  lemma ReceiveIsTame(px: Proxy, s: nat, frame: Frame)
    requires Has(px, s)
    ensures Has(Receive(px, s, frame), s) && Tame(px.sessions[s], Receive(px, s, frame).sessions[s])
  {
  }

  lemma PlainIsTame(px: Proxy, step: Step, s: nat)
    requires Enabled(px, step) && Subject(px, step) == Some(s) && PlainStep(step) && Has(px, s)
    requires !step.StepDropCloud? && !step.StepConnectCloud?
    ensures Has(Do(px, step), s) && Tame(px.sessions[s], Do(px, step).sessions[s])
  {
    hide Verdict;
  }

  lemma StepKeepsBounds(px: Proxy, step: Step)
    requires Inv(px) && Bounds(px) && Enabled(px, step)
    ensures Bounds(Do(px, step))
  {
    if Subject(px, step).Some? {
      hide Do, Enabled, Bound, OnlySession, Tame, Advances, EventIsDue;
      var s, px' := Subject(px, step).value, Do(px, step);
      StepsTouchOneSession(px, step);
      EveryStepAdvances(px, step, s);
      assert Bound(px.limit, px'.sessions[s]) by {
        if step.StepCall? || step.StepPoll? || step.StepOffer? || step.StepConnectCloud? || step.StepCleanup? {
          GrowingSteps(px, step, s);
        } else {
          OtherStepsAreTame(px, step, s);
          TameKeepsBound(px.limit, px.sessions[s], px'.sessions[s]);
        }
      }
      OthersKeepBounds(px, px', s);
    } else {
      hide Inv;
      ListenerKeepsBounds(px, step);
    }
  }

  lemma OthersKeepBounds(px: Proxy, px': Proxy, s: nat)
    requires Bounds(px) && OnlySession(px, px', s) && Bound(px.limit, px'.sessions[s])
    ensures Bounds(px')
  {
    hide Bound;
  }

  lemma ListenerKeepsBounds(px: Proxy, step: Step)
    requires Bounds(px) && Enabled(px, step) && Subject(px, step) == None
    ensures Bounds(Do(px, step))
  {
    hide Retire;
    if px.session.Some? && Has(px, px.session.value) {
      RetireIsBound(px.limit, px.sessions[px.session.value]);
    }
  }

  lemma RetireIsBound(limit: nat, ses: Session)
    requires Bound(limit, ses)
    ensures Bound(limit, Retire(ses))
  {
    hide CloseCurrentCloud;
    CurrentClosed(ses);
    var closed, ses' := CloseCurrentCloud(ses), Retire(ses);
    assert forall c :: c in ses'.clouds ==> (Connected(ses', c) <==> Connected(closed, c));
  }

  lemma {:induction false} RunBounds(run: seq<Proxy>, steps: seq<Step>, n: nat)
    requires IsRun(run, steps) && n < |run|
    ensures Bounds(run[n])
  {
    hide Inv, Do, Enabled, Bound;
    if n > 0 {
      RunBounds(run, steps, n - 1);
      RunInv(run, steps, n - 1);
      StepKeepsBounds(run[n - 1], steps[n - 1]);
    }
  }

  /** In every run: no queue is longer than a configured limit. */
  lemma QueuesAreBounded(run: seq<Proxy>, steps: seq<Step>, n: nat, s: nat)
    requires IsRun(run, steps) && n < |run| && Has(run[n], s) && run[n].limit > 0
    ensures |run[n].sessions[s].queue| <= run[n].limit
  {
    hide IsRun;
    RunBounds(run, steps, n);
  }

  /** In every run: a session that was replaced or has ended has no open vendor connection, and gets none. */
  lemma DeadSessionsAreDetached(run: seq<Proxy>, steps: seq<Step>, n: nat, s: nat, c: nat)
    requires IsRun(run, steps) && n < |run| && Has(run[n], s) && !run[n].sessions[s].alive
    requires c in run[n].sessions[s].clouds
    ensures !Connected(run[n].sessions[s], c)
  {
    hide IsRun;
    RunBounds(run, steps, n);
  }
}
