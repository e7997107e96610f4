/**
 What holds in every run of the proxy, whatever the device, the vendor, the callers and the
 scheduler do.
 */
module ProxyTheorems {
  import opened Base
  import opened Protocol
  import opened Envelope
  import opened ProxyModel
  import opened ProxyInvariant
  import opened ProxySafety
  import opened ProxyProgress
  import opened ProxyState
  import opened ProxyBalance

  ghost predicate Inv(px: Proxy) {
    PointersOk(px) && SessionsOk(px) && Apart(px) && StateOk(px) && TimesOk(px) && Balanced(px)
  }

  lemma InitialInv(limit: nat, clock: int)
    ensures Inv(Initial(limit, clock))
  {
  }

  /** The inductive step: any enabled step of any task keeps the invariant. */
  lemma StepKeepsInv(px: Proxy, step: Step)
    requires Inv(px) && Enabled(px, step)
    ensures Inv(Do(px, step))
  {
    hide PointersOk, SessionsOk, Apart, StateOk, TimesOk, Balanced, Do, Enabled;
    SessionsKept(px, step);
    StateIsKept(px, step);
    TimesAreKept(px, step);
    BalanceIsKept(px, step);
  }

  lemma {:induction false} RunInv(run: seq<Proxy>, steps: seq<Step>, n: nat)
    requires IsRun(run, steps) && n < |run|
    ensures Inv(run[n])
  {
    hide Inv, Do, Enabled;
    if n == 0 {
      var limit, clock :| run[0] == Initial(limit, clock);
      InitialInv(limit, clock);
    } else {
      RunInv(run, steps, n - 1);
      StepKeepsInv(run[n - 1], steps[n - 1]);
    }
  }

  lemma RunSession(run: seq<Proxy>, steps: seq<Step>, n: nat, s: nat)
    requires IsRun(run, steps) && n < |run| && Has(run[n], s)
    ensures Good(run[n], run[n].sessions[s])
  {
    hide Good, PointersOk, Apart, StateOk, TimesOk, Balanced, IsRun;
    RunInv(run, steps, n);
  }

  // ----- Exclusive transactions --------------------------------------------------------------

  /**
   In every interleaving, a session's device writes and accepted answers alternate strictly,
   and the k-th answer matches the k-th write: it goes back to the tag the write came from, from
   the endpoint it was sent to, with its opcode.
   */
  lemma ExclusiveTransactions(run: seq<Proxy>, steps: seq<Step>, n: nat, s: nat)
    requires IsRun(run, steps) && n < |run| && Has(run[n], s)
    ensures var h := run[n].sessions[s].history;
            && (forall k :: 0 <= k < |h| && k % 2 == 0 ==> h[k].Wrote?)
            && (forall k :: 0 < k < |h| && k % 2 == 1 ==>
                  && h[k].Answered? && h[k - 1].Wrote? && h[k].frame.Matches(h[k - 1].frame)
                  && h[k].frame.destination == h[k - 1].frame.source && h[k].frame.source == h[k - 1].frame.destination
                  && h[k].frame.opcode == h[k - 1].frame.opcode)
  {
    hide IsRun, WritesOwnFrames, WritesInOrder, WorkerOk, QueueOk, WaitersOk, CloudsOk, PhaseOk;
    RunSession(run, steps, n, s);
  }

  /**
   A local caller gets exactly the answer to its own write, the confirming read for a valve
   command, and no other position of the history answers it, whatever tags are in use.
   */
  lemma AnswersReachTheirOriginator(run: seq<Proxy>, steps: seq<Step>, n: nat, s: nat, id: nat)
    returns (i: nat)
    requires IsRun(run, steps) && n < |run| && Has(run[n], s)
    requires id in run[n].sessions[s].waiters && run[n].sessions[s].waiters[id].future.Resolved?
    ensures var ses := run[n].sessions[s];
            var h, m := ses.history, |ses.observedAt|;
            && DeliveredAt(h, m, id, ses.waiters[id].future.frame, i)
            && id in ses.requests && h[i].request == ses.requests[id] && h[i].request.origin.Local?
            && forall j :: DeliveredAt(h, m, id, ses.waiters[id].future.frame, j) ==> j == i
  {
    hide IsRun;
    RunSession(run, steps, n, s);
    var ses := run[n].sessions[s];
    assert WaiterOk(ses, id);
    i :| DeliveredAt(ses.history, |ses.observedAt|, id, ses.waiters[id].future.frame, i);
    assert Known(ses, ses.history[i].request);
    forall j | DeliveredAt(ses.history, |ses.observedAt|, id, ses.waiters[id].future.frame, j) ensures j == i {
      OneDelivery(ses, id, ses.waiters[id].future.frame, i, j);
    }
  }

  lemma OneDelivery(ses: Session, id: nat, response: Frame, i: int, j: int)
    requires HistoryOk(ses)
    requires DeliveredAt(ses.history, |ses.observedAt|, id, response, i)
    requires DeliveredAt(ses.history, |ses.observedAt|, id, response, j)
    ensures i == j
  {
    hide HistoryOk;
    WritesAreKnown(ses, i);
    WritesAreKnown(ses, j);
    if i < j {
      SameKindInOrder(ses, i, j);
    } else if j < i {
      SameKindInOrder(ses, j, i);
    }
  }

  lemma WritesAreKnown(ses: Session, i: int)
    requires HistoryOk(ses) && 0 <= i < |ses.history| && ses.history[i].Wrote?
    ensures Known(ses, ses.history[i].request)
  {
    hide Alternates, WritesOwnFrames, WritesInOrder;
  }

  /** Among own writes, and among confirming writes, ids increase strictly. */
  lemma SameKindInOrder(ses: Session, i: int, j: int)
    requires HistoryOk(ses) && 0 <= i < j < |ses.history|
    requires ses.history[i].Wrote? && ses.history[j].Wrote?
    requires ses.history[i].confirming == ses.history[j].confirming
    ensures ses.history[i].request.id < ses.history[j].request.id
  {
    hide StatusRead;
    var h := ses.history;
    if h[j].confirming {
      assert ConfirmsAt(h, j);
      assert i < j - 2;
    }
  }

  /** A frame the device was not asked for, or a second answer, ends the reader of the session. */
  lemma ExtraFrameEndsTheReader(px: Proxy, s: nat, frame: Frame)
    requires Has(px, s) && SessionOk(px.sessions[s])
    requires Unexpected(px.sessions[s].history, frame) || !IsCurrent(px, s)
    ensures Receive(px, s, frame) == With(px, s, px.sessions[s].(readerDone := true))
  {
    hide HistoryOk, QueueOk, WaitersOk, CloudsOk, PhaseOk;
  }

  /** No write is waiting for an answer, or this frame is not an answer to it. */
  ghost predicate Unexpected(history: seq<Event>, frame: Frame) {
    |history| % 2 == 1 ==> !frame.Matches(history[|history| - 1].frame)
  }

  // ----- Progress along a run ------------------------------------------------------------------

  /** What a later state of a session keeps from an earlier one. */
  ghost predicate Grew(ses: Session, ses': Session) {
    && TasksAdvance(ses, ses')
    && ses.history <= ses'.history && ses.observedAt <= ses'.observedAt
    && (forall id :: id in ses.requests ==> id in ses'.requests && ses'.requests[id] == ses.requests[id])
    && (forall id :: id in ses.waiters ==> id in ses'.waiters && WaiterAdvances(ses.waiters[id], ses'.waiters[id]))
    && (forall c :: c in ses.clouds ==> CloudAdvances(ses, ses', c))
  }

  lemma GrewTransitively(a: Session, b: Session, c: Session)
    requires Grew(a, b) && Advances(b, c)
    ensures Grew(a, c)
  {
    forall id | id in a.waiters ensures id in c.waiters && WaiterAdvances(a.waiters[id], c.waiters[id]) {
      assert WaiterAdvances(a.waiters[id], b.waiters[id]);
      assert WaiterAdvances(b.waiters[id], c.waiters[id]);
    }
    forall d | d in a.clouds ensures CloudAdvances(a, c, d) {
      assert CloudAdvances(a, b, d);
      assert CloudAdvances(b, c, d);
    }
  }

  lemma RunAdvances(run: seq<Proxy>, steps: seq<Step>, n: nat, s: nat)
    requires IsRun(run, steps) && n < |steps| && Has(run[n], s)
    ensures GoodStep(run[n], run[n + 1], s)
  {
    hide GoodStep, SessionsOk, Apart, StateOk, TimesOk, Balanced, Do, Enabled;
    RunInv(run, steps, n);
    EveryStepAdvances(run[n], steps[n], s);
  }

  /** Sessions stay in the list and only grow. */
  lemma {:induction false} RunGrows(run: seq<Proxy>, steps: seq<Step>, i: nat, j: nat, s: nat)
    requires IsRun(run, steps) && i <= j < |run| && Has(run[i], s)
    ensures Has(run[j], s) && Grew(run[i].sessions[s], run[j].sessions[s])
    decreases j
  {
    hide IsRun, Grew, Advances, EventIsDue;
    if i == j {
      GrewFrom(run[i].sessions[s]);
    } else {
      RunGrows(run, steps, i, j - 1, s);
      RunLength(run, steps);
      RunAdvances(run, steps, j - 1, s);
      GrewTransitively(run[i].sessions[s], run[j - 1].sessions[s], run[j].sessions[s]);
    }
  }

  lemma GrewFrom(ses: Session)
    ensures Grew(ses, ses)
  {
  }

  lemma RunStep(run: seq<Proxy>, steps: seq<Step>, n: nat)
    requires IsRun(run, steps) && n < |steps|
    ensures n + 1 < |run| && Enabled(run[n], steps[n]) && run[n + 1] == Do(run[n], steps[n])
  {
    hide Enabled, Do;
  }

  lemma RunLength(run: seq<Proxy>, steps: seq<Step>)
    requires IsRun(run, steps)
    ensures |run| == |steps| + 1
  {
  }

  /** Once the reader of a session has ended, the session never accepts another answer. */
  lemma {:induction false} NoAnswerAfterTheReader(run: seq<Proxy>, steps: seq<Step>, i: nat, j: nat, s: nat)
    requires IsRun(run, steps) && i <= j < |run| && Has(run[i], s) && run[i].sessions[s].readerDone
    ensures Has(run[j], s)
    ensures var h, h' := run[i].sessions[s].history, run[j].sessions[s].history;
            h <= h' && |h'| <= |h| + 1 && (|h'| == |h| + 1 ==> h'[|h|].Wrote?)
    decreases j
  {
    hide IsRun, Grew, Advances;
    RunGrows(run, steps, i, j, s);
    GrewHistory(run[i].sessions[s], run[j].sessions[s]);
    if i < j {
      NoAnswerAfterTheReader(run, steps, i, j - 1, s);
      RunGrows(run, steps, i, j - 1, s);
      GrewHistory(run[i].sessions[s], run[j - 1].sessions[s]);
      RunLength(run, steps);
      RunAdvances(run, steps, j - 1, s);
      OneEvent(run[j - 1].sessions[s], run[j].sessions[s]);
      ExclusiveTransactions(run, steps, j, s);
    }
  }

  lemma GrewHistory(ses: Session, ses': Session)
    requires Grew(ses, ses')
    ensures ses.history <= ses'.history && (ses.readerDone ==> ses'.readerDone)
  {
  }

  lemma OneEvent(ses: Session, ses': Session)
    requires Advances(ses, ses')
    ensures ses.history <= ses'.history && |ses'.history| <= |ses.history| + 1
  {
  }

  // ----- No replay -------------------------------------------------------------------------------

  ghost predicate OwnWriteAt(ses: Session, i: nat, id: nat) {
    i < |ses.history| && ses.history[i].Wrote? && !ses.history[i].confirming && ses.history[i].request.id == id
  }

  ghost predicate Written(ses: Session, id: nat) {
    exists i: nat :: OwnWriteAt(ses, i, id)
  }

  /**
   Over all sessions there has been, a request reaches the device at most once, in its own
   frame, and only through the session it was submitted to.
   */
  lemma AtMostOneWrite(run: seq<Proxy>, steps: seq<Step>, n: nat, s: nat, t: nat, a: nat, b: nat, id: nat)
    requires IsRun(run, steps) && n < |run| && Has(run[n], s) && Has(run[n], t)
    requires OwnWriteAt(run[n].sessions[s], a, id) && OwnWriteAt(run[n].sessions[t], b, id)
    ensures s == t && a == b
    ensures id in run[n].sessions[s].requests
    ensures run[n].sessions[s].history[a] == Wrote(run[n].sessions[s].requests[id], run[n].sessions[s].requests[id].frame, false)
  {
    hide IsRun, StateOk, TimesOk, Balanced, PointersOk, Apart;
    RunInv(run, steps, n);
    RunSession(run, steps, n, s);
    RunSession(run, steps, n, t);
    WrittenIsKnown(run[n].sessions[s], a, id);
    WrittenIsKnown(run[n].sessions[t], b, id);
    if s < t {
      OneHome(run[n], s, t, id);
    } else if t < s {
      OneHome(run[n], t, s, id);
    } else {
      OneOwnWrite(run[n].sessions[s], a, b, id);
    }
  }

  lemma OneHome(px: Proxy, s: nat, t: nat, id: nat)
    requires Apart(px) && s < t && Has(px, t) && id in px.sessions[s].requests
    ensures id !in px.sessions[t].requests
  {
    assert Disjoint(px.sessions[s], px.sessions[t]);
  }

  lemma WrittenIsKnown(ses: Session, a: nat, id: nat)
    requires SessionOk(ses) && OwnWriteAt(ses, a, id)
    ensures id in ses.requests && ses.history[a] == Wrote(ses.requests[id], ses.requests[id].frame, false)
  {
    hide WorkerOk, QueueOk, WaitersOk, CloudsOk, PhaseOk, StatusRead;
    assert Known(ses, ses.history[a].request);
  }

  lemma OneOwnWrite(ses: Session, a: nat, b: nat, id: nat)
    requires SessionOk(ses) && OwnWriteAt(ses, a, id) && OwnWriteAt(ses, b, id)
    ensures a == b
  {
    hide WorkerOk, QueueOk, WaitersOk, CloudsOk, PhaseOk, WritesOwnFrames;
  }

  /** A session that is not the proxy's current one, or is no longer alive. */
  ghost predicate Retired(px: Proxy, s: nat)
    requires Has(px, s)
  {
    !px.sessions[s].alive || px.session != Some(s)
  }

  /** The request may still be queued, but the reason to carry it out is gone. */
  ghost predicate Doomed(px: Proxy, s: nat, id: nat)
    requires Has(px, s)
  {
    var ses := px.sessions[s];
    && id in ses.requests && !Written(ses, id)
    && (Retired(px, s)
        || (ses.requests[id].origin.Local? && id in ses.waiters && ses.waiters[id].future.Cancelled?)
        || (ses.requests[id].origin.Vendor? && ses.requests[id].origin.cloud in ses.clouds
            && !Connected(ses, ses.requests[id].origin.cloud)))
  }

  lemma RetirementStays(px: Proxy, step: Step, s: nat)
    requires Inv(px) && Enabled(px, step) && Has(px, s) && Retired(px, s)
    ensures Has(Do(px, step), s) && Retired(Do(px, step), s)
  {
    hide StateOk, TimesOk, Balanced, Apart, GoodStep;
    EveryStepAdvances(px, step, s);
    if Subject(px, step).Some? {
      hide Do, Enabled, SessionsOk;
      StepsTouchOneSession(px, step);
      AliveOnlyFalls(px, Do(px, step), s);
    } else {
      AliveOnlyFalls(px, Do(px, step), s);
    }
  }

  /** A session that was replaced, or is no longer alive, is not the current one in any later state. */
  lemma {:induction false} RetirementIsFinal(run: seq<Proxy>, steps: seq<Step>, i: nat, j: nat, s: nat)
    requires IsRun(run, steps) && i <= j < |run| && Has(run[i], s) && Retired(run[i], s)
    ensures Has(run[j], s) && Retired(run[j], s) && !IsCurrent(run[j], s)
    decreases j
  {
    hide IsRun, Inv, Enabled, Do;
    if i < j {
      RunLength(run, steps);
      RetirementIsFinal(run, steps, i, j - 1, s);
      RunInv(run, steps, j - 1);
      RunStep(run, steps, j - 1);
      RetirementStays(run[j - 1], steps[j - 1], s);
    }
  }

  lemma AliveOnlyFalls(px: Proxy, px': Proxy, s: nat)
    requires GoodStep(px, px', s)
    ensures Has(px, s) && Has(px', s) && (px'.sessions[s].alive ==> px.sessions[s].alive)
  {
  }

  /** A request gets its own write only from the current session, while somebody wants it. */
  lemma WrittenWasDue(px: Proxy, px': Proxy, s: nat, id: nat)
    requires GoodStep(px, px', s) && Good(px, px.sessions[s])
    requires id in px.sessions[s].requests && Written(px'.sessions[s], id)
    ensures Written(px.sessions[s], id) || (IsCurrent(px, s) && Wanted(px.sessions[s], px.sessions[s].requests[id]))
  {
    hide WorkerOk, WaitersOk, CloudsOk, PhaseOk, StatusRead, Wanted;
    var ses, ses' := px.sessions[s], px'.sessions[s];
    var i: nat :| OwnWriteAt(ses', i, id);
    if i < |ses.history| {
      assert OwnWriteAt(ses, i, id);
    } else {
      assert Known(ses, ses.queue[0]);
    }
  }

  lemma ReasonStays(px: Proxy, px': Proxy, s: nat, id: nat)
    requires GoodStep(px, px', s) && id in px.sessions[s].requests
    ensures var ses, ses' := px.sessions[s], px'.sessions[s];
            && id in ses'.requests && ses'.requests[id] == ses.requests[id]
            && (id in ses.waiters && ses.waiters[id].future.Cancelled? ==>
                  id in ses'.waiters && ses'.waiters[id].future.Cancelled?)
            && forall c :: c in ses.clouds && !Connected(ses, c) ==> c in ses'.clouds && !Connected(ses', c)
  {
    hide EventIsDue;
    var ses, ses' := px.sessions[s], px'.sessions[s];
    if id in ses.waiters {
      assert WaiterAdvances(ses.waiters[id], ses'.waiters[id]);
    }
    forall c | c in ses.clouds && !Connected(ses, c) ensures c in ses'.clouds && !Connected(ses', c) {
      assert CloudAdvances(ses, ses', c);
    }
  }

  lemma WaiterIds(px: Proxy, s: nat, id: nat)
    requires Has(px, s) && Good(px, px.sessions[s])
    ensures id in px.sessions[s].waiters ==> id in px.sessions[s].requests && px.sessions[s].requests[id].id == id
  {
    hide HistoryOk, WorkerOk, QueueOk, CloudsOk, PhaseOk;
    if id in px.sessions[s].waiters {
      assert WaiterOk(px.sessions[s], id);
    }
  }

  lemma DoomStays(px: Proxy, px': Proxy, s: nat, id: nat)
    requires GoodStep(px, px', s) && Good(px, px.sessions[s]) && Doomed(px, s, id)
    requires Retired(px, s) ==> Retired(px', s)
    ensures Has(px', s) && Doomed(px', s, id)
  {
    hide GoodStep, Good, Written, Connected;
    AliveOnlyFalls(px, px', s);
    WaiterIds(px, s, id);
    ReasonStays(px, px', s, id);
    if Written(px'.sessions[s], id) {
      WrittenWasDue(px, px', s, id);
    }
  }

  /**
   No replay: a request that has not been written when its caller cancels, its vendor
   connection is replaced or its session is retired is not written in any later state.
   */
  lemma {:induction false} DoomedRequestsAreNeverWritten(
    run: seq<Proxy>, steps: seq<Step>, i: nat, j: nat, s: nat, id: nat)
    requires IsRun(run, steps) && i <= j < |run| && Has(run[i], s) && Doomed(run[i], s, id)
    ensures Has(run[j], s) && Doomed(run[j], s, id) && !Written(run[j].sessions[s], id)
    decreases j
  {
    hide IsRun, Doomed, Good, GoodStep, Inv, Retired;
    if i < j {
      RunLength(run, steps);
      DoomedRequestsAreNeverWritten(run, steps, i, j - 1, s, id);
      RunInv(run, steps, j - 1);
      RunSession(run, steps, j - 1, s);
      RunAdvances(run, steps, j - 1, s);
      if Retired(run[j - 1], s) {
        RunStep(run, steps, j - 1);
        RetirementStays(run[j - 1], steps[j - 1], s);
      }
      RunAdvances(run, steps, j - 1, s);
      DoomStays(run[j - 1], run[j], s, id);
    }
    DoomedIsUnwritten(run[j], s, id);
  }

  lemma DoomedIsUnwritten(px: Proxy, s: nat, id: nat)
    requires Has(px, s) && Doomed(px, s, id)
    ensures !Written(px.sessions[s], id)
  {
  }

  // ----- Transparent forwarding ------------------------------------------------------------------

  /**
   What the device gets on behalf of a vendor connection is a prefix of what the connection
   sent, and what the connection gets back is a prefix of the device's answers to that. While
   the connection and the worker are up nothing is missing: what was not yet written is queued,
   in order, and every observed answer has been written back.
   */
  lemma TransparentForwarding(run: seq<Proxy>, steps: seq<Step>, n: nat, s: nat, c: nat)
    requires IsRun(run, steps) && n < |run| && Has(run[n], s) && c in run[n].sessions[s].clouds
    ensures var ses := run[n].sessions[s];
            var writes := WritesFor(ses.history, c);
            var answers := AnswersFor(ses.history, |ses.observedAt|, c);
            && writes <= ses.clouds[c].offered
            && ses.clouds[c].back <= answers
            && (Connected(ses, c) && !ses.worker.WorkerDone? ==>
                  ses.clouds[c].offered == writes + QueuedFor(ses.queue, c) && ses.clouds[c].back == answers)
            && |answers| <= |writes|
            && forall k :: 0 <= k < |answers| ==> answers[k].Matches(writes[k])
  {
    hide IsRun, WritesFor, AnswersFor, QueuedFor;
    RunSession(run, steps, n, s);
    var ses := run[n].sessions[s];
    assert CloudOk(ses, c);
    LogBounds(ses);
    AnswersMatchWrites(ses.history, |ses.observedAt|, c);
    WritesPrefix(ses.history, 2 * |ses.observedAt|, c);
  }

  lemma {:induction false} WritesPrefix(history: seq<Event>, k: nat, c: nat)
    requires k <= |history|
    ensures WritesFor(history[..k], c) <= WritesFor(history, c)
    decreases |history|
  {
    if k == |history| {
      assert history[..k] == history;
    } else {
      assert history[..|history| - 1][..k] == history[..k];
      WritesPrefix(history[..|history| - 1], k, c);
    }
  }

  lemma {:induction false} AnswersMatchWrites(history: seq<Event>, m: nat, c: nat)
    requires 2 * m <= |history| && Alternates(history)
    ensures var writes, answers := WritesFor(history[..2 * m], c), AnswersFor(history, m, c);
            |answers| == |writes| && forall k :: 0 <= k < |answers| ==> answers[k].Matches(writes[k])
  {
    if m > 0 {
      hide WritesFor;
      AnswersMatchWrites(history, m - 1, c);
      var w, a := history[2 * m - 2], history[2 * m - 1];
      PairOfWrites(history, m, c);
      assert a.frame.Matches(w.frame);
    } else {
      assert history[..0] == [];
    }
  }

  lemma PairOfWrites(history: seq<Event>, m: nat, c: nat)
    requires 0 < 2 * m <= |history| && history[2 * m - 1].Answered?
    ensures var w := history[2 * m - 2];
            WritesFor(history[..2 * m], c) ==
              WritesFor(history[..2 * (m - 1)], c)
              + if w.Wrote? && !w.confirming && w.request.origin == Vendor(c) then [w.frame] else []
  {
    hide WritesFor;
    var before := history[..2 * (m - 1)];
    var w, a := history[2 * m - 2], history[2 * m - 1];
    assert history[..2 * m - 1] == before + [w] && history[..2 * m] == before + [w] + [a];
    LastWrites(before, w, c);
    LastWrites(before + [w], a, c);
  }

  lemma LastWrites(history: seq<Event>, e: Event, c: nat)
    ensures WritesFor(history + [e], c) ==
              WritesFor(history, c)
              + if e.Wrote? && !e.confirming && e.request.origin == Vendor(c) then [e.frame] else []
  {
    assert (history + [e])[..|history|] == history;
  }

  // ----- Waiters -----------------------------------------------------------------------------------

  /**
   Every accepted local request is queued, active or resolved; its future is completed at
   most once, and the cleanup of its session leaves none unresolved.
   */
  lemma WaitersResolveOnce(run: seq<Proxy>, steps: seq<Step>, n: nat, s: nat, id: nat)
    requires IsRun(run, steps) && n < |run| && Has(run[n], s)
    requires id in run[n].sessions[s].requests && run[n].sessions[s].requests[id].origin.Local?
    ensures var ses := run[n].sessions[s];
            && id in ses.waiters
            && ses.waiters[id].completions == (if Done(ses.waiters[id].future) then 1 else 0)
            && (!Done(ses.waiters[id].future) ==> Mentions(Leftover(ses), id) && !ses.phase.Cleaned?)
  {
    hide IsRun, PurposeOk, Delivered;
    RunSession(run, steps, n, s);
    assert WaiterOk(run[n].sessions[s], id);
  }

  /** A completed future never changes again. */
  lemma CompletionIsFinal(run: seq<Proxy>, steps: seq<Step>, i: nat, j: nat, s: nat, id: nat)
    requires IsRun(run, steps) && i <= j < |run| && Has(run[i], s)
    requires id in run[i].sessions[s].waiters && Done(run[i].sessions[s].waiters[id].future)
    ensures Has(run[j], s) && id in run[j].sessions[s].waiters
    ensures run[j].sessions[s].waiters[id].future == run[i].sessions[s].waiters[id].future
  {
    hide IsRun;
    RunGrows(run, steps, i, j, s);
    assert WaiterAdvances(run[i].sessions[s].waiters[id], run[j].sessions[s].waiters[id]);
  }

  /** A caller still waiting when a session is over: the session never started, its request is still queued. */
  lemma EndedSessionsStrandNobody(run: seq<Proxy>, steps: seq<Step>, n: nat, s: nat, id: nat)
    requires IsRun(run, steps) && n < |run| && Has(run[n], s)
    requires run[n].sessions[s].phase.Cleaned? || run[n].sessions[s].phase.Skipped?
    requires id in run[n].sessions[s].waiters && !Done(run[n].sessions[s].waiters[id].future)
    ensures run[n].sessions[s].phase.Skipped? && Mentions(run[n].sessions[s].queue, id)
  {
    hide IsRun, PurposeOk, Delivered, HistoryOk, CloudsOk;
    RunSession(run, steps, n, s);
    var ses := run[n].sessions[s];
    assert WaiterOk(ses, id);
    assert Leftover(ses) == ses.queue;
  }

  /** A run in which a caller is stranded: its session is replaced before the task's first step. */
  lemma ReplacedBeforeItsFirstStep() returns (run: seq<Proxy>, steps: seq<Step>)
    ensures IsRun(run, steps) && |run| == 5
    ensures Has(run[4], 0) && run[4].sessions[0].phase.Skipped?
    ensures 0 in run[4].sessions[0].waiters && run[4].sessions[0].waiters[0].future == Pending
  {
    hide ReadSnapshot;
    steps := [StepAccept, StepCall(Refresh), StepAccept, StepSkip(0)];
    var p0 := Initial(64, 0);
    var p1 := Do(p0, StepAccept);
    assert Enabled(p1, StepCall(Refresh));
    var p2 := Do(p1, StepCall(Refresh));
    var p3 := Do(p2, StepAccept);
    assert Enabled(p3, StepSkip(0));
    var p4 := Do(p3, StepSkip(0));
    run := [p0, p1, p2, p3, p4];
    assert run[0] == Initial(64, 0);
  }

  // ----- Confirmed writes ----------------------------------------------------------------------------

  /**
   When set_valve returns normally, the device history holds four events in a row: the
   command, an empty acknowledgment, a status read, and a response reporting that position.
   */
  lemma ConfirmedWrites(run: seq<Proxy>, steps: seq<Step>, n: nat, s: nat, id: nat) returns (i: nat)
    requires IsRun(run, steps) && n < |run| && Has(run[n], s) && id in run[n].sessions[s].waiters
    requires run[n].sessions[s].waiters[id].purpose.SetValve?
    requires run[n].sessions[s].waiters[id].outcome == Some(Returned)
    ensures var h, valve := run[n].sessions[s].history, run[n].sessions[s].waiters[id].purpose.valve;
            && i + 3 < |h|
            && h[i].Wrote? && h[i].request.id == id && !h[i].confirming
            && h[i].frame.ValveCommand() == Some(valve)
            && h[i + 1].Answered? && EmptyAcknowledgment(h[i + 1].frame)
            && h[i + 2].Wrote? && h[i + 2].request.id == id && StatusRead(h[i + 2].frame)
            && h[i + 3].Answered? && h[i + 3].frame.Matches(h[i + 2].frame)
            && StatusValues(h[i + 3].frame).Some?
            && StatusValues(h[i + 3].frame).value.valve == Some(valve)
  {
    hide IsRun, StatusRead, StatusValues, CommandFrame, WorkerOk, QueueOk, CloudsOk, PhaseOk;
    RunSession(run, steps, n, s);
    var ses := run[n].sessions[s];
    var h, valve := ses.history, ses.waiters[id].purpose.valve;
    assert WaiterOk(ses, id);
    var k :| DeliveredAt(h, |ses.observedAt|, id, ses.waiters[id].future.frame, k);
    assert Known(ses, h[k].request);
    CommandFrameCommands(ses.requests[id].frame.source, valve);
    assert ConfirmsAt(h, k);
    i := k - 2;
  }

  // ----- Generation isolation ----------------------------------------------------------------------------

  /** The device counts as connected exactly when the current session has observed an answer. */
  lemma ConnectionIsEvidence(run: seq<Proxy>, steps: seq<Step>, n: nat)
    requires IsRun(run, steps) && n < |run|
    ensures run[n].state.deviceConnected <==>
              run[n].session.Some? && Has(run[n], run[n].session.value)
              && |run[n].sessions[run[n].session.value].observedAt| > 0
  {
    hide IsRun, LastReport, LastCount, Unconfirmed;
    RunInv(run, steps, n);
  }

  /** The `k`-th answer of the current session, and when it was observed. */
  ghost predicate IsAnswer(px: Proxy, k: nat, frame: Frame, time: int) {
    && px.session.Some? && Has(px, px.session.value)
    && var ses := px.sessions[px.session.value];
       && k < |ses.observedAt| && ses.observedAt[k] == time
       && 2 * k + 1 < |ses.history| && ses.history[2 * k + 1] == Answered(frame)
  }

  /** A visible valve position is the latest report the current session accepted. */
  lemma VisibleValveIsReported(run: seq<Proxy>, steps: seq<Step>, n: nat) returns (k: nat, frame: Frame, time: int)
    requires IsRun(run, steps) && n < |run| && run[n].state.valve.Some?
    ensures IsAnswer(run[n], k, frame, time)
    ensures Position(frame) == run[n].state.valve && run[n].state.valveUpdated == Some(time)
    ensures (StatusShape(frame) && PositionByte(run[n].state.valve, frame.payload[13]))
            || (SnapshotShape(frame) && PositionByte(run[n].state.valve, frame.payload[45]))
    ensures forall j, later, t :: IsAnswer(run[n], j, later, t) && k < j ==> !StatusShape(later) && !SnapshotShape(later)
  {
    k, frame, time := NewestReport(run, steps, n);
    ReportedBytes(frame);
    forall j, later, t | IsAnswer(run[n], j, later, t) && k < j ensures !StatusShape(later) && !SnapshotShape(later) {
      ReportedBytes(later);
    }
    hide IsAnswer, StatusShape, SnapshotShape, IsRun;
  }

  lemma NewestReport(run: seq<Proxy>, steps: seq<Step>, n: nat) returns (k: nat, frame: Frame, time: int)
    requires IsRun(run, steps) && n < |run| && run[n].state.valve.Some?
    ensures IsAnswer(run[n], k, frame, time) && StatusValues(frame).Some?
    ensures Position(frame) == run[n].state.valve && run[n].state.valveUpdated == Some(time)
    ensures forall j, later, t :: IsAnswer(run[n], j, later, t) && k < j ==> StatusValues(later) == None
  {
    hide IsRun, LastReport, LastCount, Unconfirmed, Position, Counter, StatusValues, SessionsOk, Apart, TimesOk,
      Balanced, PointersOk;
    RunInv(run, steps, n);
    var ses := run[n].sessions[run[n].session.value];
    k := LastReport(ses.history, |ses.observedAt|).value;
    frame, time := ses.history[2 * k + 1].frame, ses.observedAt[k];
    PositionIsReported(frame);
    forall j, later, t | IsAnswer(run[n], j, later, t) && k < j ensures StatusValues(later) == None {
      NothingReportedSince(ses.history, |ses.observedAt|, j);
    }
  }

  lemma PositionIsReported(frame: Frame)
    ensures Position(frame).Some? ==> StatusValues(frame).Some?
  {
    hide StatusValues;
  }

  lemma {:induction false} NothingReportedSince(history: seq<Event>, m: nat, j: nat)
    requires j < m && 2 * j + 1 < |history| && history[2 * j + 1].Answered?
    requires LastReport(history, m).Some? && LastReport(history, m).value < j
    ensures StatusValues(history[2 * j + 1].frame) == None
  {
    hide StatusValues;
    if j < m - 1 {
      NothingReportedSince(history, m - 1, j);
    }
  }

  /** A visible counter is the latest count the current session accepted. */
  lemma VisibleTotalIsCounted(run: seq<Proxy>, steps: seq<Step>, n: nat) returns (k: nat, frame: Frame, time: int)
    requires IsRun(run, steps) && n < |run| && run[n].state.totalLiters.Some?
    ensures IsAnswer(run[n], k, frame, time)
    ensures Counter(frame) == run[n].state.totalLiters && run[n].state.counterUpdated == Some(time)
    ensures SnapshotShape(frame) && CounterBytes(run[n].state.totalLiters.value, frame)
    ensures forall j, later, t :: IsAnswer(run[n], j, later, t) && k < j ==> !SnapshotShape(later)
  {
    k, frame, time := NewestCount(run, steps, n);
    ReportedBytes(frame);
    forall j, later, t | IsAnswer(run[n], j, later, t) && k < j ensures !SnapshotShape(later) {
      ReportedBytes(later);
    }
    hide IsAnswer, StatusShape, SnapshotShape, IsRun;
  }

  lemma NewestCount(run: seq<Proxy>, steps: seq<Step>, n: nat) returns (k: nat, frame: Frame, time: int)
    requires IsRun(run, steps) && n < |run| && run[n].state.totalLiters.Some?
    ensures IsAnswer(run[n], k, frame, time)
    ensures Counter(frame) == run[n].state.totalLiters && run[n].state.counterUpdated == Some(time)
    ensures forall j, later, t :: IsAnswer(run[n], j, later, t) && k < j ==> Counter(later) == None
  {
    hide IsRun, LastReport, LastCount, Unconfirmed, Position, Counter, StatusValues, SessionsOk, Apart, TimesOk,
      Balanced, PointersOk;
    RunInv(run, steps, n);
    var ses := run[n].sessions[run[n].session.value];
    k := LastCount(ses.history, |ses.observedAt|).value;
    frame, time := ses.history[2 * k + 1].frame, ses.observedAt[k];
    forall j, later, t | IsAnswer(run[n], j, later, t) && k < j ensures Counter(later) == None {
      NothingCountedSince(ses.history, |ses.observedAt|, j);
    }
  }

  lemma {:induction false} NothingCountedSince(history: seq<Event>, m: nat, j: nat)
    requires j < m && 2 * j + 1 < |history| && history[2 * j + 1].Answered?
    requires LastCount(history, m).Some? && LastCount(history, m).value < j
    ensures Counter(history[2 * j + 1].frame) == None
  {
    hide Counter;
    if j < m - 1 {
      NothingCountedSince(history, m - 1, j);
    }
  }

  /** From the write of a valve command until its confirming status is observed no position is shown. */
  lemma UnconfirmedValveIsHidden(run: seq<Proxy>, steps: seq<Step>, n: nat)
    requires IsRun(run, steps) && n < |run|
    requires run[n].session.Some? && Has(run[n], run[n].session.value)
    requires var ses := run[n].sessions[run[n].session.value]; Unconfirmed(ses.history, |ses.observedAt|)
    ensures run[n].state.valve == None
  {
    hide IsRun, LastReport, LastCount, Unconfirmed;
    RunInv(run, steps, n);
  }

  /** A task of a session that is no longer the proxy's can at most blank the valve. */
  lemma RetiredSessionsOnlyBlank(px: Proxy, step: Step, s: nat)
    requires Enabled(px, step) && Subject(px, step) == Some(s) && Has(px, s) && Retired(px, s)
    ensures Do(px, step).state == px.state || Do(px, step).state == px.state.(valve := None)
            || (px.session == Some(s) && step.StepCleanup?)
  {
    if step.StepTakeAnswer? || step.StepForwarded? || step.StepDequeue? || step.StepCleanup? {
      hide FailWorker, Finish, ReadStatus, Swept, VendorCount, Leftover, Frame.ValveCommand;
    } else {
      hide Do;
      OtherRetiredSteps(px, step, s);
    }
  }

  lemma OtherRetiredSteps(px: Proxy, step: Step, s: nat)
    requires Enabled(px, step) && Subject(px, step) == Some(s) && Has(px, s) && Retired(px, s)
    requires !step.StepTakeAnswer? && !step.StepForwarded? && !step.StepDequeue? && !step.StepCleanup?
    ensures Do(px, step).state == px.state
  {
    hide FailWorker, RequestFrame, Verdict, Frame.Matches, CloseCloud;
  }

  // ----- Conservation ----------------------------------------------------------------------------------------

  /** Vendor frames are conserved, and at most one per session failed in flight. */
  lemma VendorFramesAreConserved(run: seq<Proxy>, steps: seq<Step>, n: nat)
    requires IsRun(run, steps) && n < |run|
    ensures run[n].offered == run[n].dropped + TotalLoad(run[n].sessions)
    ensures forall s :: 0 <= s < |run[n].sessions| ==> run[n].sessions[s].failed <= 1
  {
    hide IsRun, TotalLoad;
    RunInv(run, steps, n);
    forall s | 0 <= s < |run[n].sessions| ensures run[n].sessions[s].failed <= 1 {
      RunSession(run, steps, n, s);
    }
  }

  // ----- The guards of the machine ------------------------------------------------------------------------------

  /**
   The machine never blocks a worker that the program would let run: where the enabling
   condition of a worker step mentions more than the program tests, it always holds.
   */
  lemma WorkerIsNeverBlocked(px: Proxy, s: nat)
    requires Inv(px) && Has(px, s) && px.sessions[s].phase.Running?
    ensures var ses := px.sessions[s];
            && (ses.worker.Checking? ==> Enabled(px, StepCheck(s)))
            && (ses.worker.Dequeuing? && ses.queue != [] ==> Enabled(px, StepDequeue(s)))
            && (ses.worker.Exchanging? ==>
                  ses.current.Some? && (ses.current.value.answer.Resolved? ==> Enabled(px, StepTakeAnswer(s))))
            && (ses.worker.Forwarding? ==> forall drained :: Enabled(px, StepForwarded(s, drained)))
            && (ses.worker.WorkerDone? <==> !Enabled(px, StepWorkerFails(s)))
  {
    hide HistoryOk, QueueOk, WaitersOk, CloudsOk, PhaseOk;
    assert Good(px, px.sessions[s]);
  }
}
