/**
 What every reachable state of one session satisfies, and the proof that each operation on
 a session keeps it.
 */
module ProxyInvariant {
  import opened Base
  import opened Protocol
  import opened ProxyModel

  // ----- The device connection ---------------------------------------------------------

  ghost predicate StatusRead(frame: Frame) {
    0x80 <= frame.source < 0xC0 && frame == ReadStatus(frame.source)
  }

  /** Writes and accepted answers alternate, and each answer matches the write before it. */
  ghost predicate Alternates(history: seq<Event>) {
    && (forall i :: 0 <= i < |history| ==> (history[i].Wrote? <==> i % 2 == 0))
    && (forall i :: 0 < i < |history| && history[i].Answered? && history[i - 1].Wrote? ==>
          history[i].frame.Matches(history[i - 1].frame))
  }

  /** The write at `i` confirms the valve command written just before and acknowledged empty. */
  ghost predicate ConfirmsAt(history: seq<Event>, i: int)
    requires 0 <= i < |history| && history[i].Wrote?
  {
    && i >= 2
    && history[i - 2].Wrote? && !history[i - 2].confirming && history[i - 2].request == history[i].request
    && history[i].request.frame.ValveCommand().Some?
    && history[i - 1].Answered? && EmptyAcknowledgment(history[i - 1].frame)
    && StatusRead(history[i].frame)
  }

  /** Each write is the request's own frame, or the status read that confirms it. */
  ghost predicate WritesOwnFrames(history: seq<Event>) {
    forall i :: 0 <= i < |history| && history[i].Wrote? ==>
      if history[i].confirming then ConfirmsAt(history, i) else history[i].frame == history[i].request.frame
  }

  /** Requests reach the device in the order of their ids, and each at most once. */
  ghost predicate WritesInOrder(history: seq<Event>) {
    forall i, j :: 0 <= i < j < |history| && history[i].Wrote? && history[j].Wrote? ==>
      history[i].request.id <= history[j].request.id
      && (!history[j].confirming ==> history[i].request.id < history[j].request.id)
  }

  ghost predicate HistoryOk(ses: Session) {
    && Alternates(ses.history) && WritesOwnFrames(ses.history) && WritesInOrder(ses.history)
    && forall i :: 0 <= i < |ses.history| && ses.history[i].Wrote? ==> Known(ses, ses.history[i].request)
  }

  ghost predicate Known(ses: Session, request: Request) {
    request.id in ses.requests && ses.requests[request.id] == request
  }

  // ----- The worker ----------------------------------------------------------------------

  ghost predicate LastWrite(history: seq<Event>, i: int, request: Request, frame: Frame, confirming: bool) {
    0 <= i < |history| && history[i] == Wrote(request, frame, confirming)
  }

  ghost predicate WorkerOk(ses: Session) {
    var n, m := |ses.history|, |ses.observedAt|;
    && (ses.active.Some? ==> Known(ses, ses.active.value))
    && match ses.worker
       case Exchanging(confirming) =>
         && ses.active.Some? && ses.current.Some?
         && (confirming ==> ses.active.value.frame.ValveCommand().Some?)
         && match ses.current.value.answer {
              case Pending =>
                n == 2 * m + 1
                && LastWrite(ses.history, n - 1, ses.active.value, ses.current.value.frame, confirming)
              case Resolved(response) =>
                n == 2 * m + 2 && ses.history[n - 1] == Answered(response)
                && LastWrite(ses.history, n - 2, ses.active.value, ses.current.value.frame, confirming)
              case _ => false
            }
       case Forwarding(response) =>
         && IsVendor(ses.active) && ses.current == None
         && n == 2 * m && n >= 2 && ses.history[n - 1] == Answered(response)
         && LastWrite(ses.history, n - 2, ses.active.value, ses.active.value.frame, false)
       case WorkerDone =>
         ses.current == None && !IsVendor(ses.active) && 2 * m <= n <= 2 * m + 2
       case _ => ses.current == None && ses.active == None && n == 2 * m
  }

  // ----- The queue -----------------------------------------------------------------------

  ghost predicate QueueOk(ses: Session) {
    && (forall i :: 0 <= i < |ses.queue| ==> Known(ses, ses.queue[i]))
    && (forall i, j :: 0 <= i < j < |ses.queue| ==> ses.queue[i].id < ses.queue[j].id)
    && (forall i, j :: 0 <= i < |ses.history| && ses.history[i].Wrote? && 0 <= j < |ses.queue| ==>
          ses.history[i].request.id < ses.queue[j].id)
    && (ses.active.Some? ==> forall j :: 0 <= j < |ses.queue| ==> ses.active.value.id < ses.queue[j].id)
  }

  // ----- Waiters ---------------------------------------------------------------------------

  /** The answer to the last write made for request `id`: the confirming read for a valve command. */
  ghost predicate DeliveredAt(history: seq<Event>, m: nat, id: nat, response: Frame, i: int) {
    && 0 <= i && i + 1 < |history| && i + 1 < 2 * m
    && history[i].Wrote? && history[i].request.id == id
    && history[i].confirming == history[i].request.frame.ValveCommand().Some?
    && history[i + 1] == Answered(response)
  }

  ghost predicate Delivered(history: seq<Event>, m: nat, id: nat, response: Frame) {
    exists i :: DeliveredAt(history, m, id, response, i)
  }

  ghost predicate PurposeOk(frame: Frame, purpose: Purpose) {
    && 0x80 <= frame.source < 0xC0
    && match purpose
       case SetValve(valve) => frame == CommandFrame(frame.source, valve)
       case Refresh => frame == ReadSnapshot(frame.source)
       case Poll => frame == ReadSnapshot(frame.source) || frame == ReadStatus(frame.source)
  }

  ghost predicate WaiterOk(ses: Session, id: nat)
    requires id in ses.waiters
  {
    var w := ses.waiters[id];
    && id in ses.requests && ses.requests[id].id == id && ses.requests[id].origin.Local?
    && PurposeOk(ses.requests[id].frame, w.purpose)
    && w.completions == (if w.future.Pending? then 0 else 1)
    && (w.future.Pending? ==> !ses.phase.Cleaned? && Mentions(Leftover(ses), id) && w.outcome == None)
    && (w.future.Resolved? ==> Delivered(ses.history, |ses.observedAt|, id, w.future.frame))
    && (w.outcome == Some(Returned) ==>
          w.future.Resolved?
          && (w.purpose.SetValve? ==>
                StatusValues(w.future.frame).Some?
                && StatusValues(w.future.frame).value.valve == Some(w.purpose.valve)))
  }

  ghost predicate WaitersOk(ses: Session) {
    && (forall id :: id in ses.waiters ==> WaiterOk(ses, id))
    && (forall id :: id in ses.requests && ses.requests[id].origin.Local? ==> id in ses.waiters)
  }

  // ----- Vendor connections ----------------------------------------------------------------

  /** The wires written to the device on behalf of connection `c`. */
  function WritesFor(history: seq<Event>, c: nat): seq<Frame> {
    if |history| == 0 then []
    else
      var e := history[|history| - 1];
      WritesFor(history[..|history| - 1], c)
      + if e.Wrote? && !e.confirming && e.request.origin == Vendor(c) then [e.frame] else []
  }

  /** The device's answers to those of them among the first `m` exchanges. */
  function AnswersFor(history: seq<Event>, m: nat, c: nat): seq<Frame> {
    if m == 0 || |history| < 2 * m then []
    else
      var e, a := history[2 * m - 2], history[2 * m - 1];
      AnswersFor(history, m - 1, c)
      + if e.Wrote? && a.Answered? && !e.confirming && e.request.origin == Vendor(c) then [a.frame] else []
  }

  function QueuedFor(queue: seq<Request>, c: nat): seq<Frame> {
    if |queue| == 0 then []
    else
      var r := queue[|queue| - 1];
      QueuedFor(queue[..|queue| - 1], c) + if r.origin == Vendor(c) then [r.frame] else []
  }

  ghost predicate CloudOk(ses: Session, c: nat)
    requires c in ses.clouds
  {
    var writes, answers := WritesFor(ses.history, c), AnswersFor(ses.history, |ses.observedAt|, c);
    && writes <= ses.clouds[c].offered
    && ses.clouds[c].back <= answers
    && (Connected(ses, c) && !ses.worker.WorkerDone? ==>
          ses.clouds[c].offered == writes + QueuedFor(ses.queue, c) && ses.clouds[c].back == answers)
  }

  ghost predicate CloudsOk(ses: Session) {
    && (forall c :: c in ses.clouds ==> CloudOk(ses, c))
    && (forall id :: id in ses.requests && ses.requests[id].origin.Vendor? ==> ses.requests[id].origin.cloud in ses.clouds)
    && (ses.cloud.Some? ==> ses.cloud.value in ses.clouds)
    && (ses.cloudTask.Serving? ==> ses.cloudTask.cloud in ses.clouds)
    && (ses.cloudTask.Closing? ==> ses.cloudTask.cloud in ses.clouds)
  }

  // ----- Phases ------------------------------------------------------------------------------

  ghost predicate PhaseOk(ses: Session) {
    && (ses.phase.Created? || ses.phase.Skipped? ==>
          ses.worker == Checking && ses.cloudTask == Disconnected && !ses.readerDone && !ses.pollDone
          && ses.history == [])
    && (ses.phase.Skipped? ==> ses.cancelled)
    && (ses.phase.Cleaned? ==> TasksDone(ses) && ses.queue == [] && !ses.alive)
    && ses.failed <= (if ses.worker.WorkerDone? then 1 else 0)
  }

  ghost predicate SessionOk(ses: Session) {
    HistoryOk(ses) && WorkerOk(ses) && QueueOk(ses) && WaitersOk(ses) && CloudsOk(ses) && PhaseOk(ses)
  }

  // ----- Steps that touch neither device nor queue ---------------------------------------------

  lemma NewSessionOk()
    ensures SessionOk(NewSession())
  {
  }

  lemma SameHistoryOk(ses: Session, ses': Session)
    requires HistoryOk(ses) && ses'.history == ses.history && ses'.requests == ses.requests
    ensures HistoryOk(ses')
  {
    hide Alternates, WritesOwnFrames, WritesInOrder;
  }

  lemma SameWaitersOk(ses: Session, ses': Session)
    requires WaitersOk(ses)
    requires ses'.waiters == ses.waiters && ses'.requests == ses.requests && ses'.queue == ses.queue
    requires ses'.active == ses.active && ses'.history == ses.history && ses'.observedAt == ses.observedAt
    requires ses'.phase.Cleaned? ==> ses.phase.Cleaned?
    ensures WaitersOk(ses')
  {
    hide PurposeOk, Delivered, StatusValues;
    assert Leftover(ses') == Leftover(ses);
    forall id | id in ses.waiters ensures WaiterOk(ses', id) {
      assert WaiterOk(ses, id);
    }
  }

  /** The vendor logs are the same, or the worker is done and they are final. */
  lemma SameCloudsOk(ses: Session, ses': Session)
    requires CloudsOk(ses)
    requires ses'.history == ses.history && ses'.observedAt == ses.observedAt && ses'.requests == ses.requests
    requires ses'.clouds == ses.clouds && ses'.cloud == ses.cloud && ses'.cloudTask == ses.cloudTask
    requires ses'.worker.WorkerDone? || (ses'.queue == ses.queue && !ses.worker.WorkerDone?)
    ensures CloudsOk(ses')
  {
    hide WritesFor, AnswersFor, QueuedFor;
    forall c | c in ses'.clouds ensures CloudOk(ses', c) {
      assert CloudOk(ses, c);
    }
  }

  /** Steps that leave queue, connections and waiters alone. */
  lemma FlagsOk(ses: Session, ses': Session)
    requires SessionOk(ses) && PhaseOk(ses')
    requires ses' == ses.(alive := ses'.alive, cancelled := ses'.cancelled, phase := ses'.phase, tag := ses'.tag,
                          readerDone := ses'.readerDone, pollDone := ses'.pollDone, closed := ses'.closed,
                          worker := ses'.worker)
    requires ses'.phase.Cleaned? ==> ses.phase.Cleaned?
    requires ses'.worker == ses.worker || (ses.worker.Checking? && (ses'.worker.Dequeuing? || ses'.worker.WorkerDone?))
    ensures SessionOk(ses')
  {
    hide HistoryOk, WaitersOk, CloudsOk;
    SameHistoryOk(ses, ses');
    SameWaitersOk(ses, ses');
    SameCloudsOk(ses, ses');
  }

  /** Replacing one waiter by another acceptable one. */
  lemma WaiterUpdateOk(ses: Session, id: nat, w: Waiter)
    requires SessionOk(ses) && id in ses.waiters
    requires WaiterOk(ses.(waiters := ses.waiters[id := w]), id)
    ensures SessionOk(ses.(waiters := ses.waiters[id := w]))
  {
    hide HistoryOk, CloudsOk, PurposeOk, Delivered, StatusValues;
    var ses' := ses.(waiters := ses.waiters[id := w]);
    SameHistoryOk(ses, ses');
    SameCloudsOk(ses, ses');
    assert Leftover(ses') == Leftover(ses);
    forall other | other in ses'.waiters ensures WaiterOk(ses', other) {
      if other != id {
        assert WaiterOk(ses, other);
      }
    }
  }

  lemma CancelWaiterOk(ses: Session, id: nat)
    requires SessionOk(ses) && id in ses.waiters
    ensures SessionOk(CancelWaiter(ses, id))
  {
    hide ReadStatus, ReadSnapshot, CommandFrame, PurposeOk, Delivered, StatusValues;
    assert WaiterOk(ses, id);
    if !Done(ses.waiters[id].future) {
      var w := ses.waiters[id];
      WaiterUpdateOk(ses, id, w.(future := Cancelled, completions := w.completions + 1));
    }
  }

  lemma ResumeOk(px: Proxy, s: nat, id: nat)
    requires Has(px, s) && SessionOk(px.sessions[s]) && Enabled(px, StepResume(s, id))
    ensures Has(Resume(px, s, id), s) && SessionOk(Resume(px, s, id).sessions[s])
  {
    hide ReadStatus, ReadSnapshot, CommandFrame, PurposeOk, Delivered, StatusValues;
    var ses := px.sessions[s];
    var w := ses.waiters[id].(outcome := Some(Verdict(px, s, ses.waiters[id])));
    assert WaiterOk(ses, id);
    WaiterUpdateOk(ses, id, w);
  }

  // ----- Joining the queue -----------------------------------------------------------------------

  ghost predicate IdsBelow(ses: Session, bound: nat) {
    forall id :: id in ses.requests ==> id < bound
  }

  lemma MentionsMore(a: seq<Request>, b: seq<Request>, id: nat)
    requires Mentions(a, id) && forall i :: 0 <= i < |a| ==> a[i] in b
    ensures Mentions(b, id)
  {
    var i :| 0 <= i < |a| && a[i].id == id;
    assert a[i] in b;
  }

  lemma MentionsMember(requests: seq<Request>, r: Request)
    requires r in requests
    ensures Mentions(requests, r.id)
  {
    var i :| 0 <= i < |requests| && requests[i] == r;
  }

  /** The parts of the invariant that only look at the queue and the request table. */
  lemma AppendQueueOk(ses: Session, ses': Session, r: Request)
    requires SessionOk(ses) && IdsBelow(ses, r.id) && !ses.phase.Cleaned?
    requires ses'.queue == ses.queue + [r] && ses'.requests == ses.requests[r.id := r]
    requires ses'.history == ses.history && ses'.active == ses.active && ses'.worker == ses.worker
    requires ses'.current == ses.current && ses'.observedAt == ses.observedAt
    ensures HistoryOk(ses') && WorkerOk(ses') && QueueOk(ses')
  {
    hide Alternates, WritesOwnFrames, WritesInOrder, WaitersOk, CloudsOk;
    assert r.id !in ses.requests;
    AppendKnown(ses, ses', r);
    assert QueueOk(ses') by { hide WorkerOk; }
  }

  lemma AppendKnown(ses: Session, ses': Session, r: Request)
    requires HistoryOk(ses) && WorkerOk(ses) && r.id !in ses.requests
    requires ses'.requests == ses.requests[r.id := r]
    requires ses'.history == ses.history && ses'.active == ses.active && ses'.worker == ses.worker
    requires ses'.current == ses.current && ses'.observedAt == ses.observedAt
    ensures HistoryOk(ses') && WorkerOk(ses')
  {
    hide Alternates, WritesOwnFrames, WritesInOrder;
  }

  lemma AppendQueueWaiters(ses: Session, ses': Session, r: Request)
    requires WaitersOk(ses) && r.id !in ses.requests
    requires ses'.queue == ses.queue + [r] && ses'.requests == ses.requests[r.id := r]
    requires ses'.history == ses.history && ses'.active == ses.active && ses'.phase == ses.phase
    requires ses'.observedAt == ses.observedAt
    requires forall id :: id in ses.waiters ==> id in ses'.waiters && ses'.waiters[id] == ses.waiters[id]
    ensures forall id :: id in ses.waiters ==> WaiterOk(ses', id)
  {
    hide PurposeOk, Delivered, StatusValues;
    assert Leftover(ses') == Leftover(ses) + [r];
    forall id | id in ses.waiters ensures WaiterOk(ses', id) {
      assert WaiterOk(ses, id);
      if ses.waiters[id].future.Pending? {
        MentionsMore(Leftover(ses), Leftover(ses'), id);
      }
    }
  }

  lemma EnqueueLocalClouds(ses: Session, ses': Session, r: Request)
    requires CloudsOk(ses) && r.id !in ses.requests && r.origin.Local?
    requires ses'.queue == ses.queue + [r] && ses'.requests == ses.requests[r.id := r]
    requires ses'.history == ses.history && ses'.observedAt == ses.observedAt && ses'.worker == ses.worker
    requires ses'.clouds == ses.clouds && ses'.cloud == ses.cloud && ses'.cloudTask == ses.cloudTask
    ensures CloudsOk(ses')
  {
    hide WritesFor, AnswersFor;
    forall c | c in ses.clouds ensures CloudOk(ses', c) {
      assert CloudOk(ses, c);
      assert ses'.queue[..|ses.queue|] == ses.queue;
      assert QueuedFor(ses'.queue, c) == QueuedFor(ses.queue, c);
    }
  }

  lemma EnqueueLocalOk(ses: Session, r: Request, purpose: Purpose)
    requires SessionOk(ses) && IdsBelow(ses, r.id) && !ses.phase.Cleaned?
    requires r.origin.Local? && PurposeOk(r.frame, purpose)
    ensures SessionOk(ses.(
      queue := ses.queue + [r],
      requests := ses.requests[r.id := r],
      waiters := ses.waiters[r.id := Waiter(purpose, Pending, None, 0)]))
  {
    hide HistoryOk, WorkerOk, QueueOk, CloudsOk, PurposeOk, Delivered, StatusValues;
    var ses' := ses.(
      queue := ses.queue + [r],
      requests := ses.requests[r.id := r],
      waiters := ses.waiters[r.id := Waiter(purpose, Pending, None, 0)]);
    AppendQueueOk(ses, ses', r);
    assert r.id !in ses.requests;
    AppendQueueWaiters(ses, ses', r);
    assert Leftover(ses')[|Leftover(ses)|].id == r.id;
    assert WaiterOk(ses', r.id);
    EnqueueLocalClouds(ses, ses', r);
  }

  lemma EnqueueVendorOk(ses: Session, r: Request)
    requires SessionOk(ses) && IdsBelow(ses, r.id) && !ses.phase.Cleaned?
    requires r.origin.Vendor? && Connected(ses, r.origin.cloud)
    ensures var c := r.origin.cloud;
            SessionOk(ses.(
              queue := ses.queue + [r],
              requests := ses.requests[r.id := r],
              clouds := ses.clouds[c := ses.clouds[c].(offered := ses.clouds[c].offered + [r.frame])]))
  {
    hide HistoryOk, WorkerOk, QueueOk, WaiterOk, WritesFor, AnswersFor;
    var c := r.origin.cloud;
    var ses' := ses.(
      queue := ses.queue + [r],
      requests := ses.requests[r.id := r],
      clouds := ses.clouds[c := ses.clouds[c].(offered := ses.clouds[c].offered + [r.frame])]);
    AppendQueueOk(ses, ses', r);
    assert r.id !in ses.requests;
    AppendQueueWaiters(ses, ses', r);
    assert WaitersOk(ses');
    forall d | d in ses'.clouds ensures CloudOk(ses', d) {
      assert CloudOk(ses, d);
      assert ses'.queue[..|ses.queue|] == ses.queue;
      if d == c && !ses.worker.WorkerDone? {
        var writes := WritesFor(ses.history, c);
        assert (writes + QueuedFor(ses.queue, c)) + [r.frame] == writes + (QueuedFor(ses.queue, c) + [r.frame]);
      }
    }
  }

  // ----- The device answers ------------------------------------------------------------------------

  lemma AppendEventLogs(history: seq<Event>, e: Event, m: nat, c: nat)
    requires 2 * m <= |history|
    ensures WritesFor(history + [e], c) ==
              WritesFor(history, c)
              + if e.Wrote? && !e.confirming && e.request.origin == Vendor(c) then [e.frame] else []
    ensures AnswersFor(history + [e], m, c) == AnswersFor(history, m, c)
  {
    assert (history + [e])[..|history|] == history;
    AnswersPrefix(history, e, m, c);
  }

  lemma {:induction false} AnswersPrefix(history: seq<Event>, e: Event, m: nat, c: nat)
    requires 2 * m <= |history|
    ensures AnswersFor(history + [e], m, c) == AnswersFor(history, m, c)
  {
    if m > 0 {
      AnswersPrefix(history, e, m - 1, c);
    }
  }

  lemma DeliveredLater(history: seq<Event>, e: Event, m: nat, n: nat, id: nat, response: Frame)
    requires Delivered(history, m, id, response) && m <= n
    ensures Delivered(history + [e], n, id, response)
    ensures Delivered(history, n, id, response)
  {
    var i :| DeliveredAt(history, m, id, response, i);
    assert DeliveredAt(history + [e], n, id, response, i);
    assert DeliveredAt(history, n, id, response, i);
  }

  lemma ReceiveOk(ses: Session, frame: Frame)
    requires SessionOk(ses) && ses.phase.Running? && Expected(ses, frame)
    ensures SessionOk(ses.(current := Some(ses.current.value.(answer := Resolved(frame))),
                           history := ses.history + [Answered(frame)]))
  {
    hide ReadStatus, ReadSnapshot, CommandFrame, StatusRead, PurposeOk, Delivered, StatusValues, WritesFor, AnswersFor;
    var ses' := ses.(current := Some(ses.current.value.(answer := Resolved(frame))),
                     history := ses.history + [Answered(frame)]);
    assert WorkerOk(ses);
    assert ses.worker.Exchanging?;
    AppendHistoryOk(ses, Answered(frame));
    assert Leftover(ses') == Leftover(ses);
    forall id | id in ses'.waiters ensures WaiterOk(ses', id) {
      assert WaiterOk(ses, id);
      if ses.waiters[id].future.Resolved? {
        DeliveredLater(ses.history, Answered(frame), |ses.observedAt|, |ses.observedAt|, id, ses.waiters[id].future.frame);
      }
    }
    forall c | c in ses'.clouds ensures CloudOk(ses', c) {
      assert CloudOk(ses, c);
      AppendEventLogs(ses.history, Answered(frame), |ses.observedAt|, c);
    }
  }

  /** One more event on the device connection. */
  lemma AppendHistoryOk(ses: Session, e: Event)
    requires HistoryOk(ses)
    requires e.Wrote? <==> |ses.history| % 2 == 0
    requires e.Answered? ==> e.frame.Matches(ses.history[|ses.history| - 1].frame)
    requires e.Wrote? ==> Known(ses, e.request)
    requires e.Wrote? && !e.confirming ==>
      e.frame == e.request.frame
      && forall i :: 0 <= i < |ses.history| && ses.history[i].Wrote? ==> ses.history[i].request.id < e.request.id
    requires e.Wrote? && e.confirming ==>
      && ConfirmsAt(ses.history + [e], |ses.history|)
      && forall i :: 0 <= i < |ses.history| && ses.history[i].Wrote? ==> ses.history[i].request.id <= e.request.id
    ensures HistoryOk(ses.(history := ses.history + [e]))
  {
    hide ReadStatus, StatusRead;
    var h, h' := ses.history, ses.history + [e];
    forall i | 0 <= i < |h'| && h'[i].Wrote?
      ensures if h'[i].confirming then ConfirmsAt(h', i) else h'[i].frame == h'[i].request.frame
    {
      if i < |h| {
        assert h'[i] == h[i];
        if h[i].confirming {
          assert ConfirmsAt(h, i);
          assert h'[i - 1] == h[i - 1] && h'[i - 2] == h[i - 2];
        }
      }
    }
  }

  // ----- Leaving the queue ---------------------------------------------------------------------------

  lemma {:induction false} QueuedHead(queue: seq<Request>, c: nat)
    requires queue != []
    ensures QueuedFor(queue, c) ==
              (if queue[0].origin == Vendor(c) then [queue[0].frame] else []) + QueuedFor(queue[1..], c)
  {
    if |queue| > 1 {
      var init := queue[..|queue| - 1];
      QueuedHead(init, c);
      assert init[1..] == queue[1..][..|queue| - 2];
      assert queue[1..][|queue| - 2] == queue[|queue| - 1];
    }
  }

  /** The queue without its first request, which nobody need be waiting for. */
  lemma TailWaiters(ses: Session, ses': Session)
    requires WaitersOk(ses) && ses.queue != [] && ses.active == None
    requires ses'.queue == ses.queue[1..] && ses'.requests == ses.requests && ses'.phase == ses.phase
    requires ses'.waiters == ses.waiters
    requires |ses'.observedAt| == |ses.observedAt|
    requires ses'.history == ses.history || exists e :: ses'.history == ses.history + [e]
    requires ses'.active == Some(ses.queue[0])
             || (ses.queue[0].id in ses.waiters ==> Done(ses.waiters[ses.queue[0].id].future))
    requires ses'.active == Some(ses.queue[0]) || ses'.active == None
    ensures WaitersOk(ses')
  {
    hide PurposeOk, Delivered, StatusValues;
    forall id | id in ses.waiters ensures WaiterOk(ses', id) {
      assert WaiterOk(ses, id);
      if ses.waiters[id].future.Pending? {
        var i :| 0 <= i < |Leftover(ses)| && Leftover(ses)[i].id == id;
        assert Leftover(ses) == ses.queue;
        if i > 0 {
          assert ses.queue[i] == ses.queue[1..][i - 1];
          assert ses.queue[i] in Leftover(ses');
          MentionsMember(Leftover(ses'), ses.queue[i]);
        } else {
          assert ses'.active == Some(ses.queue[0]);
          assert Leftover(ses')[0].id == id;
        }
      }
      if ses.waiters[id].future.Resolved? && ses'.history != ses.history {
        var e :| ses'.history == ses.history + [e];
        DeliveredLater(ses.history, e, |ses.observedAt|, |ses.observedAt|, id, ses.waiters[id].future.frame);
      }
    }
  }

  /** Releasing touches nothing but the active request. */
  lemma ReleaseFields(ses: Session)
    ensures ReleaseActive(ses) == ses.(active := ReleaseActive(ses).active)
  {
  }

  /** What a failing worker leaves: its request stays active only while a caller still waits. */
  lemma FailFields(ses: Session)
    ensures var ses' := FailWorker(ses);
            && ses' == ses.(current := None, worker := WorkerDone, active := ses'.active, failed := ses'.failed)
            && ses'.failed == ses.failed + (if ses.worker == Exchanging(false) && IsVendor(ses.active) then 1 else 0)
            && (ses.active == None ==> ses'.active == None)
            && (ses.active.Some? ==>
                  var r := ses.active.value;
                  ses'.active == if r.origin.Local? && r.id in ses.waiters && !Done(ses.waiters[r.id].future)
                                 then ses.active else None)
  {
    ReleaseFields(ses.(current := None, worker := WorkerDone,
                       failed := ses.failed + if ses.worker == Exchanging(false) && IsVendor(ses.active) then 1 else 0));
  }

  lemma CompletedFields(ses: Session, id: nat, future: Future)
    requires id in ses.waiters
    ensures Complete(ses, id, future) == ses.(waiters := Complete(ses, id, future).waiters)
  {
  }

  /** Whether the caller of the active request is still waiting. */
  predicate ActiveWaits(ses: Session)
    requires ses.active.Some?
  {
    var r := ses.active.value;
    r.origin.Local? && r.id in ses.waiters && !Done(ses.waiters[r.id].future)
  }

  lemma NobodyWaits(ses: Session)
    requires ses.active.Some? && !ActiveWaits(ses)
    ensures ReleaseActive(ses) == ses.(active := None)
  {
  }

  lemma FinishFields(ses: Session, response: Frame)
    requires ses.active.Some?
    ensures var ses' := Finish(ses, response);
            && ses' == ses.(active := None, worker := Checking, waiters := ses'.waiters)
            && ses'.waiters == if ActiveWaits(ses)
                               then Complete(ses, ses.active.value.id, Resolved(response)).waiters else ses.waiters
  {
    if ActiveWaits(ses) {
      var id := ses.active.value.id;
      CompletedFields(ses, id, Resolved(response));
      NobodyWaits(Complete(ses, id, Resolved(response)));
    } else {
      NobodyWaits(ses);
    }
    hide Complete, ReleaseActive;
  }

  lemma CloseFields(ses: Session, c: nat)
    ensures var ses' := CloseCloud(ses, c);
            && ses' == ses.(clouds := ses'.clouds) && ses'.clouds.Keys == ses.clouds.Keys
            && forall d :: d in ses.clouds ==> ses'.clouds[d] == if d == c then ses.clouds[d].(alive := false) else ses.clouds[d]
  {
  }

  lemma DropHeadOk(ses: Session)
    requires SessionOk(ses) && ses.phase.Running? && ses.worker.Dequeuing? && ses.queue != []
    requires var r := ses.queue[0];
             if r.origin.Local? then r.id in ses.waiters ==> Done(ses.waiters[r.id].future)
             else !Connected(ses, r.origin.cloud)
    ensures SessionOk(ses.(queue := ses.queue[1..], active := None, worker := Checking))
  {
    hide WaiterOk, HistoryOk, CloudsOk;
    var ses' := ses.(queue := ses.queue[1..], active := None, worker := Checking);
    NotAWaiter(ses, ses.queue[0]);
    TailWaiters(ses, ses');
    SameHistoryOk(ses, ses');
    DropHeadClouds(ses);
  }

  lemma DropHeadClouds(ses: Session)
    requires CloudsOk(ses) && ses.worker.Dequeuing? && ses.queue != []
    requires ses.queue[0].origin.Vendor? ==> !Connected(ses, ses.queue[0].origin.cloud)
    ensures CloudsOk(ses.(queue := ses.queue[1..], active := None, worker := Checking))
  {
    hide WritesFor, AnswersFor, QueuedFor;
    var ses' := ses.(queue := ses.queue[1..], active := None, worker := Checking);
    forall c | c in ses'.clouds ensures CloudOk(ses', c) {
      assert CloudOk(ses, c);
      QueuedHead(ses.queue, c);
    }
  }

  /** Only local requests have a waiter. */
  lemma NotAWaiter(ses: Session, r: Request)
    requires WaitersOk(ses) && Known(ses, r)
    ensures r.origin.Vendor? ==> r.id !in ses.waiters
    ensures r.origin.Local? ==> r.id in ses.waiters
  {
    if r.id in ses.waiters {
      assert WaiterOk(ses, r.id);
    }
  }

  function Head(ses: Session): Session
    requires ses.queue != []
  {
    ses.(queue := ses.queue[1..], active := Some(ses.queue[0]))
  }

  /** The three things that can become of a dequeued request. */
  lemma DequeueForms(px: Proxy, s: nat)
    requires Has(px, s) && px.sessions[s].queue != []
    ensures var px', head, r := Dequeue(px, s), Head(px.sessions[s]), px.sessions[s].queue[0];
            && Has(px', s)
            && px' == With(px, s, px'.sessions[s]).(state := px'.state, dropped := px'.dropped)
            && px.dropped <= px'.dropped
            && (px'.state == px.state || px'.state == px.state.(valve := None))
            && (|| px'.sessions[s] == head.(active := None, worker := Checking)
                || px'.sessions[s] == FailWorker(head.(worker := Exchanging(false)))
                || (&& IsCurrent(px, s) && px'.sessions[s] == WriteFrame(head, r, r.frame, false)
                    && (r.frame.ValveCommand().Some? ==> px'.state.valve == None)))
  {
    hide FailWorker, WriteFrame, Connected, Frame.ValveCommand;
  }

  lemma WriteHeadLine(ses: Session)
    requires SessionOk(ses) && ses.phase.Running? && ses.worker.Dequeuing? && ses.queue != []
    ensures var r := ses.queue[0];
            var ses' := WriteFrame(Head(ses), r, r.frame, false);
            HistoryOk(ses') && WorkerOk(ses') && QueueOk(ses')
  {
    hide WaiterOk, HistoryOk, CloudOk;
    var r := ses.queue[0];
    var ses' := WriteFrame(Head(ses), r, r.frame, false);
    assert Known(ses, r);
    AppendHistoryOk(ses, Wrote(r, r.frame, false));
    SameHistoryOk(ses.(history := ses'.history), ses');
  }

  lemma WriteHeadClouds(ses: Session)
    requires SessionOk(ses) && ses.phase.Running? && ses.worker.Dequeuing? && ses.queue != []
    requires ses.queue[0].origin.Vendor? ==> Connected(ses, ses.queue[0].origin.cloud)
    ensures CloudsOk(WriteFrame(Head(ses), ses.queue[0], ses.queue[0].frame, false))
  {
    hide WaiterOk, HistoryOk, QueueOk, WritesFor, AnswersFor, QueuedFor;
    var r := ses.queue[0];
    var ses' := WriteFrame(Head(ses), r, r.frame, false);
    forall c | c in ses'.clouds ensures CloudOk(ses', c) {
      assert CloudOk(ses, c);
      QueuedHead(ses.queue, c);
      AppendEventLogs(ses.history, Wrote(r, r.frame, false), |ses.observedAt|, c);
      if r.origin == Vendor(c) {
        assert WritesFor(ses.history, c) + ([r.frame] + QueuedFor(ses'.queue, c))
            == (WritesFor(ses.history, c) + [r.frame]) + QueuedFor(ses'.queue, c);
      }
    }
  }

  lemma WriteHeadOk(ses: Session)
    requires SessionOk(ses) && ses.phase.Running? && ses.worker.Dequeuing? && ses.queue != []
    requires ses.queue[0].origin.Vendor? ==> Connected(ses, ses.queue[0].origin.cloud)
    ensures SessionOk(WriteFrame(Head(ses), ses.queue[0], ses.queue[0].frame, false))
  {
    hide WaiterOk, HistoryOk, QueueOk, CloudsOk;
    WriteHeadLine(ses);
    WriteHeadClouds(ses);
    TailWaiters(ses, WriteFrame(Head(ses), ses.queue[0], ses.queue[0].frame, false));
  }

  lemma FailHeadOk(ses: Session)
    requires SessionOk(ses) && ses.phase.Running? && ses.worker.Dequeuing? && ses.queue != []
    ensures SessionOk(FailWorker(Head(ses).(worker := Exchanging(false))))
  {
    hide HistoryOk, WaitersOk, CloudsOk;
    var ses' := FailWorker(Head(ses).(worker := Exchanging(false)));
    NotAWaiter(ses, ses.queue[0]);
    SameHistoryOk(ses, ses');
    TailWaiters(ses, ses');
    SameCloudsOk(ses, ses');
  }

  // ----- The worker fails ----------------------------------------------------------------------------

  /** The waiters when the active request is released once nobody waits for it. */
  lemma ReleaseWaiters(ses: Session, ses': Session)
    requires WaitersOk(ses)
    requires ses'.queue == ses.queue && ses'.requests == ses.requests && ses'.phase == ses.phase
    requires ses'.waiters == ses.waiters && ses'.history == ses.history
    requires |ses.observedAt| <= |ses'.observedAt|
    requires ses'.active == ses.active
             || (ses'.active == None && ses.active.Some?
                 && (ses.active.value.id in ses.waiters ==> Done(ses.waiters[ses.active.value.id].future)))
    ensures WaitersOk(ses')
  {
    hide PurposeOk, Delivered, StatusValues;
    forall id | id in ses.waiters ensures WaiterOk(ses', id) {
      assert WaiterOk(ses, id);
      if ses.waiters[id].future.Pending? {
        var i :| 0 <= i < |Leftover(ses)| && Leftover(ses)[i].id == id;
        var r := Leftover(ses)[i];
        assert r in Leftover(ses');
        MentionsMember(Leftover(ses'), r);
      }
      if ses.waiters[id].future.Resolved? {
        DeliveredLater(ses.history, Answered(ses.waiters[id].future.frame), |ses.observedAt|, |ses'.observedAt|, id, ses.waiters[id].future.frame);
      }
    }
  }

  lemma FailWorkerOk(ses: Session)
    requires SessionOk(ses) && ses.phase.Running? && !ses.worker.WorkerDone?
    ensures SessionOk(FailWorker(ses))
  {
    hide HistoryOk, WaitersOk, CloudsOk, FailWorker;
    var ses' := FailWorker(ses);
    FailFields(ses);
    if ses.active.Some? {
      NotAWaiter(ses, ses.active.value);
    }
    SameHistoryOk(ses, ses');
    ReleaseWaiters(ses, ses');
    SameCloudsOk(ses, ses');
  }

  // ----- The worker takes an answer --------------------------------------------------------------------

  /** The worker holds an observed answer and has not yet reached its next await. */
  ghost predicate Holding(ses: Session, response: Frame, confirming: bool) {
    var n := |ses.history|;
    && HistoryOk(ses) && QueueOk(ses) && WaitersOk(ses) && CloudsOk(ses) && PhaseOk(ses)
    && ses.phase.Running? && ses.worker.Forwarding? && ses.current == None
    && ses.active.Some? && Known(ses, ses.active.value)
    && n == 2 * |ses.observedAt| && n >= 2 && ses.history[n - 1] == Answered(response)
    && ses.history[n - 2].Wrote? && ses.history[n - 2].request == ses.active.value
    && ses.history[n - 2].confirming == confirming
  }

  function Seen(ses: Session, response: Frame, now: int): Session {
    ses.(current := None, observedAt := ses.observedAt + [now], worker := Forwarding(response))
  }

  function SentBack(ses: Session, c: nat, response: Frame): Session
    requires c in ses.clouds
  {
    ses.(clouds := ses.clouds[c := ses.clouds[c].(back := ses.clouds[c].back + [response])])
  }

  lemma LongerWaiters(ses: Session, ses': Session)
    requires WaitersOk(ses)
    requires ses'.waiters == ses.waiters && ses'.requests == ses.requests && ses'.queue == ses.queue
    requires ses'.active == ses.active && ses'.history == ses.history && |ses'.observedAt| >= |ses.observedAt|
    requires ses'.phase == ses.phase
    ensures WaitersOk(ses')
  {
    hide PurposeOk, Delivered, StatusValues;
    assert Leftover(ses') == Leftover(ses);
    forall id | id in ses.waiters ensures WaiterOk(ses', id) {
      assert WaiterOk(ses, id);
      if ses.waiters[id].future.Resolved? {
        DeliveredLater(ses.history, Answered(ses.waiters[id].future.frame), |ses.observedAt|, |ses'.observedAt|, id,
                       ses.waiters[id].future.frame);
      }
    }
  }

  lemma AnswersStep(ses: Session, response: Frame, c: nat)
    requires WorkerOk(ses) && ses.worker.Exchanging? && ses.current.value.answer == Resolved(response)
    ensures var m := |ses.observedAt|;
            AnswersFor(ses.history, m + 1, c) == AnswersFor(ses.history, m, c)
              + if !ses.worker.confirming && ses.active.value.origin == Vendor(c) then [response] else []
  {
  }

  lemma SeenClouds(ses: Session, response: Frame, now: int)
    requires SessionOk(ses) && ses.worker.Exchanging? && ses.current.value.answer == Resolved(response)
    ensures var seen, r := Seen(ses, response, now), ses.active.value;
            if !ses.worker.confirming && r.origin.Vendor? && Connected(seen, r.origin.cloud)
            then CloudsOk(SentBack(seen, r.origin.cloud, response)) else CloudsOk(seen)
  {
    hide HistoryOk, QueueOk, WaitersOk, CloudOk, Connected;
    var r := ses.active.value;
    var seen := Seen(ses, response, now);
    var send := !ses.worker.confirming && r.origin.Vendor? && Connected(seen, r.origin.cloud);
    var ses' := if send then SentBack(seen, r.origin.cloud, response) else seen;
    forall c | c in ses'.clouds ensures CloudOk(ses', c) {
      SeenCloud(ses, response, now, c);
    }
  }

  lemma SeenCloud(ses: Session, response: Frame, now: int, c: nat)
    requires WorkerOk(ses) && ses.worker.Exchanging? && ses.current.value.answer == Resolved(response)
    requires c in ses.clouds && CloudOk(ses, c)
    ensures var seen, r := Seen(ses, response, now), ses.active.value;
            if !ses.worker.confirming && r.origin.Vendor? && Connected(seen, r.origin.cloud) && r.origin.cloud in seen.clouds
            then CloudOk(SentBack(seen, r.origin.cloud, response), c) else CloudOk(seen, c)
  {
    hide WritesFor, QueuedFor, AnswersFor;
    AnswersStep(ses, response, c);
  }

  lemma SeenHolds(ses: Session, response: Frame, now: int)
    requires SessionOk(ses) && ses.phase.Running?
    requires ses.worker.Exchanging? && ses.current.value.answer == Resolved(response)
    ensures var seen, r := Seen(ses, response, now), ses.active.value;
            Holding(if !ses.worker.confirming && r.origin.Vendor? && Connected(seen, r.origin.cloud)
                    then SentBack(seen, r.origin.cloud, response) else seen, response, ses.worker.confirming)
  {
    hide HistoryOk, WaitersOk, CloudsOk;
    SeenClouds(ses, response, now);
    var seen, r := Seen(ses, response, now), ses.active.value;
    var ses' := if !ses.worker.confirming && r.origin.Vendor? && Connected(seen, r.origin.cloud)
                then SentBack(seen, r.origin.cloud, response) else seen;
    SameHistoryOk(ses, ses');
    LongerWaiters(ses, ses');
  }

  lemma ForwardingHolds(ses: Session)
    requires SessionOk(ses) && ses.phase.Running? && ses.worker.Forwarding?
    ensures Holding(ses, ses.worker.response, false)
  {
    hide HistoryOk, WaitersOk, CloudsOk, QueueOk;
  }

  lemma HoldingIsForwarding(ses: Session, response: Frame)
    requires Holding(ses, response, false) && IsVendor(ses.active) && ses.worker == Forwarding(response)
    ensures SessionOk(ses)
  {
    hide WaitersOk, CloudsOk, QueueOk, StatusRead, Alternates, WritesInOrder;
  }

  lemma FinishShape(ses: Session, response: Frame)
    requires ses.active.Some? && WaitersOk(ses) && Known(ses, ses.active.value)
    ensures var ses', id := Finish(ses, response), ses.active.value.id;
            && ses' == ses.(active := None, worker := Checking, waiters := ses'.waiters)
            && ses'.waiters.Keys == ses.waiters.Keys
            && (forall other :: other in ses.waiters && other != id ==> ses'.waiters[other] == ses.waiters[other])
            && (id in ses.waiters ==>
                  ses'.waiters[id] ==
                    if Done(ses.waiters[id].future) then ses.waiters[id]
                    else ses.waiters[id].(future := Resolved(response), completions := ses.waiters[id].completions + 1))
  {
    hide WaitersOk, Finish;
    NotAWaiter(ses, ses.active.value);
    FinishFields(ses, response);
  }

  lemma FinishWaiters(ses: Session, response: Frame, confirming: bool)
    requires Holding(ses, response, confirming)
    requires confirming == ses.active.value.frame.ValveCommand().Some?
    ensures WaitersOk(Finish(ses, response))
  {
    hide HistoryOk, CloudsOk, QueueOk, PurposeOk, StatusValues, Finish;
    var r := ses.active.value;
    var ses' := Finish(ses, response);
    FinishShape(ses, response);
    assert DeliveredAt(ses.history, |ses.observedAt|, r.id, response, |ses.history| - 2);
    forall id | id in ses'.waiters ensures WaiterOk(ses', id) {
      assert WaiterOk(ses, id);
      if ses'.waiters[id].future.Pending? {
        assert ses'.waiters[id] == ses.waiters[id];
        var i :| 0 <= i < |Leftover(ses)| && Leftover(ses)[i].id == id;
        assert id != r.id;
        assert Leftover(ses)[i] in Leftover(ses');
        MentionsMember(Leftover(ses'), Leftover(ses)[i]);
      }
    }
  }

  lemma FinishOk(ses: Session, response: Frame, confirming: bool)
    requires Holding(ses, response, confirming)
    requires confirming == ses.active.value.frame.ValveCommand().Some?
    ensures SessionOk(Finish(ses, response))
  {
    hide HistoryOk, WaitersOk, CloudsOk, Finish;
    var ses' := Finish(ses, response);
    FinishShape(ses, response);
    FinishWaiters(ses, response, confirming);
    SameHistoryOk(ses, ses');
    SameCloudsOk(ses, ses');
  }

  lemma FailHoldingOk(ses: Session, response: Frame)
    requires Holding(ses, response, false)
    ensures SessionOk(FailWorker(ses))
  {
    hide HistoryOk, WaitersOk, CloudsOk, FailWorker;
    var ses' := FailWorker(ses);
    FailFields(ses);
    NotAWaiter(ses, ses.active.value);
    SameHistoryOk(ses, ses');
    ReleaseWaiters(ses, ses');
    SameCloudsOk(ses, ses');
  }

  lemma StatusReadOk(tag: Tag)
    ensures StatusRead(ReadStatus(tag))
  {
  }

  lemma ConfirmingHistory(ses: Session, response: Frame, tag: Tag)
    requires Holding(ses, response, false)
    requires ses.active.value.frame.ValveCommand().Some? && EmptyAcknowledgment(response)
    ensures HistoryOk(ses.(history := ses.history + [Wrote(ses.active.value, ReadStatus(tag), true)]))
  {
    hide WaitersOk, CloudsOk, QueueOk, ReadStatus, StatusRead;
    StatusReadOk(tag);
    var n, r := |ses.history|, ses.active.value;
    var e := Wrote(r, ReadStatus(tag), true);
    var h := ses.history + [e];
    assert h[n - 1] == ses.history[n - 1] && h[n - 2] == ses.history[n - 2];
    forall i | 0 <= i < n && ses.history[i].Wrote? ensures ses.history[i].request.id <= r.id {
      assert i <= n - 2;
    }
    AppendHistoryOk(ses, e);
  }

  lemma ConfirmingClouds(ses: Session, ses': Session, e: Event)
    requires CloudsOk(ses) && 2 * |ses.observedAt| <= |ses.history|
    requires e.Wrote? && e.confirming && ses'.history == ses.history + [e]
    requires ses'.observedAt == ses.observedAt && ses'.requests == ses.requests && ses'.queue == ses.queue
    requires ses'.clouds == ses.clouds && ses'.cloud == ses.cloud && ses'.cloudTask == ses.cloudTask
    requires !ses.worker.WorkerDone?
    ensures CloudsOk(ses')
  {
    hide WritesFor, AnswersFor, QueuedFor;
    forall c | c in ses'.clouds ensures CloudOk(ses', c) {
      assert CloudOk(ses, c);
      AppendEventLogs(ses.history, e, |ses.observedAt|, c);
    }
  }

  lemma AppendWaiters(ses: Session, ses': Session, e: Event)
    requires WaitersOk(ses) && ses'.history == ses.history + [e]
    requires ses'.waiters == ses.waiters && ses'.requests == ses.requests && ses'.queue == ses.queue
    requires ses'.active == ses.active && ses'.observedAt == ses.observedAt && ses'.phase == ses.phase
    ensures WaitersOk(ses')
  {
    hide PurposeOk, Delivered, StatusValues;
    assert Leftover(ses') == Leftover(ses);
    forall id | id in ses.waiters ensures WaiterOk(ses', id) {
      assert WaiterOk(ses, id);
      if ses.waiters[id].future.Resolved? {
        DeliveredLater(ses.history, e, |ses.observedAt|, |ses.observedAt|, id, ses.waiters[id].future.frame);
      }
    }
  }

  lemma ConfirmOk(ses: Session, response: Frame, tag: Tag)
    requires Holding(ses, response, false)
    requires ses.active.value.frame.ValveCommand().Some? && EmptyAcknowledgment(response)
    ensures SessionOk(WriteFrame(ses.(tag := tag), ses.active.value, ReadStatus(tag), true))
  {
    hide HistoryOk, WaitersOk, CloudsOk, ReadStatus;
    var r := ses.active.value;
    var e := Wrote(r, ReadStatus(tag), true);
    var ses' := WriteFrame(ses.(tag := tag), r, ReadStatus(tag), true);
    ConfirmingHistory(ses, response, tag);
    SameHistoryOk(ses.(history := ses.history + [e]), ses');
    ConfirmingClouds(ses, ses', e);
    AppendWaiters(ses, ses', e);
  }

  // ----- Vendor connections --------------------------------------------------------------------------------

  lemma CloseCloudClouds(ses: Session, c: nat)
    requires CloudsOk(ses)
    ensures CloudsOk(CloseCloud(ses, c))
  {
    hide WritesFor, AnswersFor, QueuedFor;
    var ses' := CloseCloud(ses, c);
    forall d | d in ses'.clouds ensures CloudOk(ses', d) {
      assert CloudOk(ses, d);
    }
  }

  lemma CloseCloudOk(ses: Session, c: nat)
    requires SessionOk(ses)
    ensures SessionOk(CloseCloud(ses, c))
  {
    hide HistoryOk, WaitersOk, CloudsOk;
    var ses' := CloseCloud(ses, c);
    SameHistoryOk(ses, ses');
    SameWaitersOk(ses, ses');
    CloseCloudClouds(ses, c);
  }

  lemma CloseCloudHolds(ses: Session, c: nat, response: Frame)
    requires Holding(ses, response, false)
    ensures Holding(CloseCloud(ses, c), response, false)
  {
    hide HistoryOk, WaitersOk, CloudsOk;
    var ses' := CloseCloud(ses, c);
    SameHistoryOk(ses, ses');
    SameWaitersOk(ses, ses');
    CloseCloudClouds(ses, c);
  }

  /** The cloud task moves on, possibly dropping the connection from the session. */
  lemma CloudTaskOk(ses: Session, cloud: Option<nat>, task: CloudTaskAt)
    requires SessionOk(ses) && ses.phase.Running?
    requires cloud == ses.cloud || cloud == None
    requires task.Serving? ==> task.cloud in ses.clouds
    requires task.Closing? ==> task.cloud in ses.clouds
    ensures SessionOk(ses.(cloud := cloud, cloudTask := task))
  {
    var ses' := ses.(cloud := cloud, cloudTask := task);
    assert CloudsOk(ses') by {
      hide HistoryOk, WaitersOk, QueueOk, WorkerOk, WritesFor, AnswersFor, QueuedFor;
      forall c | c in ses'.clouds ensures CloudOk(ses', c) {
        assert CloudOk(ses, c);
      }
    }
    hide HistoryOk, WaitersOk, CloudsOk;
    SameHistoryOk(ses, ses');
    SameWaitersOk(ses, ses');
  }

  lemma {:induction false} NoLogsYet(ses: Session, c: nat)
    requires HistoryOk(ses) && QueueOk(ses) && CloudsOk(ses) && c !in ses.clouds
    ensures forall k: nat {:trigger ses.history[..k]} :: k <= |ses.history| ==> WritesFor(ses.history[..k], c) == []
    ensures forall m :: AnswersFor(ses.history, m, c) == []
    ensures QueuedFor(ses.queue, c) == []
  {
    forall i | 0 <= i < |ses.history| && ses.history[i].Wrote? ensures ses.history[i].request.origin != Vendor(c) {
      assert Known(ses, ses.history[i].request);
    }
    forall i | 0 <= i < |ses.queue| ensures ses.queue[i].origin != Vendor(c) {
      assert Known(ses, ses.queue[i]);
    }
    NoWritesFor(ses.history, c);
    forall m ensures AnswersFor(ses.history, m, c) == [] {
      NoAnswersFor(ses.history, m, c);
    }
    NoneQueuedFor(ses.queue, c);
  }

  lemma {:induction false} NoWritesFor(history: seq<Event>, c: nat)
    requires forall i :: 0 <= i < |history| && history[i].Wrote? ==> history[i].request.origin != Vendor(c)
    ensures forall k: nat {:trigger history[..k]} :: k <= |history| ==> WritesFor(history[..k], c) == []
  {
    if |history| > 0 {
      var init := history[..|history| - 1];
      NoWritesFor(init, c);
      forall k: nat | k <= |history| ensures WritesFor(history[..k], c) == [] {
        if k < |history| {
          assert history[..k] == init[..k];
        } else {
          assert history[..k] == history && init == init[..|init|];
        }
      }
    }
  }

  lemma {:induction false} NoAnswersFor(history: seq<Event>, m: nat, c: nat)
    requires forall i :: 0 <= i < |history| && history[i].Wrote? ==> history[i].request.origin != Vendor(c)
    ensures AnswersFor(history, m, c) == []
  {
    if m > 0 && |history| >= 2 * m {
      NoAnswersFor(history, m - 1, c);
    }
  }

  lemma {:induction false} NoneQueuedFor(queue: seq<Request>, c: nat)
    requires forall i :: 0 <= i < |queue| ==> queue[i].origin != Vendor(c)
    ensures QueuedFor(queue, c) == []
  {
    if |queue| > 0 {
      NoneQueuedFor(queue[..|queue| - 1], c);
    }
  }

  lemma ConnectCloudClouds(ses: Session, c: nat)
    requires HistoryOk(ses) && QueueOk(ses) && CloudsOk(ses) && c !in ses.clouds
    ensures CloudsOk(ses.(clouds := ses.clouds[c := Cloud(true, [], [])], cloud := Some(c), cloudTask := Serving(c)))
  {
    hide HistoryOk, QueueOk, WritesFor, AnswersFor, QueuedFor;
    var ses' := ses.(clouds := ses.clouds[c := Cloud(true, [], [])], cloud := Some(c), cloudTask := Serving(c));
    NoLogsYet(ses, c);
    assert ses.history[..|ses.history|] == ses.history;
    forall d | d in ses'.clouds ensures CloudOk(ses', d) {
      if d != c {
        assert CloudOk(ses, d);
      }
    }
  }

  lemma ConnectCloudOk(ses: Session, c: nat)
    requires SessionOk(ses) && ses.phase.Running? && c !in ses.clouds
    ensures SessionOk(ses.(clouds := ses.clouds[c := Cloud(true, [], [])], cloud := Some(c), cloudTask := Serving(c)))
  {
    hide HistoryOk, WaitersOk, CloudsOk;
    var ses' := ses.(clouds := ses.clouds[c := Cloud(true, [], [])], cloud := Some(c), cloudTask := Serving(c));
    ConnectCloudClouds(ses, c);
    SameHistoryOk(ses, ses');
    SameWaitersOk(ses, ses');
  }

  // ----- Retirement and cleanup ------------------------------------------------------------------------------

  lemma RetireOk(ses: Session)
    requires SessionOk(ses)
    ensures SessionOk(Retire(ses))
  {
    hide HistoryOk, WaitersOk, CloudsOk, WorkerOk, QueueOk;
    var closed := CloseCurrentCloud(ses);
    if ses.cloud.Some? {
      CloseCloudOk(ses, ses.cloud.value);
    }
    FlagsOk(closed, Retire(ses));
  }

  lemma CancelTaskOk(ses: Session)
    requires SessionOk(ses)
    ensures SessionOk(CancelTask(ses))
  {
    hide HistoryOk, WaitersOk, CloudsOk, WorkerOk, QueueOk;
    FlagsOk(ses, CancelTask(ses));
  }

  lemma SweptWaiters(ses: Session)
    requires WaitersOk(ses)
    ensures WaitersOk(Swept(ses))
  {
    hide PurposeOk, Delivered, StatusValues;
    var ses' := Swept(ses);
    forall id | id in ses'.waiters ensures WaiterOk(ses', id) {
      assert WaiterOk(ses, id);
    }
  }

  lemma SweptOk(ses: Session)
    requires SessionOk(ses) && ses.phase.Running? && TasksDone(ses)
    ensures SessionOk(Swept(ses))
  {
    hide HistoryOk, WaitersOk, CloudsOk;
    var closed, ses' := CloseCurrentCloud(ses), Swept(ses);
    SameHistoryOk(ses, ses');
    SweptWaiters(ses);
    if ses.cloud.Some? {
      CloseCloudClouds(ses, ses.cloud.value);
    }
    SameCloudsOk(closed, ses');
  }
}
