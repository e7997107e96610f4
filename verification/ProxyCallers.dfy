/**
 What callers and the shared state may suffer from sessions that are over: who is left waiting,
 what a retired worker can still do, and that every running session can end.
 */
module ProxyCallers {
  import opened Base
  import opened Bits
  import opened Protocol
  import opened ProxyModel
  import opened ProxyInvariant
  import opened ProxySafety
  import opened ProxyProgress
  import opened ProxyState
  import opened ProxyBalance
  import opened ProxyTheorems

  // ----- Continuations ------------------------------------------------------------------------

  /** Steps that can be taken one after the other. */
  predicate Legal(px: Proxy, script: seq<Step>)
    decreases |script|
  {
    script == [] || (Enabled(px, script[0]) && Legal(Do(px, script[0]), script[1..]))
  }

  function After(px: Proxy, script: seq<Step>): Proxy
    requires Legal(px, script)
    decreases |script|
  {
    if script == [] then px else After(Do(px, script[0]), script[1..])
  }

  lemma FirstStep(px: Proxy, step: Step, rest: seq<Step>)
    requires Enabled(px, step) && Legal(Do(px, step), rest)
    ensures Legal(px, [step] + rest) && After(px, [step] + rest) == After(Do(px, step), rest)
  {
    hide Enabled, Do;
    assert ([step] + rest)[1..] == rest;
  }

  lemma OneStep(px: Proxy, step: Step)
    requires Enabled(px, step)
    ensures Legal(px, [step]) && After(px, [step]) == Do(px, step)
  {
    hide Enabled, Do;
    assert Legal(Do(px, step), []) && After(Do(px, step), []) == Do(px, step);
    FirstStep(px, step, []);
    assert [step] + [] == [step];
  }

  // ----- Callers left waiting ---------------------------------------------------------------------

  /** The session task is over: it ran its cleanup, or was cancelled before its first step. */
  predicate Over(ses: Session) {
    ses.phase.Cleaned? || ses.phase.Skipped?
  }

  ghost predicate Waits(px: Proxy, s: nat, id: nat) {
    Has(px, s) && id in px.sessions[s].waiters && px.sessions[s].waiters[id].future.Pending?
  }

  /** A session that has started stays started, until its cleanup. */
  ghost predicate Started(px: Proxy, s: nat) {
    Has(px, s) && (px.sessions[s].phase.Running? || px.sessions[s].phase.Cleaned?)
  }

  lemma StartedStays(px: Proxy, step: Step, s: nat)
    requires Inv(px) && Started(px, s) && Enabled(px, step)
    ensures Started(Do(px, step), s)
  {
    hide StateOk, TimesOk, Balanced, Apart, Do, Enabled, EventIsDue;
    EveryStepAdvances(px, step, s);
  }

  lemma CleanedLeavesNobody(px: Proxy, s: nat, id: nat)
    requires Inv(px) && Has(px, s) && px.sessions[s].phase.Cleaned?
    ensures !Waits(px, s, id)
  {
    hide StateOk, TimesOk, Balanced, Apart, PointersOk, PurposeOk, Delivered, HistoryOk, CloudsOk, QueueOk, WorkerOk;
    assert Good(px, px.sessions[s]);
    if id in px.sessions[s].waiters {
      assert WaiterOk(px.sessions[s], id);
    }
  }

  /** Once its task has taken its first step, a session that ends leaves no caller waiting. */
  lemma {:induction false} StartedSessionsStrandNobody(
    run: seq<Proxy>, steps: seq<Step>, i: nat, n: nat, s: nat, id: nat)
    requires IsRun(run, steps) && i <= n < |run| && Has(run[i], s) && run[i].sessions[s].phase.Running?
    requires Has(run[n], s) && Over(run[n].sessions[s])
    ensures !Waits(run[n], s, id)
  {
    hide IsRun, Inv;
    RunGrows(run, steps, i, n, s);
    RunInv(run, steps, n);
    CleanedLeavesNobody(run[n], s, id);
  }

  /** Some continuation of a call ends its session and leaves the caller waiting. */
  ghost predicate CanStrand(px: Proxy, purpose: Purpose) {
    exists script :: Strands(px, purpose, script)
  }

  ghost predicate Strands(px: Proxy, purpose: Purpose, script: seq<Step>) {
    && px.session.Some? && script != [] && script[0] == StepCall(purpose) && Legal(px, script)
    && var last := After(px, script);
       Waits(last, px.session.value, px.nextId) && Over(last.sessions[px.session.value])
  }

  lemma {:induction false} StartedAlong(px: Proxy, script: seq<Step>, s: nat)
    requires Inv(px) && Started(px, s) && Legal(px, script)
    ensures Inv(After(px, script)) && Started(After(px, script), s)
    decreases |script|
  {
    hide Inv, Started, Enabled, Do;
    if script != [] {
      StepKeepsInv(px, script[0]);
      StartedStays(px, script[0], s);
      StartedAlong(Do(px, script[0]), script[1..], s);
    }
  }

  lemma RetireKeeps(ses: Session)
    ensures var ses' := Retire(ses);
            ses'.phase == ses.phase && ses'.waiters == ses.waiters && ses'.cancelled && !ses'.alive
  {
    hide CloseCloud;
    if ses.cloud.Some? {
      CloseFields(ses, ses.cloud.value);
    }
  }

  /** Called too early, replaced, and skipped. */
  lemma ReplacedTooEarly(px: Proxy, purpose: Purpose)
    requires Enabled(px, StepCall(purpose)) && !Full(px.limit, px.sessions[px.session.value].queue)
    requires px.sessions[px.session.value].phase.Created?
    ensures Strands(px, purpose, [StepCall(purpose)] + ([StepAccept] + [StepSkip(px.session.value)]))
  {
    hide RequestFrame, Retire, Legal, After;
    var s := px.session.value;
    var called := Do(px, StepCall(purpose));
    RetireKeeps(called.sessions[s]);
    var replaced := Do(called, StepAccept);
    OneStep(replaced, StepSkip(s));
    FirstStep(called, StepAccept, [StepSkip(s)]);
    FirstStep(px, StepCall(purpose), [StepAccept] + [StepSkip(s)]);
  }

  lemma CalledTooLate(px: Proxy, purpose: Purpose)
    requires Enabled(px, StepCall(purpose)) && !Full(px.limit, px.sessions[px.session.value].queue)
    requires px.sessions[px.session.value].phase.Skipped?
    ensures Strands(px, purpose, [StepCall(purpose)])
  {
    hide RequestFrame, Legal, After;
    OneStep(px, StepCall(purpose));
  }

  /**
   A call whose request is queued can end up waiting for ever if and only if the session's task
   is not running when it is made.
   */
  lemma CallersAreStrandedExactly(run: seq<Proxy>, steps: seq<Step>, n: nat, purpose: Purpose)
    requires IsRun(run, steps) && n < |run| && Enabled(run[n], StepCall(purpose))
    requires !Full(run[n].limit, run[n].sessions[run[n].session.value].queue)
    ensures CanStrand(run[n], purpose) <==> !run[n].sessions[run[n].session.value].phase.Running?
  {
    var px := run[n];
    var s := px.session.value;
    RunInv(run, steps, n);
    AliveIsNotCleaned(px, s);
    hide Inv, IsRun, CanStrand, Strands, Do;
    if px.sessions[s].phase.Created? {
      ReplacedTooEarly(px, purpose);
      StrandsOnce(px, purpose, [StepCall(purpose)] + ([StepAccept] + [StepSkip(s)]));
    } else if px.sessions[s].phase.Skipped? {
      CalledTooLate(px, purpose);
      StrandsOnce(px, purpose, [StepCall(purpose)]);
    } else {
      RunningCannotStrand(px, purpose);
    }
  }

  lemma StrandsOnce(px: Proxy, purpose: Purpose, script: seq<Step>)
    requires Strands(px, purpose, script)
    ensures CanStrand(px, purpose)
  {
    hide Strands;
  }

  lemma RunningCannotStrand(px: Proxy, purpose: Purpose)
    requires Inv(px) && px.session.Some? && Has(px, px.session.value)
    requires px.sessions[px.session.value].phase.Running?
    ensures !CanStrand(px, purpose)
  {
    hide Inv, Strands;
    forall script ensures !Strands(px, purpose, script) {
      RunningNeverStrands(px, purpose, script);
    }
  }

  lemma RunningNeverStrands(px: Proxy, purpose: Purpose, script: seq<Step>)
    requires Inv(px) && px.session.Some? && Has(px, px.session.value)
    requires px.sessions[px.session.value].phase.Running?
    ensures !Strands(px, purpose, script)
  {
    hide Inv, Legal, After, Over, Waits;
    if Legal(px, script) {
      StartedAlong(px, script, px.session.value);
      StartedIsNotStranded(After(px, script), px.session.value, px.nextId);
    }
  }

  lemma AliveIsNotCleaned(px: Proxy, s: nat)
    requires Inv(px) && Has(px, s) && IsCurrent(px, s)
    ensures !px.sessions[s].phase.Cleaned?
  {
    hide StateOk, TimesOk, Balanced, Apart, PointersOk, HistoryOk, CloudsOk, QueueOk, WorkerOk, WaitersOk;
    assert Good(px, px.sessions[s]);
  }

  lemma StartedIsNotStranded(px: Proxy, s: nat, id: nat)
    requires Inv(px) && Started(px, s)
    ensures !(Waits(px, s, id) && Over(px.sessions[s]))
  {
    hide Inv, Waits;
    if px.sessions[s].phase.Cleaned? {
      CleanedLeavesNobody(px, s, id);
    }
  }

  /** Nothing but the caller's own cancellation ever ends such a wait. */
  lemma StrandedStays(px: Proxy, step: Step, s: nat, id: nat)
    requires Inv(px) && Enabled(px, step) && Waits(px, s, id) && px.sessions[s].phase.Skipped?
    requires step != StepCancelWaiter(s, id)
    ensures Waits(Do(px, step), s, id) && Do(px, step).sessions[s].phase.Skipped?
  {
    WaiterIsNotNew(px, s, id);
    hide SessionsOk, StateOk, TimesOk, Balanced, Apart;
    if Subject(px, step) == None {
      hide Do, Enabled, PointersOk;
      ListenerLeavesWaiters(px, step, s);
    } else if Subject(px, step) != Some(s) {
      hide Do, Enabled;
      StepsTouchOneSession(px, step);
    } else {
      hide Do, Enabled;
      SkippedLeavesWaiter(px, step, s, id);
    }
  }

  lemma ListenerLeavesWaiters(px: Proxy, step: Step, s: nat)
    requires Enabled(px, step) && Subject(px, step) == None && Has(px, s)
    ensures Has(Do(px, step), s) && Do(px, step).sessions[s].waiters == px.sessions[s].waiters
    ensures Do(px, step).sessions[s].phase == px.sessions[s].phase
  {
    hide Retire;
    RetireKeeps(px.sessions[s]);
  }

  lemma SkippedLeavesWaiter(px: Proxy, step: Step, s: nat, id: nat)
    requires Enabled(px, step) && Subject(px, step) == Some(s) && Waits(px, s, id) && id != px.nextId
    requires px.sessions[s].phase.Skipped? && step != StepCancelWaiter(s, id)
    ensures Waits(Do(px, step), s, id) && Do(px, step).sessions[s].phase.Skipped?
  {
    hide RequestFrame, Verdict, Done;
    assert step.StepCall? || step.StepCancelWaiter? || step.StepResume?;
  }

  lemma WaiterIsNotNew(px: Proxy, s: nat, id: nat)
    requires Inv(px) && Has(px, s) && id in px.sessions[s].waiters
    ensures id != px.nextId
  {
    hide StateOk, TimesOk, Balanced, Apart, PointersOk, SessionOk;
    NewIdIsNew(px, s);
  }

  lemma {:induction false} StrandedForEver(run: seq<Proxy>, steps: seq<Step>, i: nat, j: nat, s: nat, id: nat)
    requires IsRun(run, steps) && i <= j < |run| && Waits(run[i], s, id) && run[i].sessions[s].phase.Skipped?
    requires forall k :: i <= k < j ==> steps[k] != StepCancelWaiter(s, id)
    ensures Waits(run[j], s, id) && run[j].sessions[s].phase.Skipped?
    decreases j
  {
    hide Inv, Enabled, Do, Waits;
    if i < j {
      StrandedForEver(run, steps, i, j - 1, s, id);
      RunInv(run, steps, j - 1);
      StrandedStays(run[j - 1], steps[j - 1], s, id);
    }
  }

  // ----- The shared state ----------------------------------------------------------------------------

  /** The dequeued request is a command that somebody still wants. */
  predicate BlankingRequest(ses: Session, r: Request) {
    && r.frame.ValveCommand().Some?
    && (r.origin.Local? ==> !(r.id in ses.waiters && ses.waiters[r.id].future.Cancelled?))
    && (r.origin.Vendor? ==> Connected(ses, r.origin.cloud))
  }

  /**
   A step of a session that is no longer the proxy's changes the shared state if and only if its
   worker dequeues a wanted valve command while a position is visible; and then it blanks that.
   */
  lemma RetiredBlankExactly(px: Proxy, step: Step, s: nat)
    requires Enabled(px, step) && Subject(px, step) == Some(s) && Has(px, s) && px.session != Some(s)
    ensures Do(px, step).state != px.state <==>
              && step.StepDequeue? && px.state.valve.Some?
              && BlankingRequest(px.sessions[s], px.sessions[s].queue[0])
    ensures Do(px, step).state != px.state ==> Do(px, step).state == px.state.(valve := None)
  {
    hide Frame.ValveCommand;
    if step.StepDequeue? {
      RetiredDequeue(px, s);
    } else {
      hide Do, Enabled, Connected;
      RetiredOtherwise(px, step, s);
    }
  }

  lemma RetiredDequeue(px: Proxy, s: nat)
    requires Enabled(px, StepDequeue(s)) && px.session != Some(s)
    ensures var r := px.sessions[s].queue[0];
            Dequeue(px, s).state ==
              if BlankingRequest(px.sessions[s], r) then px.state.(valve := None) else px.state
  {
    hide Frame.ValveCommand, FailWorker, WriteFrame;
  }

  lemma RetiredOtherwise(px: Proxy, step: Step, s: nat)
    requires Enabled(px, step) && Subject(px, step) == Some(s) && Has(px, s) && px.session != Some(s)
    requires !step.StepDequeue?
    ensures Do(px, step).state == px.state
  {
    hide FailWorker, RequestFrame, Verdict, Finish, ReadStatus;
  }

  // A retired worker does blank a visible position: the run below.

  const COMMAND := Request(0, CommandFrame(0x81, Open), Local)
  const READ := Request(1, ReadStatus(0x81), Local)

  /** A status report with the valve open. */
  function OpenReport(): Frame {
    var payload: seq<byte> := [0, 0, 0, 0, 0, 0, 0, 0, 0, 0, 0, 0, 0, 0xC7, 0, 0];
    Frame(0x81, 1, 0x31, 0x20, 16, payload, [])
  }

  /** Session 0 has a command queued when it is replaced. */
  function Before(): Session {
    NewSession().(phase := Running, worker := Dequeuing, tag := 0x81, queue := [COMMAND],
                  requests := NewSession().requests[0 := COMMAND],
                  waiters := NewSession().waiters[0 := Waiter(SetValve(Open), Pending, None, 0)])
  }

  function Replaced(): Proxy {
    Initial(64, 0).(sessions := [Retire(Before()), NewSession()], session := Some(1), nextId := 1)
  }

  /** Session 1 is about to read the status, and has the read on its way. */
  function Polling(): Session {
    NewSession().(phase := Running, worker := Dequeuing, tag := 0x81, queue := [READ],
                  requests := NewSession().requests[1 := READ],
                  waiters := NewSession().waiters[1 := Waiter(Poll, Pending, None, 0)])
  }

  function Reading(): Session {
    Polling().(queue := [], worker := Exchanging(false), active := Some(READ),
               current := Some(InFlight(READ.frame, Pending)), history := [Wrote(READ, READ.frame, false)])
  }

  lemma CommandIsQueued()
    ensures var script := [StepAccept] + ([StepBegin(0)] + ([StepCheck(0)] + ([StepCall(SetValve(Open))] + [StepAccept])));
            Legal(Initial(64, 0), script) && After(Initial(64, 0), script) == Replaced()
  {
    hide CommandFrame, Legal, After;
    var p0 := Initial(64, 0);
    var p1 := Do(p0, StepAccept);
    assert p1.sessions == [NewSession()];
    var p2 := Do(p1, StepBegin(0));
    var p3 := Do(p2, StepCheck(0));
    assert p3.sessions == [NewSession().(phase := Running, worker := Dequeuing)];
    var p4 := Do(p3, StepCall(SetValve(Open)));
    assert p4.sessions[0].queue == [COMMAND] && p4.sessions[0].tag == 0x81;
    assert p4.sessions[0].requests == Before().requests && p4.sessions[0].waiters == Before().waiters;
    assert p4.sessions == [Before()];
    OneStep(p4, StepAccept);
    FirstStep(p3, StepCall(SetValve(Open)), [StepAccept]);
    FirstStep(p2, StepCheck(0), [StepCall(SetValve(Open))] + [StepAccept]);
    FirstStep(p1, StepBegin(0), [StepCheck(0)] + ([StepCall(SetValve(Open))] + [StepAccept]));
    FirstStep(p0, StepAccept, [StepBegin(0)] + ([StepCheck(0)] + ([StepCall(SetValve(Open))] + [StepAccept])));
    assert Do(p4, StepAccept).sessions == Replaced().sessions;
  }

  lemma StatusIsRead()
    ensures var script := [StepBegin(1)] + ([StepCheck(1)] + ([StepPoll(1, false)] + [StepDequeue(1)]));
            && Legal(Replaced(), script)
            && After(Replaced(), script) == Replaced().(sessions := [Retire(Before()), Reading()], nextId := 2)
  {
    hide ReadStatus, Legal, After, Retire, Dequeue, Before;
    var p0 := Replaced();
    var p1 := Do(p0, StepBegin(1));
    var p2 := Do(p1, StepCheck(1));
    assert p2.sessions == [Retire(Before()), NewSession().(phase := Running, worker := Dequeuing)];
    var p3 := Do(p2, StepPoll(1, false));
    assert p3.sessions[1].queue == [READ] && p3.sessions[1].tag == 0x81;
    assert p3.sessions[1].requests == Polling().requests && p3.sessions[1].waiters == Polling().waiters;
    assert p3.sessions == [Retire(Before()), Polling()];
    ReadIsTaken(p3);
    OneStep(p3, StepDequeue(1));
    FirstStep(p2, StepPoll(1, false), [StepDequeue(1)]);
    FirstStep(p1, StepCheck(1), [StepPoll(1, false)] + [StepDequeue(1)]);
    FirstStep(p0, StepBegin(1), [StepCheck(1)] + ([StepPoll(1, false)] + [StepDequeue(1)]));
  }

  lemma ReadIsTaken(px: Proxy)
    requires |px.sessions| == 2 && px.sessions[1] == Polling() && IsCurrent(px, 1)
    ensures Dequeue(px, 1) == With(px, 1, Reading())
  {
    ReadIsNoCommand();
    hide Frame.ValveCommand, ReadStatus, FailWorker, Connected;
    var ses := Polling();
    assert ses.queue[1..] == [] && ses.queue[0] == READ;
    assert READ.id in ses.waiters && ses.waiters[READ.id].future.Pending?;
    assert ses.history + [Wrote(READ, READ.frame, false)] == [Wrote(READ, READ.frame, false)];
  }

  lemma ReadIsNoCommand()
    ensures READ.frame.ValveCommand() == None && COMMAND.frame.ValveCommand().Some?
  {
    CommandFrameCommands(0x81, Open);
  }

  lemma OpenReportMatches()
    ensures OpenReport().Matches(READ.frame)
    ensures StatusValues(OpenReport()) == Some(Values(Some(Open), None))
  {
  }

  lemma PositionIsBlanked(px: Proxy)
    requires px == Replaced().(sessions := [Retire(Before()), Reading()], nextId := 2)
    ensures var script := [StepReceive(1, OpenReport())] + [StepTakeAnswer(1)];
            && Legal(px, script)
            && var shown := After(px, script);
               && shown.state.valve == Some(Open) && shown.session == Some(1) && Has(shown, 0) && Retired(shown, 0)
               && Enabled(shown, StepDequeue(0)) && Do(shown, StepDequeue(0)).state.valve == None
  {
    ReadIsNoCommand();
    OpenReportMatches();
    BeforeRetired();
    hide ReadStatus, CommandFrame, Legal, After, Retire, Frame.ValveCommand, Frame.Matches, StatusValues, OpenReport;
    var p1 := Do(px, StepReceive(1, OpenReport()));
    assert p1.sessions[1] == Reading().(current := Some(InFlight(READ.frame, Resolved(OpenReport()))),
                                        history := Reading().history + [Answered(OpenReport())]);
    OneStep(p1, StepTakeAnswer(1));
    FirstStep(px, StepReceive(1, OpenReport()), [StepTakeAnswer(1)]);
    var p2 := Do(p1, StepTakeAnswer(1));
    assert p2.sessions[0] == Retire(Before());
  }

  /** A run at whose end the worker of a replaced session blanks the position of its successor. */
  lemma RetiredWorkerBlanks() returns (script: seq<Step>)
    ensures Legal(Initial(64, 0), script)
    ensures var px := After(Initial(64, 0), script);
            && px.state.valve == Some(Open) && px.session == Some(1) && Has(px, 0) && Retired(px, 0)
            && Enabled(px, StepDequeue(0)) && Do(px, StepDequeue(0)).state.valve == None
  {
    var queued := [StepAccept] + ([StepBegin(0)] + ([StepCheck(0)] + ([StepCall(SetValve(Open))] + [StepAccept])));
    var read := [StepBegin(1)] + ([StepCheck(1)] + ([StepPoll(1, false)] + [StepDequeue(1)]));
    var shown := [StepReceive(1, OpenReport())] + [StepTakeAnswer(1)];
    var px := Replaced().(sessions := [Retire(Before()), Reading()], nextId := 2);
    hide Legal, After, Do, Enabled, Replaced, Before, Reading, OpenReport, Initial;
    CommandIsQueued();
    StatusIsRead();
    PositionIsBlanked(px);
    Concatenated(Replaced(), read, shown);
    Concatenated(Initial(64, 0), queued, read + shown);
    script := queued + (read + shown);
  }

  lemma {:induction false} Concatenated(px: Proxy, a: seq<Step>, b: seq<Step>)
    requires Legal(px, a) && Legal(After(px, a), b)
    ensures Legal(px, a + b) && After(px, a + b) == After(After(px, a), b)
    decreases |a|
  {
    hide Enabled, Do;
    if a == [] {
      assert a + b == b;
    } else {
      assert (a + b)[1..] == a[1..] + b;
      Concatenated(Do(px, a[0]), a[1..], b);
    }
  }

  lemma BeforeRetired()
    ensures Retire(Before()) == Before().(alive := false, cancelled := true)
  {
  }

  // ----- Sessions can end --------------------------------------------------------------------------------

  /** How many steps the tasks of a session need to end, whatever the world does. */
  function ToGo(ses: Session): nat {
    (if ses.worker.WorkerDone? then 0 else 1) + (if ses.readerDone then 0 else 1) + (if ses.pollDone then 0 else 1)
    + (if ses.cloudTask.CloudDone? then 0 else if ses.cloudTask.Serving? then 2 else 1)
  }

  function Ending(s: nat, ses: Session): Step {
    if !ses.worker.WorkerDone? then StepWorkerFails(s)
    else if !ses.readerDone then StepReaderEnds(s)
    else if !ses.pollDone then StepPollEnds(s)
    else if ses.cloudTask.Serving? then StepDropCloud(s)
    else if !ses.cloudTask.CloudDone? then StepCloudEnds(s)
    else StepCleanup(s, None)
  }

  /** A step in which a task of session `s` is cancelled or fails, or the cleanup. */
  predicate Ends(step: Step, s: nat) {
    match step
    case StepWorkerFails(t) => t == s
    case StepReaderEnds(t) => t == s
    case StepPollEnds(t) => t == s
    case StepDropCloud(t) => t == s
    case StepCloudEnds(t) => t == s
    case StepCleanup(t, _) => t == s
    case _ => false
  }

  lemma EndingProgresses(px: Proxy, s: nat)
    requires Has(px, s) && px.sessions[s].phase.Running?
    ensures var ses, step := px.sessions[s], Ending(s, px.sessions[s]);
            && Enabled(px, step) && Ends(step, s)
            && var px' := Do(px, step);
               && Has(px', s)
               && if step.StepCleanup? then px'.sessions[s].phase.Cleaned?
                  else px'.sessions[s].phase.Running? && ToGo(px'.sessions[s]) < ToGo(ses)
  {
    hide FailWorker, DropCloud, Cleanup, ToGo;
    var ses := px.sessions[s];
    FlagsAreProgress(ses);
    if !ses.worker.WorkerDone? {
      FailingIsProgress(ses);
    } else if ses.readerDone && ses.pollDone && ses.cloudTask.Serving? {
      DroppingIsProgress(ses);
    } else if TasksDone(ses) {
      CleanupEnds(px, s);
    }
  }

  lemma FailingIsProgress(ses: Session)
    requires !ses.worker.WorkerDone?
    ensures FailWorker(ses).phase == ses.phase && ToGo(FailWorker(ses)) < ToGo(ses)
  {
    hide FailWorker;
    FailFields(ses);
  }

  lemma DroppingIsProgress(ses: Session)
    requires ses.cloudTask.Serving?
    ensures DropCloud(ses).phase == ses.phase && ToGo(DropCloud(ses)) < ToGo(ses)
  {
    hide CloseCloud;
    CloseFields(ses, ses.cloudTask.cloud);
  }

  lemma FlagsAreProgress(ses: Session)
    ensures !ses.readerDone ==> ToGo(ses.(readerDone := true)) < ToGo(ses)
    ensures !ses.pollDone ==> ToGo(ses.(pollDone := true)) < ToGo(ses)
    ensures !ses.cloudTask.CloudDone? ==> ToGo(ses.(cloudTask := CloudDone)) < ToGo(ses)
  {
  }

  lemma CleanupEnds(px: Proxy, s: nat)
    requires Has(px, s)
    ensures Has(Cleanup(px, s, None), s) && Cleanup(px, s, None).sessions[s].phase.Cleaned?
  {
    hide RejectAll, Leftover, VendorCount, CloseCurrentCloud;
  }

  /**
   Whatever state a running session is in, a session whose reader has ended included, its own
   steps bring it to its cleanup: nothing outside the session is needed for it to end.
   */
  lemma {:induction false} SessionsCanEnd(px: Proxy, s: nat) returns (script: seq<Step>)
    requires Has(px, s) && px.sessions[s].phase.Running?
    ensures (forall i :: 0 <= i < |script| ==> Ends(script[i], s)) && |script| <= ToGo(px.sessions[s]) + 1
    ensures Legal(px, script) && Has(After(px, script), s) && After(px, script).sessions[s].phase.Cleaned?
    decreases ToGo(px.sessions[s])
  {
    hide Enabled, Do, ToGo, Ending, Ends;
    var step := Ending(s, px.sessions[s]);
    EndingProgresses(px, s);
    if step.StepCleanup? {
      OneStep(px, step);
      script := [step];
    } else {
      var rest := SessionsCanEnd(Do(px, step), s);
      FirstStep(px, step, rest);
      script := [step] + rest;
    }
  }
}
