/**
 State and availability topics. The program publishes them before it registers them, so what
 holds of discovery topics cannot hold of them. A report is safe exactly when its topic is
 already covered on disk, in memory, and will still be once a removal under way is over.
 */
module RegistryReports {
  import opened Base
  import opened RegistryModel
  import opened RegistryTheorems

  /** The broker has received the empty message for `t`, and the registry is about to forget `t`. */
  ghost predicate BeingForgotten(w: World, t: Topic) {
    w.lock.Publishing? && w.lock.applied && w.lock.todo != [] && w.lock.todo[0] == t
  }

  /** What the publisher would have to know before it sends a report on topic `t`. */
  ghost predicate ReportSafe(w: World, t: Topic) {
    && Covered(w.disk, t)
    && (w.memory.Some? ==> Covered(w.memory.value, t))
    && (w.memory.Some? && BeingForgotten(w, t) ==> Owned(w.memory.value.entries, t))
  }

  ghost predicate Kept(w: World, t: Topic) {
    t in w.reports ==> ReportSafe(w, t)
  }

  lemma StepKeepsReports(w: World, step: Step, t: Topic)
    requires Enabled(w, step) && Inv(w) && Kept(w, t)
    requires step == StepReport(t) ==> ReportSafe(w, t)
    ensures Kept(Do(w, step), t)
  {
    match step
    case StepBeginSet(e, topics, _) => RegisterCovers(w.memory.value, e, topics, t);
    case StepLoad(enabled) => AdoptCovers(w.disk, enabled, t);
    case _ => hide Owned;
  }

  // ----- Safe reports are never lost -----------------------------------------------------------

  ghost predicate ReportsAreSafe(run: seq<World>, steps: seq<Step>) {
    forall i, t :: 0 <= i < |steps| && i < |run| && steps[i] == StepReport(t) ==> ReportSafe(run[i], t)
  }

  lemma {:induction false} SafeReportsStay(run: seq<World>, steps: seq<Step>, n: nat, t: Topic)
    requires IsRun(run, steps) && n < |run| && ReportsAreSafe(run, steps)
    ensures Kept(run[n], t)
  {
    hide Inv, Kept, ReportSafe, Enabled, Do;
    if n > 0 {
      SafeReportsStay(run, steps, n - 1, t);
      RunInv(run, steps, n - 1);
      StepKeepsReports(run[n - 1], steps[n - 1], t);
    } else {
      NothingReported(t);
    }
  }

  lemma NothingReported(t: Topic)
    ensures Kept(FRESH, t)
  {
  }

  /** If every report is sent when it is safe, all retained reports are on disk at every crash point. */
  lemma SafeReportsAreCovered(run: seq<World>, steps: seq<Step>, n: nat, t: Topic)
    requires IsRun(run, steps) && n < |run| && ReportsAreSafe(run, steps) && t in run[n].reports
    ensures Covered(run[n].disk, t)
  {
    hide IsRun;
    SafeReportsStay(run, steps, n, t);
  }

  // ----- Unsafe ones can be -----------------------------------------------------------------------

  /** Until a removal is saved, memory covers whatever the disk covers. */
  ghost predicate MemoryKnows(w: World) {
    w.memory.Some? && !w.lock.SavingRest? ==> forall t :: Covered(w.disk, t) ==> Covered(w.memory.value, t)
  }

  lemma StepKeepsMemoryKnows(w: World, step: Step)
    requires Inv(w) && MemoryKnows(w) && Enabled(w, step)
    ensures MemoryKnows(Do(w, step))
  {
    var w' := Do(w, step);
    match step
    case StepBeginSet(e, topics, _) =>
      forall t | Covered(w.disk, t) ensures Covered(Register(w.memory.value, e, topics), t) {
        RegisterCovers(w.memory.value, e, topics, t);
      }
    case StepLoad(enabled) =>
      forall t | Covered(w.disk, t) ensures Covered(Adopt(w.disk, enabled), t) {
        AdoptCovers(w.disk, enabled, t);
      }
    case _ => hide Covered;
  }

  lemma {:induction false} MemoryAlwaysKnows(run: seq<World>, steps: seq<Step>, n: nat)
    requires IsRun(run, steps) && n < |run|
    ensures MemoryKnows(run[n])
  {
    hide Inv, MemoryKnows, Enabled, Do;
    if n > 0 {
      MemoryAlwaysKnows(run, steps, n - 1);
      RunInv(run, steps, n - 1);
      StepKeepsMemoryKnows(run[n - 1], steps[n - 1]);
    } else {
      FreshKnows();
    }
  }

  lemma FreshKnows()
    ensures MemoryKnows(FRESH)
  {
  }

  /** How an unsafe report is lost: at once, with the save under way, or with the removal under way. */
  function Losing(w: World, t: Topic, onDisk: bool): seq<Step> {
    if !onDisk then [StepCrash]
    else if w.lock.SavingRest? then [StepSaved] + [StepCrash]
    else [StepPublished(true)] + ([StepSaved] + [StepCrash])
  }

  lemma UnsafeReportIsLost(w: World, t: Topic, onDisk: bool)
    requires Inv(w) && MemoryKnows(w) && !ReportSafe(w, t) && onDisk == Covered(w.disk, t)
    ensures var reported := Do(w, StepReport(t));
            && Legal(reported, Losing(w, t, onDisk))
            && var lost := After(reported, Losing(w, t, onDisk));
               lost.memory.None? && t in lost.reports && !Covered(lost.disk, t)
  {
    hide Sorted;
    var reported := Do(w, StepReport(t));
    if !onDisk {
      Crashes(reported);
    } else if w.lock.SavingRest? {
      var saved := Do(reported, StepSaved);
      Crashes(saved);
      FirstStep(reported, StepSaved, [StepCrash]);
    } else {
      assert BeingForgotten(w, t) && !Owned(w.memory.value.entries, t);
      var forgotten := Do(reported, StepPublished(true));
      var saved := Do(forgotten, StepSaved);
      Crashes(saved);
      FirstStep(forgotten, StepSaved, [StepCrash]);
      FirstStep(reported, StepPublished(true), [StepSaved] + [StepCrash]);
    }
  }

  lemma Crashes(w: World)
    ensures Legal(w, [StepCrash]) && After(w, [StepCrash]) == Do(w, StepCrash)
  {
    Nothing(Do(w, StepCrash));
    FirstStep(w, StepCrash, []);
    assert [StepCrash] + [] == [StepCrash];
  }

  // ----- The exact condition ------------------------------------------------------------------------

  ghost predicate Silent(script: seq<Step>, t: Topic) {
    forall i :: 0 <= i < |script| ==> script[i] != StepReport(t)
  }

  /** Whatever happens, crashes included, `t` is on disk as long as it is retained and not sent again. */
  ghost predicate NeverLost(w: World, t: Topic) {
    forall script :: Legal(w, script) && Silent(script, t) && t in After(w, script).reports ==>
      Covered(After(w, script).disk, t)
  }

  lemma {:induction false} KeptAlong(w: World, script: seq<Step>, t: Topic)
    requires Inv(w) && Kept(w, t) && Legal(w, script) && Silent(script, t)
    ensures Kept(After(w, script), t)
    decreases |script|
  {
    hide Inv, Kept, ReportSafe, Enabled, Do;
    if script != [] {
      StepKeepsInv(w, script[0]);
      StepKeepsReports(w, script[0], t);
      KeptAlong(Do(w, script[0]), script[1..], t);
    }
  }

  /**
   In every reachable state: a report is never lost, whatever happens next, if and only if it
   is sent when it is safe.
   */
  lemma ReportSafetyIsExact(run: seq<World>, steps: seq<Step>, n: nat, t: Topic)
    requires IsRun(run, steps) && n < |run|
    ensures NeverLost(Do(run[n], StepReport(t)), t) <==> ReportSafe(run[n], t)
  {
    RunInv(run, steps, n);
    MemoryAlwaysKnows(run, steps, n);
    var w := run[n];
    var reported := Do(w, StepReport(t));
    hide IsRun, Inv, MemoryKnows, ReportSafe, Covered, Legal, After;
    if ReportSafe(w, t) {
      StepKeepsInv(w, StepReport(t));
      SafeStaysSafe(w, t);
      forall script | Legal(reported, script) && Silent(script, t) && t in After(reported, script).reports
        ensures Covered(After(reported, script).disk, t)
      {
        KeptAlong(reported, script, t);
        SafeIsCovered(After(reported, script), t);
      }
    } else {
      var script := Losing(w, t, Covered(w.disk, t));
      UnsafeReportIsLost(w, t, Covered(w.disk, t));
      assert Silent(script, t);
    }
  }

  lemma SafeStaysSafe(w: World, t: Topic)
    requires ReportSafe(w, t)
    ensures Kept(Do(w, StepReport(t)), t)
  {
  }

  lemma SafeIsCovered(w: World, t: Topic)
    requires ReportSafe(w, t)
    ensures Covered(w.disk, t)
  {
  }

  /** A publisher that had registered its topics first, as it does for discovery, would be safe. */
  lemma RegisteredReportsAreSafe(run: seq<World>, steps: seq<Step>, n: nat, e: EntryId, t: Topic)
    requires IsRun(run, steps) && n < |run| && run[n].memory.Some?
    requires t in ListOf(run[n].memory.value.entries, e)
    requires !(run[n].lock.SavingEntry? && run[n].lock.entry == e)
    ensures ReportSafe(run[n], t)
  {
    RunInv(run, steps, n);
    OwnedByList(run[n].memory.value.entries, e, t);
    OwnedByList(run[n].disk.entries, e, t);
  }
}
