/**
 What loading and registering leave exactly, in which order topics are removed, who may announce
 what, and what the broker retains, read off the steps.
 */
module RegistryLaws {
  import opened Base
  import opened RegistryModel
  import opened RegistryTheorems

  /** Loading keeps the lists of the enabled entries, and the topics of all others become pending. */
  lemma AdoptsExactly(d: Data, enabled: set<EntryId>, e: EntryId, t: Topic)
    ensures ListOf(Adopt(d, enabled).entries, e) == if e in enabled then ListOf(d.entries, e) else []
    ensures t in Adopt(d, enabled).pending <==>
              t in d.pending || exists f :: f !in enabled && f in d.entries && t in d.entries[f]
  {
  }

  /**
   Registering replaces the entry's list and no other; pending are the topics that were pending or
   listed before, without those listed now. An empty list removes the entry.
   */
  lemma RegistersExactly(d: Data, e: EntryId, topics: seq<Topic>, f: EntryId, t: Topic)
    ensures ListOf(Register(d, e, topics).entries, f) == if f == e then topics else ListOf(d.entries, f)
    ensures t in Register(d, e, topics).pending <==> t !in topics && (t in d.pending || t in ListOf(d.entries, e))
    ensures e in Register(d, e, topics).entries <==> topics != []
  {
  }

  /** The first `n` characters agree, and then `a` ends or has the smaller character. */
  ghost predicate BeforeAt(a: Topic, b: Topic, n: nat) {
    && n <= |a| && n <= |b| && a[..n] == b[..n]
    && (n == |a| || (n < |b| && a[n] < b[n]))
  }

  /** Removal is in the lexicographic order of characters. */
  lemma {:induction false} LexicographicOrder(a: Topic, b: Topic)
    ensures Le(a, b) <==> exists n: nat :: BeforeAt(a, b, n)
  {
    if a == "" {
      assert BeforeAt(a, b, 0);
    } else if b != "" && a[0] == b[0] {
      LexicographicOrder(a[1..], b[1..]);
      if Le(a, b) {
        var n: nat :| BeforeAt(a[1..], b[1..], n);
        assert a[..n + 1] == [a[0]] + a[1..][..n] && b[..n + 1] == [b[0]] + b[1..][..n];
        assert BeforeAt(a, b, n + 1);
      }
      if n: nat :| BeforeAt(a, b, n) && n > 0 {
        assert a[1..][..n - 1] == a[..n][1..] && b[1..][..n - 1] == b[..n][1..];
        assert BeforeAt(a[1..], b[1..], n - 1);
      }
    } else if b != "" {
      if a[0] < b[0] { assert BeforeAt(a, b, 0); }
      if n: nat :| BeforeAt(a, b, n) {
        assert n > 0 ==> a[..n][0] == b[..n][0];
      }
    }
  }

  // ----- Who may announce ---------------------------------------------------------------------

  ghost predicate MayAnnounce(w: World, e: EntryId, t: Topic) {
    e in w.authority && t in w.authority[e]
  }

  /** The list of the entry is the one already registered. */
  ghost predicate Registered(w: World, e: EntryId, topics: seq<Topic>) {
    w.memory.Some? && ListOf(w.memory.value.entries, e) == topics
  }

  /**
   An entry's publisher may announce a discovery topic exactly once its registration is saved, or
   was in force already, until it is revoked, a new list is registered, or Home Assistant crashes.
   */
  lemma AuthorityExactly(w: World, step: Step, e: EntryId, t: Topic)
    requires Enabled(w, step)
    ensures MayAnnounce(w, e, t) <==> Enabled(w, StepAnnounce(e, t))
    ensures MayAnnounce(Do(w, step), e, t) <==>
              match step
              case StepCrash => false
              case StepBeginSet(f, topics, discovery) =>
                if f == e then Registered(w, e, topics) && t in discovery else MayAnnounce(w, e, t)
              case StepEndSet => if w.lock.entry == e then t in w.lock.discovery else MayAnnounce(w, e, t)
              case StepRevoke(f) => f != e && MayAnnounce(w, e, t)
              case _ => MayAnnounce(w, e, t)
  {
  }

  /**
   `set_topics` as a whole: memory and disk hold the new list, every discovery topic may be
   announced, and a list that is already in force is not written again.
   */
  lemma RegistrationTakesEffect(w: World, e: EntryId, topics: seq<Topic>, discovery: set<Topic>)
    requires Inv(w) && Enabled(w, StepBeginSet(e, topics, discovery))
    ensures var again := Registered(w, e, topics);
            var script := if again then [StepBeginSet(e, topics, discovery)] else [StepBeginSet(e, topics, discovery), StepEndSet];
            && Legal(w, script)
            && var w' := After(w, script);
               && w'.memory.Some? && w'.lock.Free?
               && ListOf(w'.memory.value.entries, e) == topics
               && (topics != [] || !again ==> ListOf(w'.disk.entries, e) == topics)
               && w'.memory == (if again then w.memory else Some(Register(w.memory.value, e, topics)))
               && w'.disk == (if again then w.disk else w'.memory.value)
               && forall t :: MayAnnounce(w', e, t) <==> t in discovery
  {
    var first := StepBeginSet(e, topics, discovery);
    var w1 := Do(w, first);
    if Registered(w, e, topics) {
      assert Legal(w1, [first][1..]) && After(w, [first]) == After(w1, [first][1..]);
    } else {
      assert [first, StepEndSet][1..] == [StepEndSet] && [StepEndSet][1..] == [];
      var w2 := Do(w1, StepEndSet);
      assert Legal(w2, []) && Legal(w1, [StepEndSet]);
      assert After(w, [first, StepEndSet]) == After(w1, [StepEndSet]) == After(w2, []) == w2;
    }
  }

  // ----- What is known, from the steps ----------------------------------------------------------------

  /** The step sends the empty message for `t`. */
  ghost predicate Clears(w: World, step: Step, t: Topic) {
    step.StepApply? && w.lock.Publishing? && w.lock.todo != [] && w.lock.todo[0] == t
  }

  ghost predicate Announces(step: Step, t: Topic) {
    step.StepAnnounce? && step.topic == t
  }

  /** The removal of `t` has returned. */
  ghost predicate Removes(w: World, step: Step, t: Topic) {
    step == StepPublished(true) && w.lock.Publishing? && w.lock.todo != [] && w.lock.todo[0] == t
  }

  /** A registration that lists `t` is saved. */
  ghost predicate Completes(w: World, step: Step, t: Topic) {
    step.StepEndSet? && w.memory.Some? && w.lock.SavingEntry? && t in ListOf(w.memory.value.entries, w.lock.entry)
  }

  /** What one step does to the topics retained and remembered. */
  lemma TopicsExactly(w: World, step: Step, t: Topic)
    requires Enabled(w, step)
    ensures var w' := Do(w, step);
            && (t in w'.configs <==> Announces(step, t) || (t in w.configs && !Clears(w, step, t)))
            && (t in w'.reports <==> step == StepReport(t) || (t in w.reports && !Clears(w, step, t)))
            && (t in w'.registered <==> Completes(w, step, t) || t in w.registered)
            && (t in w'.cleared <==> Removes(w, step, t) || (t in w.cleared && !Completes(w, step, t)))
  {
    hide Register, Adopt, Sorted;
  }

  ghost predicate AnnouncedSince(run: seq<World>, steps: seq<Step>, k: nat, n: nat, t: Topic) {
    && k < n <= |steps| && n <= |run| && Announces(steps[k], t)
    && forall i :: k < i < n ==> !Clears(run[i], steps[i], t)
  }

  ghost predicate ReportedSince(run: seq<World>, steps: seq<Step>, k: nat, n: nat, t: Topic) {
    && k < n <= |steps| && n <= |run| && steps[k] == StepReport(t)
    && forall i :: k < i < n ==> !Clears(run[i], steps[i], t)
  }

  ghost predicate RemovedSince(run: seq<World>, steps: seq<Step>, k: nat, n: nat, t: Topic) {
    && k < n <= |steps| && n <= |run| && Removes(run[k], steps[k], t)
    && forall i :: k < i < n ==> !Completes(run[i], steps[i], t)
  }

  ghost predicate CompletedAt(run: seq<World>, steps: seq<Step>, k: nat, n: nat, t: Topic) {
    k < n <= |steps| && n <= |run| && Completes(run[k], steps[k], t)
  }

  /** One more step, for each of the four. */
  lemma OneMore(run: seq<World>, steps: seq<Step>, n: nat, m: nat, t: Topic)
    requires m == n + 1 && n < |steps| && n < |run|
    ensures (exists k: nat :: AnnouncedSince(run, steps, k, m, t)) <==>
              Announces(steps[n], t) || ((exists k: nat :: AnnouncedSince(run, steps, k, n, t)) && !Clears(run[n], steps[n], t))
    ensures (exists k: nat :: ReportedSince(run, steps, k, m, t)) <==>
              steps[n] == StepReport(t)
              || ((exists k: nat :: ReportedSince(run, steps, k, n, t)) && !Clears(run[n], steps[n], t))
    ensures (exists k: nat :: RemovedSince(run, steps, k, m, t)) <==>
              Removes(run[n], steps[n], t)
              || ((exists k: nat :: RemovedSince(run, steps, k, n, t)) && !Completes(run[n], steps[n], t))
    ensures (exists k: nat :: CompletedAt(run, steps, k, m, t)) <==>
              Completes(run[n], steps[n], t) || exists k: nat :: CompletedAt(run, steps, k, n, t)
  {
    hide Clears, Announces, Removes, Completes;
    OneMoreMessage(run, steps, n, m, t);
    OneMoreEntry(run, steps, n, m, t);
    hide AnnouncedSince, ReportedSince, RemovedSince, CompletedAt;
  }

  lemma OneMoreMessage(run: seq<World>, steps: seq<Step>, n: nat, m: nat, t: Topic)
    requires m == n + 1 && n < |steps| && n < |run|
    ensures (exists k: nat :: AnnouncedSince(run, steps, k, m, t)) <==>
              Announces(steps[n], t) || ((exists k: nat :: AnnouncedSince(run, steps, k, n, t)) && !Clears(run[n], steps[n], t))
    ensures (exists k: nat :: ReportedSince(run, steps, k, m, t)) <==>
              steps[n] == StepReport(t)
              || ((exists k: nat :: ReportedSince(run, steps, k, n, t)) && !Clears(run[n], steps[n], t))
  {
    hide Clears, Announces;
    assert Announces(steps[n], t) ==> AnnouncedSince(run, steps, n, m, t);
    assert steps[n] == StepReport(t) ==> ReportedSince(run, steps, n, m, t);
    if k: nat :| AnnouncedSince(run, steps, k, n, t) && !Clears(run[n], steps[n], t) {
      assert AnnouncedSince(run, steps, k, m, t);
    }
    if k: nat :| AnnouncedSince(run, steps, k, m, t) && k < n {
      assert AnnouncedSince(run, steps, k, n, t);
    }
    if k: nat :| ReportedSince(run, steps, k, n, t) && !Clears(run[n], steps[n], t) {
      assert ReportedSince(run, steps, k, m, t);
    }
    if k: nat :| ReportedSince(run, steps, k, m, t) && k < n {
      assert ReportedSince(run, steps, k, n, t);
    }
  }

  lemma OneMoreEntry(run: seq<World>, steps: seq<Step>, n: nat, m: nat, t: Topic)
    requires m == n + 1 && n < |steps| && n < |run|
    ensures (exists k: nat :: RemovedSince(run, steps, k, m, t)) <==>
              Removes(run[n], steps[n], t)
              || ((exists k: nat :: RemovedSince(run, steps, k, n, t)) && !Completes(run[n], steps[n], t))
    ensures (exists k: nat :: CompletedAt(run, steps, k, m, t)) <==>
              Completes(run[n], steps[n], t) || exists k: nat :: CompletedAt(run, steps, k, n, t)
  {
    hide Removes, Completes;
    assert Removes(run[n], steps[n], t) ==> RemovedSince(run, steps, n, m, t);
    assert Completes(run[n], steps[n], t) ==> CompletedAt(run, steps, n, m, t);
    if k: nat :| RemovedSince(run, steps, k, n, t) && !Completes(run[n], steps[n], t) {
      assert RemovedSince(run, steps, k, m, t);
    }
    if k: nat :| RemovedSince(run, steps, k, m, t) && k < n {
      assert RemovedSince(run, steps, k, n, t);
    }
    if k: nat :| CompletedAt(run, steps, k, n, t) {
      assert CompletedAt(run, steps, k, m, t);
    }
    if k: nat :| CompletedAt(run, steps, k, m, t) && k < n {
      assert CompletedAt(run, steps, k, n, t);
    }
  }

  /**
   The broker retains a discovery topic if and only if it was announced and not cleared since, and
   likewise a report; a topic counts as registered once a registration listing it was saved, and as
   cleared while its removal has returned and no such registration came after it.
   */
  lemma {:induction false} TopicsAreKnown(run: seq<World>, steps: seq<Step>, n: nat, t: Topic)
    requires IsRun(run, steps) && n < |run|
    ensures t in run[n].configs <==> exists k: nat :: AnnouncedSince(run, steps, k, n, t)
    ensures t in run[n].reports <==> exists k: nat :: ReportedSince(run, steps, k, n, t)
    ensures t in run[n].registered <==> exists k: nat :: CompletedAt(run, steps, k, n, t)
    ensures t in run[n].cleared <==> exists k: nat :: RemovedSince(run, steps, k, n, t)
  {
    hide Do, Enabled, Clears, Announces, Removes, Completes;
    if n > 0 {
      hide AnnouncedSince, ReportedSince, RemovedSince, CompletedAt;
      TopicsAreKnown(run, steps, n - 1, t);
      TopicsExactly(run[n - 1], steps[n - 1], t);
      OneMore(run, steps, n - 1, n, t);
    }
  }
}
