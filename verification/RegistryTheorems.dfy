/**
 What holds in every run of the registry, whenever Home Assistant crashes.
 */
module RegistryTheorems {
  import opened Base
  import opened RegistryModel

  // ----- The invariant --------------------------------------------------------------------

  ghost predicate LockOk(w: World) {
    match w.lock
    case Free => true
    case SavingEntry(e, discovery) =>
      w.memory.Some? && e !in w.authority && discovery <= Topics(ListOf(w.memory.value.entries, e))
    case Looping(todo) => w.memory.Some? && w.memory.value.pending == Topics(todo) && Distinct(todo)
    case Publishing(todo, applied) =>
      && w.memory.Some? && w.memory.value.pending == Topics(todo) && Distinct(todo) && todo != []
      && (applied && todo[0] in w.configs ==> Owned(w.memory.value.entries, todo[0]))
    case SavingRest(todo) => w.memory.Some? && w.memory.value.pending == Topics(todo) && Distinct(todo)
  }

  /** What a running publisher may announce is registered, in memory and on disk. */
  ghost predicate AuthorityOk(w: World) {
    && (w.memory.None? ==> w.authority == map[])
    && forall e :: e in w.authority && w.memory.Some? ==>
         && w.authority[e] <= Topics(ListOf(w.memory.value.entries, e))
         && w.authority[e] <= Topics(ListOf(w.disk.entries, e))
  }

  /** Memory runs ahead of the disk only for the entry whose save is awaited. */
  ghost predicate AgreementOk(w: World) {
    w.memory.Some? ==> forall e :: e in w.memory.value.entries && !(w.lock.SavingEntry? && w.lock.entry == e) ==>
      e in w.disk.entries && w.disk.entries[e] == w.memory.value.entries[e]
  }

  ghost predicate AllCovered(d: Data, topics: set<Topic>) {
    forall t :: t in topics ==> Covered(d, t)
  }

  ghost predicate CoverOk(w: World) {
    && AllCovered(w.disk, w.configs)
    && AllCovered(w.disk, w.registered - w.cleared)
    && (w.memory.Some? ==> AllCovered(w.memory.value, w.configs)
                           && AllCovered(w.memory.value, w.registered - w.cleared))
  }

  ghost predicate Inv(w: World) {
    (w.memory.None? ==> w.lock.Free?) && LockOk(w) && AuthorityOk(w) && AgreementOk(w) && CoverOk(w)
  }

  // ----- Coverage under the operations ----------------------------------------------------

  lemma OwnedByList(entries: map<EntryId, seq<Topic>>, e: EntryId, t: Topic)
    requires t in ListOf(entries, e)
    ensures Owned(entries, t)
  {
    assert e in entries;
  }

  /** Loading moves topics from owned to pending but forgets none. */
  lemma AdoptCovers(d: Data, enabled: set<EntryId>, t: Topic)
    ensures Covered(Adopt(d, enabled), t) <==> Covered(d, t)
  {
    var a := Adopt(d, enabled);
    if Covered(d, t) && t !in d.pending {
      var e :| e in d.entries && t in d.entries[e];
      if e in enabled { assert e in a.entries && t in a.entries[e]; }
    }
    if Covered(a, t) && t !in a.pending {
      var e :| e in a.entries && t in a.entries[e];
      assert e in d.entries && t in d.entries[e];
    }
  }

  /** Registering forgets no topic and adds exactly the listed ones. */
  lemma RegisterCovers(d: Data, e: EntryId, topics: seq<Topic>, t: Topic)
    ensures Covered(Register(d, e, topics), t) <==> Covered(d, t) || t in topics
  {
    var r := Register(d, e, topics);
    if Owned(r.entries, t) && t !in topics {
      var f :| f in r.entries && t in r.entries[f];
      OwnedByList(d.entries, f, t);
    }
    if t in topics {
      OwnedByList(r.entries, e, t);
    } else if Owned(d.entries, t) {
      var f :| f in d.entries && t in d.entries[f];
      if f != e { assert f in r.entries && t in r.entries[f]; }
    }
  }

  lemma BeginSetKeepsInv(w: World, e: EntryId, topics: seq<Topic>, discovery: set<Topic>)
    requires Inv(w) && Enabled(w, StepBeginSet(e, topics, discovery))
    ensures Inv(Do(w, StepBeginSet(e, topics, discovery)))
  {
    hide Covered;
    var d := w.memory.value;
    forall t ensures Covered(Register(d, e, topics), t) <==> Covered(d, t) || t in topics {
      RegisterCovers(d, e, topics, t);
    }
  }

  lemma LoadKeepsInv(w: World, enabled: set<EntryId>)
    requires Inv(w) && w.memory.None?
    ensures Inv(Do(w, StepLoad(enabled)))
  {
    hide Covered;
    forall t ensures Covered(Adopt(w.disk, enabled), t) <==> Covered(w.disk, t) {
      AdoptCovers(w.disk, enabled, t);
    }
  }

  lemma EndSetKeepsInv(w: World)
    requires Inv(w) && Enabled(w, StepEndSet)
    ensures Inv(Do(w, StepEndSet))
  {
    var w' := Do(w, StepEndSet);
    var d := w.memory.value;
    forall t | t in w'.registered - w'.cleared ensures Covered(d, t) {
      if t in ListOf(d.entries, w.lock.entry) { OwnedByList(d.entries, w.lock.entry, t); }
    }
  }

  lemma PublishedKeepsInv(w: World, ok: bool)
    requires Inv(w) && Enabled(w, StepPublished(ok))
    ensures Inv(Do(w, StepPublished(ok)))
  {
    if ok {
      var w' := Do(w, StepPublished(ok));
      var todo := w.lock.todo;
      forall t ensures t in todo[1..] <==> t in todo && t != todo[0] {
        if t in todo && t != todo[0] {
          var i :| 0 <= i < |todo| && todo[i] == t;
          assert todo[1..][i - 1] == t;
        }
      }
      assert w'.memory.value.pending == Topics(todo[1..]);
      forall t | Covered(w.memory.value, t) && (t != todo[0] || Owned(w.memory.value.entries, t))
        ensures Covered(w'.memory.value, t) {}
    }
  }

  lemma AnnounceKeepsInv(w: World, e: EntryId, t: Topic)
    requires Inv(w) && Enabled(w, StepAnnounce(e, t))
    ensures Inv(Do(w, StepAnnounce(e, t)))
    ensures w.memory.Some? && Owned(w.memory.value.entries, t)
  {
    OwnedByList(w.memory.value.entries, e, t);
    OwnedByList(w.disk.entries, e, t);
  }

  /** The inductive step, for every step of the registry, its publishers and the crash. */
  lemma StepKeepsInv(w: World, step: Step)
    requires Inv(w) && Enabled(w, step)
    ensures Inv(Do(w, step))
  {
    match step
    case StepBeginSet(e, topics, discovery) => BeginSetKeepsInv(w, e, topics, discovery);
    case StepLoad(enabled) => LoadKeepsInv(w, enabled);
    case StepEndSet => EndSetKeepsInv(w);
    case StepPublished(ok) => PublishedKeepsInv(w, ok);
    case StepAnnounce(e, t) => AnnounceKeepsInv(w, e, t);
    case _ =>
      hide Covered, Owned;
  }

  lemma {:induction false} RunInv(run: seq<World>, steps: seq<Step>, n: nat)
    requires IsRun(run, steps) && n < |run|
    ensures Inv(run[n])
  {
    if n > 0 {
      RunInv(run, steps, n - 1);
      StepKeepsInv(run[n - 1], steps[n - 1]);
    }
  }

  lemma {:induction false} ScriptKeepsInv(w: World, script: seq<Step>)
    requires Inv(w) && Legal(w, script)
    ensures Inv(After(w, script))
    decreases |script|
  {
    hide Inv, Enabled, Do;
    if script != [] {
      StepKeepsInv(w, script[0]);
      ScriptKeepsInv(Do(w, script[0]), script[1..]);
    }
  }

  // ----- Crash-safe ownership --------------------------------------------------------------

  /**
   At every point of every run, and so at every point where Home Assistant may crash, each
   discovery topic retained on the broker is on disk: owned by an entry or pending removal.
   */
  lemma CrashSafeOwnership(run: seq<World>, steps: seq<Step>, n: nat, t: Topic)
    requires IsRun(run, steps) && n < |run| && t in run[n].configs
    ensures Covered(run[n].disk, t)
  {
    RunInv(run, steps, n);
  }

  /** Write-ahead: when a discovery message goes out, the saved data already name its topic. */
  lemma SavedBeforePublished(run: seq<World>, steps: seq<Step>, n: nat, e: EntryId, t: Topic)
    requires IsRun(run, steps) && n < |steps| && steps[n] == StepAnnounce(e, t)
    ensures t in ListOf(run[n].disk.entries, e)
  {
    RunInv(run, steps, n);
  }

  /** No topic is forgotten: once registered it stays owned, pending or cleared, on disk and in memory. */
  lemma NothingIsForgotten(run: seq<World>, steps: seq<Step>, n: nat, t: Topic)
    requires IsRun(run, steps) && n < |run| && t in run[n].registered
    ensures t in run[n].cleared || Covered(run[n].disk, t)
    ensures t in run[n].cleared || run[n].memory.None? || Covered(run[n].memory.value, t)
  {
    RunInv(run, steps, n);
  }

  /** State topics are published before they are registered, and even before the registry is loaded. */
  lemma ReportsAreNotWrittenAhead() returns (run: seq<World>, steps: seq<Step>)
    ensures IsRun(run, steps)
    ensures exists t :: t in run[|steps|].reports && !Covered(run[|steps|].disk, t)
  {
    var reported := Do(FRESH, StepReport("evodnik/state"));
    run := [FRESH, reported, Do(reported, StepCrash)];
    steps := [StepReport("evodnik/state"), StepCrash];
    assert "evodnik/state" in run[2].reports;
  }

  // ----- Removal ---------------------------------------------------------------------------

  /** What happens to one removal: not connected, delivered, or an error before or after its effect. */
  datatype Link = Down | Delivers | Fails(applied: bool)

  function LinkAt(links: seq<Link>): Link {
    if links == [] then Down else links[0]
  }

  function FlushSteps(todo: seq<Topic>, links: seq<Link>): seq<Step> {
    if todo == [] then [StepCheck(true)]
    else match LinkAt(links)
      case Down => [StepCheck(false)]
      case Fails(applied) => [StepCheck(true)] + (if applied then [StepApply] else []) + [StepPublished(false)]
      case Delivers => [StepCheck(true), StepApply, StepPublished(true), StepSaved] + FlushSteps(todo[1..], links[1..])
  }

  /** How many removals complete, and how many take effect at the broker. */
  function Completed(todo: seq<Topic>, links: seq<Link>): (n: nat)
    ensures n <= |todo|
  {
    if todo != [] && LinkAt(links).Delivers? then 1 + Completed(todo[1..], links[1..]) else 0
  }

  function Applied(todo: seq<Topic>, links: seq<Link>): (n: nat)
    ensures Completed(todo, links) <= n <= |todo|
  {
    if todo == [] then 0
    else match LinkAt(links)
      case Down => 0
      case Fails(applied) => if applied then 1 else 0
      case Delivers => 1 + Applied(todo[1..], links[1..])
  }

  /** Nothing left to take from a todo list twice. */
  lemma DropFirst(todo: seq<Topic>)
    requires todo != [] && Distinct(todo)
    ensures Distinct(todo[1..]) && Topics(todo[1..]) == Topics(todo) - {todo[0]}
  {
    forall t ensures t in todo[1..] <==> t in todo && t != todo[0] {
      if t in todo && t != todo[0] {
        var i :| 0 <= i < |todo| && todo[i] == t;
        assert todo[1..][i - 1] == t;
      }
    }
  }

  lemma {:induction false} LegalAppend(w: World, a: seq<Step>, b: seq<Step>)
    requires Legal(w, a) && Legal(After(w, a), b)
    ensures Legal(w, a + b) && After(w, a + b) == After(After(w, a), b)
    decreases |a|
  {
    hide Enabled, Do;
    if a == [] {
      assert a + b == b;
    } else {
      assert (a + b)[1..] == a[1..] + b;
      LegalAppend(Do(w, a[0]), a[1..], b);
    }
  }

  /** The world in which `done` removals have completed and `hit` have reached the broker. */
  function Removed(w: World, todo: seq<Topic>, done: nat, hit: nat): World
    requires w.memory.Some? && done <= |todo| && hit <= |todo|
  {
    var data := w.memory.value.(pending := w.memory.value.pending - Topics(todo[..done]));
    w.(memory := Some(data), disk := if done > 0 then data else w.disk, lock := Free,
       configs := w.configs - Topics(todo[..hit]), reports := w.reports - Topics(todo[..hit]),
       cleared := w.cleared + Topics(todo[..done]))
  }

  lemma TopicsOfPrefix(todo: seq<Topic>, n: nat)
    requires n < |todo|
    ensures Topics(todo[..n + 1]) == {todo[0]} + Topics(todo[1..][..n])
  {
    assert todo[..n + 1] == [todo[0]] + todo[1..][..n];
  }

  lemma FirstStep(w: World, step: Step, rest: seq<Step>)
    requires Enabled(w, step) && Legal(Do(w, step), rest)
    ensures Legal(w, [step] + rest) && After(w, [step] + rest) == After(Do(w, step), rest)
  {
    hide Enabled, Do;
    assert ([step] + rest)[1..] == rest;
  }

  lemma NothingRemoved(w: World, todo: seq<Topic>)
    requires w.memory.Some?
    ensures Removed(w, todo, 0, 0) == w.(lock := Free)
  {
    assert Topics(todo[..0]) == {};
    assert w.memory.value.pending - {} == w.memory.value.pending;
    assert w.configs - {} == w.configs && w.reports - {} == w.reports && w.cleared + {} == w.cleared;
  }

  /** One removal that succeeds: four steps. */
  lemma OneRemoval(w: World, todo: seq<Topic>, rest: seq<Step>) returns (w': World)
    requires w.memory.Some? && w.lock == Looping(todo) && todo != []
    ensures w' == Removed(w, todo, 1, 1).(lock := Looping(todo[1..]))
    ensures var script := [StepCheck(true), StepApply, StepPublished(true), StepSaved] + rest;
            Legal(w', rest) ==> Legal(w, script) && After(w, script) == After(w', rest)
  {
    var w1 := Do(w, StepCheck(true));
    var w2 := Do(w1, StepApply);
    var w3 := Do(w2, StepPublished(true));
    w' := Do(w3, StepSaved);
    var script := [StepCheck(true), StepApply, StepPublished(true), StepSaved] + rest;
    assert todo[..1] == [todo[0]];
    assert Topics(todo[..1]) == {todo[0]};
    if Legal(w', rest) {
      FirstStep(w3, StepSaved, rest);
      FirstStep(w2, StepPublished(true), [StepSaved] + rest);
      FirstStep(w1, StepApply, [StepPublished(true)] + ([StepSaved] + rest));
      FirstStep(w, StepCheck(true), [StepApply] + ([StepPublished(true)] + ([StepSaved] + rest)));
      assert script == [StepCheck(true)] + ([StepApply] + ([StepPublished(true)] + ([StepSaved] + rest)));
    }
  }

  lemma RemovedFurther(w: World, todo: seq<Topic>, done: nat, hit: nat)
    requires w.memory.Some? && todo != [] && done < |todo| && hit < |todo|
    ensures Removed(Removed(w, todo, 1, 1).(lock := Looping(todo[1..])), todo[1..], done, hit)
            == Removed(w, todo, done + 1, hit + 1)
  {
    TopicsOfPrefix(todo, done);
    TopicsOfPrefix(todo, hit);
    TopicsOfPrefix(todo, 0);
    var w' := Removed(w, todo, 1, 1).(lock := Looping(todo[1..]));
    assert w.memory.value.pending - Topics(todo[..1]) - Topics(todo[1..][..done]) == w.memory.value.pending - Topics(todo[..done + 1]);
    assert w.configs - Topics(todo[..1]) - Topics(todo[1..][..hit]) == w.configs - Topics(todo[..hit + 1]);
    assert w.reports - Topics(todo[..1]) - Topics(todo[1..][..hit]) == w.reports - Topics(todo[..hit + 1]);
    assert w.cleared + Topics(todo[..1]) + Topics(todo[1..][..done]) == w.cleared + Topics(todo[..done + 1]);
  }

  /** Whatever the broker does: the removals completed leave `pending`, in order, and no others. */
  lemma {:induction false} FlushEffect(w: World, todo: seq<Topic>, links: seq<Link>)
    requires w.memory.Some? && w.lock == Looping(todo)
    ensures Legal(w, FlushSteps(todo, links))
    ensures After(w, FlushSteps(todo, links)) == Removed(w, todo, Completed(todo, links), Applied(todo, links))
    decreases |todo|
  {
    NothingRemoved(w, todo);
    if todo == [] || LinkAt(links).Down? {
      FirstStep(w, FlushSteps(todo, links)[0], []);
    } else if LinkAt(links).Delivers? {
      var w' := OneRemoval(w, todo, FlushSteps(todo[1..], links[1..]));
      FlushEffect(w', todo[1..], links[1..]);
      RemovedFurther(w, todo, Completed(todo[1..], links[1..]), Applied(todo[1..], links[1..]));
    } else {
      FailedRemoval(w, todo, links);
    }
  }

  lemma FailedRemoval(w: World, todo: seq<Topic>, links: seq<Link>)
    requires w.memory.Some? && w.lock == Looping(todo) && todo != [] && LinkAt(links).Fails?
    ensures Legal(w, FlushSteps(todo, links))
    ensures After(w, FlushSteps(todo, links)) == Removed(w, todo, 0, Applied(todo, links))
  {
    var w1 := Do(w, StepCheck(true));
    NothingRemoved(w, todo);
    if links[0].applied {
      assert Topics(todo[..1]) == {todo[0]};
      var w2 := Do(w1, StepApply);
      FirstStep(w2, StepPublished(false), []);
      FirstStep(w1, StepApply, [StepPublished(false)]);
      FirstStep(w, StepCheck(true), [StepApply] + [StepPublished(false)]);
      assert FlushSteps(todo, links) == [StepCheck(true)] + ([StepApply] + [StepPublished(false)]);
    } else {
      FirstStep(w1, StepPublished(false), []);
      FirstStep(w, StepCheck(true), [StepPublished(false)]);
      assert FlushSteps(todo, links) == [StepCheck(true)] + [StepPublished(false)];
    }
  }

  lemma PrefixAndRest(list: seq<Topic>, k: nat)
    requires Distinct(list) && k <= |list|
    ensures Topics(list) - Topics(list[..k]) == Topics(list[k..])
  {
    assert forall j :: 0 <= j < k ==> list[j] in list[..k];
    forall t ensures t in list[k..] <==> t in list && t !in list[..k] {
      if t in list && t !in list[..k] {
        var i :| 0 <= i < |list| && list[i] == t;
        assert list[k..][i - k] == t;
      }
    }
  }

  function FlushScript(pending: set<Topic>, links: seq<Link>): seq<Step> {
    [StepBeginFlush] + FlushSteps(Sorted(pending), links)
  }

  /**
   An interrupted flush keeps exactly the removals it did not complete, the tail of the sorted
   list, and has told the broker about a prefix at most one longer. Owners are not touched.
   */
  lemma FlushKeepsTheRest(w: World, links: seq<Link>)
    requires w.memory.Some? && w.lock.Free?
    ensures var list := Sorted(w.memory.value.pending);
            var k, h := Completed(list, links), Applied(list, links);
            && Legal(w, FlushScript(w.memory.value.pending, links))
            && k <= h <= k + 1
            && var w' := After(w, FlushScript(w.memory.value.pending, links));
               && w'.memory == Some(w.memory.value.(pending := Topics(list[k..])))
               && (k > 0 ==> w'.disk == w'.memory.value)
               && (k == 0 ==> w'.disk == w.disk)
               && w'.configs == w.configs - Topics(list[..h])
               && w'.reports == w.reports - Topics(list[..h])
               && w'.lock.Free? && w'.authority == w.authority
  {
    var list := Sorted(w.memory.value.pending);
    FlushJumps(w, links);
    PrefixAndRest(list, Completed(list, links));
    AtMostOneMore(list, links);
  }

  /** A flush as one jump. */
  lemma FlushJumps(w: World, links: seq<Link>)
    requires w.memory.Some? && w.lock.Free?
    ensures var list := Sorted(w.memory.value.pending);
            && Legal(w, FlushScript(w.memory.value.pending, links))
            && After(w, FlushScript(w.memory.value.pending, links))
               == Removed(w, list, Completed(list, links), Applied(list, links))
  {
    var list := Sorted(w.memory.value.pending);
    var w1 := Do(w, StepBeginFlush);
    FlushEffect(w1, list, links);
    FirstStep(w, StepBeginFlush, FlushSteps(list, links));
  }

  lemma {:induction false} AtMostOneMore(todo: seq<Topic>, links: seq<Link>)
    ensures Applied(todo, links) <= Completed(todo, links) + 1
  {
    if todo != [] && LinkAt(links).Delivers? {
      AtMostOneMore(todo[1..], links[1..]);
    }
  }

  lemma {:induction false} AllDelivered(todo: seq<Topic>, links: seq<Link>)
    requires |todo| <= |links| && forall i :: 0 <= i < |links| ==> links[i].Delivers?
    ensures Completed(todo, links) == |todo|
  {
    if todo != [] {
      AllDelivered(todo[1..], links[1..]);
    }
  }

  /**
   After a crash at any point, loading and one flush with the broker connected and no error
   leave on the broker only discovery topics that an entry with MQTT enabled owns.
   */
  lemma RestartCleansUp(run: seq<World>, steps: seq<Step>, n: nat, enabled: set<EntryId>, links: seq<Link>)
    requires IsRun(run, steps) && n < |run| && run[n].memory.None?
    requires |Adopt(run[n].disk, enabled).pending| <= |links|
    requires forall i :: 0 <= i < |links| ==> links[i].Delivers?
    ensures var w := Do(run[n], StepLoad(enabled));
            && Legal(w, FlushScript(w.memory.value.pending, links))
            && var w' := After(w, FlushScript(w.memory.value.pending, links));
               && w'.memory == Some(Adopt(run[n].disk, enabled).(pending := {}))
               && forall t :: t in w'.configs ==> exists e :: e in enabled && t in ListOf(w'.disk.entries, e)
  {
    hide Inv;
    RunInv(run, steps, n);
    var w := Do(run[n], StepLoad(enabled));
    StepKeepsInv(run[n], StepLoad(enabled));
    var list := Sorted(w.memory.value.pending);
    DistinctLength(list);
    FlushKeepsTheRest(w, links);
    AllDelivered(list, links);
    var script := FlushScript(w.memory.value.pending, links);
    ScriptKeepsInv(w, script);
    var w' := After(w, script);
    assert Topics(list[|list|..]) == {};
    OwnersAreEnabled(w', enabled);
  }

  lemma OwnersAreEnabled(w: World, enabled: set<EntryId>)
    requires Inv(w) && w.memory.Some? && w.lock.Free?
    requires w.memory.value.pending == {} && w.memory.value.entries.Keys <= enabled
    ensures forall t :: t in w.configs ==> exists e :: e in enabled && t in ListOf(w.disk.entries, e)
  {
    forall t | t in w.configs ensures exists e :: e in enabled && t in ListOf(w.disk.entries, e) {
      var e :| e in w.memory.value.entries && t in w.memory.value.entries[e];
      assert e in enabled && t in ListOf(w.disk.entries, e);
    }
  }

  lemma {:induction false} DistinctLength(list: seq<Topic>)
    requires Distinct(list)
    ensures |Topics(list)| == |list|
  {
    if list != [] {
      DropFirst(list);
      DistinctLength(list[1..]);
      assert Topics(list) == Topics(list[1..]) + {list[0]};
    } else {
      assert Topics(list) == {};
    }
  }

  /** The same while publishers go on working: a flush whose loop is exhausted leaves no orphan. */
  lemma ExhaustedFlushLeavesNoOrphan(run: seq<World>, steps: seq<Step>, n: nat, t: Topic)
    requires IsRun(run, steps) && n < |run| && run[n].lock == Looping([]) && t in run[n].configs
    ensures run[n].memory.Some? && Owned(run[n].memory.value.entries, t)
  {
    RunInv(run, steps, n);
    assert t !in Topics([]);
  }

  // ----- Owned topics are never cleared ------------------------------------------------------

  ghost predicate Apart(entries: map<EntryId, seq<Topic>>) {
    forall e, f, t :: e in entries && f in entries && e != f && t in entries[e] ==> t !in entries[f]
  }

  ghost predicate NoneBoth(d: Data) {
    forall t :: t in d.pending ==> !Owned(d.entries, t)
  }

  ghost predicate Foreign(entries: map<EntryId, seq<Topic>>, e: EntryId, t: Topic) {
    exists f :: f in entries && f != e && t in entries[f]
  }

  /** A registration makes an owned topic pending exactly if it drops a topic that another entry lists. */
  lemma RegisterKeepsOwners(d: Data, e: EntryId, topics: seq<Topic>)
    requires NoneBoth(d)
    ensures NoneBoth(Register(d, e, topics)) <==>
            forall t :: t in ListOf(d.entries, e) && t !in topics ==> !Foreign(d.entries, e, t)
  {
    var r := Register(d, e, topics);
    forall t | t in r.pending ensures Owned(r.entries, t) <==> Foreign(d.entries, e, t) {
      if Owned(r.entries, t) {
        var f :| f in r.entries && t in r.entries[f];
        assert f != e;
      }
      if Foreign(d.entries, e, t) {
        var f :| f in d.entries && f != e && t in d.entries[f];
        OwnedByList(r.entries, f, t);
      }
    }
    forall t | t in d.pending ensures !Foreign(d.entries, e, t) {
    }
  }

  /** Loading does so exactly if an entry it drops lists a topic that a kept entry lists. */
  lemma AdoptKeepsOwners(d: Data, enabled: set<EntryId>)
    requires NoneBoth(d)
    ensures NoneBoth(Adopt(d, enabled)) <==>
            forall e, f, t :: (e in d.entries && e !in enabled && f in d.entries && f in enabled && t in d.entries[e])
                              ==> t !in d.entries[f]
  {
    var a := Adopt(d, enabled);
    forall e, f, t | e in d.entries && e !in enabled && f in d.entries && f in enabled && t in d.entries[e]
                     && t in d.entries[f]
      ensures !NoneBoth(a)
    {
      assert t in a.pending;
      OwnedByList(a.entries, f, t);
    }
    forall t | t in a.pending && Owned(a.entries, t)
      ensures exists e, f :: e in d.entries && e !in enabled && f in d.entries && f in enabled
                             && t in d.entries[e] && t in d.entries[f]
    {
      var f :| f in a.entries && t in a.entries[f];
      OwnedByList(d.entries, f, t);
    }
  }

  ghost predicate Tidy(d: Data) {
    Apart(d.entries) && NoneBoth(d)
  }

  ghost predicate TidyWorld(w: World) {
    Tidy(w.disk) && (w.memory.Some? ==> Tidy(w.memory.value))
  }

  /** Registered lists stay disjoint, stale ones included. */
  ghost predicate ListsDisjoint(run: seq<World>, steps: seq<Step>) {
    forall i, t :: 0 <= i < |steps| && i < |run| && steps[i].StepBeginSet? && run[i].memory.Some? && t in steps[i].topics ==>
      !Foreign(run[i].memory.value.entries, steps[i].entry, t)
  }

  lemma StepStaysTidy(w: World, step: Step)
    requires Inv(w) && TidyWorld(w) && Enabled(w, step)
    requires step.StepBeginSet? ==> forall t :: t in step.topics ==> !Foreign(w.memory.value.entries, step.entry, t)
    ensures TidyWorld(Do(w, step))
  {
    match step
    case StepBeginSet(e, topics, _) =>
      var d := w.memory.value;
      RegisterKeepsOwners(d, e, topics);
      forall t | t in ListOf(d.entries, e) ensures !Foreign(d.entries, e, t) {}
      assert Apart(Register(d, e, topics).entries);
    case StepLoad(enabled) => AdoptKeepsOwners(w.disk, enabled);
    case _ => hide Owned;
  }

  lemma {:induction false} RunStaysTidy(run: seq<World>, steps: seq<Step>, n: nat)
    requires IsRun(run, steps) && ListsDisjoint(run, steps) && n < |run|
    ensures TidyWorld(run[n])
  {
    hide Owned, Foreign;
    if n > 0 {
      RunStaysTidy(run, steps, n - 1);
      RunInv(run, steps, n - 1);
      StepStaysTidy(run[n - 1], steps[n - 1]);
    } else {
    }
  }

  lemma AuthorityIsOwned(w: World, e: EntryId, t: Topic)
    requires Inv(w) && w.memory.Some?
    ensures e in w.authority && t in w.authority[e] ==> Owned(w.memory.value.entries, t)
  {
    if e in w.authority && t in w.authority[e] {
      OwnedByList(w.memory.value.entries, e, t);
    }
  }

  /** No reachable state has a topic both owned and pending; so no owned topic is ever cleared. */
  lemma OwnedTopicsAreNeverCleared(run: seq<World>, steps: seq<Step>, n: nat)
    requires IsRun(run, steps) && ListsDisjoint(run, steps) && n < |steps|
    ensures NoneBoth(run[n].disk) && (run[n].memory.Some? ==> NoneBoth(run[n].memory.value))
    ensures steps[n] == StepApply ==>
              && run[n].memory.Some? && run[n].lock.Publishing? && run[n].lock.todo != []
              && !Owned(run[n].memory.value.entries, run[n].lock.todo[0])
              && forall e :: e in run[n].authority ==> run[n].lock.todo[0] !in run[n].authority[e]
  {
    RunStaysTidy(run, steps, n);
    RunInv(run, steps, n);
    var w := run[n];
    if steps[n] == StepApply {
      var t := w.lock.todo[0];
      assert t in w.memory.value.pending;
      forall e ensures e in w.authority && t in w.authority[e] ==> Owned(w.memory.value.entries, t) {
        AuthorityIsOwned(w, e, t);
      }
    }
  }

  /** The world after `set_topics` has saved a list that differs from the previous one. */
  function Registered(w: World, e: EntryId, topics: seq<Topic>, discovery: set<Topic>): World
    requires w.memory.Some?
  {
    var d := Register(w.memory.value, e, topics);
    w.(memory := Some(d), disk := d, authority := (w.authority - {e})[e := discovery],
       registered := w.registered + Topics(topics), cleared := w.cleared - Topics(topics))
  }

  lemma RegisterSteps(w: World, e: EntryId, topics: seq<Topic>, discovery: set<Topic>, rest: seq<Step>)
    requires w.memory.Some? && w.lock.Free? && discovery <= Topics(topics)
    requires ListOf(w.memory.value.entries, e) != topics && Legal(Registered(w, e, topics, discovery), rest)
    ensures var script := [StepBeginSet(e, topics, discovery)] + ([StepEndSet] + rest);
            Legal(w, script) && After(w, script) == After(Registered(w, e, topics, discovery), rest)
  {
    var w1 := Do(w, StepBeginSet(e, topics, discovery));
    assert ListOf(w1.memory.value.entries, e) == topics;
    FirstStep(w1, StepEndSet, rest);
    FirstStep(w, StepBeginSet(e, topics, discovery), [StepEndSet] + rest);
  }

  function Sharing(): seq<Step> {
    [StepLoad({"a", "b"})]
    + ([StepBeginSet("a", ["x"], {})] + ([StepEndSet]
    + ([StepBeginSet("b", ["x"], {})] + ([StepEndSet]
    + ([StepBeginSet("a", ["y"], {})] + ([StepEndSet]
    + ([StepBeginFlush] + ([StepCheck(true)] + []))))))))
  }

  /**
   A topic changes hands too early. No two enabled entries may have one prefix, but `a` may have
   been given another prefix while its old registration still stands: `b` takes over the old
   topic, then `a` registers its new one, and the topic that `b` owns is about to be cleared.
   */
  lemma SharedTopicIsCleared()
    ensures Legal(FRESH, Sharing())
    ensures var w := After(FRESH, Sharing());
            w.lock == Publishing(["x"], false) && w.memory.Some? && Owned(w.memory.value.entries, "x")
  {
    hide Register, Sorted, Legal, After;
    var w1 := Do(FRESH, StepLoad({"a", "b"}));
    assert Adopt(FRESH.disk, {"a", "b"}).entries == map[];
    assert Adopt(FRESH.disk, {"a", "b"}).pending == {};
    TakeOverAndLeave(w1.memory.value);
    OnlyOne("x");
    var w2 := Registered(w1, "a", ["x"], {});
    var w3 := Registered(w2, "b", ["x"], {});
    var w4 := Registered(w3, "a", ["y"], {});
    var w5 := Do(w4, StepBeginFlush);
    var w6 := Do(w5, StepCheck(true));
    Nothing(w6);
    FirstStep(w5, StepCheck(true), []);
    FirstStep(w4, StepBeginFlush, [StepCheck(true)] + []);
    RegisterSteps(w3, "a", ["y"], {}, [StepBeginFlush] + ([StepCheck(true)] + []));
    var r3 := [StepBeginSet("a", ["y"], {})] + ([StepEndSet] + ([StepBeginFlush] + ([StepCheck(true)] + [])));
    RegisterSteps(w2, "b", ["x"], {}, r3);
    var r2 := [StepBeginSet("b", ["x"], {})] + ([StepEndSet] + r3);
    RegisterSteps(w1, "a", ["x"], {}, r2);
    FirstStep(FRESH, StepLoad({"a", "b"}), [StepBeginSet("a", ["x"], {})] + ([StepEndSet] + r2));
  }

  lemma Nothing(w: World)
    ensures Legal(w, []) && After(w, []) == w
  {
  }

  lemma OnlyOne(t: Topic)
    ensures Sorted({t}) == [t]
  {
    var list := Sorted({t});
    DistinctLength(list);
    assert list[0] in Topics(list);
  }

  lemma TakeOverAndLeave(d: Data)
    requires d == Data(map[], {})
    ensures var shared := Register(Register(d, "a", ["x"]), "b", ["x"]);
            && ListOf(d.entries, "a") != ["x"] && ListOf(Register(d, "a", ["x"]).entries, "b") != ["x"]
            && ListOf(shared.entries, "a") == ["x"]
            && Register(shared, "a", ["y"]).pending == {"x"}
            && Owned(Register(shared, "a", ["y"]).entries, "x")
  {
    var shared := Register(Register(d, "a", ["x"]), "b", ["x"]);
    assert "x" in Register(shared, "a", ["y"]).entries["b"];
  }
}
