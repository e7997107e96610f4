/**
 The registry of published MQTT topics, the disk it is saved to and the retained messages of
 the broker. One `Step` is what happens between two awaits; Home Assistant may crash before
 any of them. A topic is *covered* by stored data when some entry owns it or it is pending
 removal.
 */
module RegistryModel {
  import opened Base

  type Topic = string
  type EntryId = string

  datatype Data = Data(entries: map<EntryId, seq<Topic>>, pending: set<Topic>)

  /** Who holds the registry's lock, and at which await. */
  datatype Lock =
    | Free
    | SavingEntry(entry: EntryId, discovery: set<Topic>)   // `set_topics` awaits its save
    | Looping(todo: seq<Topic>)                            // `flush` at the head of its loop
    | Publishing(todo: seq<Topic>, applied: bool)          // awaits the empty message for todo[0]
    | SavingRest(todo: seq<Topic>)                         // awaits the save after a removal

  datatype World = World(
    memory: Option<Data>,                    // None before `load` and after a crash
    lock: Lock,
    disk: Data,
    configs: set<Topic>,                     // retained discovery messages on the broker
    reports: set<Topic>,                     // retained state and availability messages
    authority: map<EntryId, set<Topic>>,     // what the running publisher of an entry may announce
    // ----------
    registered: set<Topic>,                  // topics of every completed registration
    cleared: set<Topic>)                     // topics removed since they were last registered

  const FRESH := World(None, Free, Data(map[], {}), {}, {}, map[], {}, {})

  function Topics(list: seq<Topic>): set<Topic> {
    set t | t in list
  }

  ghost predicate Owned(entries: map<EntryId, seq<Topic>>, topic: Topic) {
    exists e :: e in entries && topic in entries[e]
  }

  ghost predicate Covered(d: Data, topic: Topic) {
    topic in d.pending || Owned(d.entries, topic)
  }

  // ----- The operations on the data -----------------------------------------------------

  function ListOf(entries: map<EntryId, seq<Topic>>, e: EntryId): seq<Topic> {
    if e in entries then entries[e] else []
  }

  /** `load`: entries that are gone or have MQTT switched off give up their topics. */
  function Adopt(d: Data, enabled: set<EntryId>): Data {
    Data(map e | e in d.entries && e in enabled :: d.entries[e],
         d.pending + set e, t | e in d.entries && e !in enabled && t in d.entries[e] :: t)
  }

  /** `set_topics` up to its save. */
  function Register(d: Data, e: EntryId, topics: seq<Topic>): Data {
    Data(if topics != [] then d.entries[e := topics] else d.entries - {e},
         d.pending + (Topics(ListOf(d.entries, e)) - Topics(topics)) - Topics(topics))
  }

  // ----- Order of removal ---------------------------------------------------------------

  /** The order in which topics are removed: that of their characters. */
  predicate Le(a: Topic, b: Topic) {
    a == "" || (b != "" && (a[0] < b[0] || (a[0] == b[0] && Le(a[1..], b[1..]))))
  }

  lemma {:induction false} LeTotal(a: Topic, b: Topic)
    ensures Le(a, b) || Le(b, a)
    ensures Le(a, b) && Le(b, a) ==> a == b
  {
    if a != "" && b != "" && a[0] == b[0] {
      LeTotal(a[1..], b[1..]);
      assert a == [a[0]] + a[1..] && b == [b[0]] + b[1..];
    }
  }

  lemma {:induction false} LeTransitive(a: Topic, b: Topic, c: Topic)
    requires Le(a, b) && Le(b, c)
    ensures Le(a, c)
  {
    if a != "" && a[0] == b[0] == c[0] {
      LeTransitive(a[1..], b[1..], c[1..]);
    }
  }

  predicate IsLeast(t: Topic, topics: set<Topic>) {
    t in topics && forall u :: u in topics ==> Le(t, u)
  }

  lemma {:induction false} LeastExists(topics: set<Topic>) returns (least: Topic)
    requires topics != {}
    ensures IsLeast(least, topics)
  {
    hide Le;
    var x :| x in topics;
    LeTotal(x, x);
    var rest := topics - {x};
    assert topics == {x} + rest;
    least := x;
    if rest != {} {
      var y := LeastExists(rest);
      LeTotal(x, y);
      if Le(x, y) {
        forall u | u in rest ensures Le(x, u) { LeTransitive(x, y, u); }
      } else {
        least := y;
      }
    }
  }

  function Least(topics: set<Topic>): (t: Topic)
    requires topics != {}
    ensures IsLeast(t, topics)
  {
    assert exists t :: IsLeast(t, topics) by {
      var t := LeastExists(topics);
    }
    assert forall t, u :: IsLeast(t, topics) && IsLeast(u, topics) ==> t == u by {
      forall t, u | IsLeast(t, topics) && IsLeast(u, topics) ensures t == u { LeTotal(t, u); }
    }
    var t :| t in topics && IsLeast(t, topics);
    t
  }

  predicate Distinct(list: seq<Topic>) {
    forall i, j :: 0 <= i < j < |list| ==> list[i] != list[j]
  }

  function Sorted(topics: set<Topic>): (list: seq<Topic>)
    ensures Topics(list) == topics && Distinct(list)
    ensures forall i, j :: 0 <= i <= j < |list| ==> Le(list[i], list[j])
  {
    if topics == {} then []
    else
      var t := Least(topics);
      LeTotal(t, t);
      var rest := Sorted(topics - {t});
      assert forall i :: 0 <= i < |rest| ==> rest[i] in Topics(rest);
      assert Topics([t] + rest) == {t} + Topics(rest);
      [t] + rest
  }

  // ----- The machine --------------------------------------------------------------------

  datatype Step =
    | StepCrash
    | StepLoad(enabled: set<EntryId>)
    | StepBeginSet(entry: EntryId, topics: seq<Topic>, discovery: set<Topic>)
    | StepEndSet
    | StepRevoke(entry: EntryId)                     // the entry's publisher is stopped
    | StepBeginFlush
    | StepCheck(connected: bool)
    | StepApply                                      // the broker receives the empty message
    | StepPublished(ok: bool)                        // the publish returns, or raises
    | StepSaved
    | StepAnnounce(entry: EntryId, topic: Topic)     // a discovery message
    | StepReport(topic: Topic)                       // a state or availability message, loaded or not

  predicate Enabled(w: World, step: Step) {
    match step
    case StepCrash => true
    case StepLoad(_) => w.memory.None?
    case StepBeginSet(_, topics, discovery) => w.memory.Some? && w.lock.Free? && discovery <= Topics(topics)
    case StepEndSet => w.memory.Some? && w.lock.SavingEntry?
    case StepRevoke(_) => true
    case StepBeginFlush => w.memory.Some? && w.lock.Free?
    case StepCheck(_) => w.memory.Some? && w.lock.Looping?
    case StepApply => w.memory.Some? && w.lock.Publishing? && !w.lock.applied && w.lock.todo != []
    case StepPublished(ok) => w.memory.Some? && w.lock.Publishing? && w.lock.todo != [] && (ok ==> w.lock.applied)
    case StepSaved => w.memory.Some? && w.lock.SavingRest?
    case StepAnnounce(e, topic) => e in w.authority && topic in w.authority[e]
    case StepReport(_) => true
  }

  function Do(w: World, step: Step): World
    requires Enabled(w, step)
  {
    match step
    case StepCrash => w.(memory := None, lock := Free, authority := map[])
    case StepLoad(enabled) => w.(memory := Some(Adopt(w.disk, enabled)))
    case StepBeginSet(e, topics, discovery) =>
      var d := w.memory.value;
      if ListOf(d.entries, e) == topics then w.(authority := w.authority[e := discovery])
      else w.(memory := Some(Register(d, e, topics)), lock := SavingEntry(e, discovery), authority := w.authority - {e})
    case StepEndSet =>
      var topics := Topics(ListOf(w.memory.value.entries, w.lock.entry));
      w.(disk := w.memory.value, lock := Free, authority := w.authority[w.lock.entry := w.lock.discovery],
         registered := w.registered + topics, cleared := w.cleared - topics)
    case StepRevoke(e) => w.(authority := w.authority - {e})
    case StepBeginFlush => w.(lock := Looping(Sorted(w.memory.value.pending)))
    case StepCheck(connected) =>
      w.(lock := if w.lock.todo == [] || !connected then Free else Publishing(w.lock.todo, false))
    case StepApply =>
      var gone := {w.lock.todo[0]};
      w.(configs := w.configs - gone, reports := w.reports - gone, lock := Publishing(w.lock.todo, true))
    case StepPublished(ok) =>
      if !ok then w.(lock := Free)
      else
        var gone := {w.lock.todo[0]};
        w.(memory := Some(w.memory.value.(pending := w.memory.value.pending - gone)),
           lock := SavingRest(w.lock.todo[1..]), cleared := w.cleared + gone)
    case StepSaved => w.(disk := w.memory.value, lock := Looping(w.lock.todo))
    case StepAnnounce(_, topic) => w.(configs := w.configs + {topic})
    case StepReport(topic) => w.(reports := w.reports + {topic})
  }

  ghost predicate IsRun(run: seq<World>, steps: seq<Step>) {
    && |run| == |steps| + 1
    && run[0] == FRESH
    && forall i :: 0 <= i < |steps| ==> Enabled(run[i], steps[i]) && run[i + 1] == Do(run[i], steps[i])
  }

  /** A script of steps that can be taken one after the other. */
  predicate Legal(w: World, script: seq<Step>)
    decreases |script|
  {
    script == [] || (Enabled(w, script[0]) && Legal(Do(w, script[0]), script[1..]))
  }

  function After(w: World, script: seq<Step>): World
    requires Legal(w, script)
    decreases |script|
  {
    if script == [] then w else After(Do(w, script[0]), script[1..])
  }
}
