/**
 The registry as the object it is: `load`, `set_topics` and `flush` update the dictionary and
 the set in place, and write the disk and the broker as they go. Each stretch between two
 awaits is a method, proved to be a step of the machine, so that anything may happen between
 them. `SetTopics` and `Flush` put them together as the program does, for the case that nothing
 does: they are proved to be runs of the machine.
 */
module RegistryObjects {
  import opened Base
  import opened RegistryModel
  import opened RegistryTheorems

  class Store {
    var data: Data

    constructor ()
      ensures data == Data(map[], {})
    {
      data := Data(map[], {});
    }
  }

  class Broker {
    var configs: set<Topic>
    var reports: set<Topic>

    constructor ()
      ensures configs == {} && reports == {}
    {
      configs, reports := {}, {};
    }

    /** An empty retained message removes whatever was retained under the topic. */
    method Clear(topic: Topic)
      modifies this
      ensures configs == old(configs) - {topic} && reports == old(reports) - {topic}
    {
      configs, reports := configs - {topic}, reports - {topic};
    }
  }

  class DiscoveryRegistry {
    const store: Store
    const broker: Broker
    var entries: map<EntryId, seq<Topic>>
    var pending: set<Topic>
    var loaded: bool
    var lock: Lock
    ghost var authority: map<EntryId, set<Topic>>
    ghost var registered: set<Topic>
    ghost var cleared: set<Topic>

    ghost function View(): World
      reads this, store, broker
    {
      World(if loaded then Some(Data(entries, pending)) else None, lock, store.data, broker.configs, broker.reports,
            authority, registered, cleared)
    }

    /** Home Assistant starts with what an earlier run left on the disk and the broker. */
    constructor (store: Store, broker: Broker, ghost earlier: World)
      requires earlier.memory.None? && earlier.lock.Free?
      requires earlier.disk == store.data && earlier.configs == broker.configs && earlier.reports == broker.reports
      requires earlier.authority == map[]
      ensures this.store == store && this.broker == broker && View() == earlier
    {
      this.store, this.broker := store, broker;
      entries, pending, loaded, lock := map[], {}, false, Free;
      authority, registered, cleared := map[], earlier.registered, earlier.cleared;
    }

    method Load(enabled: set<EntryId>)
      modifies this
      ensures old(loaded) ==> View() == old(View())
      ensures !old(loaded) ==> View() == Do(old(View()), StepLoad(enabled))
    {
      if loaded {
        return;
      }
      entries, pending := store.data.entries, store.data.pending;
      ghost var d := store.data;
      var todo := entries.Keys;
      NothingDropped(d, enabled);
      while todo != {}
        invariant todo <= d.entries.Keys && this.loaded == old(loaded) && lock == old(lock)
        invariant authority == old(authority) && registered == old(registered) && cleared == old(cleared)
        invariant Data(entries, pending) == Adopted(d, enabled, todo)
        decreases todo
      {
        hide Adopted;
        var e :| e in todo;
        OneDropped(d, enabled, todo, e);
        todo := todo - {e};
        if e !in enabled {
          pending := pending + Topics(entries[e]);
          entries := entries - {e};
        }
      }
      loaded := true;
      AllDropped(d, enabled);
    }

    method Save()
      requires loaded
      modifies store
      ensures store.data == Data(entries, pending)
    {
      store.data := Data(entries, pending);
    }

    // ----- Between two awaits -----------------------------------------------------------

    /** `set_topics` up to its save, or to its end if the list is not new. */
    method BeginSet(e: EntryId, topics: seq<Topic>, discovery: set<Topic>)
      requires loaded && lock.Free? && discovery <= Topics(topics)
      modifies this
      ensures View() == Do(old(View()), StepBeginSet(e, topics, discovery))
    {
      var previous := if e in entries then entries[e] else [];
      if previous == topics {
        authority := authority[e := discovery];
        return;
      }
      pending := pending + (Topics(previous) - Topics(topics));
      pending := pending - Topics(topics);
      if topics != [] {
        entries := entries[e := topics];
      } else {
        entries := entries - {e};
      }
      authority := authority - {e};
      lock := SavingEntry(e, discovery);
    }

    /** The save of `set_topics` has returned. */
    method EndSet()
      requires loaded && lock.SavingEntry?
      modifies this, store
      ensures View() == Do(old(View()), StepEndSet)
    {
      ghost var topics := Topics(ListOf(entries, lock.entry));
      Save();
      registered, cleared := registered + topics, cleared - topics;
      authority := authority[lock.entry := lock.discovery];
      lock := Free;
    }

    method BeginFlush()
      requires loaded && lock.Free?
      modifies this
      ensures View() == Do(old(View()), StepBeginFlush)
    {
      lock := Looping(Sorted(pending));
    }

    /** The head of the loop in `flush`: go on with the next topic, or stop. */
    method Check(connected: bool)
      requires loaded && lock.Looping?
      modifies this
      ensures View() == Do(old(View()), StepCheck(connected))
    {
      lock := if lock.todo == [] || !connected then Free else Publishing(lock.todo, false);
    }

    /** The broker receives the empty message. */
    method Apply()
      requires loaded && lock.Publishing? && !lock.applied && lock.todo != []
      modifies this, broker
      ensures View() == Do(old(View()), StepApply)
    {
      broker.Clear(lock.todo[0]);
      lock := Publishing(lock.todo, true);
    }

    /** The publish returns, or raises and ends the flush. */
    method Published(ok: bool)
      requires loaded && lock.Publishing? && lock.todo != [] && (ok ==> lock.applied)
      modifies this
      ensures View() == Do(old(View()), StepPublished(ok))
    {
      if ok {
        pending := pending - {lock.todo[0]};
        cleared := cleared + {lock.todo[0]};
        lock := SavingRest(lock.todo[1..]);
      } else {
        lock := Free;
      }
    }

    method Saved()
      requires loaded && lock.SavingRest?
      modifies this, store
      ensures View() == Do(old(View()), StepSaved)
    {
      Save();
      lock := Looping(lock.todo);
    }

    // ----- Whole calls --------------------------------------------------------------------

    /** `links` says how the broker answers: one element for each removal attempted. */
    method Flush(links: seq<Link>)
      requires loaded && lock.Free?
      modifies this, store, broker
      ensures Legal(old(View()), FlushScript(old(pending), links))
      ensures View() == After(old(View()), FlushScript(old(pending), links))
      ensures loaded && lock.Free? && entries == old(entries) && authority == old(authority)
      ensures pending == Topics(Sorted(old(pending))[Completed(Sorted(old(pending)), links)..])
    {
      hide Sorted, Legal, After, Do;
      FlushKeepsTheRest(View(), links);
      ghost var end := After(View(), FlushScript(pending, links));
      GoOn(View(), FlushScript(pending, links));
      var todo, rest := Sorted(pending), links;
      BeginFlush();
      assert FlushScript(old(pending), links)[1..] == FlushSteps(todo, rest);
      Begun(old(View()));
      while todo != []
        invariant loaded && lock == Looping(todo)
        invariant Legal(View(), FlushSteps(todo, rest)) && After(View(), FlushSteps(todo, rest)) == end
        decreases |todo|
      {
        hide FlushSteps;
        var ok := Attempt(LinkAt(rest), rest);
        if !ok {
          return;
        }
        todo, rest := todo[1..], rest[1..];
      }
      GoOn(View(), FlushSteps(todo, rest));
      Checked(View(), true);
      Check(true);
      Stopped(View(), FlushSteps(todo, rest)[1..]);
    }

    /** One turn of the loop; `links` are the answers of the broker from here on. */
    method Attempt(link: Link, ghost links: seq<Link>) returns (ok: bool)
      requires loaded && lock.Looping? && lock.todo != [] && link == LinkAt(links)
      requires Legal(View(), FlushSteps(lock.todo, links))
      modifies this, store, broker
      ensures loaded && (ok <==> link.Delivers?)
      ensures !ok ==> View() == After(old(View()), FlushSteps(old(lock.todo), links))
      ensures ok ==> lock == Looping(old(lock.todo)[1..]) && links != []
                     && Legal(View(), FlushSteps(lock.todo, links[1..]))
                     && After(View(), FlushSteps(lock.todo, links[1..])) == After(old(View()), FlushSteps(old(lock.todo), links))
    {
      hide Legal, After, Do;
      ghost var script := FlushSteps(lock.todo, links);
      GoOn(View(), script);
      Checked(View(), !link.Down?);
      Check(!link.Down?);
      ok := link.Delivers?;
      if link.Down? {
        Stopped(View(), script[1..]);
        return;
      }
      if link.Delivers? || link.applied {
        GoOn(View(), script[1..]);
        Hit(View());
        Apply();
      }
      script := if link.Delivers? || link.applied then script[1..][1..] else script[1..];
      GoOn(View(), script);
      Returned(View(), ok);
      Published(ok);
      if !ok {
        Stopped(View(), script[1..]);
        return;
      }
      GoOn(View(), script[1..]);
      Stored(View());
      Saved();
      assert script[1..][1..] == FlushSteps(lock.todo, links[1..]);
    }

    /**
     The caller is told nothing: a failed removal is kept for later. `discovery` are the listed
     topics that the caller, the entry's publisher, will announce once this returns.
     */
    method SetTopics(e: EntryId, topics: seq<Topic>, discovery: set<Topic>, links: seq<Link>)
      requires loaded && lock.Free? && discovery <= Topics(topics)
      modifies this, store, broker
      ensures loaded && lock.Free? && ListOf(entries, e) == topics
      ensures ListOf(old(entries), e) == topics ==> View() == Do(old(View()), StepBeginSet(e, topics, discovery))
      ensures ListOf(old(entries), e) != topics ==>
                && Legal(old(View()), SetScript(old(View()), e, topics, discovery, links))
                && View() == After(old(View()), SetScript(old(View()), e, topics, discovery, links))
    {
      ghost var before := View();
      BeginSet(e, topics, discovery);
      if lock.Free? {
        return;
      }
      EndSet();
      assert View() == Registered(before, e, topics, discovery);
      FlushJumps(View(), links);
      RegisterSteps(before, e, topics, discovery, FlushScript(pending, links));
      Flush(links);
    }
  }

  /** A registration that changes something: mutate, save, then flush. */
  ghost function SetScript(w: World, e: EntryId, topics: seq<Topic>, discovery: set<Topic>, links: seq<Link>): seq<Step>
    requires w.memory.Some?
  {
    [StepBeginSet(e, topics, discovery)]
    + ([StepEndSet] + FlushScript(Register(w.memory.value, e, topics).pending, links))
  }

  /** The first step of a legal script, and the rest after it. */
  lemma GoOn(w: World, script: seq<Step>)
    requires Legal(w, script) && script != []
    ensures Enabled(w, script[0]) && Legal(Do(w, script[0]), script[1..])
    ensures After(w, script) == After(Do(w, script[0]), script[1..])
  {
    hide Enabled, Do;
  }

  lemma Stopped(w: World, script: seq<Step>)
    requires script == []
    ensures After(w, script) == w
  {
  }

  // What each step does to the lock.

  lemma Begun(w: World)
    requires Enabled(w, StepBeginFlush)
    ensures Do(w, StepBeginFlush).lock == Looping(Sorted(w.memory.value.pending)) && Do(w, StepBeginFlush).memory == w.memory
  {
  }

  lemma Checked(w: World, connected: bool)
    requires Enabled(w, StepCheck(connected))
    ensures var w' := Do(w, StepCheck(connected));
            && w'.memory == w.memory
            && w'.lock == if w.lock.todo == [] || !connected then Free else Publishing(w.lock.todo, false)
  {
  }

  lemma Hit(w: World)
    requires Enabled(w, StepApply)
    ensures Do(w, StepApply).lock == Publishing(w.lock.todo, true) && Do(w, StepApply).memory == w.memory
  {
  }

  lemma Returned(w: World, ok: bool)
    requires Enabled(w, StepPublished(ok))
    ensures var w' := Do(w, StepPublished(ok));
            w'.memory.Some? && w'.lock == if ok then SavingRest(w.lock.todo[1..]) else Free
  {
  }

  lemma Stored(w: World)
    requires Enabled(w, StepSaved)
    ensures Do(w, StepSaved).lock == Looping(w.lock.todo) && Do(w, StepSaved).memory == w.memory
  {
  }

  // ----- Loading -----------------------------------------------------------------------------

  /** `Adopt` while the entries in `todo` have not been looked at. */
  ghost function Adopted(d: Data, enabled: set<EntryId>, todo: set<EntryId>): Data {
    Adopt(d, enabled + todo)
  }

  lemma NothingDropped(d: Data, enabled: set<EntryId>)
    ensures Adopted(d, enabled, d.entries.Keys) == d
  {
    assert Adopt(d, enabled + d.entries.Keys).entries == d.entries;
    assert Adopt(d, enabled + d.entries.Keys).pending == d.pending;
  }

  lemma AllDropped(d: Data, enabled: set<EntryId>)
    ensures Adopted(d, enabled, {}) == Adopt(d, enabled)
  {
    assert enabled + {} == enabled;
  }

  lemma OneDropped(d: Data, enabled: set<EntryId>, todo: set<EntryId>, e: EntryId)
    requires e in todo && todo <= d.entries.Keys
    ensures var now, later := Adopted(d, enabled, todo), Adopted(d, enabled, todo - {e});
            && e in now.entries
            && later == if e in enabled then now
                        else Data(now.entries - {e}, now.pending + Topics(now.entries[e]))
  {
    var now, later := Adopted(d, enabled, todo), Adopted(d, enabled, todo - {e});
    if e in enabled {
      assert enabled + (todo - {e}) == enabled + todo;
    } else {
      assert later.entries == now.entries - {e};
      assert later.pending == now.pending + Topics(now.entries[e]);
    }
  }
}
