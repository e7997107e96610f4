/**
 The user's meter reading, kept as an offset to the device's cumulative counter. The reference
 below knows no offset: it adds up what the counter gained since the last calibration.
 */
module Meter {
  import opened Base

  datatype MeterData = MeterData(offset: Option<int>, lastRaw: Option<nat>, resetDetected: bool)

  datatype Status = NotConfigured | Ready | CounterReset

  const BLANK := MeterData(None, None, false)

  function Observe(m: MeterData, raw: Option<nat>): MeterData {
    if raw == None || m.offset == None || raw == m.lastRaw then m
    else if m.lastRaw.Some? && raw.value < m.lastRaw.value then MeterData(None, raw, true)
    else m.(lastRaw := raw)
  }

  function SetReading(m: MeterData, reading: nat, raw: nat): MeterData {
    MeterData(Some(reading - raw), Some(raw), false)
  }

  function Reading(m: MeterData, raw: Option<nat>): Option<int> {
    if raw == None || m.offset == None then None else Some(raw.value + m.offset.value)
  }

  function StatusOf(m: MeterData): Status {
    if m.resetDetected then CounterReset else if m.offset.Some? then Ready else NotConfigured
  }

  function Loaded(disk: Option<MeterData>): MeterData {
    if disk.Some? then disk.value else BLANK
  }

  class MeterObject {
    var offset: Option<int>
    var lastRaw: Option<nat>
    var resetDetected: bool
    var saveDue: bool               // a delayed save is scheduled
    var disk: Option<MeterData>

    ghost function View(): MeterData
      reads this
    {
      MeterData(offset, lastRaw, resetDetected)
    }

    constructor (disk: Option<MeterData>)
      ensures View() == BLANK && this.disk == disk && !saveDue
    {
      offset, lastRaw, resetDetected, saveDue := None, None, false, false;
      this.disk := disk;
    }

    method Load()
      modifies this
      ensures View() == if disk.Some? then disk.value else old(View())
      ensures disk == old(disk)
    {
      if disk.Some? {
        offset, lastRaw, resetDetected := disk.value.offset, disk.value.lastRaw, disk.value.resetDetected;
      }
    }

    method Save()
      modifies this
      ensures View() == old(View()) && disk == Some(View()) && !saveDue
    {
      disk := Some(MeterData(offset, lastRaw, resetDetected));
      saveDue := false;
    }

    method ObserveRaw(raw: Option<nat>)
      modifies this
      ensures View() == Observe(old(View()), raw)
      ensures disk == old(disk) && (View() != old(View()) ==> saveDue)
    {
      if raw == None || offset == None || raw == lastRaw {
        return;
      }
      if lastRaw.Some? && raw.value < lastRaw.value {
        offset := None;
        resetDetected := true;
      }
      lastRaw := raw;
      saveDue := true;
    }

    method Calibrate(reading: nat, raw: nat)
      modifies this
      ensures View() == SetReading(old(View()), reading, raw) && disk == old(disk)
    {
      offset := Some(reading - raw);
      lastRaw := Some(raw);
      resetDetected := false;
    }
  }

  // ----- Histories ------------------------------------------------------------------------

  /** What happens to a meter: a counter is observed, it is calibrated, or saved and loaded anew. */
  datatype MeterEvent = Observed(raw: Option<nat>) | Calibrated(reading: nat, base: nat) | Reloaded

  function Apply(m: MeterData, e: MeterEvent): MeterData {
    match e
    case Observed(raw) => Observe(m, raw)
    case Calibrated(reading, raw) => SetReading(m, reading, raw)
    case Reloaded => Loaded(Some(m))
  }

  function Replay(events: seq<MeterEvent>): MeterData {
    if events == [] then BLANK else Apply(Replay(events[..|events| - 1]), events[|events| - 1])
  }

  // ----- The reference ----------------------------------------------------------------------

  /** The counter at the last calibration and every value seen since; empty before the first. */
  function Counts(events: seq<MeterEvent>): seq<nat> {
    if events == [] then []
    else
      var earlier := events[..|events| - 1];
      match events[|events| - 1]
      case Calibrated(_, raw) => [raw]
      case Observed(Some(raw)) => if Counts(earlier) == [] then [] else Counts(earlier) + [raw]
      case _ => Counts(earlier)
  }

  /** The reading the user entered last. */
  function Entered(events: seq<MeterEvent>): nat {
    if events == [] then 0
    else match events[|events| - 1]
      case Calibrated(reading, _) => reading
      case _ => Entered(events[..|events| - 1])
  }

  /** What the counter gained. */
  function Increase(counts: seq<nat>): nat {
    if |counts| < 2 then 0
    else
      var a, b := counts[|counts| - 2], counts[|counts| - 1];
      Increase(counts[..|counts| - 1]) + if a < b then b - a else 0
  }

  predicate Falls(counts: seq<nat>) {
    exists i :: 0 <= i < |counts| - 1 && counts[i + 1] < counts[i]
  }

  lemma FallsAppend(counts: seq<nat>, x: nat)
    requires counts != []
    ensures Falls(counts + [x]) <==> Falls(counts) || x < counts[|counts| - 1]
  {
    var more := counts + [x];
    if Falls(counts) {
      var i :| 0 <= i < |counts| - 1 && counts[i + 1] < counts[i];
      assert more[i + 1] < more[i];
    }
    if x < counts[|counts| - 1] {
      assert more[|counts| - 1 + 1] < more[|counts| - 1];
    }
  }

  lemma IncreaseAppend(counts: seq<nat>, x: nat)
    requires counts != []
    ensures Increase(counts + [x]) == Increase(counts) + if counts[|counts| - 1] < x then x - counts[|counts| - 1] else 0
  {
    assert (counts + [x])[..|counts|] == counts;
  }

  /** What a meter must show, given the counter values since the last calibration. */
  ghost predicate Agrees(m: MeterData, counts: seq<nat>, entered: nat) {
    && (counts == [] ==> m == BLANK)
    && (counts != [] && !Falls(counts) ==>
          var last := counts[|counts| - 1];
          && StatusOf(m) == Ready && m.lastRaw == Some(last)
          && Reading(m, Some(last)) == Some(entered + Increase(counts)))
    && (Falls(counts) ==> StatusOf(m) == CounterReset && m.offset == None && forall raw :: Reading(m, raw) == None)
  }

  lemma ObserveAgrees(m: MeterData, counts: seq<nat>, entered: nat, x: nat)
    requires Agrees(m, counts, entered) && counts != []
    ensures Agrees(Observe(m, Some(x)), counts + [x], entered)
  {
    hide Falls, Increase;
    FallsAppend(counts, x);
    IncreaseAppend(counts, x);
  }

  /**
   The meter agrees with the counter over every history: until a value below an earlier one is
   seen, it reads what was entered plus what the counter gained; from then on it reads nothing
   and reports the reset, until it is calibrated again.
   */
  lemma {:induction false} MeterAgreement(events: seq<MeterEvent>)
    ensures Agrees(Replay(events), Counts(events), Entered(events))
  {
    if events != [] {
      var earlier, e := events[..|events| - 1], events[|events| - 1];
      MeterAgreement(earlier);
      match e
      case Observed(raw) =>
        if raw.Some? && Counts(earlier) != [] {
          ObserveAgrees(Replay(earlier), Counts(earlier), Entered(earlier), raw.value);
        }
      case Calibrated(reading, base) =>
        assert !Falls([base]) && Increase([base]) == 0;
      case Reloaded =>
    }
  }

  /** Seeing the same value again adds nothing, however often. */
  lemma DuplicatesAddNothing(events: seq<MeterEvent>, raw: Option<nat>)
    requires raw.Some? && Counts(events) != [] ==> Counts(events)[|Counts(events)| - 1] == raw.value
    ensures Replay(events + [Observed(raw)]) == Replay(events)
  {
    MeterAgreement(events);
    assert (events + [Observed(raw)])[..|events|] == events;
    var m := Replay(events);
    if m.offset.Some? {
      assert StatusOf(m) == Ready || m.resetDetected;
    }
  }

  /** A reading never falls between calibrations, and moves exactly with the counter. */
  lemma {:induction false} IncreaseTelescopes(counts: seq<nat>)
    requires counts != [] && !Falls(counts)
    ensures counts[0] + Increase(counts) == counts[|counts| - 1]
  {
    if |counts| >= 2 {
      var earlier, x := counts[..|counts| - 1], counts[|counts| - 1];
      assert counts == earlier + [x];
      FallsAppend(earlier, x);
      IncreaseTelescopes(earlier);
    }
  }
}
