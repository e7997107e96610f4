/**
 The poller of one session in real time. The poller sleeps, looks how old the last status and
 the last snapshot are, and asks for what is due; the worker's observations, its own and those
 caused by others, renew the two times. A request of the poller is answered within `latency`.
 */
module Polling {
  import opened Base

  datatype Config = Config(interval: real, snapshotInterval: real, initialDelay: real, latency: real)

  predicate Sane(c: Config) {
    c.interval > 0.0 && c.snapshotInterval > 0.0 && c.initialDelay >= 0.0 && c.latency >= 0.0
  }

  datatype Poller = Sleeping(until: real) | Waiting(since: real, snapshot: bool)

  datatype Clock = Clock(now: real, lastStatus: Option<real>, lastSnapshot: Option<real>, poller: Poller)

  datatype Tick =
    | Advance(time: real)            // time passes, but no task misses its deadline
    | Wake                           // the poller's sleep is over
    | Answer                         // the worker observes the answer the poller waits for
    | Other(snapshot: bool)          // it observes a report somebody else asked for

  function Begin(c: Config): Clock {
    Clock(0.0, None, None, Sleeping(c.initialDelay))
  }

  predicate Older(last: Option<real>, now: real, interval: real) {
    last == None || now - last.value >= interval
  }

  /** What the poller asks for: a snapshot if one is due, else a status if one is due. */
  function Due(c: Config, k: Clock): Option<bool> {
    if Older(k.lastSnapshot, k.now, c.snapshotInterval) then Some(true)
    else if Older(k.lastStatus, k.now, c.interval) then Some(false)
    else None
  }

  function Deadline(c: Config, k: Clock): real {
    match k.poller
    case Sleeping(until) => until
    case Waiting(since, _) => since + c.latency
  }

  /** A snapshot answer reports the status as well. */
  function Observe(k: Clock, snapshot: bool): Clock {
    k.(lastStatus := Some(k.now), lastSnapshot := if snapshot then Some(k.now) else k.lastSnapshot)
  }

  predicate Can(c: Config, k: Clock, tick: Tick) {
    match tick
    case Advance(time) => time >= 0.0 && k.now + time <= Deadline(c, k)
    case Wake => k.poller.Sleeping? && k.now == k.poller.until
    case Answer => k.poller.Waiting?
    case Other(_) => true
  }

  function Next(c: Config, k: Clock, tick: Tick): Clock
    requires Can(c, k, tick)
  {
    match tick
    case Advance(time) => k.(now := k.now + time)
    case Wake =>
      var due := Due(c, k);
      k.(poller := if due.Some? then Waiting(k.now, due.value) else Sleeping(k.now + c.interval))
    case Answer => Observe(k, k.poller.snapshot).(poller := Sleeping(k.now + c.interval))
    case Other(snapshot) => Observe(k, snapshot)
  }

  ghost predicate IsRun(c: Config, run: seq<Clock>, ticks: seq<Tick>) {
    && |run| == |ticks| + 1
    && run[0] == Begin(c)
    && forall i :: 0 <= i < |ticks| ==> Can(c, run[i], ticks[i]) && run[i + 1] == Next(c, run[i], ticks[i])
  }

  // ----- The bounds ---------------------------------------------------------------------------

  /** Once there was a snapshot: a status younger than 2 * interval + latency, and a counter to match. */
  predicate InBounds(c: Config, k: Clock) {
    k.lastSnapshot.Some? ==>
      && k.lastStatus.Some?
      && k.now - k.lastStatus.value < 2.0 * c.interval + c.latency
      && k.now - k.lastSnapshot.value < c.snapshotInterval + c.interval + 2.0 * c.latency
  }

  predicate PollsEarly(c: Config) {
    c.initialDelay < 2.0 * c.interval && c.initialDelay < c.snapshotInterval + c.interval + c.latency
  }

  ghost predicate PollOk(c: Config, k: Clock) {
    && 0.0 <= k.now <= Deadline(c, k)
    && (k.lastStatus.Some? ==> 0.0 <= k.lastStatus.value <= k.now)
    && (k.lastSnapshot.Some? ==> 0.0 <= k.lastSnapshot.value <= k.now && k.lastStatus.Some?)
    && (k.lastSnapshot.Some? ==>
          match k.poller
          case Sleeping(until) =>
            && until - k.lastStatus.value < 2.0 * c.interval
            && until - k.lastSnapshot.value < c.snapshotInterval + c.interval + c.latency
          case Waiting(since, snapshot) =>
            && since - k.lastStatus.value < 2.0 * c.interval
            && since - k.lastSnapshot.value
               < if snapshot then c.snapshotInterval + c.interval + c.latency else c.snapshotInterval)
    && (k.lastSnapshot.None? ==> match k.poller
          case Sleeping(until) => until <= c.initialDelay
          case Waiting(since, snapshot) => snapshot && since <= c.initialDelay)
  }

  lemma TickKeepsPollOk(c: Config, k: Clock, tick: Tick)
    requires Sane(c) && PollsEarly(c) && PollOk(c, k) && Can(c, k, tick)
    ensures PollOk(c, Next(c, k, tick))
  {
  }

  lemma {:induction false} PollOkAlways(c: Config, run: seq<Clock>, ticks: seq<Tick>, n: nat)
    requires Sane(c) && PollsEarly(c) && IsRun(c, run, ticks) && n < |run|
    ensures PollOk(c, run[n])
  {
    hide PollOk, Can, Next, PollsEarly;
    if n == 0 {
      StartsOk(c);
    } else {
      PollOkAlways(c, run, ticks, n - 1);
      TickKeepsPollOk(c, run[n - 1], ticks[n - 1]);
    }
  }

  lemma StartsOk(c: Config)
    requires Sane(c)
    ensures PollOk(c, Begin(c))
  {
  }

  lemma PollOkIsInBounds(c: Config, k: Clock)
    requires Sane(c) && PollOk(c, k)
    ensures InBounds(c, k)
  {
  }

  ghost predicate AlwaysInBounds(c: Config) {
    forall run, ticks, n :: IsRun(c, run, ticks) && 0 <= n < |run| ==> InBounds(c, run[n])
  }

  /** A vendor's snapshot at the very start, and a first poll that comes late. */
  lemma LateFirstPoll(c: Config) returns (run: seq<Clock>, ticks: seq<Tick>)
    requires Sane(c) && !PollsEarly(c)
    ensures IsRun(c, run, ticks) && !InBounds(c, run[|ticks|])
  {
    ticks := [Other(true), Advance(c.initialDelay), Wake, Advance(c.latency)];
    var k1 := Next(c, Begin(c), ticks[0]);
    var k2 := Next(c, k1, ticks[1]);
    var k3 := Next(c, k2, ticks[2]);
    assert Due(c, k2).Some?;
    run := [Begin(c), k1, k2, k3, Next(c, k3, ticks[3])];
  }

  /**
   The bounds hold at every moment of every session exactly if the first poll is not delayed by
   two polling intervals or more, nor beyond the first snapshot interval, one poll and one answer.
   */
  lemma FreshnessIsBounded(c: Config)
    requires Sane(c)
    ensures AlwaysInBounds(c) <==> PollsEarly(c)
  {
    if PollsEarly(c) {
      forall run, ticks, n | IsRun(c, run, ticks) && 0 <= n < |run| ensures InBounds(c, run[n]) {
        PollOkAlways(c, run, ticks, n);
        PollOkIsInBounds(c, run[n]);
      }
    } else {
      var run, ticks := LateFirstPoll(c);
      assert IsRun(c, run, ticks) && !InBounds(c, run[|ticks|]);
    }
  }

  /**
   The status bound cannot be improved: for any shorter age there is a run that exceeds it. A
   snapshot read by others right after a poll makes the next poll skip its turn.
   */
  lemma StatusBoundIsTight(c: Config, age: real) returns (run: seq<Clock>, ticks: seq<Tick>)
    requires Sane(c) && c.interval <= c.snapshotInterval
    requires 0.0 <= age < 2.0 * c.interval + c.latency
    ensures IsRun(c, run, ticks) && run[|ticks|].lastSnapshot.Some? && run[|ticks|].lastStatus.Some?
    ensures run[|ticks|].now - run[|ticks|].lastStatus.value > age
  {
    var gap := 2.0 * c.interval + c.latency - age;
    var wait := if gap / 2.0 < c.interval / 2.0 then gap / 2.0 else c.interval / 2.0;
    ticks := [Advance(c.initialDelay), Wake, Answer, Advance(wait), Other(true), Advance(c.interval - wait), Wake,
              Advance(c.interval), Wake, Advance(c.latency)];
    var k0 := Begin(c);
    var k1 := Next(c, k0, Advance(c.initialDelay));
    var k2 := Next(c, k1, Wake);
    assert k2.poller == Waiting(k1.now, true);
    var k3 := Next(c, k2, Answer);
    var k4 := Next(c, k3, Advance(wait));
    var k5 := Next(c, k4, Other(true));
    var k6 := Next(c, k5, Advance(c.interval - wait));
    var k7 := Next(c, k6, Wake);
    assert k7.poller == Sleeping(k6.now + c.interval);
    var k8 := Next(c, k7, Advance(c.interval));
    var k9 := Next(c, k8, Wake);
    assert k9.poller.Waiting?;
    var k10 := Next(c, k9, Advance(c.latency));
    run := [k0, k1, k2, k3, k4, k5, k6, k7, k8, k9, k10];
  }

  function Times(m: nat, interval: real): real {
    if m == 0 then 0.0 else interval + Times(m - 1, interval)
  }

  lemma Quotient(x: real, y: real, q: real)
    requires y > 0.0 && q * y == x
    ensures x / y == q
  {
    var d := x / y;
    assert (d - q) * y == d * y - q * y == 0.0;
  }

  /** A span is a number of whole intervals and a last piece. */
  lemma {:induction false} WholeIntervals(span: real, interval: real) returns (m: nat, piece: real)
    requires interval > 0.0 && span > 0.0
    ensures span == piece + Times(m, interval) && 0.0 < piece <= interval
    decreases span / interval
  {
    if span <= interval {
      m, piece := 0, span;
    } else {
      Quotient(span - interval, interval, span / interval - 1.0);
      m, piece := WholeIntervals(span - interval, interval);
      m := m + 1;
    }
  }

  lemma OneMoreTick(c: Config, run: seq<Clock>, ticks: seq<Tick>, tick: Tick) returns (run': seq<Clock>, ticks': seq<Tick>)
    requires IsRun(c, run, ticks) && Can(c, run[|ticks|], tick)
    ensures IsRun(c, run', ticks') && run'[|ticks'|] == Next(c, run[|ticks|], tick)
  {
    hide Can, Next;
    run', ticks' := run + [Next(c, run[|ticks|], tick)], ticks + [tick];
  }

  /** The poller is about to wake; it has just polled, or others took the last snapshot. */
  ghost predicate AboutToWake(c: Config, k: Clock, age: real) {
    && k.poller == Sleeping(k.now) && k.lastSnapshot.Some? && k.lastStatus.Some?
    && k.now - k.lastSnapshot.value == age
    && (k.lastStatus == k.lastSnapshot || k.now - k.lastStatus.value == c.interval)
  }

  /** Statuses are polled while the snapshot grows older. */
  lemma {:induction false} SnapshotGrowsOld(c: Config, run: seq<Clock>, ticks: seq<Tick>, age: real, m: nat)
    returns (run': seq<Clock>, ticks': seq<Tick>)
    requires Sane(c) && IsRun(c, run, ticks) && AboutToWake(c, run[|ticks|], age)
    requires age + Times(m, c.interval) < c.snapshotInterval
    ensures IsRun(c, run', ticks') && AboutToWake(c, run'[|ticks'|], age + Times(m, c.interval))
    decreases m
  {
    run', ticks' := run, ticks;
    if m > 0 {
      var k := run[|ticks|];
      TimesNonnegative(m - 1, c.interval);
      run', ticks' := OneMoreTick(c, run, ticks, Wake);
      if Due(c, k).Some? {
        assert Due(c, k) == Some(false);
        run', ticks' := OneMoreTick(c, run', ticks', Answer);
      }
      run', ticks' := OneMoreTick(c, run', ticks', Advance(c.interval));
      run', ticks' := SnapshotGrowsOld(c, run', ticks', age + c.interval, m - 1);
    }
  }

  lemma {:induction false} TimesNonnegative(m: nat, interval: real)
    requires interval > 0.0
    ensures Times(m, interval) >= 0.0
  {
    if m > 0 { TimesNonnegative(m - 1, interval); }
  }

  /** One last status, late, and then the snapshot, late as well. */
  lemma LateAndLate(c: Config, run: seq<Clock>, ticks: seq<Tick>, age: real)
    returns (run': seq<Clock>, ticks': seq<Tick>)
    requires Sane(c) && IsRun(c, run, ticks) && AboutToWake(c, run[|ticks|], age)
    requires c.interval <= age < c.snapshotInterval <= age + c.interval
    ensures IsRun(c, run', ticks') && run'[|ticks'|].lastSnapshot.Some?
    ensures run'[|ticks'|].now - run'[|ticks'|].lastSnapshot.value == age + c.interval + 2.0 * c.latency
  {
    assert Due(c, run[|ticks|]) == Some(false);
    run', ticks' := OneMoreTick(c, run, ticks, Wake);
    run', ticks' := OneMoreTick(c, run', ticks', Advance(c.latency));
    run', ticks' := OneMoreTick(c, run', ticks', Answer);
    run', ticks' := OneMoreTick(c, run', ticks', Advance(c.interval));
    assert Due(c, run'[|ticks'|]) == Some(true);
    run', ticks' := OneMoreTick(c, run', ticks', Wake);
    run', ticks' := OneMoreTick(c, run', ticks', Advance(c.latency));
  }

  /** Nor can the counter bound: a snapshot just too young is passed over for one more status. */
  lemma CounterBoundIsTight(c: Config, age: real) returns (run: seq<Clock>, ticks: seq<Tick>)
    requires Sane(c) && c.interval < c.snapshotInterval
    requires 0.0 <= age < c.snapshotInterval + c.interval + 2.0 * c.latency
    ensures IsRun(c, run, ticks) && run[|ticks|].lastSnapshot.Some?
    ensures run[|ticks|].now - run[|ticks|].lastSnapshot.value > age
  {
    var gap := (c.snapshotInterval + c.interval + 2.0 * c.latency - age) / 2.0;
    var room := c.snapshotInterval - c.interval;
    var short := if gap <= room && gap <= c.interval then gap else if room <= c.interval then room else c.interval;
    var young := c.snapshotInterval - short;
    var m, piece := WholeIntervals(young, c.interval);
    run, ticks := [Begin(c)], [];
    run, ticks := OneMoreTick(c, run, ticks, Advance(c.initialDelay));
    run, ticks := OneMoreTick(c, run, ticks, Wake);
    run, ticks := OneMoreTick(c, run, ticks, Answer);
    run, ticks := OneMoreTick(c, run, ticks, Advance(c.interval - piece));
    run, ticks := OneMoreTick(c, run, ticks, Other(true));
    run, ticks := OneMoreTick(c, run, ticks, Advance(piece));
    run, ticks := SnapshotGrowsOld(c, run, ticks, piece, m);
    run, ticks := LateAndLate(c, run, ticks, young);
  }

  const DEFAULTS := Config(45.0, 300.0, 0.5, 30.0)

  /**
   With the default settings and answers within 30 s, once a snapshot was observed neither the
   valve report nor the counter is ever too old to be shown.
   */
  lemma DefaultsNeverExpire(c: Config, run: seq<Clock>, ticks: seq<Tick>, n: nat)
    requires c == DEFAULTS.(latency := c.latency) && 0.0 <= c.latency <= 30.0
    requires IsRun(c, run, ticks) && n < |run| && run[n].lastSnapshot.Some?
    ensures run[n].lastStatus.Some?
    ensures 0.0 <= run[n].now - run[n].lastStatus.value < 120.0
    ensures 0.0 <= run[n].now - run[n].lastSnapshot.value < 600.0
  {
    PollOkAlways(c, run, ticks, n);
    PollOkIsInBounds(c, run[n]);
  }
}
