/**
 What Home Assistant and the broker are shown, over every history of proxy, runtime, meter
 and publisher.
 */
module HomeTheorems {
  import opened Base
  import opened Protocol
  import opened ProxyModel
  import opened ProxyInvariant
  import opened ProxySafety
  import opened ProxyProgress
  import opened ProxyState
  import opened ProxyBalance
  import opened ProxyTheorems
  import opened HomeModel
  import Meter

  // ----- What the proxy guarantees -----------------------------------------------------------

  /** Only the newest session can be the current one. */
  ghost predicate NewestOnly(px: Proxy) {
    px.session.Some? ==> px.session.value + 1 == |px.sessions|
  }

  lemma NewestStays(px: Proxy, step: Step)
    requires Enabled(px, step) && PointersOk(px) && NewestOnly(px)
    ensures NewestOnly(Do(px, step)) && |px.sessions| <= |Do(px, step).sessions|
    ensures px.clock <= Do(px, step).clock
    ensures Do(px, step).clock != px.clock ==> step.StepTick?
  {
    if Subject(px, step).Some? {
      hide Do, Enabled;
      StepsTouchOneSession(px, step);
    }
  }

  /** A counter that is visible was observed no later than now. */
  lemma CountIsPast(px: Proxy)
    requires StateOk(px) && TimesOk(px) && px.state.totalLiters.Some?
    ensures px.state.counterUpdated.Some? && px.state.counterUpdated.value <= px.clock
    ensures px.session.Some? && Has(px, px.session.value)
  {
    hide LastReport, LastCount, Unconfirmed, Position, Counter;
    var s := px.session.value;
    assert Times(px.sessions[s].observedAt, px.clock);
  }

  // ----- The invariant ---------------------------------------------------------------------------

  ghost predicate ProxyOk(px: Proxy) {
    Inv(px) && NewestOnly(px)
  }

  /** The meter is the replay of its events, and has seen the counter that is visible. */
  ghost predicate MeterOk(h: Home) {
    && h.meter == Meter.Replay(h.events)
    && (TotalNow(h.px).Some? && Meter.Counts(h.events) != [] ==> LastOf(Meter.Counts(h.events)) == TotalNow(h.px))
  }

  function LastOf(counts: seq<nat>): Option<nat> {
    if counts == [] then None else Some(counts[|counts| - 1])
  }

  /** The snapshot a calibration waits for was not yet written when the calibration began. */
  ghost predicate CallOk(px: Proxy, call: Call) {
    && Has(px, call.s) && call.s + 1 == call.sessions <= |px.sessions|
    && var ses := px.sessions[call.s];
       && call.id in ses.waiters && ses.waiters[call.id].purpose.Refresh?
       && call.observed <= |ses.observedAt| && 2 * call.observed <= call.length <= |ses.history|
       && forall k: nat :: k < call.length ==> !OwnWriteAt(ses, k, call.id)
  }

  /** The command that runs has a caller waiting, or one that has its answer. */
  ghost predicate CommandOk(px: Proxy, command: Option<Command>) {
    command.Some? ==> Has(px, command.value.s) && command.value.id in px.sessions[command.value.s].waiters
  }

  function LastState(log: seq<Message>): (r: Option<Message>)
    ensures r.Some? ==> r.value.StateReport?
  {
    if log == [] then None
    else if log[|log| - 1].StateReport? then Some(log[|log| - 1])
    else LastState(log[..|log| - 1])
  }

  function LastAvailability(log: seq<Message>): Option<bool> {
    if log == [] then None
    else if log[|log| - 1].Availability? then Some(log[|log| - 1].online)
    else LastAvailability(log[..|log| - 1])
  }

  ghost predicate Reported(log: seq<Message>, job: Job) {
    LastState(log) == Some(StateReport(job.number, job.generation, job.payload))
  }

  /** How far a running `_publish` has come. */
  ghost predicate PublishOk(h: Home) {
    match h.publisher.at
    case Idle => true
    case AwaitOffline(job) => !job.payload.available && LastAvailability(h.log) == Some(false)
    case AwaitState(job) =>
      Reported(h.log, job) && (job.payload.available || LastAvailability(h.log) == Some(false))
    case AwaitBridge(job) =>
      Reported(h.log, job) && (job.payload.available || LastAvailability(h.log) == Some(false))
    case AwaitAvailability(job) => Reported(h.log, job) && job.payload.available
  }

  /** The broker never retains `online` beside a state report that says unavailable. */
  ghost predicate Consistent(log: seq<Message>) {
    LastAvailability(log) == Some(true) ==> LastState(log).Some? && LastState(log).value.payload.available
  }

  ghost predicate HomeOk(h: Home) {
    && ProxyOk(h.px) && MeterOk(h) && (h.call.Some? ==> CallOk(h.px, h.call.value)) && CommandOk(h.px, h.command)
    && PublishOk(h) && Consistent(h.log)
  }

  // ----- It is kept ----------------------------------------------------------------------------------

  lemma LogAppend(log: seq<Message>, m: Message)
    ensures LastState(log + [m]) == if m.StateReport? then Some(m) else LastState(log)
    ensures LastAvailability(log + [m]) == if m.Availability? then Some(m.online) else LastAvailability(log)
  {
    assert (log + [m])[..|log|] == log;
  }

  /** The log and the publisher do not enter the rest of the invariant. */
  lemma ElsewhereKept(h: Home, log: seq<Message>, p: Publisher)
    requires HomeOk(h)
    ensures var h' := h.(log := log, publisher := p);
            && ProxyOk(h'.px) && MeterOk(h') && (h'.call.Some? ==> CallOk(h'.px, h'.call.value))
            && CommandOk(h'.px, h'.command)
  {
    hide ProxyOk, CallOk, CommandOk;
  }

  /** A command, and what the publisher needs besides its running `_publish`, change nothing else. */
  lemma AsideKept(h: Home, command: Option<Command>, p: Publisher)
    requires HomeOk(h) && CommandOk(h.px, command) && p.at == h.publisher.at
    ensures HomeOk(h.(command := command, publisher := p))
  {
    hide ProxyOk, CallOk, CommandOk, Consistent;
    var h' := h.(command := command, publisher := p);
    assert PublishOk(h') by { PublisherAlone(h, h'); }
    assert MeterOk(h') by { hide PublishOk; }
  }

  lemma BeginPublishKept(h: Home, offline: bool, sent: bool)
    requires PublishOk(h) && Consistent(h.log) && h.publisher.at.Idle?
    ensures PublishOk(BeginPublish(h, offline, sent)) && Consistent(BeginPublish(h, offline, sent).log)
  {
    hide PayloadOf, LastState, LastAvailability;
    var h' := BeginPublish(h, offline, sent);
    if sent {
      LogAppend(h.log, h'.log[|h.log|]);
    }
  }

  lemma NextPublishKept(h: Home, sent: bool)
    requires PublishOk(h) && Consistent(h.log) && !h.publisher.at.Idle?
    ensures PublishOk(NextPublish(h, sent)) && Consistent(NextPublish(h, sent).log)
  {
    hide PayloadOf, LastState, LastAvailability;
    var h' := NextPublish(h, sent);
    if |h'.log| > |h.log| {
      LogAppend(h.log, h'.log[|h.log|]);
    }
  }

  lemma PublishingKept(h: Home, step: HomeStep)
    requires HomeOk(h) && Possible(h, step) && (step.Publish? || step.Continue? || step.PublishFails?)
    ensures HomeOk(Take(h, step))
  {
    hide ProxyOk, MeterOk, CallOk, CommandOk, PublishOk, Consistent, PayloadOf;
    var h' := Take(h, step);
    ElsewhereKept(h, h'.log, h'.publisher);
    assert h' == h.(log := h'.log, publisher := h'.publisher);
    match step
    case Publish(offline, sent) => BeginPublishKept(h, offline, sent);
    case Continue(sent) => NextPublishKept(h, sent);
    case PublishFails => IdleIsOk(h');
  }

  lemma IdleIsOk(h: Home)
    requires h.publisher.at.Idle?
    ensures PublishOk(h)
  {
  }

  lemma ProxyKept(px: Proxy, step: Step)
    requires ProxyOk(px) && Enabled(px, step)
    ensures ProxyOk(Do(px, step))
    ensures |px.sessions| <= |Do(px, step).sessions|
    ensures forall s :: 0 <= s < |px.sessions| ==> GoodStep(px, Do(px, step), s)
  {
    hide Do, Enabled, SessionsOk, PointersOk, Apart, StateOk, TimesOk, Balanced, GoodStep, NewestOnly;
    StepKeepsInv(px, step);
    NewestStays(px, step);
    forall s | 0 <= s < |px.sessions| ensures GoodStep(px, Do(px, step), s) {
      EveryStepAdvances(px, step, s);
    }
  }

  lemma CallKept(px: Proxy, px': Proxy, call: Call)
    requires CallOk(px, call) && |px.sessions| <= |px'.sessions| && GoodStep(px, px', call.s)
    ensures CallOk(px', call)
  {
    hide EventIsDue, CloudAdvances, TasksAdvance;
    var ses, ses' := px.sessions[call.s], px'.sessions[call.s];
    forall k: nat | k < call.length ensures !OwnWriteAt(ses', k, call.id) {
      assert ses'.history[k] == ses.history[k];
      assert !OwnWriteAt(ses, k, call.id);
    }
  }

  lemma MeterKept(h: Home, step: Step)
    requires ProxyOk(h.px) && MeterOk(h) && Enabled(h.px, step)
    ensures MeterOk(ProxyStep(h, step))
  {
    hide Do, Enabled, SessionsOk, PointersOk, Apart, Balanced, StateOk, TimesOk, Meter.Observe;
    var px := Do(h.px, step);
    var h' := ProxyStep(h, step);
    NewestStays(h.px, step);
    if px.state == h.px.state {
      if TotalNow(px).Some? {
        CountIsPast(h.px);
        assert TotalNow(h.px) == TotalNow(px);
      }
    } else {
      assert h'.events[..|h.events|] == h.events;
    }
  }

  lemma ProxyingKept(h: Home, step: Step)
    requires HomeOk(h) && Enabled(h.px, step)
    ensures HomeOk(ProxyStep(h, step))
  {
    hide MeterOk, ProxyOk, Do, Enabled, GoodStep, CallOk, CommandOk, PublishOk, Consistent;
    ProxyKept(h.px, step);
    CommandKept(h.px, Do(h.px, step), h.command);
    PublisherAlone(h, ProxyStep(h, step));
    assert MeterOk(ProxyStep(h, step)) by { MeterKept(h, step); }
    if h.call.Some? {
      assert Has(h.px, h.call.value.s) by { HasCall(h.px, h.call.value); }
      CallKept(h.px, Do(h.px, step), h.call.value);
    }
  }

  lemma CommandKept(px: Proxy, px': Proxy, command: Option<Command>)
    requires CommandOk(px, command) && |px.sessions| <= |px'.sessions|
    requires forall s :: 0 <= s < |px.sessions| ==> GoodStep(px, px', s)
    ensures CommandOk(px', command)
  {
    hide EventIsDue, CloudAdvances, TasksAdvance, LogsAdvance, WaiterAdvances;
    if command.Some? {
      assert GoodStep(px, px', command.value.s);
    }
  }

  lemma HasCall(px: Proxy, call: Call)
    requires CallOk(px, call)
    ensures Has(px, call.s)
  {
  }

  /** The calibration's request is new, so it has not been written. */
  lemma CallBegins(px: Proxy)
    requires ProxyOk(px) && Enabled(px, StepCall(Refresh))
    requires !Full(px.limit, px.sessions[px.session.value].queue)
    ensures var s := px.session.value;
            CallOk(Do(px, StepCall(Refresh)),
                   Call(0, s, px.nextId, |px.sessions|, |px.sessions[s].observedAt|, |px.sessions[s].history|))
  {
    hide SessionsOk, Apart, StateOk, TimesOk, Balanced, RequestFrame;
    var s := px.session.value;
    var ses := px.sessions[s];
    assert Good(px, ses) by { AllGood(px, s); }
    HistoryCoversObservations(ses);
    forall k: nat | k < |ses.history| ensures !OwnWriteAt(ses, k, px.nextId) {
      NotYetWritten(px, ses, k);
    }
    var ses' := Do(px, StepCall(Refresh)).sessions[s];
    forall k: nat | k < |ses.history| ensures !OwnWriteAt(ses', k, px.nextId) {
      assert ses'.history == ses.history;
      assert !OwnWriteAt(ses, k, px.nextId);
    }
  }

  lemma AllGood(px: Proxy, s: nat)
    requires SessionsOk(px) && Has(px, s)
    ensures Good(px, px.sessions[s])
  {
  }

  lemma HistoryCoversObservations(ses: Session)
    requires SessionOk(ses)
    ensures 2 * |ses.observedAt| <= |ses.history|
  {
    hide HistoryOk, QueueOk, WaitersOk, CloudsOk, PhaseOk;
  }

  lemma NotYetWritten(px: Proxy, ses: Session, k: nat)
    requires Good(px, ses)
    ensures !OwnWriteAt(ses, k, px.nextId)
  {
    hide SessionOk;
    if OwnWriteAt(ses, k, px.nextId) {
      WrittenIsKnown(ses, k, px.nextId);
    }
  }

  lemma CalibrateKept(h: Home, reading: int)
    requires HomeOk(h) && h.call.None?
    ensures HomeOk(BeginCalibration(h, reading))
  {
    var h' := BeginCalibration(h, reading);
    if h' != h {
      CallKeepsState(h.px);
      ProxyingKept(h, StepCall(Refresh));
      hide ProxyOk, CallOk, CommandOk, Do, Enabled, PublishOk, Consistent;
      assert MeterOk(h') by { assert MeterOk(ProxyStep(h, StepCall(Refresh))); }
      hide MeterOk;
      if h'.call.Some? {
        CallBegins(h.px);
        CallReading(h'.px, h'.call.value, 0);
      }
      assert PublishOk(h') by { PublisherAlone(h, h'); }
    }
  }

  lemma PublisherAlone(h: Home, h': Home)
    requires PublishOk(h) && h'.publisher.at == h.publisher.at && h'.log == h.log
    ensures PublishOk(h')
  {
  }

  lemma CallKeepsState(px: Proxy)
    requires Enabled(px, StepCall(Refresh))
    ensures Do(px, StepCall(Refresh)).state == px.state
  {
  }

  lemma CallReading(px: Proxy, call: Call, reading: nat)
    ensures CallOk(px, call) <==> CallOk(px, call.(reading := reading))
  {
    var call' := call.(reading := reading);
    if CallOk(px, call') {
      forall k: nat | k < call.length ensures !OwnWriteAt(px.sessions[call.s], k, call.id) {
        assert !OwnWriteAt(px.sessions[call'.s], k, call'.id);
      }
    }
    if CallOk(px, call) {
      forall k: nat | k < call.length ensures !OwnWriteAt(px.sessions[call'.s], k, call'.id) {
        assert !OwnWriteAt(px.sessions[call.s], k, call.id);
      }
    }
  }

  lemma CalibrationKept(h: Home)
    requires HomeOk(h) && CallIsDone(h)
    ensures HomeOk(EndCalibration(h))
  {
    hide EndCalibration, CallIsDone, ProxyOk, CallOk, CommandOk, PublishOk, Consistent, MeterOk;
    CalibratedFields(h);
    CalibratedMeter(h);
    PublisherAlone(h, EndCalibration(h));
  }

  lemma CalibratedFields(h: Home)
    requires CallIsDone(h)
    ensures var h' := EndCalibration(h);
            && h'.px == h.px && h'.call == None && h'.command == h.command
            && h'.publisher == h.publisher && h'.log == h.log
  {
  }

  lemma CalibratedMeter(h: Home)
    requires MeterOk(h) && CallIsDone(h)
    ensures MeterOk(EndCalibration(h))
  {
    hide Meter.SetReading;
    var h' := EndCalibration(h);
    if h'.events != h.events {
      assert h'.events[..|h.events|] == h.events;
    }
  }

  lemma ReloadKept(h: Home, limit: nat)
    requires HomeOk(h) && h.call.None?
    ensures HomeOk(Reload(h, limit))
  {
    hide CallOk;
    var h' := Reload(h, limit);
    InitialInv(limit, h.px.clock);
    assert h'.events[..|h.events|] == h.events;
  }

  lemma EveryStepKeepsHomeOk(h: Home, step: HomeStep)
    requires HomeOk(h) && Possible(h, step)
    ensures HomeOk(Take(h, step))
  {
    hide ProxyOk, CallOk, CommandOk, Consistent, MeterOk, PublishOk;
    match step
    case Proxying(step) => ProxyingKept(h, step);
    case Calibrate(reading) => CalibrateKept(h, reading);
    case Calibration => CalibrationKept(h);
    case Reloading(limit) => ReloadKept(h, limit);
    case Publish(_, _) => PublishingKept(h, step);
    case Continue(_) => PublishingKept(h, step);
    case PublishFails => PublishingKept(h, step);
    case StopRunning => StoppingKept(h);
    case _ => AsidesKept(h, step);
  }

  lemma StoppingKept(h: Home)
    requires HomeOk(h)
    ensures HomeOk(h.(running := false))
  {
    hide ProxyOk, CallOk, CommandOk, Consistent;
    PublisherAlone(h, h.(running := false));
  }

  lemma CancelKept(h: Home)
    requires HomeOk(h)
    ensures HomeOk(CancelCommand(h))
    ensures CancelCommand(h).publisher == h.publisher && CancelCommand(h).command == h.command
  {
    hide HomeOk, Do;
    if CommandRuns(h) {
      ProxyingKept(h, StepCancelWaiter(h.command.value.s, h.command.value.id));
    }
  }

  lemma AsidesKept(h: Home, step: HomeStep)
    requires HomeOk(h) && Possible(h, step)
    requires step.Connection? || step.LinkDown? || step.BeginDiscovery? || step.Discovered? || step.RefreshTaken?
             || step.Commanded? || step.CommandCancelled? || step.CommandDone?
    ensures HomeOk(Take(h, step))
  {
    var h' := Take(h, step);
    CommandIsOk(h);
    hide HomeOk, CommandOk, Enabled, Do, PayloadOf, CommandRuns, CancelCommand, ReceiveCommand, TakeRefresh;
    match step
    case Connection(connected) => ConnectionKept(h, connected);
    case RefreshTaken => RefreshKept(h);
    case Commanded(valve) => CommandedKept(h, valve);
    case CommandCancelled => CancelKept(h);
    case CommandDone => AsideKept(h, None, h.publisher) by { NoCommandIsOk(h.px); }
    case _ => AsideKept(h, h.command, h'.publisher);
  }

  lemma ConnectionKept(h: Home, connected: bool)
    requires HomeOk(h)
    ensures HomeOk(Take(h, Connection(connected)))
  {
    hide HomeOk, CommandOk, CancelCommand;
    var h1 := if connected then h else CancelCommand(h);
    CancelKept(h);
    CommandIsOk(h1);
    AsideKept(h1, h1.command, ConnectionChanged(h.publisher, connected, h.px.clock));
  }

  lemma RefreshKept(h: Home)
    requires HomeOk(h)
    ensures HomeOk(TakeRefresh(h))
  {
    hide HomeOk, CommandOk, Enabled, Do;
    var h1 := if Enabled(h.px, StepCall(Refresh)) then ProxyStep(h, StepCall(Refresh)) else h;
    if Enabled(h.px, StepCall(Refresh)) {
      ProxyingKept(h, StepCall(Refresh));
    }
    CommandIsOk(h1);
    AsideKept(h1, h1.command, h1.publisher.(refreshNeeded := false));
  }

  lemma CommandIsOk(h: Home)
    requires HomeOk(h)
    ensures CommandOk(h.px, h.command)
  {
  }

  lemma NoCommandIsOk(px: Proxy)
    ensures CommandOk(px, None)
  {
  }

  lemma CommandedKept(h: Home, valve: Valve)
    requires HomeOk(h)
    ensures HomeOk(ReceiveCommand(h, valve))
  {
    hide HomeOk, Do, PayloadOf;
    if Enabled(h.px, StepCall(SetValve(valve))) {
      var h1 := ProxyStep(h, StepCall(SetValve(valve)));
      ProxyingKept(h, StepCall(SetValve(valve)));
      if !Full(h.px.limit, h.px.sessions[h.px.session.value].queue) {
        CallIsWaiting(h.px, SetValve(valve));
        AsideKept(h1, Some(Command(h.px.session.value, h.px.nextId)), h1.publisher);
      }
    }
  }

  lemma CallIsWaiting(px: Proxy, purpose: Purpose)
    requires Enabled(px, StepCall(purpose)) && !Full(px.limit, px.sessions[px.session.value].queue)
    ensures CommandOk(Do(px, StepCall(purpose)), Some(Command(px.session.value, px.nextId)))
  {
    hide RequestFrame;
  }

  lemma {:induction false} HistoryOkAlways(run: seq<Home>, steps: seq<HomeStep>, n: nat)
    requires IsHistory(run, steps) && n < |run|
    ensures HomeOk(run[n])
  {
    hide HomeOk, Possible, Take;
    if n == 0 {
      var limit, clock :| run[0] == Start(limit, clock);
      StartOk(limit, clock);
    } else {
      HistoryOkAlways(run, steps, n - 1);
      EveryStepKeepsHomeOk(run[n - 1], steps[n - 1]);
    }
  }

  lemma StartOk(limit: nat, clock: int)
    ensures HomeOk(Start(limit, clock))
  {
    InitialInv(limit, clock);
  }

  // ----- The meter ---------------------------------------------------------------------------------------

  /**
   Across reconnections and clean reloads: a meter reading is shown exactly when the counter is
   fresh, was calibrated, and has not fallen since; and it is what the user entered plus what
   the counter has gained since the calibration, up to the value now visible.
   */
  lemma ReadingAgrees(run: seq<Home>, steps: seq<HomeStep>, n: nat)
    requires IsHistory(run, steps) && n < |run|
    ensures var h, counts := run[n], Meter.Counts(run[n].events);
            && (MeterNow(h).Some? <==> TotalNow(h.px).Some? && counts != [] && !Meter.Falls(counts))
            && (MeterNow(h).Some? ==>
                  && LastOf(counts) == TotalNow(h.px)
                  && MeterNow(h) == Some(Meter.Entered(h.events) + Meter.Increase(counts)))
            && (Meter.StatusOf(h.meter) == Meter.CounterReset <==> Meter.Falls(counts))
            && (Meter.StatusOf(h.meter) == Meter.NotConfigured <==> counts == [])
  {
    hide ProxyOk, IsHistory, CallOk, PublishOk, Consistent;
    HistoryOkAlways(run, steps, n);
    Meter.MeterAgreement(run[n].events);
  }

  lemma HistoryStep(run: seq<Home>, steps: seq<HomeStep>, n: nat)
    requires IsHistory(run, steps) && n < |steps|
    ensures n + 1 < |run| && Possible(run[n], steps[n]) && run[n + 1] == Take(run[n], steps[n])
  {
    hide Possible, Take;
  }

  ghost predicate BeganAt(h: Home, step: HomeStep, call: Call) {
    && step == Calibrate(call.reading)
    && |h.px.sessions| == call.sessions && Has(h.px, call.s)
    && |h.px.sessions[call.s].observedAt| == call.observed
  }

  lemma {:induction false} CallHasABegin(run: seq<Home>, steps: seq<HomeStep>, j: nat) returns (i: nat)
    requires IsHistory(run, steps) && j < |run| && run[j].call.Some?
    ensures i < j && i < |steps| && BeganAt(run[i], steps[i], run[j].call.value)
  {
    hide IsHistory, Possible, Enabled, Do, PayloadOf;
    if j == 0 {
      StartsWithoutCall(run, steps);
    } else {
      HistoryLength(run, steps);
      HistoryStep(run, steps, j - 1);
      if run[j - 1].call == run[j].call {
        i := CallHasABegin(run, steps, j - 1);
      } else {
        i := j - 1;
        CallOnlyByCalibrate(run[j - 1], steps[j - 1]);
      }
    }
  }

  lemma StartsWithoutCall(run: seq<Home>, steps: seq<HomeStep>)
    requires IsHistory(run, steps)
    ensures run[0].call.None?
  {
  }

  lemma HistoryLength(run: seq<Home>, steps: seq<HomeStep>)
    requires IsHistory(run, steps)
    ensures |run| == |steps| + 1
  {
  }

  lemma CallOnlyByCalibrate(h: Home, step: HomeStep)
    requires Possible(h, step) && Take(h, step).call != h.call && Take(h, step).call.Some?
    ensures BeganAt(h, step, Take(h, step).call.value)
  {
    hide PayloadOf, Do;
  }

  /**
   A calibration uses a count that the device reported after the calibration began: an answer
   that the proxy had not yet observed, in the session of then or a later one.
   */
  lemma CalibrationUsesANewCount(run: seq<Home>, steps: seq<HomeStep>, j: nat, reading: nat, base: nat)
    returns (i: nat, k: nat, frame: Frame, time: int)
    requires IsHistory(run, steps) && j < |steps| && steps[j].Calibration?
    requires run[j + 1].events == run[j].events + [Meter.Calibrated(reading, base)]
    ensures i < j && steps[i] == Calibrate(reading)
    ensures IsAnswer(run[j].px, k, frame, time) && Counter(frame) == Some(base)
    ensures var s := run[j].px.session.value;
            s < |run[i].px.sessions| ==> k >= |run[i].px.sessions[s].observedAt|
  {
    hide *;
    HistoryStep(run, steps, j);
    HistoryOkAlways(run, steps, j);
    CalibratedWith(run[j], steps[j], reading, base);
    i := CallHasABegin(run, steps, j);
    CallParts(run[j]);
    k, frame, time := NewCount(run[j].px, run[j].call.value);
    BeginParts(run[i], steps[i], run[j].call.value);
    ShownParts(run[j].px, k, frame, time);
  }

  lemma CalibratedWith(h: Home, step: HomeStep, reading: nat, base: nat)
    requires Possible(h, step) && step.Calibration?
    requires Take(h, step).events == h.events + [Meter.Calibrated(reading, base)]
    ensures h.call.Some? && h.call.value.reading == reading && h.px.state.totalLiters == Some(base)
    ensures Has(h.px, h.call.value.s)
    ensures var ses := h.px.sessions[h.call.value.s];
            h.call.value.id in ses.waiters && ses.waiters[h.call.value.id].future.Resolved?
  {
    assert (h.events + [Meter.Calibrated(reading, base)])[|h.events|] == Meter.Calibrated(reading, base);
    assert |Take(h, step).events| == |h.events| + 1;
    assert Take(h, step).events[|h.events|] == Meter.Calibrated(h.call.value.reading, TotalNow(h.px).value);
  }

  lemma CallParts(h: Home)
    requires HomeOk(h) && h.call.Some?
    ensures ProxyOk(h.px) && CallOk(h.px, h.call.value)
  {
  }

  lemma BeginParts(h: Home, step: HomeStep, call: Call)
    requires BeganAt(h, step, call)
    ensures step == Calibrate(call.reading) && |h.px.sessions| == call.sessions
    ensures Has(h.px, call.s) && |h.px.sessions[call.s].observedAt| == call.observed
  {
  }

  lemma ShownParts(px: Proxy, k: nat, frame: Frame, time: int)
    requires IsAnswer(px, k, frame, time)
    ensures px.session.Some? && Has(px, px.session.value)
  {
  }

  /** What is visible once the snapshot has been answered was observed after the call began. */
  lemma NewCount(px: Proxy, call: Call) returns (k: nat, frame: Frame, time: int)
    requires ProxyOk(px) && CallOk(px, call) && px.state.totalLiters.Some?
    requires px.sessions[call.s].waiters[call.id].future.Resolved?
    ensures IsAnswer(px, k, frame, time) && Counter(frame) == px.state.totalLiters
    ensures px.session.value == call.s ==> k >= call.observed
    ensures px.session.value == call.s || px.session.value >= call.sessions
  {
    hide LastReport, LastCount, Unconfirmed, Position, Counter, StatusValues, Apart, TimesOk, Balanced, SessionOk;
    CountIsPast(px);
    var ses := px.sessions[px.session.value];
    k := LastCount(ses.history, |ses.observedAt|).value;
    frame, time := ses.history[2 * k + 1].frame, ses.observedAt[k];
    if px.session.value == call.s {
      AllGood(px, call.s);
      var k0 := SnapshotAnswered(ses, call);
      LastCountIsLater(ses.history, |ses.observedAt|, k0);
    }
  }

  lemma {:induction false} LastCountIsLater(history: seq<Event>, m: nat, k: nat)
    requires k < m && 2 * m <= |history| && history[2 * k + 1].Answered? && Counter(history[2 * k + 1].frame).Some?
    ensures LastCount(history, m).Some? && LastCount(history, m).value >= k
  {
    hide Counter;
    if k < m - 1 {
      LastCountIsLater(history, m - 1, k);
    }
  }

  lemma SnapshotAnswered(ses: Session, call: Call) returns (k: nat)
    requires SessionOk(ses) && call.id in ses.waiters && ses.waiters[call.id].purpose.Refresh?
    requires ses.waiters[call.id].future.Resolved?
    requires 2 * call.observed <= call.length
    requires forall i: nat :: i < call.length ==> !OwnWriteAt(ses, i, call.id)
    ensures call.observed <= k < |ses.observedAt| && 2 * |ses.observedAt| <= |ses.history|
    ensures ses.history[2 * k + 1].Answered? && Counter(ses.history[2 * k + 1].frame).Some?
  {
    HistoryCoversObservations(ses);
    hide WorkerOk, QueueOk, CloudsOk, PhaseOk, StatusValues;
    assert WaiterOk(ses, call.id);
    var response := ses.waiters[call.id].future.frame;
    var i :| DeliveredAt(ses.history, |ses.observedAt|, call.id, response, i);
    WritesAreKnown(ses, i);
    var request := ses.requests[call.id];
    assert request.frame == ReadSnapshot(request.frame.source);
    assert request.frame.ValveCommand() == None;
    assert OwnWriteAt(ses, i, call.id);
    var h := ses.history;
    assert i % 2 == 0 && response.Matches(h[i].frame) && h[i].frame == request.frame by {
      hide WaitersOk;
      AnswersMatch(ses, i);
    }
    SnapshotReadYieldsCounter(request.frame.source, response);
    k := i / 2;
  }

  lemma AnswersMatch(ses: Session, i: int)
    requires HistoryOk(ses) && 0 <= i && i + 1 < |ses.history| && ses.history[i].Wrote? && ses.history[i + 1].Answered?
    ensures i % 2 == 0 && ses.history[i + 1].frame.Matches(ses.history[i].frame)
    ensures !ses.history[i].confirming ==> ses.history[i].frame == ses.history[i].request.frame
  {
    hide WritesInOrder, StatusRead;
  }

  // ----- The publisher -----------------------------------------------------------------------------------------

  /** At every moment, whatever failed before: not `online` while the last state report says unavailable. */
  lemma NeverOnlineWhileUnavailable(run: seq<Home>, steps: seq<HomeStep>, n: nat)
    requires IsHistory(run, steps) && n < |run| && LastAvailability(run[n].log) == Some(true)
    ensures exists job, generation, payload :: LastState(run[n].log) == Some(StateReport(job, generation, payload))
                                               && payload.available
  {
    hide ProxyOk, IsHistory, CallOk, PublishOk, MeterOk;
    HistoryOkAlways(run, steps, n);
    var m := LastState(run[n].log).value;
    assert LastState(run[n].log) == Some(StateReport(m.job, m.generation, m.payload));
  }

  /** What the publisher knows of the connection is its latest event, and no later than now. */
  ghost predicate ConnectedAfter(run: seq<Home>, steps: seq<HomeStep>, n: nat) {
    && n < |run| && n <= |steps|
    && (run[n].publisher.connectedAt.Some? ==> run[n].publisher.connectedAt.value <= run[n].px.clock)
    && forall i :: 0 <= i < n ==>
         && run[i].px.clock <= run[n].px.clock
         && (steps[i] == Connection(true) && run[n].publisher.connectedAt.Some? ==>
               run[i].px.clock <= run[n].publisher.connectedAt.value)
  }

  /** What a step of the home does to the proxy: nothing, one step of the proxy, or a new one. */
  lemma ProxyMoves(h: Home, step: HomeStep)
    requires Possible(h, step) && !step.Reloading?
    ensures var px' := Take(h, step).px;
            px' == h.px || exists own :: Enabled(h.px, own) && px' == Do(h.px, own)
  {
    hide PayloadOf, Do, Enabled;
    match step
    case Proxying(own) => assert Enabled(h.px, own);
    case Calibrate(_) => if Enabled(h.px, StepCall(Refresh)) { assert Enabled(h.px, StepCall(Refresh)); }
    case RefreshTaken => if Enabled(h.px, StepCall(Refresh)) { assert Enabled(h.px, StepCall(Refresh)); }
    case Commanded(valve) =>
      if Enabled(h.px, StepCall(SetValve(valve))) { assert Enabled(h.px, StepCall(SetValve(valve))); }
    case Connection(_) => CancelMoves(h);
    case CommandCancelled => CancelMoves(h);
    case _ =>
  }

  lemma CancelMoves(h: Home)
    ensures var px' := CancelCommand(h).px;
            px' == h.px || exists own :: Enabled(h.px, own) && px' == Do(h.px, own)
  {
    hide Do;
    if CommandRuns(h) {
      var own := StepCancelWaiter(h.command.value.s, h.command.value.id);
      assert Enabled(h.px, own) && CancelCommand(h).px == Do(h.px, own);
    }
  }

  lemma ConnectionTimes(h: Home, step: HomeStep)
    requires HomeOk(h) && Possible(h, step)
    ensures var h' := Take(h, step);
            && h.px.clock <= h'.px.clock
            && (h'.publisher.connectedAt == h.publisher.connectedAt || h'.publisher.connectedAt == None
                || h'.publisher.connectedAt == Some(h.px.clock))
            && (step == Connection(true) ==> h'.publisher.connectedAt == Some(h.px.clock))
  {
    ConnectionFields(h, step);
    if !step.Reloading? && Take(h, step).px != h.px {
      ProxyMoves(h, step);
      hide Take, Possible, Do, Enabled, MeterOk, CallOk, PublishOk, Consistent, SessionsOk, Apart, StateOk, TimesOk, Balanced;
      var own :| Enabled(h.px, own) && Take(h, step).px == Do(h.px, own);
      NewestStays(h.px, own);
    }
  }

  lemma CancelKeepsPublisher(h: Home)
    ensures CancelCommand(h).publisher == h.publisher
  {
    hide Do;
  }

  lemma ConnectionFields(h: Home, step: HomeStep)
    requires Possible(h, step)
    ensures var p, p' := h.publisher, Take(h, step).publisher;
            && (p'.connectedAt == p.connectedAt || p'.connectedAt == None || p'.connectedAt == Some(h.px.clock))
            && (step == Connection(true) ==> p'.connectedAt == Some(h.px.clock))
            && (step.Reloading? ==> Take(h, step).px.clock == h.px.clock)
  {
    hide PayloadOf, Do, Enabled, CancelCommand;
    CancelKeepsPublisher(h);
  }

  lemma {:induction false} ConnectedAfterAlways(run: seq<Home>, steps: seq<HomeStep>, n: nat)
    requires IsHistory(run, steps) && n < |run|
    ensures ConnectedAfter(run, steps, n)
  {
    hide HomeOk, IsHistory, Possible, Take;
    HistoryLength(run, steps);
    if n == 0 {
      StartsUnconnected(run, steps);
    } else {
      ConnectedAfterAlways(run, steps, n - 1);
      HistoryStep(run, steps, n - 1);
      HistoryOkAlways(run, steps, n - 1);
      ConnectionTimes(run[n - 1], steps[n - 1]);
    }
  }

  lemma StartsUnconnected(run: seq<Home>, steps: seq<HomeStep>)
    requires IsHistory(run, steps)
    ensures run[0].publisher.connectedAt == None
  {
  }

  /**
   Every `online` follows an available state report of the same `_publish` and generation, with
   no other report since. At that moment the valve position is a report of the device's current
   session, at most 120 s old, accepted at or after every connection and birth event so far.
   */
  lemma OnlineMeansEvidence(run: seq<Home>, steps: seq<HomeStep>, n: nat, job: nat, generation: nat)
    returns (payload: Payload, k: nat, frame: Frame, time: int)
    requires IsHistory(run, steps) && n < |steps|
    requires run[n + 1].log == run[n].log + [Availability(job, generation, true)]
    ensures LastState(run[n].log) == Some(StateReport(job, generation, payload)) && payload.available
    ensures generation == run[n].publisher.generation
    ensures IsAnswer(run[n].px, k, frame, time) && Position(frame).Some? && Position(frame) == run[n].px.state.valve
    ensures run[n].px.clock - 120_000_000 <= time <= run[n].px.clock
    ensures forall i :: 0 <= i < n && steps[i] == Connection(true) ==> run[i].px.clock <= time
  {
    HistoryOkAlways(run, steps, n);
    HistoryStep(run, steps, n);
    ConnectedAfterAlways(run, steps, n);
    hide IsHistory, Inv, MeterOk, CallOk, Meter.StatusOf;
    var h := run[n];
    OnlyAvailabilitySends(h, steps[n], job, generation);
    payload := h.publisher.at.job.payload;
    k, frame, time := ShownValve(h.px);
  }

  lemma OnlyAvailabilitySends(h: Home, step: HomeStep, job: nat, generation: nat)
    requires Possible(h, step) && Take(h, step).log == h.log + [Availability(job, generation, true)]
    ensures h.publisher.at.AwaitBridge? && h.publisher.at.job.number == job
    ensures h.publisher.at.job.generation == generation == h.publisher.generation
    ensures h.publisher.at.job.payload.available && PayloadOf(h, false).available
  {
    hide PayloadOf, Do, Enabled;
    var log' := Take(h, step).log;
    assert log'[|h.log|] == Availability(job, generation, true);
  }

  lemma ShownValve(px: Proxy) returns (k: nat, frame: Frame, time: int)
    requires ProxyOk(px) && px.state.valve.Some?
    ensures IsAnswer(px, k, frame, time) && Position(frame) == px.state.valve && px.state.valveUpdated == Some(time)
  {
    hide LastReport, LastCount, Unconfirmed, Position, Counter, StatusValues, SessionsOk, Apart, TimesOk, Balanced,
      PointersOk;
    var ses := px.sessions[px.session.value];
    k := LastReport(ses.history, |ses.observedAt|).value;
    frame, time := ses.history[2 * k + 1].frame, ses.observedAt[k];
  }
}