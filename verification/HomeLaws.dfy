/**
 What the publisher, the runtime and the meter do exactly, and when, in the fields of the state:
 which messages go out, when a command or a calibration is carried out, and what is remembered of
 the MQTT connection.
 */
module HomeLaws {
  import opened Base
  import opened Protocol
  import opened ProxyModel
  import opened ProxyInvariant
  import opened ProxySafety
  import opened ProxyTheorems
  import opened ProxyLaws
  import opened ProxyExactly
  import opened HomeModel
  import opened HomeTheorems
  import opened HomeCommands
  import opened HomeObjects
  import Meter

  // ----- Reports ------------------------------------------------------------------------------

  /**
   The device is connected, and its position was reported at most 120 s ago, at or after the
   latest connection event of a connection that is up.
   */
  ghost predicate Evidence(h: Home) {
    var state := h.px.state;
    && state.deviceConnected && state.valve.Some? && state.valveUpdated.Some?
    && 0 <= h.px.clock - state.valveUpdated.value <= 120_000_000
    && h.publisher.connectedAt.Some? && h.publisher.connectedAt.value <= state.valveUpdated.value
  }

  /** The counter was reported at most 600 s ago. */
  ghost predicate CounterFresh(px: Proxy) {
    && px.state.deviceConnected && px.state.counterUpdated.Some?
    && 0 <= px.clock - px.state.counterUpdated.value <= 600_000_000
  }

  ghost predicate Tells(h: Home, offline: bool, p: Payload) {
    var state, meter := h.px.state, h.meter;
    && (p.available <==> !offline && Evidence(h))
    && p.valve == (if p.available then state.valve else None)
    && p.observedAt == (if p.available then state.valveUpdated else None)
    && p.validUntil == (if p.available then Some(state.valveUpdated.value + 120_000_000) else None)
    && p.totalLiters == (if p.available && CounterFresh(h.px) then state.totalLiters else None)
    && p.meterLiters == (if p.totalLiters.Some? && meter.offset.Some?
                         then Some(p.totalLiters.value + meter.offset.value) else None)
    && p.counterObservedAt == (if p.available then state.counterUpdated else None)
    && p.meterStatus == (if meter.resetDetected then Meter.CounterReset
                         else if meter.offset.Some? then Meter.Ready else Meter.NotConfigured)
    && (p.deviceConnected <==> state.deviceConnected && !offline)
    && (p.cloudConnected <==> state.cloudConnected && !offline)
  }

  /** A report is available exactly on evidence, and each of its fields is that of the state. */
  lemma ReportsExactly(h: Home, offline: bool)
    ensures Tells(h, offline, PayloadOf(h, offline))
  {
  }

  /** A plain message commands a position exactly if its payload is one of two words. */
  lemma PositionsExactly(message: CommandMessage)
    ensures message.Position() == Some(Open) <==> !message.retain && message.payload == "OPEN"
    ensures message.Position() == Some(Closed) <==> !message.retain && message.payload == "CLOSE"
  {
  }

  // ----- Publishing ---------------------------------------------------------------------------

  /** Nothing fails, nothing is restarted and no other `_publish` begins between steps `b` and `n`. */
  ghost predicate Undisturbed(steps: seq<HomeStep>, b: nat, n: nat) {
    && b < n <= |steps|
    && forall i :: b < i < n ==>
         !steps[i].PublishFails? && !steps[i].Reloading? && !steps[i].Publish? && (steps[i].Continue? ==> steps[i].sent)
  }

  /** What `_publish` sends before it considers availability again. */
  ghost function FirstMessages(job: Job): seq<Message> {
    (if job.payload.available then [] else [Availability(job.number, job.generation, false)])
    + [StateReport(job.number, job.generation, job.payload)]
  }

  /** Its last message, sent at step `m`: online exactly on evidence, in the generation it began in. */
  ghost predicate ConcludedAt(run: seq<Home>, steps: seq<HomeStep>, m: nat, job: Job, last: Message) {
    && m < |steps| && m < |run| && steps[m] == Continue(true) && run[m].publisher.at == AwaitBridge(job)
    && var generation := run[m].publisher.generation;
       last == Availability(job.number, generation, generation == job.generation && Evidence(run[m]))
  }

  ghost predicate Concluded(run: seq<Home>, steps: seq<HomeStep>, b: nat, n: nat, job: Job, last: Message) {
    exists m: nat :: b < m < n && ConcludedAt(run, steps, m, job, last)
  }

  /** What a job has sent since the log was `before`, by where it is. */
  ghost predicate SentBy(run: seq<Home>, steps: seq<HomeStep>, b: nat, n: nat, job: Job)
    requires b < n < |run|
  {
    var before, log, first := run[b].log, run[n].log, FirstMessages(job);
    var bridge := first + [Bridge(job.number, !job.offline)];
    match run[n].publisher.at
    case AwaitOffline(j) => j == job && !job.payload.available && log == before + first[..1]
    case AwaitState(j) => j == job && log == before + first
    case AwaitBridge(j) => j == job && log == before + bridge
    case AwaitAvailability(j) =>
      j == job && job.payload.available
      && exists last :: log == before + (bridge + [last]) && Concluded(run, steps, b, n, job, last)
    case Idle =>
      if job.payload.available
      then exists last :: log == before + (bridge + [last]) && Concluded(run, steps, b, n, job, last)
      else log == before + bridge
  }

  /** Every other step leaves the running job and the log alone. */
  lemma OthersPublishNothing(h: Home, step: HomeStep)
    requires Possible(h, step) && !step.Publish? && !step.Continue? && !step.PublishFails? && !step.Reloading?
    ensures Take(h, step).publisher.at == h.publisher.at && Take(h, step).log == h.log
  {
    hide PayloadOf, Do, Enabled;
  }

  ghost function JobOf(h: Home, offline: bool): Job {
    Job(h.publisher.jobs, h.publisher.generation, PayloadOf(h, offline), offline)
  }

  lemma BeginsExactly(h: Home, offline: bool)
    requires Possible(h, Publish(offline, true))
    ensures var h', job := Take(h, Publish(offline, true)), JobOf(h, offline);
            if job.payload.available then h'.publisher.at == AwaitState(job) && h'.log == h.log + FirstMessages(job)
            else h'.publisher.at == AwaitOffline(job) && h'.log == h.log + FirstMessages(job)[..1]
  {
    hide PayloadOf;
    var job := JobOf(h, offline);
    if job.payload.available {
      assert FirstMessages(job) == [StateReport(job.number, job.generation, job.payload)];
    } else {
      assert FirstMessages(job)[..1] == [Availability(job.number, job.generation, false)];
    }
  }

  ghost function NextMessage(h: Home): Option<Message>
    requires !h.publisher.at.Idle?
  {
    var job := h.publisher.at.job;
    match h.publisher.at
    case AwaitOffline(_) => Some(StateReport(job.number, job.generation, job.payload))
    case AwaitState(_) => Some(Bridge(job.number, !job.offline))
    case AwaitBridge(_) =>
      if job.payload.available
      then Some(Availability(job.number, h.publisher.generation, h.publisher.generation == job.generation && Evidence(h)))
      else None
    case AwaitAvailability(_) => None
  }

  ghost function NextAt(at: PublishAt): PublishAt
    requires !at.Idle?
  {
    match at
    case AwaitOffline(job) => AwaitState(job)
    case AwaitState(job) => AwaitBridge(job)
    case AwaitBridge(job) => if job.payload.available then AwaitAvailability(job) else Idle
    case AwaitAvailability(_) => Idle
  }

  lemma ContinuesExactly(h: Home)
    requires Possible(h, Continue(true))
    ensures var h' := Take(h, Continue(true));
            && h'.publisher.at == NextAt(h.publisher.at)
            && h'.log == h.log + if NextMessage(h).Some? then [NextMessage(h).value] else []
  {
    ReportsExactly(h, false);
    hide PayloadOf, Evidence, CounterFresh;
    assert h.log + [] == h.log;
  }

  lemma FirstIsWhole(job: Job)
    ensures var first := FirstMessages(job);
            && !job.payload.available ==> first == first[..1] + [StateReport(job.number, job.generation, job.payload)]
  {
  }

  lemma ContinuedJob(run: seq<Home>, steps: seq<HomeStep>, b: nat, n: nat, job: Job)
    requires b < n && n + 1 < |run| && n < |steps| && steps[n] == Continue(true)
    requires Possible(run[n], steps[n]) && run[n + 1] == Take(run[n], steps[n]) && SentBy(run, steps, b, n, job)
    ensures SentBy(run, steps, b, n + 1, job)
  {
    ContinuesExactly(run[n]);
    hide Take, Possible, Evidence, FirstMessages;
    FirstIsWhole(job);
    var before, first, bridge := run[b].log, FirstMessages(job), FirstMessages(job) + [Bridge(job.number, !job.offline)];
    match run[n].publisher.at
    case AwaitOffline(_) =>
      assert before + first[..1] + [StateReport(job.number, job.generation, job.payload)] == before + first;
    case AwaitState(_) =>
      assert before + first + [Bridge(job.number, !job.offline)] == before + bridge;
    case AwaitBridge(_) =>
      if job.payload.available {
        var last := NextMessage(run[n]).value;
        assert ConcludedAt(run, steps, n, job, last);
        assert Concluded(run, steps, b, n + 1, job, last);
        assert before + bridge + [last] == before + (bridge + [last]);
      } else {
        assert before + bridge + [] == before + bridge;
      }
    case AwaitAvailability(_) =>
      StaysConcluded(run, steps, b, n, job);
      assert run[n].log + [] == run[n].log;
  }

  lemma StaysConcluded(run: seq<Home>, steps: seq<HomeStep>, b: nat, n: nat, job: Job)
    ensures forall last :: Concluded(run, steps, b, n, job, last) ==> Concluded(run, steps, b, n + 1, job, last)
  {
    hide ConcludedAt;
  }

  lemma {:induction false} JobProceeds(run: seq<Home>, steps: seq<HomeStep>, b: nat, n: nat, offline: bool)
    requires IsHistory(run, steps) && n < |run| && |run| == |steps| + 1 && Undisturbed(steps, b, n)
    requires steps[b] == Publish(offline, true)
    ensures SentBy(run, steps, b, n, JobOf(run[b], offline))
  {
    hide IsHistory, Possible, Take, SentBy, FirstMessages, PayloadOf;
    var job := JobOf(run[b], offline);
    if n == b + 1 {
      HistoryStep(run, steps, b);
      BeginsExactly(run[b], offline);
      JobStarts(run, steps, b, n, job);
    } else {
      JobProceeds(run, steps, b, n - 1, offline);
      HistoryStep(run, steps, n - 1);
      if steps[n - 1].Continue? {
        ContinuedJob(run, steps, b, n - 1, job);
      } else {
        OthersPublishNothing(run[n - 1], steps[n - 1]);
        JobRests(run, steps, b, n - 1, job);
      }
    }
  }

  lemma JobStarts(run: seq<Home>, steps: seq<HomeStep>, b: nat, n: nat, job: Job)
    requires b < n < |run|
    requires if job.payload.available then run[n].publisher.at == AwaitState(job) && run[n].log == run[b].log + FirstMessages(job)
             else run[n].publisher.at == AwaitOffline(job) && run[n].log == run[b].log + FirstMessages(job)[..1]
    ensures SentBy(run, steps, b, n, job)
  {
  }

  lemma JobRests(run: seq<Home>, steps: seq<HomeStep>, b: nat, n: nat, job: Job)
    requires b < n && n + 1 < |run| && SentBy(run, steps, b, n, job)
    requires run[n + 1].publisher.at == run[n].publisher.at && run[n + 1].log == run[n].log
    ensures SentBy(run, steps, b, n + 1, job)
  {
    hide FirstMessages, Concluded;
    StaysConcluded(run, steps, b, n, job);
  }

  /**
   A `_publish` whose messages are all sent: its report is available exactly on evidence at its begin. If it
   is, the report and the bridge go out, and at last an availability message, which says online if
   and only if, at that moment, the generation is still the job's and there is evidence. If not,
   `offline` goes out first.
   */
  lemma PublishesExactly(run: seq<Home>, steps: seq<HomeStep>, b: nat, n: nat, offline: bool)
    returns (payload: Payload, m: nat)
    requires IsHistory(run, steps) && n < |run| && Undisturbed(steps, b, n)
    requires steps[b] == Publish(offline, true) && run[n].publisher.at.Idle?
    ensures b < |run| && m < |run| && Tells(run[b], offline, payload)
    ensures payload.available <==> !offline && Evidence(run[b])
    ensures var k, g, k1 := run[b].publisher.jobs, run[b].publisher.generation, run[m].publisher.generation;
            if payload.available then
              && b < m < n && steps[m] == Continue(true)
              && run[n].log == run[b].log + [StateReport(k, g, payload), Bridge(k, true),
                                             Availability(k, k1, k1 == g && Evidence(run[m]))]
            else
              run[n].log == run[b].log + [Availability(k, g, false), StateReport(k, g, payload), Bridge(k, !offline)]
  {
    HistoryLength(run, steps);
    JobProceeds(run, steps, b, n, offline);
    hide IsHistory, PayloadOf, Evidence, Tells, Undisturbed, SentBy;
    payload := PayloadOf(run[b], offline);
    ReportsExactly(run[b], offline);
    ReportAvailable(run[b], offline, payload);
    m := FinishedJob(run, steps, b, n, JobOf(run[b], offline));
  }

  lemma FinishedJob(run: seq<Home>, steps: seq<HomeStep>, b: nat, n: nat, job: Job) returns (m: nat)
    requires b < n < |run| && SentBy(run, steps, b, n, job) && run[n].publisher.at.Idle?
    ensures m < |run|
    ensures job.payload.available ==>
              && b < m < n && m < |steps| && steps[m] == Continue(true)
              && var generation := run[m].publisher.generation;
                 run[n].log == run[b].log + [
                   StateReport(job.number, job.generation, job.payload), Bridge(job.number, !job.offline),
                   Availability(job.number, generation, generation == job.generation && Evidence(run[m]))]
    ensures !job.payload.available ==>
              run[n].log == run[b].log + [Availability(job.number, job.generation, false),
                StateReport(job.number, job.generation, job.payload), Bridge(job.number, !job.offline)]
  {
    hide Evidence;
    m := b;
    if job.payload.available {
      var last :| run[n].log == run[b].log + (FirstMessages(job) + [Bridge(job.number, !job.offline)] + [last])
                  && Concluded(run, steps, b, n, job, last);
      m :| b < m < n && ConcludedAt(run, steps, m, job, last);
      assert FirstMessages(job) + [Bridge(job.number, !job.offline)] + [last]
          == [StateReport(job.number, job.generation, job.payload), Bridge(job.number, !job.offline), last];
    }
  }

  lemma ReportAvailable(h: Home, offline: bool, p: Payload)
    requires Tells(h, offline, p)
    ensures p.available <==> !offline && Evidence(h)
  {
    hide Evidence;
  }

  /** A publish that fails sends nothing and ends the job. */
  lemma FailuresEndTheJob(h: Home, step: HomeStep)
    requires Possible(h, step) && (step == Continue(false) || step.PublishFails? || (step.Publish? && !step.sent))
    ensures var h' := Take(h, step);
            h' == h.(publisher := h.publisher.(at := Idle, jobs := h'.publisher.jobs))
  {
    hide PayloadOf;
  }

  // ----- Commands and calibrations ---------------------------------------------------------------

  lemma CallState(px: Proxy, purpose: Purpose)
    requires Enabled(px, StepCall(purpose))
    ensures Do(px, StepCall(purpose)).state == px.state
  {
    hide RequestFrame;
  }

  /** A call of the home is a call of the proxy, and shows the meter nothing. */
  lemma CallsAlone(h: Home, purpose: Purpose)
    requires PointersOk(h.px) && Enabled(h.px, StepCall(purpose))
    ensures var h' := ProxyStep(h, StepCall(purpose));
            && h' == h.(px := h'.px) && Submitted(h.px, h'.px, h.px.session.value, purpose, true)
  {
    CallsExactly(h.px, purpose, 0, false);
    CallState(h.px, purpose);
    hide Do, Enabled, Submitted;
  }

  lemma RoomIsLeft(px: Proxy, ses: Session)
    ensures Full(px.limit, ses.queue) <==> !Room(px, ses)
  {
  }

  /**
   An MQTT command is carried out if and only if there is evidence, no other is running and the
   current session acts: it is then submitted to the proxy like any call, and runs if the queue had
   room. Otherwise nothing changes.
   */
  lemma CommandsExactly(h: Home, valve: Valve)
    requires PointersOk(h.px)
    ensures var h' := Take(h, Commanded(valve));
            if Evidence(h) && h.command == None && h.px.session.Some? && Acts(h.px, h.px.session.value) then
              var s := h.px.session.value;
              && Submitted(h.px, h'.px, s, SetValve(valve), true)
              && h' == h.(px := h'.px,
                          command := if Room(h.px, h.px.sessions[s]) then Some(Command(s, h.px.nextId)) else None)
            else h' == h
  {
    CallsExactly(h.px, SetValve(valve), 0, false);
    CommandCalls(h, valve);
    if Enabled(h.px, StepCall(SetValve(valve))) {
      CallsAlone(h, SetValve(valve));
      RoomIsLeft(h.px, h.px.sessions[h.px.session.value]);
    }
    hide Evidence, Do, Enabled, Submitted, ProxyStep, Room, Full, ReceiveCommand, Acts;
  }

  lemma CommandCalls(h: Home, valve: Valve)
    requires PointersOk(h.px)
    ensures var h', step := ReceiveCommand(h, valve), StepCall(SetValve(valve));
            var submits := Evidence(h) && h.command == None && Enabled(h.px, step);
            && (!submits ==> h' == h)
            && (submits ==>
                  h' == ProxyStep(h, step).(command :=
                    if Full(h.px.limit, h.px.sessions[h.px.session.value].queue) then None
                    else Some(Command(h.px.session.value, h.px.nextId))))
  {
    ReportsExactly(h, false);
    hide Evidence, CounterFresh, PayloadOf, Do, Full;
  }

  /** The snapshot after a connection event is asked for once, of a session that acts. */
  lemma RefreshesExactly(h: Home)
    requires PointersOk(h.px) && Possible(h, RefreshTaken)
    ensures var h' := Take(h, RefreshTaken);
            && h' == h.(px := h'.px, publisher := h.publisher.(refreshNeeded := false))
            && if h.px.session.Some? && Acts(h.px, h.px.session.value)
               then Submitted(h.px, h'.px, h.px.session.value, Refresh, true) else h'.px == h.px
  {
    CallsExactly(h.px, Refresh, 0, false);
    if Enabled(h.px, StepCall(Refresh)) {
      CallsAlone(h, Refresh);
    }
    hide Do, Enabled, Submitted, ProxyStep;
  }

  /** A calibration begins if and only if the reading is valid, the runtime runs and the session acts. */
  lemma CalibrationsBeginExactly(h: Home, reading: int)
    requires PointersOk(h.px) && Possible(h, Calibrate(reading))
    ensures var h' := Take(h, Calibrate(reading));
            if 0 <= reading && h.running && h.px.session.Some? && Acts(h.px, h.px.session.value) then
              var s := h.px.session.value;
              var ses := h.px.sessions[s];
              && Submitted(h.px, h'.px, s, Refresh, true)
              && h' == h.(px := h'.px,
                          call := if Room(h.px, ses)
                                  then Some(Call(reading, s, h.px.nextId, |h.px.sessions|, |ses.observedAt|, |ses.history|))
                                  else None)
            else h' == h
  {
    CallsExactly(h.px, Refresh, 0, false);
    CalibrationCalls(h, reading);
    if Enabled(h.px, StepCall(Refresh)) {
      RoomIsLeft(h.px, h.px.sessions[h.px.session.value]);
    }
    hide Do, Enabled, Submitted, Room, Full, Acts, BeginCalibration;
  }

  lemma CalibrationCalls(h: Home, reading: int)
    requires PointersOk(h.px)
    ensures var h', begins := BeginCalibration(h, reading), 0 <= reading && h.running && Enabled(h.px, StepCall(Refresh));
            && (!begins ==> h' == h)
            && (begins ==>
                  var s, ses := h.px.session.value, h.px.sessions[h.px.session.value];
                  && h' == h.(px := Do(h.px, StepCall(Refresh)), call := h'.call)
                  && h'.call == if Full(h.px.limit, ses.queue) then h.call
                                else Some(Call(reading, s, h.px.nextId, |h.px.sessions|, |ses.observedAt|, |ses.history|)))
  {
    hide Do, Full;
  }

  /**
   It ends in a new reading, saved at once, if and only if its snapshot came, the runtime still runs and a fresh
   counter is visible; otherwise the meter stays as it is.
   */
  lemma CalibrationsEndExactly(h: Home)
    requires Possible(h, Calibration)
    ensures Has(h.px, h.call.value.s) && h.call.value.id in h.px.sessions[h.call.value.s].waiters
    ensures var h', call, total := Take(h, Calibration), h.call.value, h.px.state.totalLiters;
            if h.px.sessions[call.s].waiters[call.id].future.Resolved? && h.running && CounterFresh(h.px) && total.Some? then
              && h'.meter == Meter.MeterData(Some(call.reading - total.value), Some(total.value), false)
              && h' == h.(call := None, meter := h'.meter, disk := Some(h'.meter),
                          events := h.events + [Meter.Calibrated(call.reading, total.value)])
            else h' == h.(call := None)
  {
  }

  /** Losing MQTT, and stopping, cancel the running command's caller if it still waits. */
  lemma CancelsExactly(h: Home)
    requires CommandOk(h.px, h.command)
    ensures var h' := Take(h, CommandCancelled);
            if h.command == None then h' == h
            else
              var s, id := h.command.value.s, h.command.value.id;
              && Has(h.px, s) && id in h.px.sessions[s].waiters
              && var ses, w := h.px.sessions[s], h.px.sessions[s].waiters[id];
                 var w' := if w.future.Pending? then w.(future := Cancelled, completions := w.completions + 1) else w;
                 h' == h.(px := h.px.(sessions := h.px.sessions[s := ses.(waiters := ses.waiters[id := w'])]))
    ensures Take(h, Connection(false)).px == Take(h, CommandCancelled).px && Take(h, Connection(true)).px == h.px
  {
    if h.command.Some? {
      CancelledWaiter(h.px, h.command.value.s, h.command.value.id);
      hide Do;
    }
  }

  lemma CancelledWaiter(px: Proxy, s: nat, id: nat)
    requires Has(px, s) && id in px.sessions[s].waiters
    ensures var ses, w := px.sessions[s], px.sessions[s].waiters[id];
            var w' := if w.future.Pending? then w.(future := Cancelled, completions := w.completions + 1) else w;
            Do(px, StepCancelWaiter(s, id)) == px.(sessions := px.sessions[s := ses.(waiters := ses.waiters[id := w'])])
  {
    var w := px.sessions[s].waiters[id];
    assert px.sessions[s].waiters[id := w] == px.sessions[s].waiters;
  }

  /**
   A clean restart saves the meter and loads the same values into a new runtime, with a new proxy
   and a publisher that knows no connection.
   */
  lemma RestartsExactly(h: Home, limit: nat)
    requires Possible(h, Reloading(limit))
    ensures var h' := Take(h, Reloading(limit));
            && h'.px.sessions == [] && h'.px.session == None && !h'.px.closing && h'.px.limit == limit
            && h'.px.clock == h.px.clock && h'.px.state == State(false, false, None, None, None, None, None, None)
            && h'.meter == h.meter && h'.disk == Some(h.meter) && h'.running && h'.call == None && h'.command == None
            && h'.log == h.log && h'.publisher.connectedAt == None && h'.publisher.discoveryNeeded
            && h'.publisher.at.Idle? && h'.publisher.discovering == None && h'.publisher.jobs == h.publisher.jobs
    ensures !Take(h, StopRunning).running && Take(h, StopRunning) == h.(running := false)
    ensures Possible(h, CommandDone) ==> Take(h, CommandDone) == h.(command := None)
  {
  }

  // ----- The MQTT connection ---------------------------------------------------------------------

  /** What each step does to what the publisher remembers of the connection. */
  lemma ConnectionExactly(h: Home, step: HomeStep)
    requires Possible(h, step)
    ensures var p, p' := h.publisher, Take(h, step).publisher;
            match step
            case Connection(up) => p'.connectedAt == (if up then Some(h.px.clock) else None) && p'.refreshNeeded == up
            case LinkDown => p'.connectedAt == None && p'.refreshNeeded == p.refreshNeeded
            case RefreshTaken => p'.connectedAt == p.connectedAt && !p'.refreshNeeded
            case Reloading(_) => p'.connectedAt == None && !p'.refreshNeeded
            case _ => p'.connectedAt == p.connectedAt && p'.refreshNeeded == p.refreshNeeded
  {
    hide PayloadOf, Do, Enabled;
    if step.CommandCancelled? {
      CancelKeepsPublisher(h);
    }
  }

  /** MQTT came up at step `c`, and has not been found down since. */
  ghost predicate UpSince(steps: seq<HomeStep>, c: nat, n: nat) {
    && c < n <= |steps| && steps[c] == Connection(true)
    && forall i :: c < i < n ==> !steps[i].Connection? && !steps[i].LinkDown? && !steps[i].Reloading?
  }

  /** It came up at step `c`, and no snapshot was asked for since. */
  ghost predicate DueSince(steps: seq<HomeStep>, c: nat, n: nat) {
    && c < n <= |steps| && steps[c] == Connection(true)
    && forall i :: c < i < n ==> !steps[i].Connection? && !steps[i].RefreshTaken? && !steps[i].Reloading?
  }

  ghost predicate ConnectionOk(run: seq<Home>, steps: seq<HomeStep>, n: nat)
    requires n < |run|
  {
    && (run[n].publisher.connectedAt.Some? <==> exists c: nat :: UpSince(steps, c, n))
    && (forall c: nat :: UpSince(steps, c, n) && c < |run| ==> run[n].publisher.connectedAt == Some(run[c].px.clock))
    && (run[n].publisher.refreshNeeded <==> exists c: nat :: DueSince(steps, c, n))
  }

  lemma UpStays(steps: seq<HomeStep>, c: nat, n: nat)
    requires n < |steps|
    ensures UpSince(steps, c, n + 1) <==>
              (c == n && steps[n] == Connection(true))
              || (UpSince(steps, c, n) && !steps[n].Connection? && !steps[n].LinkDown? && !steps[n].Reloading?)
  {
    if UpSince(steps, c, n) && !steps[n].Connection? && !steps[n].LinkDown? && !steps[n].Reloading? {
      assert UpSince(steps, c, n + 1);
    }
    if UpSince(steps, c, n + 1) && c < n {
      assert UpSince(steps, c, n);
    }
  }

  lemma DueStays(steps: seq<HomeStep>, c: nat, n: nat)
    requires n < |steps|
    ensures DueSince(steps, c, n + 1) <==>
              (c == n && steps[n] == Connection(true))
              || (DueSince(steps, c, n) && !steps[n].Connection? && !steps[n].RefreshTaken? && !steps[n].Reloading?)
  {
    if DueSince(steps, c, n) && !steps[n].Connection? && !steps[n].RefreshTaken? && !steps[n].Reloading? {
      assert DueSince(steps, c, n + 1);
    }
    if DueSince(steps, c, n + 1) && c < n {
      assert DueSince(steps, c, n);
    }
  }

  lemma ConnectionStays(run: seq<Home>, steps: seq<HomeStep>, n: nat)
    requires n + 1 < |run| && n < |steps| && Possible(run[n], steps[n]) && run[n + 1] == Take(run[n], steps[n])
    requires ConnectionOk(run, steps, n)
    ensures ConnectionOk(run, steps, n + 1)
  {
    ConnectionExactly(run[n], steps[n]);
    hide UpSince, DueSince, Take, Possible;
    var m := n + 1;
    forall c: nat
      ensures UpSince(steps, c, m) <==>
                (c == n && steps[n] == Connection(true))
                || (UpSince(steps, c, n) && !steps[n].Connection? && !steps[n].LinkDown? && !steps[n].Reloading?)
    {
      UpStays(steps, c, n);
    }
    forall c: nat
      ensures DueSince(steps, c, m) <==>
                (c == n && steps[n] == Connection(true))
                || (DueSince(steps, c, n) && !steps[n].Connection? && !steps[n].RefreshTaken? && !steps[n].Reloading?)
    {
      DueStays(steps, c, n);
    }
    assert steps[n] == Connection(true) ==> UpSince(steps, n, m) && DueSince(steps, n, m);
    if c: nat :| UpSince(steps, c, n) {
      UpStays(steps, c, n);
    }
    if c: nat :| DueSince(steps, c, n) {
      DueStays(steps, c, n);
    }
  }

  /**
   The publisher's connection time is that of the latest event if that said up and the link was not
   found down since; a snapshot is due if and only if that event has not been served yet.
   */
  lemma {:induction false} ConnectionIsKnown(run: seq<Home>, steps: seq<HomeStep>, n: nat)
    requires IsHistory(run, steps) && n < |run|
    ensures ConnectionOk(run, steps, n)
  {
    HistoryLength(run, steps);
    hide Possible, Take;
    if n == 0 {
      StartsUnconnected(run, steps);
      StartsDone(run, steps);
    } else {
      hide ConnectionOk, IsHistory;
      ConnectionIsKnown(run, steps, n - 1);
      HistoryStep(run, steps, n - 1);
      ConnectionStays(run, steps, n - 1);
    }
  }

  lemma StartsDone(run: seq<Home>, steps: seq<HomeStep>)
    requires IsHistory(run, steps)
    ensures !run[0].publisher.refreshNeeded
  {
  }

  // ----- Discovery -------------------------------------------------------------------------------

  /** A discovery of the present generation, complete or not, began quietly. */
  ghost predicate DiscoveryDone(p: Publisher, steps: seq<HomeStep>, n: nat) {
    && (forall b :: BeganQuietly(steps, b, n) ==> p.discovering.Some? ==> p.discovering.value == p.generation)
    && (forall b, e :: Rediscovered(steps, b, e, n) ==> !p.discoveryNeeded)
  }

  lemma BeganBefore(steps: seq<HomeStep>, n: nat, b: int)
    requires n < |steps| && BeganQuietly(steps, b, n + 1)
    ensures !steps[n].Connection? && !steps[n].Reloading?
    ensures b == n || BeganQuietly(steps, b, n)
  {
  }

  lemma RediscoveredBefore(steps: seq<HomeStep>, n: nat, b: int, e: int)
    requires n < |steps| && Rediscovered(steps, b, e, n + 1)
    ensures BeganQuietly(steps, b, n + 1) && BeganQuietly(steps, b, n)
    ensures (e == n && steps[n] == Discovered(true)) || Rediscovered(steps, b, e, n)
  {
  }

  lemma DiscoveryStays(h: Home, steps: seq<HomeStep>, n: nat)
    requires n < |steps| && Possible(h, steps[n]) && DiscoveryDone(h.publisher, steps, n)
    ensures DiscoveryDone(Take(h, steps[n]).publisher, steps, n + 1)
  {
    DiscoveryFields(h, steps[n]);
    var p, p' := h.publisher, Take(h, steps[n]).publisher;
    assert (steps[n].Discovered? ==> p.discovering.Some?) && (steps[n].BeginDiscovery? ==> p.discoveryNeeded);
    hide Take, BeganQuietly, Rediscovered, Possible;
    var m := n + 1;
    forall b | BeganQuietly(steps, b, m) ensures p'.discovering.Some? ==> p'.discovering.value == p'.generation {
      BeganBefore(steps, n, b);
      if b == n { BeginsHere(steps, n); }
    }
    forall b, e | Rediscovered(steps, b, e, m) ensures !p'.discoveryNeeded {
      RediscoveredBefore(steps, n, b, e);
      BeganBefore(steps, n, b);
    }
  }

  lemma BeginsHere(steps: seq<HomeStep>, n: nat)
    requires BeganQuietly(steps, n, n + 1)
    ensures n < |steps| && steps[n].BeginDiscovery?
  {
  }

  lemma {:induction false} DiscoveryDoneAlways(run: seq<Home>, steps: seq<HomeStep>, n: nat)
    requires IsHistory(run, steps) && n < |run|
    ensures DiscoveryDone(run[n].publisher, steps, n)
  {
    HistoryLength(run, steps);
    hide Possible, Take;
    if n > 0 {
      hide IsHistory, DiscoveryDone;
      DiscoveryDoneAlways(run, steps, n - 1);
      HistoryStep(run, steps, n - 1);
      DiscoveryStays(run[n - 1], steps, n - 1);
    }
  }

  /** Discovery is done if and only if a complete one began, and ended, after the latest event or restart. */
  lemma DiscoveryIsKnown(run: seq<Home>, steps: seq<HomeStep>, n: nat)
    requires IsHistory(run, steps) && n < |run|
    ensures !run[n].publisher.discoveryNeeded <==> exists b, e :: Rediscovered(steps, b, e, n)
  {
    hide IsHistory;
    DiscoveryDoneAlways(run, steps, n);
    if !run[n].publisher.discoveryNeeded {
      var b, e := DiscoveryIsRedone(run, steps, n);
    }
  }

  // ----- What may come at any time -----------------------------------------------------------------

  /**
   Connection events, commands, cancellations and stops come at any time; the publisher begins a job or a
   discovery only between its awaits, and any of its waits may end, well or not.
   */
  lemma NothingIsHeldUp(h: Home, up: bool, valve: Valve, offline: bool, sent: bool, reading: int)
    ensures Possible(h, Connection(up)) && Possible(h, Commanded(valve)) && Possible(h, CommandCancelled)
    ensures Possible(h, StopRunning) && (Possible(h, Calibrate(reading)) <==> h.call == None)
    ensures var p := h.publisher;
            var free := p.at == Idle && p.discovering == None;
            && (Possible(h, LinkDown) <==> free) && (Possible(h, Publish(offline, sent)) <==> free)
            && (Possible(h, BeginDiscovery) <==> free && p.discoveryNeeded)
            && (Possible(h, RefreshTaken) <==> free && p.refreshNeeded)
            && (Possible(h, Discovered(sent)) <==> p.discovering != None)
            && (Possible(h, Continue(sent)) <==> p.at != Idle) && (Possible(h, PublishFails) <==> p.at != Idle)
  {
    hide Enabled;
  }
}
