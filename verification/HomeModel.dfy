/**
 One configured device as Home Assistant sees it: the proxy, the freshness rules over its
 state, the meter that watches its counter, and the publisher that mirrors it to MQTT. The
 machine takes the proxy's own steps, and those of the runtime and the publisher between them.
 */
module HomeModel {
  import opened Base
  import opened Protocol
  import opened ProxyModel
  import Meter

  /** Time is counted in microseconds, the resolution of the program's clock. */
  const SECOND := 1_000_000
  const VALVE_MAX_AGE := 120 * SECOND
  const COUNTER_MAX_AGE := 600 * SECOND

  // ----- Freshness ------------------------------------------------------------------------

  predicate Recent(px: Proxy, observed: Option<int>, maxAge: int) {
    px.state.deviceConnected && observed.Some? && 0 <= px.clock - observed.value <= maxAge
  }

  function ValveNow(px: Proxy): Option<Valve> {
    if Recent(px, px.state.valveUpdated, VALVE_MAX_AGE) then px.state.valve else None
  }

  function TotalNow(px: Proxy): Option<nat> {
    if Recent(px, px.state.counterUpdated, COUNTER_MAX_AGE) then px.state.totalLiters else None
  }

  function MeterNow(h: Home): Option<int> {
    Meter.Reading(h.meter, TotalNow(h.px))
  }

  // ----- Messages ---------------------------------------------------------------------------

  datatype Payload = Payload(
    available: bool,
    valve: Option<Valve>,
    observedAt: Option<int>,
    validUntil: Option<int>,
    totalLiters: Option<nat>,
    meterLiters: Option<int>,
    meterStatus: Meter.Status,
    counterObservedAt: Option<int>,
    deviceConnected: bool,
    cloudConnected: bool)

  /** Retained messages on the three state topics, with the `_publish` call that sent them. */
  datatype Message =
    | StateReport(job: nat, generation: nat, payload: Payload)
    | Bridge(job: nat, online: bool)
    | Availability(job: nat, generation: nat, online: bool)

  datatype Job = Job(number: nat, generation: nat, payload: Payload, offline: bool)

  /** Which message a running `_publish` awaits. */
  datatype PublishAt =
    | Idle
    | AwaitOffline(job: Job)
    | AwaitState(job: Job)
    | AwaitBridge(job: Job)
    | AwaitAvailability(job: Job)

  datatype Publisher = Publisher(
    generation: nat,
    connectedAt: Option<int>,
    refreshNeeded: bool,
    discoveryNeeded: bool,
    discovering: Option<nat>,         // the generation in which the running `_publish_discovery` began
    at: PublishAt,
    jobs: nat)

  /** A new publisher, before its first connection event. */
  function NewPublisher(jobs: nat): Publisher {
    Publisher(0, None, false, true, None, Idle, jobs)
  }

  /** An MQTT valve command that awaits the proxy. */
  datatype Command = Command(s: nat, id: nat)

  /** `set_meter_reading` while it awaits its snapshot, and what had been seen when it began. */
  datatype Call = Call(
    reading: nat, s: nat, id: nat,
    // ----------
    sessions: nat, observed: nat, length: nat)

  datatype Home = Home(
    px: Proxy,
    meter: Meter.MeterData,
    disk: Option<Meter.MeterData>,
    running: bool,
    call: Option<Call>,
    command: Option<Command>,
    publisher: Publisher,
    log: seq<Message>,                // what reached the broker, in order
    // ----------
    events: seq<Meter.MeterEvent>)    // what happened to the meter

  function Start(limit: nat, clock: int): Home {
    Home(ProxyModel.Initial(limit, clock), Meter.BLANK, None, true, None, None, NewPublisher(0), [], [])
  }

  // ----- Publisher ----------------------------------------------------------------------------

  function PayloadOf(h: Home, offline: bool): Payload {
    var state := h.px.state;
    var observed := state.valveUpdated;
    var verified := !offline && h.publisher.connectedAt.Some? && observed.Some?
                    && observed.value >= h.publisher.connectedAt.value && ValveNow(h.px).Some?;
    Payload(verified,
            if verified then ValveNow(h.px) else None,
            if verified then observed else None,
            if verified then Some(observed.value + VALVE_MAX_AGE) else None,
            if verified then TotalNow(h.px) else None,
            if verified then MeterNow(h) else None,
            Meter.StatusOf(h.meter),
            if verified then state.counterUpdated else None,
            state.deviceConnected && !offline,
            state.cloudConnected && !offline)
  }

  /** A connection event; the birth message of Home Assistant counts as one. */
  function ConnectionChanged(p: Publisher, connected: bool, now: int): Publisher {
    p.(generation := p.generation + 1, connectedAt := if connected then Some(now) else None,
       refreshNeeded := connected, discoveryNeeded := true)
  }

  /** `_run` is between two of its awaits. */
  predicate Free(p: Publisher) {
    p.at.Idle? && p.discovering == None
  }

  /** A discovery that a connection event overtook has to be done again. */
  function EndDiscovery(p: Publisher, ok: bool): Publisher
    requires p.discovering.Some?
  {
    p.(discovering := None,
       discoveryNeeded := p.discoveryNeeded && !(ok && p.discovering.value == p.generation))
  }

  /** One publish: it is sent and awaited, or raises and ends the job. */
  function Send(h: Home, message: Message, then_: PublishAt, sent: bool): Home {
    if sent then h.(log := h.log + [message], publisher := h.publisher.(at := then_))
    else h.(publisher := h.publisher.(at := Idle))
  }

  function BeginPublish(h: Home, offline: bool, sent: bool): Home {
    var job := Job(h.publisher.jobs, h.publisher.generation, PayloadOf(h, offline), offline);
    var h1 := h.(publisher := h.publisher.(jobs := h.publisher.jobs + 1));
    if !job.payload.available
    then Send(h1, Availability(job.number, job.generation, false), AwaitOffline(job), sent)
    else Send(h1, StateReport(job.number, job.generation, job.payload), AwaitState(job), sent)
  }

  function NextPublish(h: Home, sent: bool): Home
    requires !h.publisher.at.Idle?
  {
    var job := h.publisher.at.job;
    match h.publisher.at
    case AwaitOffline(_) => Send(h, StateReport(job.number, job.generation, job.payload), AwaitState(job), sent)
    case AwaitState(_) => Send(h, Bridge(job.number, !job.offline), AwaitBridge(job), sent)
    case AwaitBridge(_) =>
      if !job.payload.available then h.(publisher := h.publisher.(at := Idle))
      else
        var online := job.generation == h.publisher.generation && PayloadOf(h, false).available;
        Send(h, Availability(job.number, h.publisher.generation, online), AwaitAvailability(job), sent)
    case AwaitAvailability(_) => h.(publisher := h.publisher.(at := Idle))
  }

  // ----- Runtime ---------------------------------------------------------------------------------

  /** A step of the proxy; every change of its state is shown to the meter. */
  function ProxyStep(h: Home, step: Step): Home
    requires Enabled(h.px, step)
  {
    var px := Do(h.px, step);
    if px.state == h.px.state then h.(px := px)
    else h.(px := px, meter := Meter.Observe(h.meter, TotalNow(px)), events := h.events + [Meter.Observed(TotalNow(px))])
  }

  /** `_run` asks the device for a snapshot, once after every connection event. */
  function TakeRefresh(h: Home): Home {
    var h1 := if Enabled(h.px, StepCall(Refresh)) then ProxyStep(h, StepCall(Refresh)) else h;
    h1.(publisher := h1.publisher.(refreshNeeded := false))
  }

  // ----- Commands ---------------------------------------------------------------------------------

  predicate CommandRuns(h: Home) {
    && h.command.Some? && Has(h.px, h.command.value.s)
    && h.command.value.id in h.px.sessions[h.command.value.s].waiters
  }

  /** `_command_received`, for a message that is not retained and names a position. */
  function ReceiveCommand(h: Home, valve: Valve): Home {
    if !PayloadOf(h, false).available || h.command.Some? || !Enabled(h.px, StepCall(SetValve(valve))) then h
    else
      var s := h.px.session.value;
      var h1 := ProxyStep(h, StepCall(SetValve(valve)));
      if Full(h.px.limit, h.px.sessions[s].queue) then h1 else h1.(command := Some(Command(s, h.px.nextId)))
  }

  /** Cancelling the task cancels what it awaits; one that is done stays done. */
  function CancelCommand(h: Home): Home {
    if CommandRuns(h) then ProxyStep(h, StepCancelWaiter(h.command.value.s, h.command.value.id)) else h
  }

  /** `set_meter_reading` up to its await: invalid input, a stopped runtime or no device end it. */
  function BeginCalibration(h: Home, reading: int): Home {
    if reading < 0 || !h.running || !Enabled(h.px, StepCall(Refresh)) then h
    else
      var s := h.px.session.value;
      var ses := h.px.sessions[s];
      var h1 := h.(px := Do(h.px, StepCall(Refresh)));
      if Full(h.px.limit, ses.queue) then h1
      else h1.(call := Some(Call(reading, s, h.px.nextId, |h.px.sessions|, |ses.observedAt|, |ses.history|)))
  }

  predicate CallIsDone(h: Home) {
    && h.call.Some? && Has(h.px, h.call.value.s)
    && var waiters := h.px.sessions[h.call.value.s].waiters;
       h.call.value.id in waiters && Done(waiters[h.call.value.id].future)
  }

  /** The snapshot is there, or the call failed. The counter used is the one now visible. */
  function EndCalibration(h: Home): Home
    requires CallIsDone(h)
  {
    var call := h.call.value;
    var raw := TotalNow(h.px);
    var ended := h.(call := None);
    if !h.px.sessions[call.s].waiters[call.id].future.Resolved? || !h.running || raw == None then ended
    else
      var meter := Meter.SetReading(h.meter, call.reading, raw.value);
      ended.(meter := meter, disk := Some(meter), events := h.events + [Meter.Calibrated(call.reading, raw.value)])
  }

  /** A clean stop saves the meter; the next start loads it into a new runtime with a new proxy. */
  function Reload(h: Home, limit: nat): Home {
    h.(px := ProxyModel.Initial(limit, h.px.clock), disk := Some(h.meter), meter := Meter.Loaded(Some(h.meter)),
       running := true, command := None, publisher := NewPublisher(h.publisher.jobs), events := h.events + [Meter.Reloaded])
  }

  // ----- The machine ---------------------------------------------------------------------------------

  datatype HomeStep =
    | Proxying(step: Step)
    | Connection(connected: bool)
    | LinkDown                          // `_run` finds MQTT down
    | Publish(offline: bool, sent: bool)
    | Continue(sent: bool)
    | PublishFails                      // an error, a timeout or a cancellation
    | BeginDiscovery
    | Discovered(ok: bool)              // `_publish_discovery` has announced everything, or not
    | RefreshTaken
    | Commanded(valve: Valve)
    | CommandCancelled                  // its 15 seconds are over, or the publisher stops
    | CommandDone
    | Calibrate(reading: int)
    | Calibration
    | StopRunning
    | Reloading(limit: nat)

  predicate Possible(h: Home, step: HomeStep) {
    match step
    case Proxying(step) => Enabled(h.px, step)
    case Connection(_) => true
    case LinkDown => Free(h.publisher)
    case Publish(_, _) => Free(h.publisher)
    case Continue(_) => !h.publisher.at.Idle?
    case PublishFails => !h.publisher.at.Idle?
    case BeginDiscovery => Free(h.publisher) && h.publisher.discoveryNeeded
    case Discovered(_) => h.publisher.discovering.Some?
    case RefreshTaken => Free(h.publisher) && h.publisher.refreshNeeded
    case Commanded(_) => true
    case CommandCancelled => true
    case CommandDone =>
      CommandRuns(h) && Done(h.px.sessions[h.command.value.s].waiters[h.command.value.id].future)
    case Calibrate(_) => h.call.None?
    case Calibration => CallIsDone(h)
    case StopRunning => true
    case Reloading(_) => !h.running && h.call.None?
  }

  function Take(h: Home, step: HomeStep): Home
    requires Possible(h, step)
  {
    match step
    case Proxying(step) => ProxyStep(h, step)
    case Connection(connected) =>
      (if connected then h else CancelCommand(h))
      .(publisher := ConnectionChanged(h.publisher, connected, h.px.clock))
    case LinkDown => h.(publisher := h.publisher.(connectedAt := None))
    case Publish(offline, sent) => BeginPublish(h, offline, sent)
    case Continue(sent) => NextPublish(h, sent)
    case PublishFails => h.(publisher := h.publisher.(at := Idle))
    case BeginDiscovery => h.(publisher := h.publisher.(discovering := Some(h.publisher.generation)))
    case Discovered(ok) => h.(publisher := EndDiscovery(h.publisher, ok))
    case RefreshTaken => TakeRefresh(h)
    case Commanded(valve) => ReceiveCommand(h, valve)
    case CommandCancelled => CancelCommand(h)
    case CommandDone => h.(command := None)
    case Calibrate(reading) => BeginCalibration(h, reading)
    case Calibration => EndCalibration(h)
    case StopRunning => h.(running := false)
    case Reloading(limit) => Reload(h, limit)
  }

  ghost predicate IsHistory(run: seq<Home>, steps: seq<HomeStep>) {
    && |run| == |steps| + 1
    && (exists limit, clock :: run[0] == Start(limit, clock))
    && forall i :: 0 <= i < |steps| ==> Possible(run[i], steps[i]) && run[i + 1] == Take(run[i], steps[i])
  }
}
