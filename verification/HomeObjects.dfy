/**
 The runtime and the publisher as the objects they are. The proxy is seen through its abstract
 state `px`; every method is proved to be the step of the machine it stands for.
 */
module HomeObjects {
  import opened Base
  import opened Protocol
  import opened ProxyModel
  import opened HomeModel
  import Meter

  class Broker {
    var log: seq<Message>

    constructor ()
      ensures log == []
    {
      log := [];
    }
  }

  /** A message on the command topic. */
  datatype CommandMessage = CommandMessage(retain: bool, payload: string) {
    /** The position it commands; a retained message commands nothing. */
    function Position(): Option<Valve> {
      if retain then None
      else if payload == "OPEN" then Some(Open)
      else if payload == "CLOSE" then Some(Closed)
      else None
    }
  }

  class PublisherObject {
    const broker: Broker
    var generation: nat
    var connectedAt: Option<int>
    var refreshNeeded: bool
    var discoveryNeeded: bool
    var discovering: Option<nat>
    var at: PublishAt
    var jobs: nat
    var command: Option<Command>
    var stopping: bool

    ghost function View(): Publisher
      reads this
    {
      Publisher(generation, connectedAt, refreshNeeded, discoveryNeeded, discovering, at, jobs)
    }

    constructor (broker: Broker)
      ensures this.broker == broker && View() == NewPublisher(0) && command == None
    {
      this.broker := broker;
      generation, connectedAt, at, jobs := 0, None, Idle, 0;
      refreshNeeded, discoveryNeeded, discovering, command, stopping := false, true, None, None, false;
    }

    /** A connection or birth event: a new generation; losing MQTT cancels the running command. */
    method OnConnection(runtime: RuntimeObject, connected: bool)
      requires runtime.publisher == this
      modifies this, runtime, runtime.meter
      ensures runtime.View() == Take(old(runtime.View()), Connection(connected))
    {
      hide Do, Enabled;
      if !connected {
        Cancel(runtime);
      }
      generation := generation + 1;
      connectedAt := if connected then Some(runtime.px.clock) else None;
      refreshNeeded := connected;
      discoveryNeeded := true;
    }

    /** Cancels the command that runs, if it still waits. */
    method Cancel(runtime: RuntimeObject)
      requires runtime.publisher == this
      modifies runtime, runtime.meter
      ensures runtime.View() == CancelCommand(old(runtime.View()))
    {
      hide Do;
      if command.Some? && command.value.s < |runtime.px.sessions|
         && command.value.id in runtime.px.sessions[command.value.s].waiters {
        var step := StepCancelWaiter(command.value.s, command.value.id);
        runtime.ProxyChanged(step, Do(runtime.px, step));
      }
    }

    /** `_command_received`: plain commands only, one at a time, and while the report is available. */
    method OnCommand(runtime: RuntimeObject, message: CommandMessage, connected: bool)
      requires runtime.publisher == this
      modifies this`command, runtime, runtime.meter
      ensures var before := old(runtime.View());
              if old(stopping) || !connected || message.Position() == None then runtime.View() == before
              else runtime.View() == Take(before, Commanded(message.Position().value))
    {
      hide Do, PayloadOf;
      if stopping || message.retain || (message.payload != "OPEN" && message.payload != "CLOSE") || !connected {
        return;
      }
      var valve := if message.payload == "OPEN" then Open else Closed;
      var payload := runtime.MakePayload(false);
      var step := StepCall(SetValve(valve));
      if !payload.available || command.Some? || !Enabled(runtime.px, step) {
        return;
      }
      var s, id, full := runtime.px.session.value, runtime.px.nextId,
        Full(runtime.px.limit, runtime.px.sessions[runtime.px.session.value].queue);
      runtime.ProxyChanged(step, Do(runtime.px, step));
      if !full {
        command := Some(Command(s, id));
      }
    }

    /** `stop` up to its first await: no more commands, and the running one is cancelled. */
    method Stop(runtime: RuntimeObject)
      requires runtime.publisher == this
      modifies this`stopping, runtime, runtime.meter
      ensures stopping && runtime.View() == Take(old(runtime.View()), CommandCancelled)
    {
      stopping := true;
      Cancel(runtime);
    }

    /** `_publish_discovery` begins, and remembers the generation. */
    method BeginDiscovering(runtime: RuntimeObject)
      requires runtime.publisher == this && at.Idle? && discovering == None && discoveryNeeded
      modifies this`discovering
      ensures runtime.View() == Take(old(runtime.View()), BeginDiscovery)
    {
      discovering := Some(generation);
    }

    /** `_publish_discovery` is over; only a complete one that no event overtook counts. */
    method EndDiscovering(runtime: RuntimeObject, ok: bool)
      requires runtime.publisher == this && discovering.Some?
      modifies this`discovering, this`discoveryNeeded
      ensures runtime.View() == Take(old(runtime.View()), Discovered(ok))
    {
      if ok && discovering.value == generation {
        discoveryNeeded := false;
      }
      discovering := None;
    }

    method Refresh(runtime: RuntimeObject)
      requires runtime.publisher == this && at.Idle? && discovering == None && refreshNeeded
      modifies this`refreshNeeded, runtime, runtime.meter
      ensures runtime.View() == Take(old(runtime.View()), RefreshTaken)
    {
      hide Do;
      var step := StepCall(Purpose.Refresh);
      if Enabled(runtime.px, step) {
        runtime.ProxyChanged(step, Do(runtime.px, step));
      }
      refreshNeeded := false;
    }

    /** One publish of the running job. */
    method Deliver(message: Message, then_: PublishAt, sent: bool)
      modifies this`at, broker
      ensures at == if sent then then_ else Idle
      ensures broker.log == if sent then old(broker.log) + [message] else old(broker.log)
    {
      if sent {
        broker.log := broker.log + [message];
        at := then_;
      } else {
        at := Idle;
      }
    }

    /** `_publish` up to its first await. */
    method Start(runtime: RuntimeObject, offline: bool, sent: bool)
      requires runtime.publisher == this && at.Idle?
      modifies this, broker
      ensures runtime.View() == BeginPublish(old(runtime.View()), offline, sent)
    {
      hide PayloadOf;
      var payload := runtime.MakePayload(offline);
      var job := Job(jobs, generation, payload, offline);
      jobs := jobs + 1;
      if !payload.available {
        Deliver(Availability(job.number, job.generation, false), AwaitOffline(job), sent);
      } else {
        Deliver(StateReport(job.number, job.generation, payload), AwaitState(job), sent);
      }
    }

    /** A publish has returned; the job goes on to its next one. */
    method Resume(runtime: RuntimeObject, sent: bool)
      requires runtime.publisher == this && !at.Idle?
      modifies this, broker
      ensures runtime.View() == NextPublish(old(runtime.View()), sent)
    {
      hide PayloadOf;
      var job := at.job;
      match at {
        case AwaitOffline(_) =>
          Deliver(StateReport(job.number, job.generation, job.payload), AwaitState(job), sent);
        case AwaitState(_) =>
          Deliver(Bridge(job.number, !job.offline), AwaitBridge(job), sent);
        case AwaitBridge(_) =>
          if !job.payload.available {
            at := Idle;
          } else {
            var now := runtime.MakePayload(false);
            var online := job.generation == generation && now.available;
            Deliver(Availability(job.number, generation, online), AwaitAvailability(job), sent);
          }
        case AwaitAvailability(_) =>
          at := Idle;
      }
    }
  }

  class RuntimeObject {
    const meter: Meter.MeterObject
    const publisher: PublisherObject
    var px: Proxy
    var running: bool
    var call: Option<Call>
    ghost var events: seq<Meter.MeterEvent>

    ghost function View(): Home
      reads this, meter, publisher, publisher.broker
    {
      Home(px, meter.View(), meter.disk, running, call, publisher.command, publisher.View(), publisher.broker.log, events)
    }

    constructor (meter: Meter.MeterObject, publisher: PublisherObject, px: Proxy, ghost events: seq<Meter.MeterEvent>)
      ensures this.meter == meter && this.publisher == publisher && this.px == px && this.events == events
      ensures running && call == None
    {
      this.meter, this.publisher, this.px, this.events := meter, publisher, px, events;
      running, call := true, None;
    }

    method Valve() returns (valve: Option<Valve>)
      ensures valve == ValveNow(px)
    {
      valve := None;
      var recent := IsRecent(px.state.valveUpdated, VALVE_MAX_AGE);
      if recent {
        valve := px.state.valve;
      }
    }

    method TotalLiters() returns (total: Option<nat>)
      ensures total == TotalNow(px)
    {
      total := None;
      var recent := IsRecent(px.state.counterUpdated, COUNTER_MAX_AGE);
      if recent {
        total := px.state.totalLiters;
      }
    }

    method IsRecent(observed: Option<int>, maxAge: int) returns (recent: bool)
      ensures recent == Recent(px, observed, maxAge)
    {
      recent := px.state.deviceConnected && observed.Some? && 0 <= px.clock - observed.value <= maxAge;
    }

    method MeterLiters() returns (liters: Option<int>)
      ensures liters == MeterNow(View())
    {
      var total := TotalLiters();
      if total == None || meter.offset == None {
        liters := None;
      } else {
        liters := Some(total.value + meter.offset.value);
      }
    }

    method MakePayload(offline: bool) returns (payload: Payload)
      ensures payload == PayloadOf(View(), offline)
    {
      var state := px.state;
      var valve := Valve();
      var total := TotalLiters();
      var liters := MeterLiters();
      var observed := state.valveUpdated;
      var verified := !offline && publisher.connectedAt.Some? && observed.Some?
                      && observed.value >= publisher.connectedAt.value && valve.Some?;
      var status := if meter.resetDetected then Meter.CounterReset
                    else if meter.offset.Some? then Meter.Ready else Meter.NotConfigured;
      payload := Payload(false, None, None, None, None, None, status, None,
                         state.deviceConnected && !offline, state.cloudConnected && !offline);
      if verified {
        payload := payload.(available := true, valve := valve, observedAt := observed,
                            validUntil := Some(observed.value + VALVE_MAX_AGE), totalLiters := total,
                            meterLiters := liters, counterObservedAt := state.counterUpdated);
      }
    }

    /** The proxy took a step; if that changed its state, the meter looks at the counter. */
    method ProxyChanged(ghost step: Step, now: Proxy)
      requires Enabled(px, step) && now == Do(px, step)
      modifies this, meter
      ensures View() == ProxyStep(old(View()), step)
    {
      hide Do, Enabled;
      var changed := now.state != px.state;
      px := now;
      if changed {
        var total := TotalLiters();
        meter.ObserveRaw(total);
        events := events + [Meter.Observed(total)];
      }
    }

    /** The result is false for every exception raised before the await. */
    method StartCalibration(reading: int) returns (waiting: bool)
      requires call == None
      modifies this
      ensures View() == BeginCalibration(old(View()), reading)
      ensures waiting <==> call.Some?
    {
      hide Do;
      waiting := false;
      if reading < 0 || !running || !Enabled(px, StepCall(Refresh)) {
        return;
      }
      var s := px.session.value;
      var ses := px.sessions[s];
      var id, sessions, full := px.nextId, |px.sessions|, Full(px.limit, ses.queue);
      px := Do(px, StepCall(Refresh));
      if !full {
        call := Some(Call(reading, s, id, sessions, |ses.observedAt|, |ses.history|));
        waiting := true;
      }
    }

    method FinishCalibration() returns (ok: bool)
      requires CallIsDone(View())
      modifies this, meter
      ensures View() == EndCalibration(old(View()))
      ensures ok <==> events != old(events)
    {
      var finished := call.value;
      var total := TotalLiters();
      call := None;
      ok := px.sessions[finished.s].waiters[finished.id].future.Resolved? && running && total.Some?;
      if ok {
        meter.Calibrate(finished.reading, total.value);
        meter.Save();
        events := events + [Meter.Calibrated(finished.reading, total.value)];
      }
    }
  }
}
