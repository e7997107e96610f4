/**
 Connection events, and what they do to discovery and to MQTT valve commands.
 */
module HomeCommands {
  import opened Base
  import opened Protocol
  import opened ProxyModel
  import opened ProxyInvariant
  import opened ProxySafety
  import opened ProxyProgress
  import opened ProxyState
  import opened ProxyBalance
  import opened ProxyTheorems
  import opened HomeModel
  import opened HomeTheorems

  // ----- Discovery --------------------------------------------------------------------------

  /** A discovery began at `b`, and no connection event or reload came since. */
  ghost predicate BeganQuietly(steps: seq<HomeStep>, b: int, n: nat) {
    && 0 <= b < n <= |steps| && steps[b].BeginDiscovery?
    && forall i :: b <= i < n ==> !steps[i].Connection? && !steps[i].Reloading?
  }

  /** ... and it has announced everything. */
  ghost predicate Rediscovered(steps: seq<HomeStep>, b: int, e: int, n: nat) {
    BeganQuietly(steps, b, n) && b < e < n && steps[e] == Discovered(true)
  }

  ghost predicate DiscoveryOk(p: Publisher, steps: seq<HomeStep>, n: nat) {
    && n <= |steps|
    && (p.discovering.Some? ==> p.discovering.value <= p.generation)
    && (p.discovering == Some(p.generation) ==> exists b :: BeganQuietly(steps, b, n))
    && (!p.discoveryNeeded ==> exists b, e :: Rediscovered(steps, b, e, n))
  }

  lemma DiscoveryKept(h: Home, steps: seq<HomeStep>, n: nat)
    requires n < |steps| && Possible(h, steps[n]) && DiscoveryOk(h.publisher, steps, n)
    ensures DiscoveryOk(Take(h, steps[n]).publisher, steps, n + 1)
  {
    var p, step := h.publisher, steps[n];
    var p' := Take(h, step).publisher;
    DiscoveryFields(h, step);
    if !step.Connection? && !step.Reloading? {
      if p.discovering == Some(p.generation) {
        var b :| BeganQuietly(steps, b, n);
        assert BeganQuietly(steps, b, n + 1);
        if step == Discovered(true) {
          assert Rediscovered(steps, b, n, n + 1);
        }
      }
      if !p.discoveryNeeded {
        var b, e :| Rediscovered(steps, b, e, n);
        assert Rediscovered(steps, b, e, n + 1);
      }
      if step.BeginDiscovery? {
        assert BeganQuietly(steps, n, n + 1);
      }
    }
  }

  /** Only four steps touch what discovery depends on. */
  lemma DiscoveryFields(h: Home, step: HomeStep)
    requires Possible(h, step)
    ensures var p, p' := h.publisher, Take(h, step).publisher;
            match step
            case Connection(_) =>
              p'.generation == p.generation + 1 && p'.discovering == p.discovering && p'.discoveryNeeded
            case Reloading(_) => p'.discovering == None && p'.discoveryNeeded
            case BeginDiscovery =>
              && p'.generation == p.generation && p'.discovering == Some(p.generation)
              && p'.discoveryNeeded && p.discoveryNeeded
            case Discovered(ok) => p'.generation == p.generation && p' == EndDiscovery(p, ok)
            case _ =>
              && p'.generation == p.generation && p'.discovering == p.discovering
              && p'.discoveryNeeded == p.discoveryNeeded
  {
    hide PayloadOf, Do, Enabled, CancelCommand;
    if step.Connection? {
      CancelKeepsPublisher(h);
    } else if step.CommandCancelled? {
      CancelKeepsPublisher(h);
    }
  }

  lemma {:induction false} DiscoveryOkAlways(run: seq<Home>, steps: seq<HomeStep>, n: nat)
    requires IsHistory(run, steps) && n < |run|
    ensures DiscoveryOk(run[n].publisher, steps, n)
  {
    HistoryLength(run, steps);
    if n == 0 {
      hide Possible, Take;
      var limit, clock :| run[0] == Start(limit, clock);
    } else {
      hide Possible, Take, IsHistory, DiscoveryOk;
      DiscoveryOkAlways(run, steps, n - 1);
      HistoryStep(run, steps, n - 1);
      DiscoveryKept(run[n - 1], steps, n - 1);
    }
  }

  /**
   The publisher considers its discovery done only if a complete one began after the latest
   connection or birth event: one that an event overtakes is done again.
   */
  lemma DiscoveryIsRedone(run: seq<Home>, steps: seq<HomeStep>, n: nat) returns (b: int, e: int)
    requires IsHistory(run, steps) && n < |run| && !run[n].publisher.discoveryNeeded
    ensures Rediscovered(steps, b, e, n)
  {
    hide IsHistory;
    DiscoveryOkAlways(run, steps, n);
    b, e :| Rediscovered(steps, b, e, n);
  }

  // ----- Commands -------------------------------------------------------------------------------

  /**
   An MQTT command reaches the proxy only on evidence: the position shown is a report of the
   current session, at most 120 s old and no older than any connection event. It is submitted to
   that very session, and no other MQTT command is running.
   */
  lemma CommandsNeedEvidence(run: seq<Home>, steps: seq<HomeStep>, n: nat, valve: Valve)
    returns (k: nat, frame: Frame, time: int)
    requires IsHistory(run, steps) && n < |steps| && steps[n] == Commanded(valve)
    requires n + 1 < |run| && run[n + 1].px != run[n].px
    ensures IsAnswer(run[n].px, k, frame, time) && Position(frame).Some?
    ensures run[n].px.clock - 120_000_000 <= time <= run[n].px.clock
    ensures forall i :: 0 <= i < n && steps[i] == Connection(true) ==> run[i].px.clock <= time
    ensures run[n].command == None && Enabled(run[n].px, StepCall(SetValve(valve)))
    ensures run[n + 1].px == Do(run[n].px, StepCall(SetValve(valve)))
  {
    HistoryOkAlways(run, steps, n);
    HistoryStep(run, steps, n);
    ConnectedAfterAlways(run, steps, n);
    ProxyIsOk(run[n]);
    CommandSubmits(run[n], valve);
    hide IsHistory, Inv, HomeOk, Do, Enabled, Take, PayloadOf;
    k, frame, time := ShownValve(run[n].px);
  }

  lemma CommandSubmits(h: Home, valve: Valve)
    requires Take(h, Commanded(valve)).px != h.px
    ensures ValveNow(h.px).Some? && h.publisher.connectedAt.Some? && h.px.state.valveUpdated.Some?
    ensures h.px.state.valveUpdated.value >= h.publisher.connectedAt.value
    ensures h.command == None && Enabled(h.px, StepCall(SetValve(valve)))
    ensures Take(h, Commanded(valve)).px == Do(h.px, StepCall(SetValve(valve)))
  {
    hide Do, Enabled;
  }

  lemma DoomedMoves(px: Proxy, own: Step, s: nat, id: nat)
    requires ProxyOk(px) && Enabled(px, own) && Has(px, s) && Doomed(px, s, id)
    ensures Has(Do(px, own), s) && Doomed(Do(px, own), s, id)
  {
    hide Do, Enabled, Doomed, GoodStep, Retired, Good, NewestOnly;
    hide StateOk, TimesOk, Balanced, Apart, PointersOk;
    AllGood(px, s);
    hide SessionsOk;
    EveryStepAdvances(px, own, s);
    if Retired(px, s) {
      RetirementStays(px, own, s);
    }
    DoomStays(px, Do(px, own), s, id);
  }

  lemma {:induction false} DoomedStaysAtHome(run: seq<Home>, steps: seq<HomeStep>, i: nat, j: nat, s: nat, id: nat)
    requires IsHistory(run, steps) && i <= j < |run| && Has(run[i].px, s) && Doomed(run[i].px, s, id)
    requires |run| == |steps| + 1 && forall k :: i <= k < j ==> !steps[k].Reloading?
    ensures Has(run[j].px, s) && Doomed(run[j].px, s, id)
    decreases j
  {
    hide IsHistory, Possible, Take, Doomed, Do, Enabled, HomeOk;
    if i < j {
      DoomedStaysAtHome(run, steps, i, j - 1, s, id);
      HistoryStep(run, steps, j - 1);
      HistoryOkAlways(run, steps, j - 1);
      ProxyIsOk(run[j - 1]);
      ProxyMoves(run[j - 1], steps[j - 1]);
      if run[j].px != run[j - 1].px {
        var own :| Enabled(run[j - 1].px, own) && run[j].px == Do(run[j - 1].px, own);
        DoomedMoves(run[j - 1].px, own, s, id);
      }
    }
  }

  lemma ProxyIsOk(h: Home)
    requires HomeOk(h)
    ensures ProxyOk(h.px)
  {
  }

  /** Losing MQTT cancels the caller of a command that is still waiting. */
  lemma DisconnectDooms(h: Home, s: nat, id: nat)
    requires HomeOk(h) && h.command == Some(Command(s, id))
    requires Has(h.px, s) && id in h.px.sessions[s].waiters && h.px.sessions[s].waiters[id].future.Pending?
    requires !Written(h.px.sessions[s], id)
    ensures var px' := Take(h, Connection(false)).px; Has(px', s) && Doomed(px', s, id)
  {
    hide HomeOk, Doomed, Written, Do;
    ProxyIsOk(h);
    WaiterIsLocal(h.px, s, id);
    CancelDooms(h.px, s, id);
  }

  lemma WaiterIsLocal(px: Proxy, s: nat, id: nat)
    requires ProxyOk(px) && Has(px, s) && id in px.sessions[s].waiters
    ensures id in px.sessions[s].requests && px.sessions[s].requests[id].origin.Local?
  {
    hide StateOk, TimesOk, Balanced, Apart, PointersOk, NewestOnly, HistoryOk, WorkerOk, QueueOk, CloudsOk, PhaseOk;
    AllGood(px, s);
    assert WaiterOk(px.sessions[s], id);
  }

  lemma CancelDooms(px: Proxy, s: nat, id: nat)
    requires Has(px, s) && id in px.sessions[s].waiters && px.sessions[s].waiters[id].future.Pending?
    requires id in px.sessions[s].requests && px.sessions[s].requests[id].origin.Local? && !Written(px.sessions[s], id)
    ensures var px' := Do(px, StepCancelWaiter(s, id)); Has(px', s) && Doomed(px', s, id)
  {
    hide Connected;
    var ses, ses' := px.sessions[s], Do(px, StepCancelWaiter(s, id)).sessions[s];
    assert ses'.history == ses.history;
    assert forall i: nat :: OwnWriteAt(ses', i, id) ==> OwnWriteAt(ses, i, id);
  }

  /**
   A command that is still waiting, unwritten, when MQTT is lost never reaches the device
   afterwards, however the connections come and go.
   */
  lemma LostConnectionStopsCommands(
    run: seq<Home>, steps: seq<HomeStep>, i: nat, j: nat, s: nat, id: nat)
    requires IsHistory(run, steps) && i < j < |run| && |run| == |steps| + 1
    requires steps[i] == Connection(false) && run[i].command == Some(Command(s, id))
    requires Has(run[i].px, s) && id in run[i].px.sessions[s].waiters
    requires run[i].px.sessions[s].waiters[id].future.Pending? && !Written(run[i].px.sessions[s], id)
    requires forall k :: i <= k < j ==> !steps[k].Reloading?
    ensures Has(run[j].px, s) && !Written(run[j].px.sessions[s], id)
  {
    hide IsHistory, Take, Possible, HomeOk, Doomed, Written;
    HistoryOkAlways(run, steps, i);
    HistoryStep(run, steps, i);
    DisconnectDooms(run[i], s, id);
    DoomedStaysAtHome(run, steps, i + 1, j, s, id);
    DoomedIsUnwritten(run[j].px, s, id);
  }
}
