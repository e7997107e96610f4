/**
 The objects of the program. A `SessionObject` and the `ProxyObject` update their fields in
 place; each method is one stretch of a coroutine between two awaits, and is proved to move
 the abstract state exactly as the corresponding step of the machine.
 */
module ProxyObjects {
  import opened Base
  import opened Protocol
  import opened ProxyModel
  import opened ProxyInvariant
  import opened ProxyBalance

  class SessionObject {
    var alive: bool
    var cancelled: bool
    var phase: Phase
    var queue: seq<Request>
    var current: Option<InFlight>
    var active: Option<Request>
    var cloud: Option<nat>
    var clouds: map<nat, Cloud>
    var tag: Tag
    var worker: WorkerAt
    var cloudTask: CloudTaskAt
    var readerDone: bool
    var pollDone: bool
    var closed: bool
    var waiters: map<nat, Waiter>
    ghost var requests: map<nat, Request>
    ghost var history: seq<Event>
    ghost var observedAt: seq<int>
    ghost var failed: nat

    ghost function View(): Session
      reads this
    {
      Session(alive, cancelled, phase, queue, current, active, cloud, clouds, tag, worker, cloudTask, readerDone,
              pollDone, closed, waiters, requests, history, observedAt, failed)
    }

    constructor ()
      ensures View() == NewSession()
    {
      alive, cancelled, phase := true, false, Created;
      queue, current, active := [], None, None;
      cloud, clouds, tag := None, map[], 0x80;
      worker, cloudTask, readerDone, pollDone, closed := Checking, Disconnected, false, false, false;
      waiters := map[];
      requests, history, observedAt, failed := map[], [], [], 0;
    }

    method NextTagValue() returns (t: Tag)
      modifies this`tag
      ensures View() == old(View()).(tag := NextTag(old(tag))) && t == tag
    {
      tag := 0x80 + (tag - 0x80 + 1) % 64;
      t := tag;
    }

    method CompleteWaiter(id: nat, future: Future)
      requires id in waiters
      modifies this`waiters
      ensures View() == Complete(old(View()), id, future)
    {
      var w := waiters[id];
      waiters := waiters[id := w.(future := future, completions := w.completions + 1)];
    }

    method Close(c: nat)
      modifies this`clouds
      ensures View() == CloseCloud(old(View()), c)
    {
      if c in clouds {
        clouds := clouds[c := clouds[c].(alive := false)];
      }
    }

    method Forget()
      requires cloudTask.Closing?
      modifies this`cloud, this`cloudTask
      ensures View() == (if old(cloud) == Some(old(cloudTask.cloud)) then old(View()).(cloud := None) else old(View()))
                        .(cloudTask := Disconnected)
    {
      if cloud == Some(cloudTask.cloud) {
        cloud := None;
      }
      cloudTask := Disconnected;
    }

    method Refuse(c: nat)
      modifies this`clouds, this`cloudTask
      ensures View() == CloseCloud(old(View()), c).(cloudTask := Closing(c))
    {
      Close(c);
      cloudTask := Closing(c);
    }

    method Attach(c: nat)
      modifies this`clouds, this`cloud, this`cloudTask
      ensures View() == old(View()).(clouds := old(clouds)[c := Cloud(true, [], [])], cloud := Some(c), cloudTask := Serving(c))
    {
      clouds := clouds[c := Cloud(true, [], [])];
      cloud, cloudTask := Some(c), Serving(c);
    }

    method CloseCurrent()
      modifies this`clouds
      ensures View() == CloseCurrentCloud(old(View()))
    {
      if cloud.Some? {
        Close(cloud.value);
      }
    }

    method Enqueue(request: Request)
      modifies this`queue, this`requests
      ensures View() == old(View()).(queue := old(queue) + [request], requests := old(requests)[request.id := request])
    {
      queue := queue + [request];
      requests := requests[request.id := request];
    }

    method EnqueueLocal(request: Request, purpose: Purpose)
      modifies this`queue, this`requests, this`waiters
      ensures View() == old(View()).(
                queue := old(queue) + [request], requests := old(requests)[request.id := request],
                waiters := old(waiters)[request.id := Waiter(purpose, Pending, None, 0)])
    {
      Enqueue(request);
      waiters := waiters[request.id := Waiter(purpose, Pending, None, 0)];
    }

    method EnqueueFrom(c: nat, request: Request)
      requires c in clouds
      modifies this`queue, this`requests, this`clouds
      ensures View() == old(View()).(
                queue := old(queue) + [request], requests := old(requests)[request.id := request],
                clouds := old(clouds)[c := old(clouds)[c].(offered := old(clouds)[c].offered + [request.frame])])
    {
      Enqueue(request);
      clouds := clouds[c := clouds[c].(offered := clouds[c].offered + [request.frame])];
    }

    method Take() returns (request: Request)
      requires queue != []
      modifies this`queue, this`active
      ensures request == old(queue)[0]
      ensures View() == old(View()).(queue := old(queue)[1..], active := Some(request))
    {
      request := queue[0];
      queue := queue[1..];
      active := Some(request);
    }

    /** Its caller gave up, or its vendor connection is no longer the session's. */
    method IsUnwanted(request: Request) returns (unwanted: bool)
      ensures unwanted == Unwanted(View(), request)
    {
      unwanted := if request.origin.Local?
                  then request.id in waiters && waiters[request.id].future.Cancelled?
                  else !(request.origin.cloud in clouds && clouds[request.origin.cloud].alive
                         && cloud == Some(request.origin.cloud));
    }

    method Discard()
      modifies this`active, this`worker
      ensures View() == old(View()).(active := None, worker := Checking)
    {
      active, worker := None, Checking;
    }

    /** The inner `finally` of the worker. */
    method Release()
      modifies this`active
      ensures View() == ReleaseActive(old(View()))
    {
      if active.Some? {
        var r := active.value;
        if !(r.origin.Local? && r.id in waiters && !Done(waiters[r.id].future)) {
          active := None;
        }
      }
    }

    method Fail()
      modifies this`current, this`worker, this`failed, this`active
      ensures View() == FailWorker(old(View()))
    {
      hide ReleaseActive;
      if worker == Exchanging(false) && IsVendor(active) {
        failed := failed + 1;
      }
      current := None;
      worker := WorkerDone;
      Release();
    }

    method Write(request: Request, frame: Frame, confirming: bool)
      modifies this`current, this`worker, this`history
      ensures View() == WriteFrame(old(View()), request, frame, confirming)
    {
      current := Some(InFlight(frame, Pending));
      worker := Exchanging(confirming);
      history := history + [Wrote(request, frame, confirming)];
    }

    method FinishRequest(response: Frame)
      requires active.Some?
      modifies this`waiters, this`active, this`worker
      ensures View() == Finish(old(View()), response)
    {
      var r := active.value;
      if r.origin.Local? && r.id in waiters && !Done(waiters[r.id].future) {
        CompleteWaiter(r.id, Resolved(response));
      }
      Release();
      worker := Checking;
    }

    /** The first draining loop of the cleanup: whoever is active or queued, in order. */
    method Drain() returns (leftover: seq<Request>)
      modifies this`queue
      ensures View() == old(View()).(queue := [])
      ensures leftover == Leftover(old(View()))
    {
      leftover := [];
      if active.Some? {
        leftover := [active.value];
      }
      ghost var first := leftover;
      while queue != []
        invariant leftover + queue == first + old(queue)
        invariant View() == old(View()).(queue := queue)
        decreases |queue|
      {
        leftover := leftover + [queue[0]];
        queue := queue[1..];
      }
    }

    /** The second one: every waiter still waiting is rejected; counts the vendor requests. */
    method RejectEach(leftover: seq<Request>) returns (vendor: nat)
      modifies this`waiters
      ensures View() == old(View()).(waiters := RejectAll(old(waiters), leftover))
      ensures vendor == VendorCount(leftover)
    {
      hide RejectAll, VendorCount;
      vendor := 0;
      NothingRejected(waiters);
      for i := 0 to |leftover|
        invariant vendor == VendorCount(leftover[..i])
        invariant waiters == RejectAll(old(waiters), leftover[..i])
        invariant View() == old(View()).(waiters := waiters)
      {
        var r := leftover[i];
        assert leftover[..i + 1] == leftover[..i] + [r];
        VendorCountAppend(leftover[..i], r);
        RejectOneMore(old(waiters), leftover[..i], r);
        if r.origin.Vendor? {
          vendor := vendor + 1;
        }
        if r.id in waiters && !Done(waiters[r.id].future) {
          CompleteWaiter(r.id, Rejected);
        }
      }
      assert leftover[..|leftover|] == leftover;
    }

    method RejectRequests() returns (vendor: nat)
      modifies this`queue, this`waiters
      ensures View() == old(View()).(queue := [], waiters := RejectAll(old(waiters), Leftover(old(View()))))
      ensures vendor == VendorCount(Leftover(old(View())))
    {
      hide RejectAll, VendorCount, Leftover;
      var leftover := Drain();
      vendor := RejectEach(leftover);
    }

    /** The session's own part of the cleanup; the result counts the vendor requests. */
    method Sweep() returns (vendor: nat)
      modifies this
      ensures View() == Swept(old(View()))
      ensures vendor == VendorCount(Leftover(old(View())))
    {
      hide RejectAll, VendorCount, Leftover, CloseCurrentCloud;
      ClosingIsIndependent(View(), [], RejectAll(waiters, Leftover(View())));
      vendor := RejectRequests();
      CloseCurrent();
      alive, phase, current := false, Cleaned, None;
    }

    method Cancel() returns (unfinished: bool)
      modifies this`cancelled
      ensures View() == CancelTask(old(View()))
      ensures unfinished == Unfinished(old(View()))
    {
      unfinished := phase.Created? || phase.Running? || (phase.Cleaned? && !closed);
      if unfinished {
        cancelled := true;
      }
    }

    method RetireDevice()
      modifies this`alive, this`clouds, this`cancelled
      ensures View() == Retire(old(View()))
    {
      hide CloseCurrentCloud;
      CloseCurrent();
      alive, cancelled := false, true;
    }

    /** The worker has its answer and knows that the session is current. */
    method Accepted(response: Frame, now: int)
      modifies this`current, this`worker, this`observedAt
      ensures View() == old(View()).(current := None, observedAt := old(observedAt) + [now], worker := Forwarding(response))
    {
      current, worker := None, Forwarding(response);
      observedAt := observedAt + [now];
    }

    method Forward(c: nat, response: Frame)
      requires c in clouds
      modifies this`clouds
      ensures View() == old(View()).(clouds := old(clouds)[c := old(clouds)[c].(back := old(clouds)[c].back + [response])])
    {
      clouds := clouds[c := clouds[c].(back := clouds[c].back + [response])];
    }
  }

  lemma ClosingIsIndependent(ses: Session, queue: seq<Request>, waiters: map<nat, Waiter>)
    ensures CloseCurrentCloud(ses.(queue := queue, waiters := waiters))
            == CloseCurrentCloud(ses).(queue := queue, waiters := waiters)
  {
    if ses.cloud.Some? {
      ClosingOneIsIndependent(ses, ses.cloud.value, queue, waiters);
    }
  }

  lemma ClosingOneIsIndependent(ses: Session, c: nat, queue: seq<Request>, waiters: map<nat, Waiter>)
    ensures CloseCloud(ses.(queue := queue, waiters := waiters), c)
            == CloseCloud(ses, c).(queue := queue, waiters := waiters)
  {
    hide CloseCloud;
    CloseFields(ses, c);
    CloseFields(ses.(queue := queue, waiters := waiters), c);
    assert CloseCloud(ses.(queue := queue, waiters := waiters), c).clouds == CloseCloud(ses, c).clouds;
  }

  /** What `Dequeue` does with a request that is still wanted. */
  function Started(px: Proxy, s: nat, request: Request): Proxy
    requires Has(px, s)
  {
    var ses := px.sessions[s];
    var state := if request.frame.ValveCommand().Some? then px.state.(valve := None) else px.state;
    With(px, s, if IsCurrent(px, s) then WriteFrame(ses, request, request.frame, false)
                else FailWorker(ses.(worker := Exchanging(false)))).(state := state)
  }

  predicate Unwanted(ses: Session, request: Request) {
    || (request.origin.Local? && request.id in ses.waiters && ses.waiters[request.id].future.Cancelled?)
    || (request.origin.Vendor? && !Connected(ses, request.origin.cloud))
  }

  lemma DequeueDiscards(px: Proxy, s: nat, taken: Session)
    requires Has(px, s) && px.sessions[s].queue != []
    requires taken == px.sessions[s].(queue := px.sessions[s].queue[1..], active := Some(px.sessions[s].queue[0]))
    requires Unwanted(taken, px.sessions[s].queue[0])
    ensures Dequeue(px, s) ==
              With(px, s, taken.(active := None, worker := Checking))
              .(dropped := px.dropped + if px.sessions[s].queue[0].origin.Vendor? then 1 else 0)
  {
    hide Frame.ValveCommand, WriteFrame, FailWorker;
  }

  lemma DequeueStarts(px: Proxy, s: nat, taken: Session)
    requires Has(px, s) && px.sessions[s].queue != []
    requires taken == px.sessions[s].(queue := px.sessions[s].queue[1..], active := Some(px.sessions[s].queue[0]))
    requires !Unwanted(taken, px.sessions[s].queue[0])
    ensures Dequeue(px, s) == Started(With(px, s, taken), s, px.sessions[s].queue[0])
  {
    hide Frame.ValveCommand, WriteFrame, FailWorker;
    assert With(With(px, s, taken), s, taken) == With(px, s, taken);
  }

  /** The first `i` sessions of `before` are cancelled, and nothing else has changed but `closing`. */
  ghost predicate Stopping(before: Proxy, now: Proxy, i: nat) {
    && |now.sessions| == |before.sessions| && now == before.(closing := true, sessions := now.sessions)
    && forall k :: 0 <= k < |now.sessions| ==>
         now.sessions[k] == if k < i then CancelTask(before.sessions[k]) else before.sessions[k]
  }

  lemma StoppingBegins(before: Proxy)
    ensures Stopping(before, before.(closing := true), 0)
  {
  }

  lemma StoppingGoesOn(before: Proxy, now: Proxy, i: nat)
    requires Stopping(before, now, i) && i < |before.sessions|
    ensures i < |now.sessions| && now.sessions[i] == before.sessions[i]
    ensures Stopping(before, now.(sessions := now.sessions[i := CancelTask(now.sessions[i])]), i + 1)
  {
    hide CancelTask;
  }

  /** All sessions cancelled, all unfinished ones waited for. */
  lemma StoppingEnds(before: Proxy, now: Proxy, waited: set<nat>)
    requires Stopping(before, now, |before.sessions|)
    requires waited == set k: nat | k < |before.sessions| && Unfinished(before.sessions[k])
    ensures now.(stops := now.stops + [waited]) == BeginStop(before)
  {
    hide Unfinished, CancelTask;
    assert now.sessions == BeginStop(before).sessions;
  }

  lemma NothingRejected(waiters: map<nat, Waiter>)
    ensures RejectAll(waiters, []) == waiters
    ensures VendorCount([]) == 0
  {
  }

  lemma RejectOneMore(waiters: map<nat, Waiter>, requests: seq<Request>, r: Request)
    ensures var before, after := RejectAll(waiters, requests), RejectAll(waiters, requests + [r]);
            if r.id in before && !Done(before[r.id].future)
            then after == before[r.id := before[r.id].(future := Rejected, completions := before[r.id].completions + 1)]
            else after == before
  {
    forall id ensures Mentions(requests + [r], id) <==> Mentions(requests, id) || id == r.id {
      if Mentions(requests, id) {
        var i :| 0 <= i < |requests| && requests[i].id == id;
        assert (requests + [r])[i].id == id;
      }
      assert (requests + [r])[|requests|] == r;
    }
  }

  /** How a submission ends: with a request to wait for, or with an exception. */
  datatype Submission = Queued(id: nat) | QueueFull | DeviceUnavailable

  class ProxyObject {
    const limit: nat
    var sessions: seq<SessionObject>
    var session: Option<nat>
    var closing: bool
    var state: State
    var dropped: nat
    var nextId: nat
    var nextCloud: nat
    var stops: seq<set<nat>>
    var clock: int
    ghost var offered: nat

    ghost predicate Valid()
      reads this
    {
      && (forall i, j :: 0 <= i < j < |sessions| ==> sessions[i] != sessions[j])
      && (session.Some? ==> session.value < |sessions|)
    }

    ghost function View(): Proxy
      reads this, sessions
    {
      Proxy(limit, seq(|sessions|, i requires 0 <= i < |sessions| reads this, sessions => sessions[i].View()),
            session, closing, state, dropped, nextId, nextCloud, stops, clock, offered)
    }

    constructor (limit: nat, clock: int)
      ensures Valid() && View() == Initial(limit, clock)
    {
      this.limit := limit;
      sessions, session, closing, state, dropped := [], None, false, BLANK, 0;
      nextId, nextCloud, stops, this.clock, offered := 0, 0, [], clock, 0;
    }

    /** Updating one session object updates that one session of the abstract state. */
    twostate lemma OneChanged(s: nat)
      requires old(Valid()) && sessions == old(sessions) && s < |sessions|
      requires forall i :: 0 <= i < |sessions| && i != s ==> sessions[i].View() == old(sessions[i].View())
      ensures View().sessions == old(View()).sessions[s := sessions[s].View()]
    {
    }

    predicate Current(s: nat)
      requires s < |sessions|
      reads this, sessions
    {
      !closing && sessions[s].alive && session == Some(s)
    }

    /** A device connects: the previous session is retired before the new one is announced. */
    method AcceptDevice()
      requires Valid()
      modifies this, sessions
      ensures Valid() && View() == Accept(old(View()))
    {
      hide Retire, NewSession;
      if closing {
        return;
      }
      ghost var before := View();
      if session.Some? {
        var previous := sessions[session.value];
        previous.RetireDevice();
      }
      var newcomer := new SessionObject();
      session := Some(|sessions|);
      sessions := sessions + [newcomer];
      state := state.(deviceConnected := false, cloudConnected := false, valve := None, totalLiters := None,
                      counterUpdated := None, lastResponse := None, error := None);
      assert View().sessions == Accept(before).sessions;
    }

    /** `_submit`, with the fresh tag its callers take for the request. */
    method SubmitLocal(s: nat, purpose: Purpose, snapshot: bool) returns (r: Submission)
      requires Valid() && s < |sessions|
      modifies this, sessions[s]
      ensures Valid()
      ensures old(Current(s)) ==>
                && View() == Submit(old(View()), s, purpose, snapshot)
                && r == if Full(limit, old(sessions[s].queue)) then QueueFull else Queued(old(nextId))
      ensures !old(Current(s)) ==>
                && r == DeviceUnavailable
                && View() == With(old(View()), s, old(sessions[s].View()).(tag := NextTag(old(sessions[s].tag))))
    {
      hide Submit;
      if Current(s) {
        r := Put(s, purpose, snapshot);
      } else {
        var t := sessions[s].NextTagValue();
        OneChanged(s);
        r := DeviceUnavailable;
      }
    }

    /** The request is built and queued, unless the queue is full. */
    method Put(s: nat, purpose: Purpose, snapshot: bool) returns (r: Submission)
      requires Valid() && s < |sessions|
      modifies this, sessions[s]
      ensures Valid() && View() == Submit(old(View()), s, purpose, snapshot)
      ensures r == if Full(limit, old(sessions[s].queue)) then QueueFull else Queued(old(nextId))
    {
      hide RequestFrame;
      var ses := sessions[s];
      var t := ses.NextTagValue();
      if 0 < limit <= |ses.queue| {
        r := QueueFull;
      } else {
        var request := Request(nextId, RequestFrame(t, purpose, snapshot), Local);
        ses.EnqueueLocal(request, purpose);
        nextId := nextId + 1;
        r := Queued(request.id);
      }
      OneChanged(s);
    }

    /** `set_valve` and `refresh` up to their await. */
    method Call(purpose: Purpose) returns (r: Submission)
      requires Valid() && !purpose.Poll?
      modifies this, sessions
      ensures Valid()
      ensures Enabled(old(View()), StepCall(purpose)) ==>
                && View() == Do(old(View()), StepCall(purpose))
                && r == if Full(limit, old(sessions[session.value].queue)) then QueueFull else Queued(old(nextId))
      ensures !Enabled(old(View()), StepCall(purpose)) ==> r == DeviceUnavailable && View() == old(View())
    {
      hide Submit;
      r := DeviceUnavailable;
      if session.Some? && Current(session.value) {
        r := SubmitLocal(session.value, purpose, true);
      }
    }

    /** One frame from the device. */
    method ReceiveFrame(s: nat, frame: Frame)
      requires Valid() && s < |sessions|
      modifies sessions[s]
      ensures Valid() && View() == Receive(old(View()), s, frame)
    {
      var ses := sessions[s];
      if !Current(s) {
        ses.readerDone := true;
      } else if ses.current == None || Done(ses.current.value.answer) || !frame.Matches(ses.current.value.frame) {
        ses.readerDone := true;
      } else {
        ses.current := Some(ses.current.value.(answer := Resolved(frame)));
        ses.history := ses.history + [Answered(frame)];
      }
      OneChanged(s);
    }

    /** The worker takes the next request and writes it, unless nobody wants it any more. */
    method TakeRequest(s: nat)
      requires Valid() && s < |sessions| && sessions[s].queue != []
      modifies this, sessions[s]
      ensures Valid() && View() == Dequeue(old(View()), s)
    {
      hide Dequeue, Started, Unwanted;
      ghost var before := View();
      var ses := sessions[s];
      var request := ses.Take();
      ghost var taken := ses.View();
      OneChanged(s);
      var unwanted := ses.IsUnwanted(request);
      if unwanted {
        DequeueDiscards(before, s, taken);
        if request.origin.Vendor? {
          dropped := dropped + 1;
        }
        ses.Discard();
        OneChanged(s);
      } else {
        DequeueStarts(before, s, taken);
        StartRequest(s, request);
      }
    }

    /** A recognised valve command hides the valve before it is written, whoever sends it. */
    method StartRequest(s: nat, request: Request)
      requires Valid() && s < |sessions|
      modifies this`state, sessions[s]
      ensures Valid() && View() == Started(old(View()), s, request)
    {
      hide Frame.ValveCommand, WriteFrame, FailWorker;
      if request.frame.ValveCommand().Some? {
        state := state.(valve := None);
      }
      if !Current(s) {
        sessions[s].worker := Exchanging(false);
        sessions[s].Fail();
      } else {
        sessions[s].Write(request, request.frame, false);
      }
      OneChanged(s);
    }

    method Observe(response: Frame)
      modifies this`state
      ensures View() == old(View()).(state := Observed(old(state), response, clock))
    {
      state := state.(deviceConnected := true, lastResponse := Some(clock), error := None);
      var values := StatusValues(response);
      if values.Some? {
        state := state.(valve := values.value.valve, valveUpdated := Some(clock));
        if values.value.counter.Some? {
          state := state.(totalLiters := values.value.counter, counterUpdated := Some(clock));
        }
      }
    }

    method Continue(s: nat, response: Frame)
      requires Valid() && s < |sessions| && sessions[s].active.Some?
      modifies sessions[s]
      ensures Valid() && View() == AfterForward(old(View()), s, response)
    {
      hide Frame.ValveCommand, WriteFrame, FailWorker, Finish, ReadStatus;
      var ses := sessions[s];
      if ses.active.value.frame.ValveCommand() == None {
        ses.FinishRequest(response);
      } else if response.address != 0 || response.length != 0 || response.payload != [] {
        ses.Fail();
      } else {
        var t := ses.NextTagValue();
        if !Current(s) {
          ses.Fail();
        } else {
          ses.Write(ses.active.value, ReadStatus(t), true);
        }
      }
      OneChanged(s);
    }

    /** The worker resumes with the answer to its exchange. */
    method FinishExchange(s: nat)
      requires Valid() && s < |sessions| && sessions[s].worker.Exchanging? && sessions[s].active.Some?
      requires sessions[s].current.Some? && sessions[s].current.value.answer.Resolved?
      modifies this, sessions[s]
      ensures Valid() && View() == TakeAnswer(old(View()), s)
    {
      hide Frame.ValveCommand, StatusValues, AfterForward;
      var ses := sessions[s];
      var response := ses.current.value.answer.frame;
      if !Current(s) {
        ses.Fail();
        OneChanged(s);
        return;
      }
      Observe(response);
      var confirming, request := ses.worker.confirming, ses.active.value;
      ses.Accepted(response, clock);
      OneChanged(s);
      if confirming {
        ses.FinishRequest(response);
        OneChanged(s);
      } else if request.origin.Vendor? && request.origin.cloud in ses.clouds && ses.clouds[request.origin.cloud].alive
                && ses.cloud == Some(request.origin.cloud) {
        ses.Forward(request.origin.cloud, response);
        OneChanged(s);
      } else {
        Continue(s, response);
      }
    }

    /** The write to the vendor has drained, or failed and closed that connection. */
    method FinishForward(s: nat, drained: bool)
      requires Valid() && s < |sessions| && sessions[s].worker.Forwarding? && IsVendor(sessions[s].active)
      modifies sessions[s]
      ensures Valid() && View() == Forwarded(old(View()), s, drained)
    {
      ghost var before := View();
      var ses := sessions[s];
      var response := ses.worker.response;
      if !drained {
        ses.Close(ses.active.value.origin.cloud);
        assert View().sessions == With(before, s, CloseCloud(before.sessions[s], before.sessions[s].active.value.origin.cloud)).sessions;
      } else {
        assert View().sessions == before.sessions;
      }
      Continue(s, response);
    }

    /** One frame from the vendor. The result is false for the exception QueueFull. */
    method EnqueueCloud(s: nat, frame: Frame) returns (ok: bool)
      requires Valid() && s < |sessions| && sessions[s].cloudTask.Serving?
      modifies this, sessions[s]
      ensures Valid() && View() == Offer(old(View()), s, frame)
    {
      hide CloseCloud;
      var ses := sessions[s];
      var c := ses.cloudTask.cloud;
      ok := true;
      offered := offered + 1;
      if !Current(s) || !(c in ses.clouds && ses.clouds[c].alive && ses.cloud == Some(c)) {
        dropped := dropped + 1;
      } else if 0 < limit <= |ses.queue| {
        dropped := dropped + 1;
        ok := false;
        ses.Refuse(c);
      } else {
        var request := Request(nextId, frame, Vendor(c));
        ses.EnqueueFrom(c, request);
        nextId := nextId + 1;
      }
      OneChanged(s);
    }

    /** A vendor connection is up; it is only kept if the session is still current. */
    method AttachCloud(s: nat)
      requires Valid() && s < |sessions|
      modifies this, sessions[s]
      ensures Valid() && View() == ConnectCloud(old(View()), s)
    {
      var ses := sessions[s];
      if !Current(s) {
        ses.cloudTask := CloudDone;
      } else {
        var c := nextCloud;
        nextCloud := nextCloud + 1;
        ses.Attach(c);
        state := state.(cloudConnected := true);
      }
      OneChanged(s);
    }

    method DetachCloud(s: nat)
      requires Valid() && s < |sessions| && sessions[s].cloudTask.Closing?
      modifies this, sessions[s]
      ensures Valid() && View() == ClearCloud(old(View()), s)
    {
      var ses := sessions[s];
      if Current(s) {
        state := state.(cloudConnected := false);
      }
      ses.Forget();
      OneChanged(s);
    }

    /** The session task ends: report, forget the session, reject everybody who still waits. */
    method EndSession(s: nat, error: Option<string>)
      requires Valid() && s < |sessions|
      modifies this, sessions[s]
      ensures Valid() && View() == Cleanup(old(View()), s, error)
    {
      hide Swept, VendorCount, Leftover;
      var ses := sessions[s];
      if error.Some? && Current(s) {
        state := state.(error := error);
      }
      if session == Some(s) {
        session := None;
        state := state.(deviceConnected := false, cloudConnected := false, valve := None, valveUpdated := None,
                        totalLiters := None, counterUpdated := None);
      }
      var vendor := ses.Sweep();
      dropped := dropped + vendor;
      OneChanged(s);
    }

    /** `stop` up to its await: every session task is cancelled, in turn. */
    method StopListening()
      requires Valid()
      modifies this, sessions
      ensures Valid() && View() == BeginStop(old(View()))
    {
      hide CancelTask, Unfinished, Stopping;
      ghost var before := View();
      closing := true;
      var waited: set<nat> := {};
      assert View().sessions == before.sessions;
      StoppingBegins(before);
      for i := 0 to |sessions|
        invariant Valid() && sessions == old(sessions) && Stopping(before, View(), i)
        invariant waited == set k: nat | k < i && Unfinished(before.sessions[k])
      {
        var unfinished := CancelSession(before, i);
        if unfinished {
          waited := waited + {i};
        }
      }
      StoppingEnds(before, View(), waited);
      stops := stops + [waited];
      assert View() == BeginStop(before);
    }

    method CancelSession(ghost before: Proxy, i: nat) returns (unfinished: bool)
      requires Valid() && i < |sessions| && i < |before.sessions| && Stopping(before, View(), i)
      modifies sessions[i]
      ensures Valid() && Stopping(before, View(), i + 1)
      ensures unfinished == Unfinished(before.sessions[i])
    {
      hide CancelTask, Unfinished, Stopping;
      ghost var now := View();
      StoppingGoesOn(before, now, i);
      unfinished := sessions[i].Cancel();
      OneChanged(i);
    }

    method StopFinished(i: nat)
      requires Valid() && i < |stops|
      modifies this
      ensures Valid() && View() == EndStop(old(View()), i)
    {
      ghost var before := View();
      session := None;
      state := state.(deviceConnected := false, cloudConnected := false, valve := None, totalLiters := None,
                      counterUpdated := None);
      stops := stops[..i] + stops[i + 1..];
      assert View().sessions == before.sessions;
    }
  }
}
