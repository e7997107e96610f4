/**
 When the worker can still serve: whether some continuation writes the request at the head of
 the queue to the device, or none does.
 */
module ProxyService {
  import opened Base
  import opened Bits
  import opened Protocol
  import opened ProxyModel
  import opened ProxyInvariant
  import opened ProxySafety
  import opened ProxyProgress
  import opened ProxyState
  import opened ProxyBalance
  import opened ProxyTheorems
  import opened ProxyCallers

  /**
   The worker cannot finish what it is doing: it waits for an answer that nobody will read, or
   holds an answer to a valve command that is not an empty acknowledgment.
   */
  predicate Stuck(ses: Session) {
    match ses.worker
    case Exchanging(confirming) =>
      && ses.current.Some?
      && match ses.current.value.answer {
           case Resolved(response) => !confirming && CannotConfirm(ses, response)
           case _ => ses.readerDone
         }
    case Forwarding(response) => CannotConfirm(ses, response)
    case _ => false
  }

  predicate CannotConfirm(ses: Session, response: Frame) {
    ses.active.Some? && ses.active.value.frame.ValveCommand().Some? && (ses.readerDone || !EmptyAcknowledgment(response))
  }

  /** The current session runs, and somebody wants the request at the head of its queue. */
  ghost predicate Ready(px: Proxy, s: nat, r: Request) {
    && Inv(px) && Has(px, s) && IsCurrent(px, s)
    && var ses := px.sessions[s];
       ses.phase.Running? && ses.queue != [] && ses.queue[0] == r && Wanted(ses, r)
  }

  /** How far the worker is from its queue. */
  function Stage(ses: Session): nat {
    match ses.worker
    case Dequeuing => 0
    case Checking => 1
    case Exchanging(confirming) =>
      (if confirming then 2 else 5) + (if ses.current.Some? && ses.current.value.answer.Resolved? then 0 else 1)
    case Forwarding(_) => 4
    case WorkerDone => 7
  }

  /** An answer the device may give: the data asked for, or an empty acknowledgment. */
  function Reply(request: Frame): (response: Frame)
    ensures response.Matches(request)
    ensures request.ValveCommand().Some? ==> EmptyAcknowledgment(response)
  {
    if request.opcode in [0x31, 0x41] && request.payload == []
    then Frame(request.source, request.destination, request.opcode, request.address, request.length,
               seq(request.length, _ => 0), [])
    else Frame(request.source, request.destination, request.opcode, 0, 0, [], [])
  }

  // ----- The shapes of the worker's steps -----------------------------------------------------

  function Continued(ses: Session, current: bool, response: Frame): Session
    requires ses.active.Some?
  {
    var tagged := ses.(tag := NextTag(ses.tag));
    if ses.active.value.frame.ValveCommand() == None then Finish(ses, response)
    else if !EmptyAcknowledgment(response) then FailWorker(ses)
    else if !current then FailWorker(tagged)
    else WriteFrame(tagged, ses.active.value, ReadStatus(tagged.tag), true)
  }

  lemma AfterForwardForms(px: Proxy, s: nat, response: Frame)
    requires Has(px, s) && px.sessions[s].active.Some?
    ensures AfterForward(px, s, response) == With(px, s, Continued(px.sessions[s], IsCurrent(px, s), response))
  {
    hide FailWorker, Finish, WriteFrame, Frame.ValveCommand, ReadStatus;
  }

  function Proceeded(ses: Session, current: bool, now: int): Session
    requires ses.worker.Exchanging? && ses.active.Some? && ses.current.Some? && ses.current.value.answer.Resolved?
  {
    var response := ses.current.value.answer.frame;
    var seen, r := Seen(ses, response, now), ses.active.value;
    if !current then FailWorker(ses)
    else if ses.worker.confirming then Finish(seen, response)
    else if r.origin.Vendor? && Connected(seen, r.origin.cloud) then SentBack(seen, r.origin.cloud, response)
    else Continued(seen, true, response)
  }

  lemma TakeAnswerForms(px: Proxy, s: nat)
    requires Enabled(px, StepTakeAnswer(s))
    ensures var px' := TakeAnswer(px, s);
            px' == With(px, s, Proceeded(px.sessions[s], IsCurrent(px, s), px.clock)).(state := px'.state)
  {
    hide FailWorker, Finish, Continued, Observed, Frame.ValveCommand, AfterForward;
    var ses := px.sessions[s];
    if IsCurrent(px, s) {
      var seen := Seen(ses, ses.current.value.answer.frame, px.clock);
      var mid := With(px.(state := Observed(px.state, ses.current.value.answer.frame, px.clock)), s, seen);
      AfterForwardForms(mid, s, ses.current.value.answer.frame);
      assert forall x :: With(mid, s, x) == With(px, s, x).(state := mid.state);
    }
  }

  lemma ForwardedForms(px: Proxy, s: nat)
    requires Enabled(px, StepForwarded(s, true))
    ensures Forwarded(px, s, true)
            == With(px, s, Continued(px.sessions[s], IsCurrent(px, s), px.sessions[s].worker.response))
  {
    hide Continued, AfterForward;
    AfterForwardForms(px, s, px.sessions[s].worker.response);
  }

  // ----- Forwards ----------------------------------------------------------------------------

  /** The worker's own affairs leave the queue, its head's caller and the session's life alone. */
  ghost predicate HeadKept(ses: Session, ses': Session) {
    && ses'.queue == ses.queue && ses'.phase == ses.phase && ses'.alive == ses.alive && ses'.readerDone == ses.readerDone
    && (ses.queue != [] && Wanted(ses, ses.queue[0]) ==> Wanted(ses', ses.queue[0]))
  }

  lemma StaysReady(px: Proxy, step: Step, s: nat, r: Request, ses': Session)
    requires Ready(px, s, r) && Enabled(px, step) && HeadKept(px.sessions[s], ses')
    requires Do(px, step) == With(px, s, ses').(state := Do(px, step).state)
    ensures Ready(Do(px, step), s, r)
  {
    hide Inv, Do, Enabled, Wanted;
    StepKeepsInv(px, step);
  }

  lemma FinishKeepsHead(ses: Session, response: Frame)
    requires SessionOk(ses) || QueueOk(ses)
    requires ses.active.Some?
    ensures HeadKept(ses, Finish(ses, response)) && Finish(ses, response).worker.Checking?
  {
    hide Finish, HistoryOk, WaitersOk, CloudsOk, PhaseOk, WorkerOk;
    FinishFields(ses, response);
    assert ses.queue != [] ==> ses.active.value.id < ses.queue[0].id;
  }

  lemma ConfirmKeepsHead(ses: Session, r: Request)
    ensures var tagged := ses.(tag := NextTag(ses.tag));
            var ses' := WriteFrame(tagged, r, ReadStatus(tagged.tag), true);
            && HeadKept(ses, ses') && ses'.worker == Exchanging(true)
            && ses'.current.Some? && ses'.current.value.answer.Pending?
  {
    hide ReadStatus;
  }

  /** Once the answer in hand can be confirmed the worker comes nearer to its queue. */
  lemma ContinuedIsNearer(ses: Session, response: Frame)
    requires QueueOk(ses) && ses.active.Some? && !CannotConfirm(ses, response)
    ensures var ses' := Continued(ses, true, response);
            HeadKept(ses, ses') && !Stuck(ses') && !ses'.worker.WorkerDone? && Stage(ses') <= 3
  {
    hide QueueOk, Frame.ValveCommand, ReadStatus, Finish, WriteFrame;
    if ses.active.value.frame.ValveCommand() == None {
      FinishKeepsHead(ses, response);
    } else {
      ConfirmKeepsHead(ses, ses.active.value);
    }
  }

  lemma SeenKeepsHead(ses: Session, response: Frame, now: int)
    ensures HeadKept(ses, Seen(ses, response, now))
    ensures forall c :: c in ses.clouds ==> HeadKept(ses, SentBack(Seen(ses, response, now), c, response))
    ensures QueueOk(ses) ==> QueueOk(Seen(ses, response, now))
  {
    ChangedWorker(ses, Seen(ses, response, now));
    hide HeadKept;
    forall c | c in ses.clouds ensures HeadKept(ses, SentBack(Seen(ses, response, now), c, response)) {
      SentBackKeepsHead(Seen(ses, response, now), c, response);
      KeptTwice(ses, Seen(ses, response, now), SentBack(Seen(ses, response, now), c, response));
    }
  }

  lemma SentBackKeepsHead(ses: Session, c: nat, response: Frame)
    requires c in ses.clouds
    ensures HeadKept(ses, SentBack(ses, c, response))
  {
  }

  lemma ProceededIsNearer(ses: Session, now: int)
    requires SessionOk(ses) && ses.worker.Exchanging? && ses.current.Some? && ses.current.value.answer.Resolved?
    requires ses.active.Some? && !Stuck(ses)
    ensures var ses' := Proceeded(ses, true, now);
            HeadKept(ses, ses') && !Stuck(ses') && !ses'.worker.WorkerDone? && Stage(ses') < Stage(ses)
  {
    hide HistoryOk, WorkerOk, QueueOk, WaitersOk, CloudsOk, PhaseOk;
    var response := ses.current.value.answer.frame;
    var seen := Seen(ses, response, now);
    SeenKeepsHead(ses, response, now);
    if ses.worker.confirming {
      FinishKeepsHead(seen, response);
      KeptTwice(ses, seen, Finish(seen, response));
    } else if !(ses.active.value.origin.Vendor? && Connected(seen, ses.active.value.origin.cloud)) {
      ContinuedIsNearer(seen, response);
      KeptTwice(ses, seen, Continued(seen, true, response));
    }
  }

  lemma KeptTwice(a: Session, b: Session, c: Session)
    requires HeadKept(a, b) && HeadKept(b, c)
    ensures HeadKept(a, c)
  {
    hide Wanted;
  }

  /** One step took the worker nearer to its queue, or from there to the write. */
  ghost predicate Nearer(px: Proxy, px': Proxy, s: nat, r: Request) {
    && Has(px, s) && Ready(px', s, r)
    && !px'.sessions[s].worker.WorkerDone? && !Stuck(px'.sessions[s]) && Stage(px'.sessions[s]) < Stage(px.sessions[s])
  }

  /** A bounded continuation of the current session writes the head of its queue. */
  lemma {:induction false} CanServe(px: Proxy, s: nat, r: Request) returns (script: seq<Step>)
    requires Ready(px, s, r) && !px.sessions[s].worker.WorkerDone? && !Stuck(px.sessions[s])
    ensures Legal(px, script) && |script| <= Stage(px.sessions[s]) + 1
    ensures Has(After(px, script), s) && Written(After(px, script).sessions[s], r.id)
    decreases Stage(px.sessions[s])
  {
    hide Enabled, Do, Stage, Stuck, Written, Inv, Wanted;
    var step := NextStep(px, s, r);
    if px.sessions[s].worker.Dequeuing? {
      OneStep(px, step);
      script := [step];
    } else {
      var rest := CanServe(Do(px, step), s, r);
      FirstStep(px, step, rest);
      script := [step] + rest;
    }
  }

  lemma NextStep(px: Proxy, s: nat, r: Request) returns (step: Step)
    requires Ready(px, s, r) && !px.sessions[s].worker.WorkerDone? && !Stuck(px.sessions[s])
    ensures Enabled(px, step)
    ensures if px.sessions[s].worker.Dequeuing? then Has(Do(px, step), s) && Written(Do(px, step).sessions[s], r.id)
            else Nearer(px, Do(px, step), s, r)
  {
    SessionSound(px, s, r);
    var ses := px.sessions[s];
    WorkerIsNeverBlocked(px, s);
    hide Inv, Stuck, SessionOk, Wanted, Stage, Nearer, Do, Enabled, Written;
    if ses.worker.Dequeuing? {
      step := StepDequeue(s);
      HeadIsWritten(px, s, r);
    } else if ses.worker.Checking? {
      step := StepCheck(s);
      CheckIsNearer(px, s, r);
    } else if ses.worker.Forwarding? {
      step := StepForwarded(s, true);
      ForwardIsNearer(px, s, r);
    } else if ses.current.value.answer.Resolved? {
      step := StepTakeAnswer(s);
      TakeIsNearer(px, s, r);
    } else {
      step := StepReceive(s, Reply(ses.current.value.frame));
      ReplyIsNearer(px, s, r);
    }
  }

  lemma SessionSound(px: Proxy, s: nat, r: Request)
    requires Ready(px, s, r)
    ensures SessionOk(px.sessions[s])
  {
    hide StateOk, TimesOk, Balanced, Apart, PointersOk, Wanted, SessionOk;
    assert Good(px, px.sessions[s]);
  }

  lemma HeadIsWritten(px: Proxy, s: nat, r: Request)
    requires Ready(px, s, r) && Enabled(px, StepDequeue(s))
    ensures var px' := Do(px, StepDequeue(s)); Has(px', s) && Written(px'.sessions[s], r.id)
  {
    ReadyParts(px, s, r);
    DequeueIs(px, s);
    hide Ready, Enabled, Dequeue, Do, Wanted, Written, IsCurrent;
    WantedIsWritten(px, s);
    JustWritten(px.sessions[s], Dequeue(px, s).sessions[s], r);
  }

  lemma DequeueIs(px: Proxy, s: nat)
    requires Enabled(px, StepDequeue(s))
    ensures Do(px, StepDequeue(s)) == Dequeue(px, s)
  {
    hide Dequeue;
  }

  lemma ReadyParts(px: Proxy, s: nat, r: Request)
    requires Ready(px, s, r)
    ensures Has(px, s) && IsCurrent(px, s) && px.sessions[s].queue != [] && px.sessions[s].queue[0] == r
    ensures Wanted(px.sessions[s], r)
  {
    hide Inv, Wanted;
  }

  lemma JustWritten(ses: Session, ses': Session, r: Request)
    requires ses'.history == ses.history + [Wrote(r, r.frame, false)]
    ensures Written(ses', r.id)
  {
    assert OwnWriteAt(ses', |ses.history|, r.id);
  }

  lemma WantedIsWritten(px: Proxy, s: nat)
    requires Has(px, s) && px.sessions[s].queue != [] && IsCurrent(px, s) && Wanted(px.sessions[s], px.sessions[s].queue[0])
    ensures var r := px.sessions[s].queue[0];
            && Has(Dequeue(px, s), s)
            && Dequeue(px, s).sessions[s].history == px.sessions[s].history + [Wrote(r, r.frame, false)]
  {
    hide FailWorker, Frame.ValveCommand;
  }

  lemma ThenNearer(px: Proxy, step: Step, s: nat, r: Request, ses': Session)
    requires Ready(px, s, r) && Enabled(px, step) && HeadKept(px.sessions[s], ses')
    requires Do(px, step) == With(px, s, ses').(state := Do(px, step).state)
    requires !ses'.worker.WorkerDone? && !Stuck(ses') && Stage(ses') < Stage(px.sessions[s])
    ensures Nearer(px, Do(px, step), s, r)
  {
    StaysReady(px, step, s, r, ses');
    hide Ready, Stuck, Stage, Do, Enabled, HeadKept;
  }

  lemma CheckIsNearer(px: Proxy, s: nat, r: Request)
    requires Ready(px, s, r) && Enabled(px, StepCheck(s))
    ensures Nearer(px, Do(px, StepCheck(s)), s, r)
  {
    CheckForms(px, s);
    hide Inv, Wanted, HeadKept, Do, Nearer;
    var ses' := px.sessions[s].(worker := Dequeuing);
    ChangedWorker(px.sessions[s], ses');
    ThenNearer(px, StepCheck(s), s, r, ses');
  }

  lemma CheckForms(px: Proxy, s: nat)
    requires Enabled(px, StepCheck(s)) && IsCurrent(px, s)
    ensures var px' := Do(px, StepCheck(s));
            px' == With(px, s, px.sessions[s].(worker := Dequeuing)).(state := px'.state)
  {
  }

  lemma ChangedWorker(ses: Session, ses': Session)
    requires ses'.queue == ses.queue && ses'.phase == ses.phase && ses'.alive == ses.alive
    requires ses'.readerDone == ses.readerDone
    requires ses'.waiters == ses.waiters && ses'.clouds == ses.clouds && ses'.cloud == ses.cloud
    ensures HeadKept(ses, ses')
  {
  }

  lemma TakeIsNearer(px: Proxy, s: nat, r: Request)
    requires Ready(px, s, r) && Enabled(px, StepTakeAnswer(s)) && !Stuck(px.sessions[s]) && SessionOk(px.sessions[s])
    ensures Nearer(px, Do(px, StepTakeAnswer(s)), s, r)
  {
    hide Inv, Wanted, SessionOk, Stuck, Stage, Proceeded, HeadKept, TakeAnswer;
    TakeAnswerForms(px, s);
    ProceededIsNearer(px.sessions[s], px.clock);
    StaysReady(px, StepTakeAnswer(s), s, r, Proceeded(px.sessions[s], true, px.clock));
  }

  lemma ForwardIsNearer(px: Proxy, s: nat, r: Request)
    requires Ready(px, s, r) && Enabled(px, StepForwarded(s, true)) && !Stuck(px.sessions[s]) && SessionOk(px.sessions[s])
    ensures Nearer(px, Do(px, StepForwarded(s, true)), s, r)
  {
    hide Inv, Wanted, Continued, HeadKept, Forwarded, HistoryOk, WorkerOk, QueueOk, WaitersOk, CloudsOk, PhaseOk;
    var ses := px.sessions[s];
    ForwardedForms(px, s);
    ContinuedIsNearer(ses, ses.worker.response);
    StaysReady(px, StepForwarded(s, true), s, r, Continued(ses, true, ses.worker.response));
  }

  lemma ReplyIsNearer(px: Proxy, s: nat, r: Request)
    requires Ready(px, s, r) && px.sessions[s].worker.Exchanging? && !Stuck(px.sessions[s]) && SessionOk(px.sessions[s])
    requires px.sessions[s].current.Some? && !px.sessions[s].current.value.answer.Resolved?
    ensures var step := StepReceive(s, Reply(px.sessions[s].current.value.frame));
            Enabled(px, step) && Nearer(px, Do(px, step), s, r)
  {
    var ses := px.sessions[s];
    var reply := Reply(ses.current.value.frame);
    WaitsForAnswer(px, s, r, reply);
    hide Ready, Stuck, SessionOk, Reply, HeadKept, Nearer, Do, Enabled, Replied, Stage, EmptyAcknowledgment;
    hide Frame.ValveCommand, Frame.Matches, IsCurrent;
    ReplyIsReceived(px, s, reply);
    ReplyHelps(ses, reply);
    ThenNearer(px, StepReceive(s, reply), s, r, Replied(ses, reply));
  }

  lemma WaitsForAnswer(px: Proxy, s: nat, r: Request, reply: Frame)
    requires Ready(px, s, r) && px.sessions[s].worker.Exchanging? && !Stuck(px.sessions[s]) && SessionOk(px.sessions[s])
    requires px.sessions[s].current.Some? && !px.sessions[s].current.value.answer.Resolved?
    ensures var ses := px.sessions[s];
            && IsCurrent(px, s) && InTask(px, s) && !ses.readerDone && Enabled(px, StepReceive(s, reply))
            && ses.current.value.answer.Pending? && ses.active.Some?
            && (!ses.worker.confirming ==> ses.current.value.frame == ses.active.value.frame)
  {
    hide Inv, Wanted, SessionOk;
    OwnFrame(px.sessions[s]);
  }

  function Replied(ses: Session, reply: Frame): Session
    requires ses.current.Some?
  {
    ses.(current := Some(ses.current.value.(answer := Resolved(reply))), history := ses.history + [Event.Answered(reply)])
  }

  lemma ReplyIsReceived(px: Proxy, s: nat, reply: Frame)
    requires Has(px, s) && IsCurrent(px, s) && px.sessions[s].current.Some?
    requires px.sessions[s].current.value.answer.Pending? && reply.Matches(px.sessions[s].current.value.frame)
    ensures InTask(px, s) && !px.sessions[s].readerDone ==>
              var px' := Do(px, StepReceive(s, reply)); px' == With(px, s, Replied(px.sessions[s], reply)).(state := px'.state)
  {
    hide Frame.Matches;
  }

  lemma ReplyHelps(ses: Session, reply: Frame)
    requires ses.worker.Exchanging? && ses.current.Some? && ses.current.value.answer.Pending? && !ses.readerDone
    requires ses.active.Some? && (!ses.worker.confirming ==> ses.current.value.frame == ses.active.value.frame)
    requires ses.current.value.frame.ValveCommand().Some? ==> EmptyAcknowledgment(reply)
    ensures var ses' := Replied(ses, reply);
            HeadKept(ses, ses') && !Stuck(ses') && Stage(ses') < Stage(ses) && !ses'.worker.WorkerDone?
  {
    hide Frame.ValveCommand;
  }

  /** The frame in flight is the request's own, unless it is the status read that confirms it. */
  lemma OwnFrame(ses: Session)
    requires SessionOk(ses) && ses.worker.Exchanging?
    ensures ses.active.Some? && ses.current.Some?
    ensures !ses.current.value.answer.Resolved? ==> ses.current.value.answer.Pending?
    ensures !ses.worker.confirming ==> ses.current.value.frame == ses.active.value.frame
  {
    hide QueueOk, WaitersOk, CloudsOk, PhaseOk, WritesInOrder, Alternates;
  }

  // ----- Never again --------------------------------------------------------------------------

  ghost predicate Blocked(ses: Session) {
    Stuck(ses) || ses.worker.WorkerDone?
  }

  /** A blocked session stays so, and writes no request. */
  ghost predicate StaysBlocked(ses: Session, ses': Session) {
    Blocked(ses') && forall i: nat, id: nat :: OwnWriteAt(ses', i, id) ==> OwnWriteAt(ses, i, id)
  }

  lemma Untouched(ses: Session, ses': Session)
    requires Blocked(ses) && ses'.worker == ses.worker && ses'.active == ses.active && ses'.current == ses.current
    requires (ses.readerDone ==> ses'.readerDone) && ses'.history == ses.history
    ensures StaysBlocked(ses, ses')
  {
    hide Frame.ValveCommand;
  }

  lemma FailBlocks(ses: Session)
    ensures FailWorker(ses).history == ses.history && FailWorker(ses).worker.WorkerDone?
  {
    hide FailWorker;
    FailFields(ses);
  }

  lemma Failed(ses: Session, ses': Session)
    requires ses'.worker.WorkerDone? && ses'.history == ses.history
    ensures StaysBlocked(ses, ses')
  {
  }

  /** What cannot be confirmed ends the worker, or makes it wait for an answer nobody reads. */
  lemma ContinuedStaysBlocked(ses: Session, current: bool, response: Frame)
    requires ses.active.Some? && CannotConfirm(ses, response)
    ensures StaysBlocked(ses, Continued(ses, current, response))
  {
    hide Frame.ValveCommand, FailWorker, ReadStatus;
    FailBlocks(ses);
    var tagged := ses.(tag := NextTag(ses.tag));
    FailBlocks(tagged);
    if !EmptyAcknowledgment(response) {
      Failed(ses, FailWorker(ses));
    } else if !current {
      Failed(ses, FailWorker(tagged));
    } else {
      ConfirmingWaits(ses, tagged);
    }
  }

  lemma ConfirmingWaits(ses: Session, tagged: Session)
    requires ses.active.Some? && ses.readerDone && tagged == ses.(tag := tagged.tag)
    ensures StaysBlocked(ses, WriteFrame(tagged, ses.active.value, ReadStatus(tagged.tag), true))
  {
    hide ReadStatus;
    var ses' := WriteFrame(tagged, ses.active.value, ReadStatus(tagged.tag), true);
    forall i: nat, id: nat | OwnWriteAt(ses', i, id) ensures OwnWriteAt(ses, i, id) {
      assert i < |ses.history|;
      assert ses'.history[i] == ses.history[i];
    }
  }

  lemma ProceededStaysBlocked(ses: Session, current: bool, now: int)
    requires ses.worker.Exchanging? && ses.active.Some? && ses.current.Some? && ses.current.value.answer.Resolved?
    requires Stuck(ses)
    ensures StaysBlocked(ses, Proceeded(ses, current, now))
  {
    var response := ses.current.value.answer.frame;
    var seen := Seen(ses, response, now);
    if !current {
      FailBlocks(ses);
      Failed(ses, FailWorker(ses));
    } else if ses.active.value.origin.Vendor? && Connected(seen, ses.active.value.origin.cloud) {
      hide Frame.ValveCommand;
      HoldsTheSame(ses, SentBack(seen, ses.active.value.origin.cloud, response), response);
    } else {
      ContinuedStaysBlocked(seen, true, response);
      HoldsTheSame(ses, seen, response);
      hide Continued, Stuck;
    }
  }

  lemma HoldsTheSame(ses: Session, ses': Session, response: Frame)
    requires CannotConfirm(ses, response) && ses'.active == ses.active && ses'.readerDone == ses.readerDone
    requires ses'.worker == Forwarding(response) && ses'.history == ses.history
    ensures StaysBlocked(ses, ses') && CannotConfirm(ses', response)
    ensures forall i: nat, id: nat :: OwnWriteAt(ses', i, id) <==> OwnWriteAt(ses, i, id)
  {
    hide Frame.ValveCommand;
  }

  lemma TakeStaysBlocked(px: Proxy, s: nat)
    requires Enabled(px, StepTakeAnswer(s)) && Stuck(px.sessions[s])
    ensures var px' := Do(px, StepTakeAnswer(s)); Has(px', s) && StaysBlocked(px.sessions[s], px'.sessions[s])
  {
    hide TakeAnswer, Proceeded, StaysBlocked, Stuck;
    TakeAnswerForms(px, s);
    ProceededStaysBlocked(px.sessions[s], IsCurrent(px, s), px.clock);
  }

  lemma ForwardedStaysBlocked(px: Proxy, s: nat, drained: bool)
    requires Enabled(px, StepForwarded(s, drained)) && Stuck(px.sessions[s])
    ensures var px' := Do(px, StepForwarded(s, drained)); Has(px', s) && StaysBlocked(px.sessions[s], px'.sessions[s])
  {
    hide AfterForward, Continued, CloseCloud, Frame.ValveCommand;
    var ses := px.sessions[s];
    CloseFields(ses, ses.active.value.origin.cloud);
    var closed := if drained then ses else CloseCloud(ses, ses.active.value.origin.cloud);
    var mid := With(px, s, closed);
    assert drained ==> mid == px;
    AfterForwardForms(mid, s, ses.worker.response);
    HoldsTheSame(ses, closed, ses.worker.response);
    ContinuedStaysBlocked(closed, IsCurrent(mid, s), ses.worker.response);
  }

  lemma ReceiveStaysBlocked(px: Proxy, s: nat, frame: Frame)
    requires Enabled(px, StepReceive(s, frame)) && SessionOk(px.sessions[s]) && Blocked(px.sessions[s])
    ensures var px' := Do(px, StepReceive(s, frame)); Has(px', s) && StaysBlocked(px.sessions[s], px'.sessions[s])
  {
    hide HistoryOk, QueueOk, WaitersOk, CloudsOk, PhaseOk, Frame.ValveCommand, Frame.Matches, StaysBlocked;
    var ses := px.sessions[s];
    Untouched(ses, ses.(readerDone := true));
  }

  ghost predicate PlainForWorker(step: Step) {
    !step.StepCheck? && !step.StepDequeue? && !step.StepTakeAnswer? && !step.StepForwarded? && !step.StepWorkerFails?
    && !step.StepReceive? && !step.StepCleanup?
  }

  /** The worker's affairs are the same, and the reader has not come back. */
  ghost predicate SameWork(px: Proxy, px': Proxy, s: nat) {
    && Has(px, s) && Has(px', s)
    && var ses, ses' := px.sessions[s], px'.sessions[s];
       && ses'.worker == ses.worker && ses'.active == ses.active && ses'.current == ses.current
       && (ses.readerDone ==> ses'.readerDone) && ses'.history == ses.history
  }

  lemma PlainLeavesWorker(px: Proxy, step: Step, s: nat)
    requires Enabled(px, step) && Subject(px, step) == Some(s) && Has(px, s) && PlainForWorker(step)
    ensures SameWork(px, Do(px, step), s)
  {
    hide Do, Enabled, SameWork;
    if step.StepCall? || step.StepPoll? || step.StepCancelWaiter? || step.StepResume? {
      CallersLeaveWorker(px, step, s);
    } else if step.StepOffer? || step.StepConnectCloud? || step.StepDropCloud? || step.StepClearCloud? {
      CloudLeavesWorker(px, step, s);
    } else {
      FlagsLeaveWorker(px, step, s);
    }
  }

  lemma CallersLeaveWorker(px: Proxy, step: Step, s: nat)
    requires Enabled(px, step) && Subject(px, step) == Some(s) && Has(px, s)
    requires step.StepCall? || step.StepPoll? || step.StepCancelWaiter? || step.StepResume?
    ensures SameWork(px, Do(px, step), s)
  {
    hide RequestFrame, Verdict, Done;
  }

  lemma CloudLeavesWorker(px: Proxy, step: Step, s: nat)
    requires Enabled(px, step) && Subject(px, step) == Some(s) && Has(px, s)
    requires step.StepOffer? || step.StepConnectCloud? || step.StepDropCloud? || step.StepClearCloud?
    ensures SameWork(px, Do(px, step), s)
  {
    hide SameWork, Offer, ConnectCloud, DropCloud, ClearCloud;
    match step
    case StepOffer(_, frame) => OfferLeavesWorker(px, s, frame);
    case StepConnectCloud(_) => ConnectLeavesWorker(px, s);
    case StepDropCloud(_) => DropLeavesWorker(px, s);
    case StepClearCloud(_) => ClearLeavesWorker(px, s);
  }

  lemma OfferLeavesWorker(px: Proxy, s: nat, frame: Frame)
    requires Enabled(px, StepOffer(s, frame))
    ensures SameWork(px, Offer(px, s, frame), s)
  {
    hide CloseCloud, Connected;
    CloseFields(px.sessions[s], px.sessions[s].cloudTask.cloud);
  }

  lemma ConnectLeavesWorker(px: Proxy, s: nat)
    requires Has(px, s)
    ensures SameWork(px, ConnectCloud(px, s), s)
  {
  }

  lemma DropLeavesWorker(px: Proxy, s: nat)
    requires Enabled(px, StepDropCloud(s))
    ensures SameWork(px, With(px, s, DropCloud(px.sessions[s])), s)
  {
    hide CloseCloud;
    CloseFields(px.sessions[s], px.sessions[s].cloudTask.cloud);
  }

  lemma ClearLeavesWorker(px: Proxy, s: nat)
    requires Enabled(px, StepClearCloud(s))
    ensures SameWork(px, ClearCloud(px, s), s)
  {
  }

  lemma FlagsLeaveWorker(px: Proxy, step: Step, s: nat)
    requires Enabled(px, step) && Subject(px, step) == Some(s) && Has(px, s)
    requires step.StepBegin? || step.StepSkip? || step.StepReaderEnds? || step.StepCloudEnds? || step.StepPollEnds?
             || step.StepClosed?
    ensures SameWork(px, Do(px, step), s)
  {
  }

  lemma CleanupLeavesWorker(px: Proxy, s: nat, error: Option<string>)
    requires Enabled(px, StepCleanup(s, error))
    ensures var px' := Do(px, StepCleanup(s, error));
            && Has(px', s) && px'.sessions[s].worker.WorkerDone? && px'.sessions[s].history == px.sessions[s].history
  {
    hide RejectAll, Leftover, VendorCount, CloseCloud;
    if px.sessions[s].cloud.Some? {
      CloseFields(px.sessions[s], px.sessions[s].cloud.value);
    }
  }

  lemma OwnStepStaysBlocked(px: Proxy, step: Step, s: nat)
    requires Enabled(px, step) && Subject(px, step) == Some(s) && Has(px, s)
    requires SessionOk(px.sessions[s]) && Blocked(px.sessions[s])
    ensures var px' := Do(px, step); Has(px', s) && StaysBlocked(px.sessions[s], px'.sessions[s])
  {
    var ses := px.sessions[s];
    if PlainForWorker(step) {
      PlainLeavesWorker(px, step, s);
      hide Do, Enabled, Blocked, StaysBlocked, SessionOk;
      Untouched(ses, Do(px, step).sessions[s]);
    } else if step.StepReceive? {
      hide Do, SessionOk, Blocked, StaysBlocked;
      ReceiveStaysBlocked(px, s, step.frame);
    } else if step.StepCleanup? {
      CleanupLeavesWorker(px, s, step.error);
      hide *;
      Failed(ses, Do(px, step).sessions[s]);
    } else {
      hide Do, SessionOk, StaysBlocked, Frame.ValveCommand;
      WorkerStaysBlocked(px, step, s);
    }
  }

  lemma WorkerStaysBlocked(px: Proxy, step: Step, s: nat)
    requires Enabled(px, step) && Subject(px, step) == Some(s) && Has(px, s) && Blocked(px.sessions[s])
    requires step.StepCheck? || step.StepDequeue? || step.StepTakeAnswer? || step.StepForwarded? || step.StepWorkerFails?
    ensures var px' := Do(px, step); Has(px', s) && StaysBlocked(px.sessions[s], px'.sessions[s])
  {
    hide TakeAnswer, Forwarded, Dequeue, FailWorker, StaysBlocked, CannotConfirm;
    match step
    case StepTakeAnswer(_) => TakeStaysBlocked(px, s);
    case StepForwarded(_, drained) => ForwardedStaysBlocked(px, s, drained);
    case StepWorkerFails(_) =>
      FailBlocks(px.sessions[s]);
      Failed(px.sessions[s], FailWorker(px.sessions[s]));
    case _ =>
  }

  lemma BlockedStays(px: Proxy, step: Step, s: nat)
    requires Inv(px) && Has(px, s) && Enabled(px, step) && Blocked(px.sessions[s])
    ensures var px' := Do(px, step); Has(px', s) && StaysBlocked(px.sessions[s], px'.sessions[s])
  {
    hide StateOk, TimesOk, Balanced, Apart, SessionOk, Blocked, StaysBlocked, Do, Enabled;
    assert Good(px, px.sessions[s]);
    if Subject(px, step) == Some(s) {
      OwnStepStaysBlocked(px, step, s);
    } else if Subject(px, step) == None {
      hide PointersOk, SessionsOk;
      ListenerLeavesWorker(px, step, s);
      Untouched(px.sessions[s], Do(px, step).sessions[s]);
    } else {
      StepsTouchOneSession(px, step);
      Untouched(px.sessions[s], px.sessions[s]);
    }
  }

  lemma ListenerLeavesWorker(px: Proxy, step: Step, s: nat)
    requires Enabled(px, step) && Subject(px, step) == None && Has(px, s)
    ensures SameWork(px, Do(px, step), s)
  {
    hide Retire;
    RetireLeavesWorker(px.sessions[s]);
  }

  lemma RetireLeavesWorker(ses: Session)
    ensures var ses' := Retire(ses);
            && ses'.worker == ses.worker && ses'.active == ses.active && ses'.current == ses.current
            && ses'.readerDone == ses.readerDone && ses'.history == ses.history
  {
    hide CloseCloud;
    if ses.cloud.Some? {
      CloseFields(ses, ses.cloud.value);
    }
  }

  lemma {:induction false} NeverServes(px: Proxy, s: nat, id: nat, script: seq<Step>)
    requires Inv(px) && Has(px, s) && Blocked(px.sessions[s]) && !Written(px.sessions[s], id) && Legal(px, script)
    ensures Has(After(px, script), s) && !Written(After(px, script).sessions[s], id)
    decreases |script|
  {
    hide Inv, Blocked, StaysBlocked, Enabled, Do, Written;
    if script != [] {
      StepKeepsInv(px, script[0]);
      BlockedStays(px, script[0], s);
      BlockedUnwritten(px.sessions[s], Do(px, script[0]).sessions[s], id);
      NeverServes(Do(px, script[0]), s, id, script[1..]);
    }
  }

  lemma BlockedUnwritten(ses: Session, ses': Session, id: nat)
    requires StaysBlocked(ses, ses') && !Written(ses, id)
    ensures Blocked(ses') && !Written(ses', id)
  {
    hide Blocked;
  }

  /** Some continuation writes request `id` of session `s`. */
  ghost predicate Serves(px: Proxy, s: nat, id: nat, script: seq<Step>) {
    Legal(px, script) && Has(After(px, script), s) && Written(After(px, script).sessions[s], id)
  }

  /**
   In every reachable state of a current, running session, the wanted request at the head of its
   queue can still reach the device if and only if the worker has not ended and is not stuck.
   */
  lemma HeadCanBeServed(run: seq<Proxy>, steps: seq<Step>, n: nat, s: nat)
    requires IsRun(run, steps) && n < |run| && Has(run[n], s) && IsCurrent(run[n], s)
    requires run[n].sessions[s].phase.Running? && run[n].sessions[s].queue != []
    requires Wanted(run[n].sessions[s], run[n].sessions[s].queue[0])
    ensures var ses := run[n].sessions[s];
            (exists script :: Serves(run[n], s, ses.queue[0].id, script))
            <==> !ses.worker.WorkerDone? && !Stuck(ses)
  {
    hide Inv, Stuck, Written, IsRun, Wanted, Legal, After;
    RunInv(run, steps, n);
    var px, r := run[n], run[n].sessions[s].queue[0];
    HeadIsUnwritten(px, s);
    if !px.sessions[s].worker.WorkerDone? && !Stuck(px.sessions[s]) {
      var script := CanServe(px, s, r);
      assert Serves(px, s, r.id, script);
    } else {
      forall script ensures !Serves(px, s, r.id, script) {
        if Legal(px, script) {
          NeverServes(px, s, r.id, script);
        }
      }
    }
  }

  lemma HeadIsUnwritten(px: Proxy, s: nat)
    requires Inv(px) && Has(px, s) && px.sessions[s].queue != []
    ensures !Written(px.sessions[s], px.sessions[s].queue[0].id)
  {
    hide StateOk, TimesOk, Balanced, Apart, PointersOk, HistoryOk, WorkerOk, WaitersOk, CloudsOk, PhaseOk;
    assert Good(px, px.sessions[s]);
  }
}
