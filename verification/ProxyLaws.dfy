/**
 What happens exactly when: every change that callers, the vendor or the device can see, with the
 step and the conditions that bring it about, written out in the fields of the state. Nothing else
 brings it about, and the conditions always do.
 */
module ProxyLaws {
  import opened Base
  import opened Bits
  import opened Protocol
  import opened Envelope
  import opened ProxyModel
  import opened ProxyInvariant
  import opened ProxySafety
  import opened ProxyProgress
  import opened ProxyState
  import opened ProxyBalance
  import opened ProxyTheorems
  import opened ProxyService

  // ----- The tests of the program, written out ----------------------------------------------

  /** Session `s` is the proxy's, alive, and the proxy is not closing. */
  ghost predicate Acts(px: Proxy, s: nat)
    requires Has(px, s)
  {
    !px.closing && px.session == Some(s) && px.sessions[s].alive
  }

  /** Vendor connection `c` is open and the session's own. */
  ghost predicate Live(ses: Session, c: nat) {
    c in ses.clouds && ses.clouds[c].alive && ses.cloud == Some(c)
  }

  ghost predicate Room(px: Proxy, ses: Session) {
    px.limit == 0 || |ses.queue| < px.limit
  }

  /** A valve command: opcode 0x20, address 0x1A, two bytes, the second an opening or closing code. */
  ghost predicate Commands(f: Frame) {
    && f.opcode == 0x20 && f.address == 0x1A && f.length == 2 && |f.payload| == 2
    && f.payload[0] == 0x00 && (f.payload[1] == 0xC7 || f.payload[1] == 0xC8)
  }

  lemma CommandsAre(f: Frame)
    ensures Commands(f) <==> f.ValveCommand().Some?
  {
    CommandBytes(f, Open);
    CommandBytes(f, Closed);
    if f.ValveCommand().Some? {
      match f.ValveCommand().value
      case Open =>
      case Closed =>
    }
  }

  ghost predicate Empty(f: Frame) {
    f.address == 0 && f.length == 0 && |f.payload| == 0
  }

  /** The request has somebody who wants it: its caller did not cancel, its connection is live. */
  ghost predicate Asked(ses: Session, r: Request) {
    match r.origin
    case Local => r.id in ses.waiters ==> !ses.waiters[r.id].future.Cancelled?
    case Vendor(c) => Live(ses, c)
  }

  // ----- What each kind of step leaves alone -----------------------------------------------------

  lemma CallerFrame(px: Proxy, step: Step, s: nat)
    requires Enabled(px, step) && Subject(px, step) == Some(s) && Has(px, s)
    requires step.StepCall? || step.StepPoll? || step.StepCancelWaiter? || step.StepResume?
    ensures var px' := Do(px, step);
            && Has(px', s) && px' == px.(sessions := px.sessions[s := px'.sessions[s]], nextId := px'.nextId)
            && var ses, ses' := px.sessions[s], px'.sessions[s];
               ses' == ses.(tag := ses'.tag, queue := ses'.queue, requests := ses'.requests, waiters := ses'.waiters)
    ensures step.StepCancelWaiter? || step.StepResume? ==>
              var px' := Do(px, step);
              px'.nextId == px.nextId && px'.sessions[s] == px.sessions[s].(waiters := px'.sessions[s].waiters)
  {
    hide RequestFrame, Verdict, Done;
  }

  lemma FlagFrame(px: Proxy, step: Step, s: nat)
    requires Enabled(px, step) && Subject(px, step) == Some(s) && Has(px, s)
    requires step.StepBegin? || step.StepSkip? || step.StepReaderEnds? || step.StepCloudEnds? || step.StepPollEnds?
             || step.StepClosed? || step.StepCheck?
    ensures var px' := Do(px, step);
            && Has(px', s) && px' == px.(sessions := px.sessions[s := px'.sessions[s]])
            && var ses, ses' := px.sessions[s], px'.sessions[s];
               ses' == ses.(phase := ses'.phase, readerDone := ses'.readerDone, pollDone := ses'.pollDone,
                            closed := ses'.closed, cloudTask := ses'.cloudTask, worker := ses'.worker)
  {
  }

  /** What the worker's steps may do to a session. */
  ghost predicate WorkerOnly(ses: Session, ses': Session) {
    && ses' == ses.(queue := ses'.queue, current := ses'.current, active := ses'.active, clouds := ses'.clouds,
                    tag := ses'.tag, worker := ses'.worker, waiters := ses'.waiters, history := ses'.history,
                    observedAt := ses'.observedAt, failed := ses'.failed)
    && ses'.clouds.Keys == ses.clouds.Keys
    && forall c :: c in ses.clouds ==> ses'.clouds[c].offered == ses.clouds[c].offered
  }

  lemma FailFrame(ses: Session)
    ensures WorkerOnly(ses, FailWorker(ses)) && FailWorker(ses).queue == ses.queue && FailWorker(ses).history == ses.history
    ensures FailWorker(ses).waiters == ses.waiters && FailWorker(ses).clouds == ses.clouds && FailWorker(ses).tag == ses.tag
    ensures FailWorker(ses).observedAt == ses.observedAt
  {
    hide FailWorker;
    FailFields(ses);
  }

  lemma FinishFrame(ses: Session, response: Frame)
    requires ses.active.Some?
    ensures var ses' := Finish(ses, response);
            && WorkerOnly(ses, ses') && ses'.queue == ses.queue && ses'.history == ses.history
            && ses'.clouds == ses.clouds && ses'.tag == ses.tag && ses'.observedAt == ses.observedAt
  {
    hide Finish;
    FinishFields(ses, response);
  }

  lemma ContinuedFrame(ses: Session, current: bool, response: Frame)
    requires ses.active.Some?
    ensures var ses' := Continued(ses, current, response);
            && WorkerOnly(ses, ses') && ses'.queue == ses.queue && ses'.clouds == ses.clouds
            && ses'.observedAt == ses.observedAt
            && ses'.history == ses.history
                 + if current && ses.active.value.frame.ValveCommand().Some? && EmptyAcknowledgment(response)
                   then [Wrote(ses.active.value, ReadStatus(NextTag(ses.tag)), true)] else []
  {
    hide Finish, FailWorker, Frame.ValveCommand, ReadStatus, WorkerOnly;
    FinishFrame(ses, response);
    FailFrame(ses);
    var tagged := ses.(tag := NextTag(ses.tag));
    FailFrame(tagged);
    Tagged(ses, tagged.tag, FailWorker(tagged));
    Confirming(ses, tagged);
    assert ses.history + [] == ses.history;
  }

  lemma Tagged(ses: Session, tag: Tag, ses': Session)
    requires WorkerOnly(ses.(tag := tag), ses')
    ensures WorkerOnly(ses, ses')
  {
  }

  lemma Confirming(ses: Session, tagged: Session)
    requires ses.active.Some? && tagged == ses.(tag := tagged.tag)
    ensures WorkerOnly(ses, WriteFrame(tagged, ses.active.value, ReadStatus(tagged.tag), true))
  {
    hide ReadStatus;
  }

  lemma WorkerTwice(a: Session, b: Session, c: Session)
    requires WorkerOnly(a, b) && WorkerOnly(b, c)
    ensures WorkerOnly(a, c)
  {
  }

  lemma SeenFrame(ses: Session, response: Frame, now: int)
    ensures WorkerOnly(ses, Seen(ses, response, now))
    ensures forall c :: c in ses.clouds ==> WorkerOnly(ses, SentBack(Seen(ses, response, now), c, response))
  {
  }

  /** When the answer just taken is followed by the status read that confirms a valve command. */
  ghost predicate TakesToConfirm(px: Proxy, s: nat)
    requires Has(px, s)
  {
    var ses := px.sessions[s];
    && Acts(px, s) && ses.worker == Exchanging(false)
    && ses.active.Some? && Commands(ses.active.value.frame)
    && ses.current.Some? && ses.current.value.answer.Resolved? && Empty(ses.current.value.answer.frame)
    && (ses.active.value.origin.Vendor? ==> !Live(ses, ses.active.value.origin.cloud))
  }

  lemma ProceededFrame(ses: Session, current: bool, now: int)
    requires ses.worker.Exchanging? && ses.active.Some? && ses.current.Some? && ses.current.value.answer.Resolved?
    ensures var ses', response, r := Proceeded(ses, current, now), ses.current.value.answer.frame, ses.active.value;
            && WorkerOnly(ses, ses') && ses'.queue == ses.queue
            && ses'.observedAt == (if current then ses.observedAt + [now] else ses.observedAt)
            && ses'.history == ses.history
                 + if current && !ses.worker.confirming && r.frame.ValveCommand().Some? && EmptyAcknowledgment(response)
                      && !(r.origin.Vendor? && Connected(ses, r.origin.cloud))
                   then [Wrote(r, ReadStatus(NextTag(ses.tag)), true)] else []
  {
    hide Continued, Finish, FailWorker, Frame.ValveCommand, ReadStatus, WorkerOnly, Seen, SentBack, EmptyAcknowledgment;
    var response := ses.current.value.answer.frame;
    var seen := Seen(ses, response, now);
    assert ses.history + [] == ses.history;
    SeenFields(ses, response, now);
    if !current {
      FailFrame(ses);
    } else if ses.worker.confirming {
      FinishFrame(seen, response);
      WorkerTwice(ses, seen, Finish(seen, response));
    } else if !(ses.active.value.origin.Vendor? && Connected(seen, ses.active.value.origin.cloud)) {
      ContinuedFrame(seen, true, response);
      WorkerTwice(ses, seen, Continued(seen, true, response));
    }
  }

  lemma SeenFields(ses: Session, response: Frame, now: int)
    ensures var seen := Seen(ses, response, now);
            && WorkerOnly(ses, seen) && seen.queue == ses.queue && seen.history == ses.history && seen.tag == ses.tag
            && seen.active == ses.active && seen.clouds == ses.clouds && seen.cloud == ses.cloud
            && seen.observedAt == ses.observedAt + [now]
            && forall c :: c in ses.clouds ==>
                 var sent := SentBack(seen, c, response);
                 && WorkerOnly(ses, sent) && sent.queue == ses.queue && sent.history == ses.history
                 && sent.observedAt == ses.observedAt + [now]
  {
    SeenFrame(ses, response, now);
    hide WorkerOnly;
  }

  lemma TakeFrame(px: Proxy, s: nat)
    requires Enabled(px, StepTakeAnswer(s))
    ensures var px' := Do(px, StepTakeAnswer(s));
            && Has(px', s) && px' == px.(sessions := px.sessions[s := px'.sessions[s]], state := px'.state)
            && var ses, ses' := px.sessions[s], px'.sessions[s];
               && WorkerOnly(ses, ses') && ses'.queue == ses.queue
               && ses'.observedAt == (if Acts(px, s) then ses.observedAt + [px.clock] else ses.observedAt)
               && ses'.history == ses.history
                    + if TakesToConfirm(px, s) then [Wrote(ses.active.value, ReadStatus(NextTag(ses.tag)), true)] else []
  {
    hide Proceeded, TakeAnswer, WorkerOnly, ReadStatus, Frame.ValveCommand, Commands;
    TakeAnswerForms(px, s);
    ProceededFrame(px.sessions[s], IsCurrent(px, s), px.clock);
    CommandsAre(px.sessions[s].active.value.frame);
  }

  lemma CloseFrame(ses: Session, c: nat)
    ensures WorkerOnly(ses, CloseCloud(ses, c))
  {
    hide CloseCloud;
    CloseFields(ses, c);
  }

  lemma ForwardFrame(px: Proxy, s: nat, drained: bool)
    requires Enabled(px, StepForwarded(s, drained))
    ensures var px' := Do(px, StepForwarded(s, drained));
            && Has(px', s) && px' == px.(sessions := px.sessions[s := px'.sessions[s]])
            && var ses, ses' := px.sessions[s], px'.sessions[s];
               && WorkerOnly(ses, ses') && ses'.queue == ses.queue && ses'.observedAt == ses.observedAt
               && ses'.clouds == (if drained then ses else CloseCloud(ses, ses.active.value.origin.cloud)).clouds
               && ses'.history == ses.history
                    + if Acts(px, s) && Commands(ses.active.value.frame) && Empty(ses.worker.response)
                      then [Wrote(ses.active.value, ReadStatus(NextTag(ses.tag)), true)] else []
  {
    hide AfterForward, Continued, CloseCloud, WorkerOnly, ReadStatus, Frame.ValveCommand, Commands;
    var ses := px.sessions[s];
    var c := ses.active.value.origin.cloud;
    CloseFields(ses, c);
    CloseFrame(ses, c);
    var closed := if drained then ses else CloseCloud(ses, c);
    var mid := With(px, s, closed);
    assert drained ==> mid == px;
    AfterForwardForms(mid, s, ses.worker.response);
    ContinuedFrame(closed, IsCurrent(mid, s), ses.worker.response);
    assert WorkerOnly(ses, Continued(closed, IsCurrent(mid, s), ses.worker.response)) by {
      if !drained { WorkerTwice(ses, closed, Continued(closed, IsCurrent(mid, s), ses.worker.response)); }
    }
    CommandsAre(ses.active.value.frame);
    assert px.sessions[s := closed][s := Continued(closed, IsCurrent(mid, s), ses.worker.response)]
           == px.sessions[s := Continued(closed, IsCurrent(mid, s), ses.worker.response)];
  }

  lemma DequeueFrame(px: Proxy, s: nat)
    requires Enabled(px, StepDequeue(s))
    ensures var px' := Do(px, StepDequeue(s));
            && Has(px', s)
            && px' == px.(sessions := px.sessions[s := px'.sessions[s]], state := px'.state, dropped := px'.dropped)
            && var ses, ses', r := px.sessions[s], px'.sessions[s], px.sessions[s].queue[0];
               && WorkerOnly(ses, ses') && ses'.queue == ses.queue[1..] && ses'.waiters == ses.waiters
               && ses'.clouds == ses.clouds && ses'.tag == ses.tag && ses'.observedAt == ses.observedAt
               && px'.dropped == px.dropped + (if r.origin.Vendor? && !Live(ses, r.origin.cloud) then 1 else 0)
               && px'.state == (if Asked(ses, r) && Commands(r.frame) then px.state.(valve := None) else px.state)
               && ses'.history == ses.history + if Acts(px, s) && Asked(ses, r) then [Wrote(r, r.frame, false)] else []
  {
    hide FailWorker, Frame.ValveCommand, Commands, WorkerOnly;
    var ses := px.sessions[s];
    CommandsAre(ses.queue[0].frame);
    var head := Head(ses).(worker := Exchanging(false));
    FailFrame(head);
    assert ses.history + [] == ses.history;
    HeadFrames(ses);
  }

  lemma HeadFrames(ses: Session)
    requires ses.queue != []
    ensures WorkerOnly(ses, Head(ses).(active := None, worker := Checking))
    ensures WorkerOnly(ses, FailWorker(Head(ses).(worker := Exchanging(false))))
    ensures WorkerOnly(ses, WriteFrame(Head(ses), ses.queue[0], ses.queue[0].frame, false))
  {
    hide FailWorker;
    FailFields(Head(ses).(worker := Exchanging(false)));
  }

  // ----- Frames offered by the vendor -----------------------------------------------------------

  /** A vendor frame is taken: the session acts and serves a live connection, and the queue has room. */
  ghost predicate Takes(px: Proxy, step: Step, s: nat, c: nat) {
    && step.StepOffer? && step.s == s && Has(px, s) && px.sessions[s].cloudTask == Serving(c)
    && Acts(px, s) && Live(px.sessions[s], c) && Room(px, px.sessions[s])
  }

  /** Connections keep what they offered; new ones have offered nothing. */
  ghost predicate SameOffers(ses: Session, ses': Session) {
    && (forall c :: c in ses.clouds ==> c in ses'.clouds && ses'.clouds[c].offered == ses.clouds[c].offered)
    && (forall c :: c in ses'.clouds && c !in ses.clouds ==> ses'.clouds[c].offered == [])
  }

  lemma WorkerOffers(ses: Session, ses': Session)
    requires WorkerOnly(ses, ses')
    ensures SameOffers(ses, ses')
  {
  }

  lemma EqualOffers(ses: Session, ses': Session)
    requires ses'.clouds == ses.clouds
    ensures SameOffers(ses, ses')
  {
  }

  lemma CloseOffers(ses: Session, c: nat, ses': Session)
    requires ses'.clouds == CloseCloud(ses, c).clouds
    ensures SameOffers(ses, ses')
  {
    hide CloseCloud;
    CloseFields(ses, c);
  }

  lemma CloseCurrentOffers(ses: Session, ses': Session)
    requires ses'.clouds == CloseCurrentCloud(ses).clouds
    ensures SameOffers(ses, ses')
  {
    hide CloseCloud;
    if ses.cloud.Some? {
      CloseOffers(ses, ses.cloud.value, ses');
    }
  }

  lemma WorkerStepOffers(px: Proxy, step: Step, s: nat)
    requires Enabled(px, step) && Subject(px, step) == Some(s) && Has(px, s)
    requires step.StepDequeue? || step.StepTakeAnswer? || step.StepForwarded? || step.StepWorkerFails?
    ensures Has(Do(px, step), s) && SameOffers(px.sessions[s], Do(px, step).sessions[s])
  {
    hide WorkerOnly, SameOffers, FailWorker, Commands, Frame.ValveCommand, ReadStatus;
    var ses := px.sessions[s];
    match step
    case StepDequeue(_) => DequeueFrame(px, s); WorkerOffers(ses, Do(px, step).sessions[s]);
    case StepTakeAnswer(_) => TakeFrame(px, s); WorkerOffers(ses, Do(px, step).sessions[s]);
    case StepForwarded(_, drained) => ForwardFrame(px, s, drained); WorkerOffers(ses, Do(px, step).sessions[s]);
    case StepWorkerFails(_) => FailFrame(ses); WorkerOffers(ses, FailWorker(ses));
  }

  lemma CloudStepOffers(px: Proxy, step: Step, s: nat)
    requires Enabled(px, step) && Subject(px, step) == Some(s) && Has(px, s)
    requires step.StepConnectCloud? || step.StepDropCloud? || step.StepClearCloud?
    requires CloudsBelow(px.sessions[s], px.nextCloud)
    ensures Has(Do(px, step), s) && SameOffers(px.sessions[s], Do(px, step).sessions[s])
  {
    hide SameOffers, ConnectCloud, ClearCloud, DropCloud;
    match step
    case StepConnectCloud(_) => ConnectOffers(px, s);
    case StepDropCloud(_) => DropOffers(px.sessions[s]);
    case StepClearCloud(_) => ClearOffers(px, s);
  }

  lemma ConnectOffers(px: Proxy, s: nat)
    requires Has(px, s) && CloudsBelow(px.sessions[s], px.nextCloud)
    ensures Has(ConnectCloud(px, s), s) && SameOffers(px.sessions[s], ConnectCloud(px, s).sessions[s])
  {
  }

  lemma DropOffers(ses: Session)
    requires ses.cloudTask.Serving?
    ensures SameOffers(ses, DropCloud(ses))
  {
    hide CloseCloud, SameOffers;
    CloseOffers(ses, ses.cloudTask.cloud, DropCloud(ses));
  }

  lemma ClearOffers(px: Proxy, s: nat)
    requires Enabled(px, StepClearCloud(s))
    ensures Has(ClearCloud(px, s), s) && SameOffers(px.sessions[s], ClearCloud(px, s).sessions[s])
  {
    hide SameOffers;
    EqualOffers(px.sessions[s], ClearCloud(px, s).sessions[s]);
  }

  lemma OtherStepOffers(px: Proxy, step: Step, s: nat)
    requires Enabled(px, step) && Subject(px, step) == Some(s) && Has(px, s)
    requires step.StepReceive? || step.StepCleanup?
    ensures Has(Do(px, step), s) && SameOffers(px.sessions[s], Do(px, step).sessions[s])
  {
    hide CloseCurrentCloud, RejectAll, Leftover, VendorCount, Frame.Matches, SameOffers;
    match step
    case StepReceive(_, frame) => EqualOffers(px.sessions[s], Receive(px, s, frame).sessions[s]);
    case StepCleanup(_, error) => CloseCurrentOffers(px.sessions[s], Cleanup(px, s, error).sessions[s]);
  }

  /** A vendor frame: taken, refused by a full queue, or dropped without a word. */
  lemma OfferFrame(px: Proxy, s: nat, frame: Frame)
    requires Enabled(px, StepOffer(s, frame)) && Has(px, s)
    ensures var px', ses := Do(px, StepOffer(s, frame)), px.sessions[s];
            var c := ses.cloudTask.cloud;
            && Has(px', s) && px'.offered == px.offered + 1
            && px' == px.(sessions := px.sessions[s := px'.sessions[s]], offered := px'.offered, dropped := px'.dropped,
                          nextId := px'.nextId)
            && if Acts(px, s) && Live(ses, c) && Room(px, ses) then
                 var r := Request(px.nextId, frame, Vendor(c));
                 && px'.sessions[s] == ses.(queue := ses.queue + [r], requests := ses.requests[r.id := r],
                                            clouds := ses.clouds[c := ses.clouds[c].(offered := ses.clouds[c].offered + [frame])])
                 && px'.dropped == px.dropped && px'.nextId == px.nextId + 1
               else
                 && px'.dropped == px.dropped + 1 && px'.nextId == px.nextId
                 && px'.sessions[s] == if Acts(px, s) && Live(ses, c) then CloseCloud(ses, c).(cloudTask := Closing(c)) else ses
  {
    hide CloseCloud;
    var ses := px.sessions[s];
    assert px.sessions[s := ses] == px.sessions;
  }

  lemma OfferExactly(px: Proxy, s: nat, frame: Frame, c: nat)
    requires Enabled(px, StepOffer(s, frame)) && Has(px, s) && c in px.sessions[s].clouds
    ensures var px' := Do(px, StepOffer(s, frame));
            && Has(px', s) && c in px'.sessions[s].clouds
            && px'.sessions[s].clouds[c].offered
               == px.sessions[s].clouds[c].offered + if Takes(px, StepOffer(s, frame), s, c) then [frame] else []
  {
    OfferFrame(px, s, frame);
    hide CloseCloud, Do, Enabled;
    CloseFields(px.sessions[s], px.sessions[s].cloudTask.cloud);
    assert px.sessions[s].clouds[c].offered + [] == px.sessions[s].clouds[c].offered;
  }

  lemma SubjectOffers(px: Proxy, step: Step, s: nat)
    requires Enabled(px, step) && Subject(px, step) == Some(s) && Has(px, s) && !step.StepOffer?
    requires CloudsBelow(px.sessions[s], px.nextCloud)
    ensures Has(Do(px, step), s) && SameOffers(px.sessions[s], Do(px, step).sessions[s])
  {
    hide Do, Enabled, SameOffers, CloudsBelow;
    if step.StepDequeue? || step.StepTakeAnswer? || step.StepForwarded? || step.StepWorkerFails? {
      WorkerStepOffers(px, step, s);
    } else if step.StepConnectCloud? || step.StepDropCloud? || step.StepClearCloud? {
      CloudStepOffers(px, step, s);
    } else if step.StepReceive? || step.StepCleanup? {
      OtherStepOffers(px, step, s);
    } else if step.StepCall? || step.StepPoll? || step.StepCancelWaiter? || step.StepResume? {
      CallerFrame(px, step, s);
      EqualOffers(px.sessions[s], Do(px, step).sessions[s]);
    } else {
      FlagFrame(px, step, s);
      EqualOffers(px.sessions[s], Do(px, step).sessions[s]);
    }
  }

  lemma ListenerOffers(px: Proxy, step: Step, s: nat)
    requires Enabled(px, step) && Subject(px, step) == None && Has(px, s)
    ensures Has(Do(px, step), s) && SameOffers(px.sessions[s], Do(px, step).sessions[s])
  {
    hide CloseCurrentCloud, SameOffers;
    CloseCurrentOffers(px.sessions[s], Retire(px.sessions[s]));
    EqualOffers(px.sessions[s], px.sessions[s]);
    EqualOffers(px.sessions[s], CancelTask(px.sessions[s]));
  }

  /** What connection `c` of session `s` has offered grows exactly when a frame is taken, by that frame. */
  lemma OffersExactly(px: Proxy, step: Step, s: nat, c: nat)
    requires Inv(px) && Enabled(px, step) && Has(px, s)
    ensures var px' := Do(px, step);
            && Has(px', s)
            && (c in px.sessions[s].clouds ==>
                  && c in px'.sessions[s].clouds
                  && px'.sessions[s].clouds[c].offered
                     == px.sessions[s].clouds[c].offered + if Takes(px, step, s, c) then [step.frame] else [])
            && (c !in px.sessions[s].clouds && c in px'.sessions[s].clouds ==>
                  px'.sessions[s].clouds[c].offered == [] && !Takes(px, step, s, c))
  {
    hide StateOk, TimesOk, Balanced, Apart, Do, Enabled, SessionOk;
    assert Good(px, px.sessions[s]);
    if Subject(px, step) == None {
      ListenerOffers(px, step, s);
    } else if Subject(px, step) != Some(s) {
      StepsTouchOneSession(px, step);
    } else if step.StepOffer? {
      if c in px.sessions[s].clouds {
        OfferExactly(px, s, step.frame, c);
      } else {
        OfferOpensNothing(px, s, step.frame);
      }
    } else {
      SubjectOffers(px, step, s);
    }
    if c in px.sessions[s].clouds {
      assert px.sessions[s].clouds[c].offered + [] == px.sessions[s].clouds[c].offered;
    }
  }

  lemma OfferOpensNothing(px: Proxy, s: nat, frame: Frame)
    requires Enabled(px, StepOffer(s, frame)) && Has(px, s)
    ensures Has(Do(px, StepOffer(s, frame)), s)
    ensures Do(px, StepOffer(s, frame)).sessions[s].clouds.Keys == px.sessions[s].clouds.Keys
  {
    OfferFrame(px, s, frame);
    hide CloseCloud, Do, Enabled;
    CloseFields(px.sessions[s], px.sessions[s].cloudTask.cloud);
  }

  /** The frames taken from connection `c` in the first `n` steps, read off the steps alone. */
  ghost function Got(run: seq<Proxy>, steps: seq<Step>, n: nat, s: nat, c: nat): seq<Frame>
    requires |run| == |steps| + 1 && n <= |steps|
  {
    if n == 0 then []
    else Got(run, steps, n - 1, s, c) + if Takes(run[n - 1], steps[n - 1], s, c) then [steps[n - 1].frame] else []
  }

  lemma {:induction false} OfferedIsGot(run: seq<Proxy>, steps: seq<Step>, n: nat, s: nat, c: nat)
    requires IsRun(run, steps) && |run| == |steps| + 1 && n < |run|
    ensures if Has(run[n], s) && c in run[n].sessions[s].clouds
            then run[n].sessions[s].clouds[c].offered == Got(run, steps, n, s, c)
            else Got(run, steps, n, s, c) == []
  {
    hide Inv, Do, Enabled, Takes;
    if n == 0 {
      StartsEmpty(run, steps);
    } else {
      hide IsRun;
      OfferedIsGot(run, steps, n - 1, s, c);
      RunInv(run, steps, n - 1);
      RunStep(run, steps, n - 1);
      if Has(run[n - 1], s) {
        OffersExactly(run[n - 1], steps[n - 1], s, c);
      } else {
        NewSessionIsEmpty(run[n - 1], steps[n - 1], s);
      }
      TakesNeedsConnection(run[n - 1], steps[n - 1], s, c);
    }
  }

  lemma StartsEmpty(run: seq<Proxy>, steps: seq<Step>)
    requires IsRun(run, steps)
    ensures run[0].sessions == []
  {
  }

  lemma TakesNeedsConnection(px: Proxy, step: Step, s: nat, c: nat)
    ensures Takes(px, step, s, c) ==> Has(px, s) && c in px.sessions[s].clouds
  {
  }

  lemma NewSessionIsEmpty(px: Proxy, step: Step, s: nat)
    requires Inv(px) && Enabled(px, step) && !Has(px, s)
    ensures Has(Do(px, step), s) ==> Do(px, step).sessions[s].clouds == map[]
  {
    hide SessionsOk, StateOk, TimesOk, Balanced, Apart;
    if Has(Do(px, step), s) {
      NewOnlyByAccept(px, step, s);
    }
  }

  /**
   Transparent forwarding, from the steps alone: what the device gets on behalf of a connection
   is a prefix of the frames taken from it, what the connection gets back a prefix of the device's
   answers to those; and nothing is missing while connection and worker are up.
   */
  lemma VendorFramesAreForwarded(run: seq<Proxy>, steps: seq<Step>, n: nat, s: nat, c: nat)
    requires IsRun(run, steps) && |run| == |steps| + 1 && n < |run| && Has(run[n], s) && c in run[n].sessions[s].clouds
    ensures var ses, got := run[n].sessions[s], Got(run, steps, n, s, c);
            var writes, answers := WritesFor(ses.history, c), AnswersFor(ses.history, |ses.observedAt|, c);
            && writes <= got && ses.clouds[c].back <= answers && |answers| <= |writes|
            && (Live(ses, c) && !ses.worker.WorkerDone? ==>
                  got == writes + QueuedFor(ses.queue, c) && ses.clouds[c].back == answers)
            && forall k :: 0 <= k < |answers| ==> answers[k].Matches(writes[k])
  {
    hide IsRun, WritesFor, AnswersFor, QueuedFor, Got, Frame.Matches;
    OfferedIsGot(run, steps, n, s, c);
    TransparentForwarding(run, steps, n, s, c);
  }

  // ----- Drops -------------------------------------------------------------------------------------

  function VendorsIn(queue: seq<Request>): nat {
    if queue == [] then 0 else VendorsIn(queue[..|queue| - 1]) + if queue[|queue| - 1].origin.Vendor? then 1 else 0
  }

  lemma {:induction false} VendorsAreCounted(queue: seq<Request>)
    ensures VendorCount(queue) == VendorsIn(queue)
  {
    if queue != [] {
      var init := queue[..|queue| - 1];
      VendorsAreCounted(init);
      VendorCountAppend(init, queue[|queue| - 1]);
      assert init + [queue[|queue| - 1]] == queue;
    } else {
      assert VendorCount([]) == 0;
    }
  }

  /** How many vendor frames a step drops. */
  ghost function Drops(px: Proxy, step: Step): nat {
    match step
    case StepOffer(s, _) =>
      if !Has(px, s) || !px.sessions[s].cloudTask.Serving? then 0
      else
        var c := px.sessions[s].cloudTask.cloud;
        if Acts(px, s) && Live(px.sessions[s], c) && Room(px, px.sessions[s]) then 0 else 1
    case StepDequeue(s) =>
      if !Has(px, s) || px.sessions[s].queue == [] then 0
      else
        var r := px.sessions[s].queue[0];
        if r.origin.Vendor? && !Live(px.sessions[s], r.origin.cloud) then 1 else 0
    case StepCleanup(s, _) =>
      if !Has(px, s) then 0
      else VendorsIn(px.sessions[s].queue)
           + if px.sessions[s].active.Some? && px.sessions[s].active.value.origin.Vendor? then 1 else 0
    case _ => 0
  }

  /**
   `dropped_messages` counts exactly: vendor frames that were not taken, queued ones whose
   connection is no longer the session's, and what a session leaves behind.
   */
  lemma DropsExactly(px: Proxy, step: Step)
    requires Inv(px) && Enabled(px, step)
    ensures Do(px, step).dropped == px.dropped + Drops(px, step)
  {
    hide SessionsOk, StateOk, TimesOk, Balanced, Apart;
    if Subject(px, step) == None {
      hide PointersOk;
      ListenerDrops(px, step);
    } else {
      StepsTouchOneSession(px, step);
      hide PointersOk, OnlySession;
      SubjectDrops(px, step, Subject(px, step).value);
    }
  }

  lemma ListenerDrops(px: Proxy, step: Step)
    requires Enabled(px, step) && Subject(px, step) == None
    ensures Do(px, step).dropped == px.dropped && Drops(px, step) == 0
  {
    hide Retire, CancelTask;
  }

  lemma SubjectDrops(px: Proxy, step: Step, s: nat)
    requires Enabled(px, step) && Subject(px, step) == Some(s) && Has(px, s)
    ensures Do(px, step).dropped == px.dropped + Drops(px, step)
  {
    hide WorkerOnly, Commands, ReadStatus, Frame.ValveCommand;
    if step.StepCall? || step.StepPoll? || step.StepCancelWaiter? || step.StepResume? {
      CallerFrame(px, step, s);
      hide Do, Enabled;
    } else if step.StepOffer? {
      OfferFrame(px, s, step.frame);
      hide Do, CloseCloud;
    } else if step.StepDequeue? {
      DequeueFrame(px, s);
      hide Do;
    } else if step.StepTakeAnswer? {
      TakeFrame(px, s);
      hide Do;
    } else if step.StepForwarded? {
      ForwardFrame(px, s, step.drained);
      hide Do;
    } else if step.StepCleanup? {
      CleanupDrops(px, s, step.error);
      hide Do;
    } else {
      OtherDrops(px, step, s);
    }
  }

  lemma CleanupDrops(px: Proxy, s: nat, error: Option<string>)
    requires Enabled(px, StepCleanup(s, error)) && Has(px, s)
    ensures Do(px, StepCleanup(s, error)).dropped == px.dropped + Drops(px, StepCleanup(s, error))
  {
    hide Swept, VendorCount, VendorsIn, Leftover;
    LeftoverCount(px.sessions[s]);
    VendorsAreCounted(px.sessions[s].queue);
  }

  lemma OtherDrops(px: Proxy, step: Step, s: nat)
    requires Enabled(px, step) && Subject(px, step) == Some(s) && Has(px, s)
    requires !step.StepOffer? && !step.StepDequeue? && !step.StepCleanup? && !step.StepTakeAnswer? && !step.StepForwarded?
    requires !step.StepCall? && !step.StepPoll?
    ensures Do(px, step).dropped == px.dropped && Drops(px, step) == 0
  {
    hide FailWorker, DropCloud, Verdict, Frame.Matches;
  }
}
