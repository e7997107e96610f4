/**
 Two whole runs: `set_valve` that returns normally, and a vendor frame with its answer.
 */
module ProxyRuns {
  import opened Base
  import opened Protocol
  import opened Envelope
  import opened ProxyModel
  import opened ProxyTheorems
  import opened ProxyCallers

  /** A session that waits for its queue. */
  function Waiting(): Session {
    NewSession().(phase := Running, worker := Dequeuing)
  }

  function Ready(): Proxy {
    Initial(64, 0).(sessions := [Waiting()], session := Some(0))
  }

  lemma SessionIsReady()
    ensures var script := [StepAccept] + ([StepBegin(0)] + [StepCheck(0)]);
            Legal(Initial(64, 0), script) && After(Initial(64, 0), script) == Ready()
  {
    hide Legal, After;
    var p0 := Initial(64, 0);
    var p1 := Do(p0, StepAccept);
    assert p1.sessions == [NewSession()];
    var p2 := Do(p1, StepBegin(0));
    assert p2.sessions == [NewSession().(phase := Running)];
    OneStep(p2, StepCheck(0));
    FirstStep(p1, StepBegin(0), [StepCheck(0)]);
    FirstStep(p0, StepAccept, [StepBegin(0)] + [StepCheck(0)]);
    assert Do(p2, StepCheck(0)).sessions == [Waiting()];
  }

  // ----- A confirmed command -----------------------------------------------------------------

  /** The device's empty acknowledgment of the command. */
  const ACKNOWLEDGMENT := Frame(0x81, 1, 0x20, 0, 0, [], [])

  const REPORT: Frame := OpenReport().(destination := 0x82)

  const CONFIRMATION := ReadStatus(0x82)

  function Wanted(): Proxy {
    Ready().(sessions := [Before()], nextId := 1)
  }

  /** The command is written, and acknowledged. */
  function Commanding(): Session {
    Before().(queue := [], worker := Exchanging(false), active := Some(COMMAND),
              current := Some(InFlight(COMMAND.frame, Pending)), history := [Wrote(COMMAND, COMMAND.frame, false)])
  }

  function Acknowledged(): Session {
    Commanding().(current := Some(InFlight(COMMAND.frame, Resolved(ACKNOWLEDGMENT))),
                  history := [Wrote(COMMAND, COMMAND.frame, false), Answered(ACKNOWLEDGMENT)])
  }

  /** The confirming read is written, and answered. */
  function Confirming(): Session {
    Acknowledged().(tag := 0x82, worker := Exchanging(true), current := Some(InFlight(CONFIRMATION, Pending)),
                    observedAt := [0], history := Acknowledged().history + [Wrote(COMMAND, CONFIRMATION, true)])
  }

  function Reported(): Session {
    Confirming().(current := Some(InFlight(CONFIRMATION, Resolved(REPORT))),
                  history := Confirming().history + [Answered(REPORT)])
  }

  function Confirmed(): Session {
    Reported().(active := None, current := None, worker := Checking, observedAt := [0, 0],
                waiters := Before().waiters[0 := Waiter(SetValve(Open), Resolved(REPORT), None, 1)])
  }

  lemma CommandIsWanted()
    ensures Enabled(Ready(), StepCall(SetValve(Open))) && Do(Ready(), StepCall(SetValve(Open))) == Wanted()
  {
    hide CommandFrame;
    var px := Do(Ready(), StepCall(SetValve(Open)));
    assert px.sessions[0].queue == [COMMAND];
    assert px.sessions[0].requests == Before().requests && px.sessions[0].waiters == Before().waiters;
    assert px.sessions == [Before()];
  }

  lemma WantedFields()
    ensures var px := Wanted(); px.sessions == [Before()] && px.session == Some(0) && !px.closing && px.state == BLANK
  {
  }

  lemma CanDequeue(px: Proxy)
    requires px.sessions == [Before()]
    ensures Enabled(px, StepDequeue(0))
  {
  }

  lemma CommandIsWritten(px: Proxy)
    requires px.sessions == [Before()] && px.session == Some(0) && !px.closing && px.state.valve == None
    ensures Enabled(px, StepDequeue(0)) && Do(px, StepDequeue(0)) == px.(sessions := [Commanding()])
  {
    ReadIsNoCommand();
    hide Frame.ValveCommand, CommandFrame, FailWorker, Connected, ReadStatus, Enabled;
    assert Enabled(px, StepDequeue(0)) by { CanDequeue(px); }
    var ses := Before();
    assert ses.queue[1..] == [] && ses.queue[0] == COMMAND;
    assert ses.history + [Wrote(COMMAND, COMMAND.frame, false)] == Commanding().history;
    assert px.state.(valve := None) == px.state;
    assert px.sessions[0 := Commanding()] == [Commanding()];
  }

  lemma AcknowledgmentMatches()
    ensures ACKNOWLEDGMENT.Matches(COMMAND.frame) && EmptyAcknowledgment(ACKNOWLEDGMENT)
    ensures StatusValues(ACKNOWLEDGMENT) == None
    ensures REPORT.Matches(CONFIRMATION) && StatusValues(REPORT) == Some(Values(Some(Open), None))
  {
  }

  lemma CommandIsAcknowledged(px: Proxy)
    requires px.sessions == [Commanding()] && px.session == Some(0) && !px.closing
    ensures var step := StepReceive(0, ACKNOWLEDGMENT); Enabled(px, step) && Do(px, step) == px.(sessions := [Acknowledged()])
  {
    AcknowledgmentMatches();
    hide Frame.Matches, CommandFrame, StatusValues, EmptyAcknowledgment;
    var ses := Commanding();
    assert ses.history + [Answered(ACKNOWLEDGMENT)] == Acknowledged().history;
    assert Expected(ses, ACKNOWLEDGMENT);
    assert px.sessions[0 := Acknowledged()] == [Acknowledged()];
  }

  /** The state once an answer was observed. */
  function Alive(valve: Option<Valve>): State {
    BLANK.(deviceConnected := true, lastResponse := Some(0), valve := valve,
           valveUpdated := if valve.Some? then Some(0) else None)
  }

  lemma ConfirmationIsWritten(px: Proxy)
    requires px == Wanted().(sessions := [Acknowledged()])
    ensures var px' := px.(sessions := [Confirming()], state := Alive(None));
            Enabled(px, StepTakeAnswer(0)) && Do(px, StepTakeAnswer(0)) == px'
  {
    AcknowledgmentMatches();
    ReadIsNoCommand();
    hide Frame.Matches, CommandFrame, StatusValues, Frame.ValveCommand, ReadStatus, FailWorker, Finish, EmptyAcknowledgment;
    assert [] + [0] == [0];
    assert Do(px, StepTakeAnswer(0)).sessions == [Confirming()];
  }

  lemma ConfirmationIsAnswered(px: Proxy)
    requires px == Wanted().(sessions := [Confirming()], state := Alive(None))
    ensures var step := StepReceive(0, REPORT); Enabled(px, step) && Do(px, step) == px.(sessions := [Reported()])
  {
    AcknowledgmentMatches();
    hide Frame.Matches, CommandFrame, StatusValues, ReadStatus, OpenReport, EmptyAcknowledgment;
    assert Do(px, StepReceive(0, REPORT)).sessions == [Reported()];
  }

  lemma CommandIsConfirmed(px: Proxy)
    requires px == Wanted().(sessions := [Reported()], state := Alive(None))
    ensures var px' := px.(sessions := [Confirmed()], state := Alive(Some(Open)));
            Enabled(px, StepTakeAnswer(0)) && Do(px, StepTakeAnswer(0)) == px'
  {
    AcknowledgmentMatches();
    hide Frame.Matches, CommandFrame, StatusValues, Frame.ValveCommand, ReadStatus, FailWorker, OpenReport;
    assert [0] + [0] == [0, 0];
    assert Do(px, StepTakeAnswer(0)).sessions[0].waiters == Confirmed().waiters;
    assert Do(px, StepTakeAnswer(0)).sessions == [Confirmed()];
  }

  lemma CallerReturns(px: Proxy)
    requires px == Wanted().(sessions := [Confirmed()], state := Alive(Some(Open)))
    ensures Enabled(px, StepResume(0, 0))
    ensures var px' := Do(px, StepResume(0, 0));
            px'.session == Some(0) && px'.state.valve == Some(Open) && Has(px', 0)
            && px'.sessions[0] == Confirmed().(waiters := px'.sessions[0].waiters)
            && px'.sessions[0].waiters == Before().waiters[0 := Waiter(SetValve(Open), Resolved(REPORT), Some(Returned), 1)]
  {
    AcknowledgmentMatches();
    hide Frame.Matches, CommandFrame, StatusValues, ReadStatus, OpenReport;
  }

  /**
   A run in which `set_valve` returns: the command, its acknowledgment, the confirming read and its
   report of the position asked for pass over the device connection, and the position is shown.
   */
  lemma SetValveReturns() returns (script: seq<Step>)
    ensures Legal(Initial(64, 0), script)
    ensures var px := After(Initial(64, 0), script);
            && px.state.valve == Some(Open) && px.session == Some(0) && Has(px, 0)
            && px.sessions[0].history == [Wrote(COMMAND, COMMAND.frame, false), Answered(ACKNOWLEDGMENT),
                                          Wrote(COMMAND, CONFIRMATION, true), Answered(REPORT)]
            && 0 in px.sessions[0].waiters && px.sessions[0].waiters[0].purpose == SetValve(Open)
            && px.sessions[0].waiters[0].outcome == Some(Returned)
  {
    hide Legal, After, Do, Enabled, Ready, Initial, CommandFrame, ReadStatus, OpenReport;
    var first := [StepAccept] + ([StepBegin(0)] + [StepCheck(0)]);
    SessionIsReady();
    CommandIsWanted();
    WantedFields();
    CommandIsWritten(Wanted());
    var p1 := Wanted().(sessions := [Commanding()]);
    CommandIsAcknowledged(p1);
    var p2 := p1.(sessions := [Acknowledged()]);
    ConfirmationIsWritten(p2);
    var p3 := p2.(sessions := [Confirming()], state := Alive(None));
    ConfirmationIsAnswered(p3);
    var p4 := p3.(sessions := [Reported()]);
    CommandIsConfirmed(p4);
    var p5 := p4.(sessions := [Confirmed()], state := Alive(Some(Open)));
    CallerReturns(p5);
    OneStep(p5, StepResume(0, 0));
    script := [StepTakeAnswer(0)] + [StepResume(0, 0)];
    FirstStep(p4, StepTakeAnswer(0), [StepResume(0, 0)]);
    FirstStep(p3, StepReceive(0, REPORT), script);
    script := [StepReceive(0, REPORT)] + script;
    FirstStep(p2, StepTakeAnswer(0), script);
    script := [StepTakeAnswer(0)] + script;
    FirstStep(p1, StepReceive(0, ACKNOWLEDGMENT), script);
    script := [StepReceive(0, ACKNOWLEDGMENT)] + script;
    FirstStep(Wanted(), StepDequeue(0), script);
    script := [StepDequeue(0)] + script;
    FirstStep(Ready(), StepCall(SetValve(Open)), script);
    script := [StepCall(SetValve(Open))] + script;
    assert Confirmed().history == [Wrote(COMMAND, COMMAND.frame, false), Answered(ACKNOWLEDGMENT),
                                   Wrote(COMMAND, CONFIRMATION, true), Answered(REPORT)];
    Concatenated(Initial(64, 0), first, script);
    script := first + script;
  }

  // ----- A vendor frame ---------------------------------------------------------------------------

  const QUESTION := ReadStatus(0x83)
  const ANSWER: Frame := OpenReport().(destination := 0x83)
  const ASKED := ProxyModel.Request(0, QUESTION, Vendor(0))

  function Linked(): Session {
    Waiting().(clouds := NewSession().clouds[0 := Cloud(true, [], [])], cloud := Some(0), cloudTask := Serving(0))
  }

  function Offered(): Session {
    Linked().(queue := [ASKED], requests := NewSession().requests[0 := ASKED],
              clouds := NewSession().clouds[0 := Cloud(true, [QUESTION], [])])
  }

  function Asking(): Session {
    Offered().(queue := [], worker := Exchanging(false), active := Some(ASKED), current := Some(InFlight(QUESTION, Pending)),
               history := [Wrote(ASKED, QUESTION, false)])
  }

  function Heard(): Session {
    Asking().(current := Some(InFlight(QUESTION, Resolved(ANSWER))),
              history := [Wrote(ASKED, QUESTION, false), Answered(ANSWER)])
  }

  lemma VendorConnects(px: Proxy)
    requires px == Ready()
    ensures Enabled(px, StepConnectCloud(0))
    ensures Do(px, StepConnectCloud(0))
            == px.(sessions := [Linked()], nextCloud := 1, state := px.state.(cloudConnected := true))
  {
    assert Do(px, StepConnectCloud(0)).sessions == [Linked()];
  }

  lemma QuestionIsTaken(px: Proxy)
    requires px.sessions == [Linked()] && px.session == Some(0) && !px.closing && px.limit == 64 && px.nextId == 0
    ensures var step := StepOffer(0, QUESTION);
            Enabled(px, step) && Do(px, step) == px.(sessions := [Offered()], offered := px.offered + 1, nextId := 1)
  {
    hide ReadStatus;
    var px' := Do(px, StepOffer(0, QUESTION));
    assert px'.sessions[0].queue == [ASKED] && [] + [QUESTION] == [QUESTION];
    assert px'.sessions[0].clouds == Offered().clouds && px'.sessions[0].requests == Offered().requests;
    assert px'.sessions == [Offered()];
  }

  lemma QuestionIsWritten(px: Proxy)
    requires px.sessions == [Offered()] && px.session == Some(0) && !px.closing
    ensures Enabled(px, StepDequeue(0)) && Do(px, StepDequeue(0)) == px.(sessions := [Asking()])
  {
    QuestionMatches();
    hide Frame.ValveCommand, ReadStatus, FailWorker;
    var ses := Offered();
    assert ses.queue[1..] == [] && ses.queue[0] == ASKED;
    assert ses.history + [Wrote(ASKED, QUESTION, false)] == Asking().history;
    assert Do(px, StepDequeue(0)).sessions == [Asking()];
  }

  lemma QuestionMatches()
    ensures ANSWER.Matches(QUESTION) && QUESTION.ValveCommand() == None
    ensures StatusValues(ANSWER) == Some(Values(Some(Open), None))
  {
  }

  lemma QuestionIsAnswered(px: Proxy)
    requires px.sessions == [Asking()] && px.session == Some(0) && !px.closing
    ensures var step := StepReceive(0, ANSWER); Enabled(px, step) && Do(px, step) == px.(sessions := [Heard()])
  {
    QuestionMatches();
    hide Frame.Matches, ReadStatus, OpenReport;
    assert Asking().history + [Answered(ANSWER)] == Heard().history;
    assert Expected(Asking(), ANSWER);
    assert px.sessions[0 := Heard()] == [Heard()];
  }

  lemma AnswerIsSentBack(px: Proxy)
    requires px.sessions == [Heard()] && px.session == Some(0) && !px.closing
    ensures Enabled(px, StepTakeAnswer(0))
    ensures var px' := Do(px, StepTakeAnswer(0));
            && Has(px', 0) && px'.session == Some(0) && px'.sessions[0].history == Heard().history
            && 0 in px'.sessions[0].clouds && px'.sessions[0].clouds[0] == Cloud(true, [QUESTION], [ANSWER])
            && px'.state.cloudConnected == px.state.cloudConnected && px'.dropped == px.dropped
            && px'.state.valve == Some(Open)
  {
    QuestionMatches();
    hide Frame.Matches, ReadStatus, OpenReport, StatusValues, Frame.ValveCommand, Finish, AfterForward;
    assert [] + [ANSWER] == [ANSWER];
  }

  /** A run in which a vendor frame reaches the device and its answer the vendor; nothing is dropped. */
  lemma VendorIsAnswered() returns (script: seq<Step>)
    ensures Legal(Initial(64, 0), script)
    ensures var px := After(Initial(64, 0), script);
            && px.session == Some(0) && Has(px, 0) && px.state.cloudConnected && px.dropped == 0
            && px.sessions[0].history == [Wrote(ASKED, QUESTION, false), Answered(ANSWER)]
            && 0 in px.sessions[0].clouds && px.sessions[0].clouds[0] == Cloud(true, [QUESTION], [ANSWER])
            && px.state.valve == Some(Open)
  {
    hide Legal, After, Do, Enabled, ReadStatus, OpenReport;
    var first := [StepAccept] + ([StepBegin(0)] + [StepCheck(0)]);
    SessionIsReady();
    VendorConnects(Ready());
    var p1 := Do(Ready(), StepConnectCloud(0));
    QuestionIsTaken(p1);
    var p2 := Do(p1, StepOffer(0, QUESTION));
    QuestionIsWritten(p2);
    var p3 := Do(p2, StepDequeue(0));
    QuestionIsAnswered(p3);
    var p4 := Do(p3, StepReceive(0, ANSWER));
    AnswerIsSentBack(p4);
    OneStep(p4, StepTakeAnswer(0));
    script := [StepReceive(0, ANSWER)] + [StepTakeAnswer(0)];
    FirstStep(p3, StepReceive(0, ANSWER), [StepTakeAnswer(0)]);
    FirstStep(p2, StepDequeue(0), script);
    script := [StepDequeue(0)] + script;
    FirstStep(p1, StepOffer(0, QUESTION), script);
    script := [StepOffer(0, QUESTION)] + script;
    FirstStep(Ready(), StepConnectCloud(0), script);
    script := [StepConnectCloud(0)] + script;
    Concatenated(Initial(64, 0), first, script);
    script := first + script;
  }
}
