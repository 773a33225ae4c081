/**
 What every run of an INVITE server transaction guarantees to its user and to
 the network.
 */
module InviteServerTheorems {
  import opened Wrappers
  import opened Timers
  import opened InviteServer
  import opened InviteServerRuns
  import C = InviteClientRuns

  /** How a transaction is created. */
  datatype Setup = Setup(reliable: bool, intervals: Intervals, manager: Manager) {
    function Server(): Server {
      Fresh(reliable, intervals, manager)
    }

    /** Timer I is set to zero over reliable transports. */
    function IntervalI(): nat {
      if reliable then 0 else intervals.i
    }

    /** The transaction after some inputs. */
    function After(inputs: seq<Input>): Server {
      Run(Server(), inputs)
    }
  }

  lemma AfterIsGood(setup: Setup, inputs: seq<Input>, s: Server)
    requires setup.manager.Valid() && s == setup.After(inputs)
    ensures Good(s, setup.intervals.g)
  {
    RunKeepsGood(setup.Server(), inputs, setup.intervals.g);
  }

  // ----- the outputs ------------------------------------------------------

  predicate IsFinal(r: Response) {
    C.IsSuccess(r) || C.IsFailure(r)
  }

  /** A server transaction as its user and the transport see it. */
  datatype Phase =
    | Idle
    | Contacted
    | Asked                          // the user has been given the request
    | Refused(response: Response)
    | Agreed
    | Closing                        // a failure has been reported
    | Closed

  /** Which outputs are in order in which phase. */
  function Next(p: Phase, o: Output): Option<Phase> {
    match o
    case Send(r) =>
      if p.Idle? && r == TRYING then Some(Contacted)
      else if p.Asked? && C.IsProvisional(r) then Some(Asked)
      else if p.Asked? && C.IsFailure(r) then Some(Refused(r))
      else if (p.Asked? || p.Agreed?) && C.IsSuccess(r) then Some(Agreed)
      else if p == Refused(r) then Some(p)
      else None
    case PassUpInvite => if p.Contacted? then Some(Asked) else None
    case PassUpAck => if p.Agreed? then Some(Agreed) else None
    case ReportTransportError => if p.Refused? then Some(Closing) else None
    case PassUpNothing => if p.Asked? || p.Refused? || p.Agreed? then Some(Closing) else None
    case ReportError => if p.Asked? || p.Refused? || p.Agreed? then Some(Closing) else None
    case Remove => if p.Idle? then None else Some(Closed)
  }

  function PhaseOf(log: seq<Output>): Option<Phase> {
    if log == [] then Some(Idle)
    else
      match PhaseOf(log[..|log| - 1])
      case None => None
      case Some(p) => Next(p, log[|log| - 1])
  }

  lemma PhaseOfSnoc(log: seq<Output>, o: Output)
    requires PhaseOf(log).Some?
    ensures PhaseOf(log + [o]) == Next(PhaseOf(log).value, o)
  {
    assert (log + [o])[..|log|] == log;
  }

  /** The phase that a state stands for; `last` is the last response. */
  function PhaseFor(state: State, last: Option<Response>): Phase {
    match state
    case Started => Idle
    case Proceeding => Asked
    case Completed => if last.Some? then Refused(last.value) else Closing
    case Confirmed => if last.Some? then Refused(last.value) else Closing
    case Accepted => Agreed
    case Terminated => Closed
  }

  /** The last response is of the kind that the state is for. */
  predicate LastFits(state: State, last: Option<Response>) {
    match state
    case Started => last.None?
    case Proceeding => last.Some? && C.IsProvisional(last.value)
    case Completed => last.Some? && C.IsFailure(last.value)
    case Confirmed => last.Some? && C.IsFailure(last.value)
    case Accepted => last.Some? && C.IsSuccess(last.value)
    case Terminated => true
  }

  /** The log is in order, and its phase and the last response are those of the state. */
  predicate InPhase(s: Server) {
    PhaseOf(s.log) == Some(PhaseFor(s.state, s.last)) && LastFits(s.state, s.last)
  }

  predicate Fits(action: Action, m: Message) {
    action in {SendProvisional, SendSuccess, SendFailure} ==> ActionFor(m.response.code) == Some(action)
  }

  /** The phase after further outputs, of which there are at most two at a time. */
  function Follow(p: Phase, outputs: seq<Output>): Option<Phase> {
    if outputs == [] then Some(p)
    else
      match Next(p, outputs[0])
      case None => None
      case Some(q) => if |outputs| == 1 then Some(q) else Next(q, outputs[1])
  }

  lemma PhaseOfConcat(log: seq<Output>, outputs: seq<Output>)
    requires PhaseOf(log).Some? && |outputs| <= 2
    requires Follow(PhaseOf(log).value, outputs).Some?
    ensures PhaseOf(log + outputs) == Follow(PhaseOf(log).value, outputs)
  {
    if outputs == [] {
      assert log + outputs == log;
    } else {
      PhaseOfSnoc(log, outputs[0]);
      if |outputs| == 1 {
        assert log + outputs == log + [outputs[0]];
      } else {
        PhaseOfSnoc(log + [outputs[0]], outputs[1]);
        assert log + outputs == log + [outputs[0]] + [outputs[1]];
      }
    }
  }

  predicate Ends(to: State, exec: Exec, last: Option<Response>, results: Results) {
    Returned(exec, last, results) != 0 || to == Terminated
  }

  /** The last response after the function of a row. */
  function LastAfter(exec: Exec, r: Response, last: Option<Response>): Option<Response> {
    if Sends(exec, r, last).Some? then Sends(exec, r, last) else last
  }

  /** The outputs of each row function are in order, and lead to the phase of the new state unless they are the last. */
  lemma OutputsFollow(state: State, last: Option<Response>, action: Action, m: Message, results: Results)
    requires state != Terminated && LastFits(state, last) && Fits(action, m)
    requires Transition(state, action, m).Some?
    ensures var (to, exec) := Transition(state, action, m).value;
      var q := Follow(PhaseFor(state, last), Outputs(exec, m.response, last, results));
      && |Outputs(exec, m.response, last, results)| <= 2
      && q.Some?
      && if Ends(to, exec, last, results) then !q.value.Idle? && !q.value.Closed?
         else q.value == PhaseFor(to, LastAfter(exec, m.response, last))
              && LastFits(to, LastAfter(exec, m.response, last))
  {
  }

  lemma RetimeKeeps(s: Server, exec: Exec)
    ensures var d := s.Retime(exec);
      && d.state == s.state && d.reliable == s.reliable && d.running == s.running
      && d.last == s.last && d.log == s.log
      && d.timers.now == s.timers.now
  {
  }

  lemma TakePutsOut(s: Server, to: State, exec: Exec, r: Response, results: Results)
    ensures var d := s.Take(to, exec, r, results);
      && d.log == s.log + Outputs(exec, r, s.last, results)
                  + (if Ends(to, exec, s.last, results) then [Remove] else [])
      && d.state == (if Ends(to, exec, s.last, results) then Terminated else to)
      && d.last == LastAfter(exec, r, s.last)
      && d.reliable == s.reliable && d.running == s.running && d.timers.now == s.timers.now
  {
    RetimeKeeps(s.(state := to), exec);
  }

  lemma PhaseOfAll(log: seq<Output>, more: seq<Output>, p: Phase, outputs: seq<Output>, ends: bool, q: Phase)
    requires PhaseOf(log) == Some(p) && |outputs| <= 2 && Follow(p, outputs) == Some(q)
    requires more == log + outputs + if ends then [Remove] else []
    requires ends ==> !q.Idle?
    ensures PhaseOf(more) == Some(if ends then Closed else q)
  {
    PhaseOfConcat(log, outputs);
    if ends {
      PhaseOfSnoc(log + outputs, Remove);
    } else {
      assert more == log + outputs;
    }
  }

  /** What `OutputsFollow` says of a row function. */
  predicate OutputsFit(state: State, last: Option<Response>, to: State, exec: Exec, r: Response, results: Results) {
    var outputs := Outputs(exec, r, last, results);
    var q := Follow(PhaseFor(state, last), outputs);
    && |outputs| <= 2
    && q.Some?
    && if Ends(to, exec, last, results) then !q.value.Idle? && !q.value.Closed?
       else q.value == PhaseFor(to, LastAfter(exec, r, last)) && LastFits(to, LastAfter(exec, r, last))
  }

  lemma IsInPhase(s: Server, p: Phase)
    requires PhaseOf(s.log) == Some(p) && p == PhaseFor(s.state, s.last) && LastFits(s.state, s.last)
    ensures InPhase(s)
  {
  }

  lemma TakeKeepsPhase(s: Server, to: State, exec: Exec, r: Response, results: Results)
    requires InPhase(s) && OutputsFit(s.state, s.last, to, exec, r, results)
    ensures InPhase(s.Take(to, exec, r, results))
  {
    var outputs, ends := Outputs(exec, r, s.last, results), Ends(to, exec, s.last, results);
    var q := Follow(PhaseFor(s.state, s.last), outputs).value;
    var d := s.Take(to, exec, r, results);
    TakePutsOut(s, to, exec, r, results);
    PhaseOfAll(s.log, d.log, PhaseFor(s.state, s.last), outputs, ends, q);
    IsInPhase(d, if ends then Closed else q);
  }

  lemma ActKeepsPhase(s: Server, action: Action, m: Message, results: Results)
    requires InPhase(s) && Fits(action, m)
    ensures InPhase(s.Act(action, m, results))
  {
    if s.state != Terminated && Transition(s.state, action, m).Some? {
      var (to, exec) := Transition(s.state, action, m).value;
      OutputsFollow(s.state, s.last, action, m, results);
      TakeKeepsPhase(s, to, exec, m.response, results);
    }
  }

  lemma StepKeepsPhase(s: Server, input: Input)
    requires InPhase(s)
    ensures InPhase(Step(s, input))
  {
    var results := input.results;
    match input.event
    case ReceivesInvite =>
      ActKeepsPhase(if s.running then s else s.(running := true), RecvInvite, NO_MESSAGE, results);
    case ReceivesAck => ActKeepsPhase(s, RecvAck, NO_MESSAGE, results);
    case Responds(m) =>
      if ActionFor(m.response.code).Some? {
        ActKeepsPhase(s, ActionFor(m.response.code).value, m, results);
      }
    case TransportFails => ActKeepsPhase(s, TransportError, NO_MESSAGE, results);
    case ErrorOccurs => ActKeepsPhase(s, Error, NO_MESSAGE, results);
    case DialogCancels => ActKeepsPhase(s, Cancel, NO_MESSAGE, results);
    case Manages(move) =>
      var d := s.(timers := Apply(s.timers, move));
      if move.Dequeued? && move.id in s.timers.queued && d.TimerActionFor(move.id).Some? {
        ActKeepsPhase(d, d.TimerActionFor(move.id).value, NO_MESSAGE, results);
      }
  }

  lemma {:induction false} RunKeepsPhase(s: Server, inputs: seq<Input>)
    requires InPhase(s)
    ensures InPhase(Run(s, inputs))
  {
    if inputs != [] {
      RunKeepsPhase(s, inputs[..|inputs| - 1]);
      StepKeepsPhase(Run(s, inputs[..|inputs| - 1]), inputs[|inputs| - 1]);
    }
  }

  // ----- the log ----------------------------------------------------------

  predicate SendsFinal(o: Output) {
    o.Send? && IsFinal(o.response)
  }

  /** The first output is the 100 that the transaction sends by itself. */
  predicate TryingFirst(log: seq<Output>) {
    log != [] ==> log[0].Send? && log[0].response.code == 100
  }

  /** The user is asked at most once, right after that. */
  predicate AsksOnce(log: seq<Output>) {
    forall i :: 0 <= i < |log| && log[i].PassUpInvite? ==> i == 1
  }

  /** No provisional response follows a final one. */
  predicate FinalIsFinal(log: seq<Output>) {
    forall i, j :: 0 <= i < j < |log| && SendsFinal(log[i]) && log[j].Send? ==> IsFinal(log[j].response)
  }

  /** Two responses that one server transaction may both send. */
  predicate Compatible(r: Response, q: Response) {
    C.IsProvisional(r) || C.IsProvisional(q) || (C.IsSuccess(r) && C.IsSuccess(q)) || r == q
  }

  /** It never sends two different outcomes. */
  predicate OneOutcome(log: seq<Output>) {
    forall i, j :: 0 <= i < |log| && 0 <= j < |log| && log[i].Send? && log[j].Send? ==>
      Compatible(log[i].response, log[j].response)
  }

  /** ACKs reach the user only after a 2xx. */
  predicate AcksFollowSuccess(log: seq<Output>) {
    forall j :: 0 <= j < |log| && log[j].PassUpAck? ==>
      exists i :: 0 <= i < j && log[i].Send? && C.IsSuccess(log[i].response)
  }

  /** Nothing follows the removal, unless it is asked for once more. */
  predicate NothingFollowsRemoval(log: seq<Output>) {
    forall i, j :: 0 <= i < j < |log| && log[i].Remove? ==> log[j].Remove?
  }

  /** The guarantees, as a reader of the log can check them. */
  predicate WellBehaved(log: seq<Output>) {
    && TryingFirst(log) && AsksOnce(log) && FinalIsFinal(log)
    && OneOutcome(log) && AcksFollowSuccess(log) && NothingFollowsRemoval(log)
  }

  /** What the phase tells about the outputs so far. */
  predicate Explains(p: Phase, log: seq<Output>) {
    && (p.Idle? <==> log == [])
    && (p.Contacted? ==> |log| == 1)
    && (!p.Closed? ==> forall i :: 0 <= i < |log| ==> !log[i].Remove?)
    && (p.Contacted? || p.Asked? ==> forall i :: 0 <= i < |log| ==> log[i].Send? ==> C.IsProvisional(log[i].response))
    && (p.Refused? ==>
          && C.IsFailure(p.response)
          && forall i :: 0 <= i < |log| ==>
            log[i].Send? ==> C.IsProvisional(log[i].response) || log[i].response == p.response)
    && (p.Agreed? ==>
          && (exists i :: 0 <= i < |log| && log[i].Send? && C.IsSuccess(log[i].response))
          && forall i :: 0 <= i < |log| ==>
            log[i].Send? ==> C.IsProvisional(log[i].response) || C.IsSuccess(log[i].response))
  }

  lemma ExplainsNext(p: Phase, log: seq<Output>, o: Output)
    requires Explains(p, log) && Next(p, o).Some?
    ensures Explains(Next(p, o).value, log + [o])
  {
    var more := log + [o];
    assert more[|log|] == o;
    if p.Agreed? {
      var i :| 0 <= i < |log| && log[i].Send? && C.IsSuccess(log[i].response);
      assert more[i] == log[i];
    }
  }

  lemma OrderNext(p: Phase, log: seq<Output>, o: Output)
    requires Explains(p, log) && Next(p, o).Some?
    ensures TryingFirst(log) ==> TryingFirst(log + [o])
    ensures AsksOnce(log) ==> AsksOnce(log + [o])
    ensures NothingFollowsRemoval(log) ==> NothingFollowsRemoval(log + [o])
  {
  }

  lemma OutcomeNext(p: Phase, log: seq<Output>, o: Output)
    requires Explains(p, log) && Next(p, o).Some?
    ensures FinalIsFinal(log) ==> FinalIsFinal(log + [o])
    ensures OneOutcome(log) ==> OneOutcome(log + [o])
  {
  }

  lemma AcksNext(p: Phase, log: seq<Output>, o: Output)
    requires Explains(p, log) && Next(p, o).Some?
    ensures AcksFollowSuccess(log) ==> AcksFollowSuccess(log + [o])
  {
    var more := log + [o];
    assert forall i :: 0 <= i < |log| ==> more[i] == log[i];
    if o.PassUpAck? {
      var i :| 0 <= i < |log| && log[i].Send? && C.IsSuccess(log[i].response);
      assert more[i].Send? && C.IsSuccess(more[i].response);
    }
  }

  lemma {:induction false} LegalIsWellBehaved(log: seq<Output>)
    requires PhaseOf(log).Some?
    ensures WellBehaved(log) && Explains(PhaseOf(log).value, log)
  {
    if log != [] {
      var front, o := log[..|log| - 1], log[|log| - 1];
      LegalIsWellBehaved(front);
      assert log == front + [o];
      ExplainsNext(PhaseOf(front).value, front, o);
      OrderNext(PhaseOf(front).value, front, o);
      OutcomeNext(PhaseOf(front).value, front, o);
      AcksNext(PhaseOf(front).value, front, o);
    }
  }

  /** Every log is in order. */
  lemma LogsAreWellBehaved(setup: Setup, inputs: seq<Input>, s: Server)
    requires s == setup.After(inputs)
    ensures InPhase(s) && WellBehaved(s.log)
  {
    RunKeepsPhase(setup.Server(), inputs);
    LegalIsWellBehaved(s.log);
  }

  // ----- what the user is told --------------------------------------------

  /** The user learns that the transaction has failed. */
  predicate Reports(o: Output) {
    o.ReportTransportError? || o.ReportError? || o.PassUpNothing?
  }

  ghost predicate FailureReported(log: seq<Output>) {
    exists i :: 0 <= i < |log| && Reports(log[i])
  }

  lemma ReportedOfConcat(a: seq<Output>, b: seq<Output>)
    ensures FailureReported(a + b) <==> FailureReported(a) || FailureReported(b)
  {
    if FailureReported(a) {
      var i :| 0 <= i < |a| && Reports(a[i]);
      assert Reports((a + b)[i]);
    }
    if FailureReported(b) {
      var i :| 0 <= i < |b| && Reports(b[i]);
      assert Reports((a + b)[|a| + i]);
    }
  }

  /** While the transaction lasts nothing has been reported. */
  lemma {:induction false} NotReportedYet(log: seq<Output>)
    requires PhaseOf(log).Some? && !PhaseOf(log).value.Closing? && !PhaseOf(log).value.Closed?
    ensures !FailureReported(log)
  {
    if log != [] {
      var front, o := log[..|log| - 1], log[|log| - 1];
      NotReportedYet(front);
      assert log == front + [o];
    }
  }

  predicate IsReport(exec: Exec) {
    exec in {Completed2TerminatedTimerH, Any2TerminatedTransportError, Any2TerminatedError}
  }

  lemma RowReports(exec: Exec, r: Response, last: Option<Response>, results: Results, end: seq<Output>)
    requires end == [] || end == [Remove]
    ensures FailureReported(Outputs(exec, r, last, results) + end) <==> IsReport(exec)
  {
    var outputs := Outputs(exec, r, last, results) + end;
    if IsReport(exec) {
      assert Reports(outputs[0]);
    }
  }

  lemma ActionsThatReport(state: State, action: Action, m: Message)
    requires state != Started || action == RecvInvite
    requires Transition(state, action, m).Some?
    ensures var exec := Transition(state, action, m).value.1;
      IsReport(exec) <==> action in {TransportError, Error} || (action == TimerH && state == Completed)
  {
  }

  lemma ActReports(s: Server, action: Action, m: Message, results: Results)
    requires InPhase(s) && s.state != Terminated && s.Act(action, m, results).state == Terminated
    ensures FailureReported(s.Act(action, m, results).log) <==>
      action in {TransportError, Error} || (action == TimerH && s.state == Completed)
  {
    var (to, exec) := Transition(s.state, action, m).value;
    var end := if Ends(to, exec, s.last, results) then [Remove] else [];
    TakePutsOut(s, to, exec, m.response, results);
    NotReportedYet(s.log);
    RowReports(exec, m.response, s.last, results, end);
    assert s.log + Outputs(exec, m.response, s.last, results) + end
        == s.log + (Outputs(exec, m.response, s.last, results) + end);
    ReportedOfConcat(s.log, Outputs(exec, m.response, s.last, results) + end);
    ActionsThatReport(s.state, action, m);
  }

  /** The inputs that end a transaction with a report to its user. */
  predicate IsReportedEnd(s: Server, input: Input) {
    match input.event
    case TransportFails => true
    case ErrorOccurs => true
    case Manages(move) => move.Dequeued? && s.state == Completed && move.id == s.timerH.id
    case _ => false
  }

  lemma StepReports(s: Server, input: Input)
    requires InPhase(s) && Sound(s) && s.state != Terminated && Step(s, input).state == Terminated
    ensures FailureReported(Step(s, input).log) <==> IsReportedEnd(s, input)
  {
    var results := input.results;
    match input.event
    case ReceivesInvite =>
      ActReports(if s.running then s else s.(running := true), RecvInvite, NO_MESSAGE, results);
    case ReceivesAck => ActReports(s, RecvAck, NO_MESSAGE, results);
    case Responds(m) => ActReports(s, ActionFor(m.response.code).value, m, results);
    case TransportFails => ActReports(s, TransportError, NO_MESSAGE, results);
    case ErrorOccurs => ActReports(s, Error, NO_MESSAGE, results);
    case DialogCancels => ActReports(s, Cancel, NO_MESSAGE, results);
    case Manages(move) =>
      var d := s.(timers := Apply(s.timers, move));
      ActReports(d, d.TimerActionFor(move.id).value, NO_MESSAGE, results);
  }

  /**
   When a transaction is removed its user has been told of a failure exactly if the last input was an error, or
   the callback of timer H while the ACK was awaited. Everything that fails in sending ends it silently.
   */
  lemma FailureIsReported(setup: Setup, inputs: seq<Input>, s: Server, input: Input)
    requires setup.manager.Valid() && s == setup.After(inputs)
    requires s.state != Terminated && Step(s, input).state == Terminated
    ensures FailureReported(Step(s, input).log) <==> IsReportedEnd(s, input)
  {
    AfterIsGood(setup, inputs, s);
    LogsAreWellBehaved(setup, inputs, s);
    StepReports(s, input);
  }

  /** A retransmission that cannot be sent removes the transaction, and its user hears nothing. */
  lemma FailedResendIsSilent(s: Server, results: Results)
    requires InPhase(s) && s.state == Completed && results.send != 0
    ensures s.Act(TimerG, NO_MESSAGE, results).log == s.log + [Send(s.last.value), Remove]
  {
    TakePutsOut(s, Completed, Completed2CompletedTimerG, TRYING, results);
    assert s.log + [Send(s.last.value)] + [Remove] == s.log + [Send(s.last.value), Remove];
  }

  /** The rows for any state end every transaction that has left its initial state, but none that has not. */
  lemma ErrorsEndOnceStarted(s: Server, action: Action, results: Results)
    requires action in {TransportError, Error, Cancel}
    ensures s.Act(action, NO_MESSAGE, results).state == Terminated <==> s.state != Started
    ensures s.state == Started ==> s.Act(action, NO_MESSAGE, results) == s
  {
    if s.state != Terminated && Transition(s.state, action, NO_MESSAGE).Some? {
      var (to, exec) := Transition(s.state, action, NO_MESSAGE).value;
      TakePutsOut(s, to, exec, TRYING, results);
    }
  }

  // ----- what only grows --------------------------------------------------

  /** The states in an order in which the transaction moves through them. */
  function Rank(state: State): nat {
    match state
    case Started => 0
    case Proceeding => 1
    case Completed => 2
    case Confirmed => 3
    case Accepted => 4
    case Terminated => 5
  }

  /**
   What `d` has kept of `s`: the transport, the outputs, the deadlines, the intervals of all timers but G, and,
   while the state lasts, the timer that is to end it. Neither the clock nor the state goes back.
   */
  ghost predicate Later(s: Server, d: Server) {
    && d.reliable == s.reliable && d.timers.now >= s.timers.now && s.log <= d.log
    && Rank(s.state) <= Rank(d.state)
    && d.timerH.timeout == s.timerH.timeout
    && d.timerI.timeout == s.timerI.timeout
    && d.timerL.timeout == s.timerL.timeout
    && KeepsDeadlines(s.timers, d.timers)
    && (s.state == d.state && HasEndingTimer(s.state) ==> EndingTimerOf(d) == EndingTimerOf(s))
  }

  lemma RetimeIsLater(s: Server, exec: Exec)
    requires Sound(s)
    ensures var d := s.Retime(exec);
      && d.timerH.timeout == s.timerH.timeout
      && d.timerI.timeout == s.timerI.timeout
      && d.timerL.timeout == s.timerL.timeout
      && KeepsDeadlines(s.timers, d.timers)
  {
  }

  lemma TransitionMovesOn(s: Server, action: Action, m: Message)
    requires s.state != Terminated && Transition(s.state, action, m).Some?
    ensures var (to, exec) := Transition(s.state, action, m).value;
      && Rank(s.state) <= Rank(to)
      && (to == s.state && HasEndingTimer(to) ==> EndingTimerOf(s.Retime(exec)) == EndingTimerOf(s))
  {
  }

  lemma TakeIsLater(s: Server, to: State, exec: Exec, r: Response, results: Results)
    requires Sound(s) && Rank(s.state) <= Rank(to)
    requires to == s.state && HasEndingTimer(to) ==> EndingTimerOf(s.Retime(exec)) == EndingTimerOf(s)
    ensures Later(s, s.Take(to, exec, r, results))
  {
    TakePutsOut(s, to, exec, r, results);
    RetimeIsLater(s.(state := to), exec);
    if to == s.state {
      assert s.(state := to) == s;
    }
  }

  lemma ActIsLater(s: Server, action: Action, m: Message, results: Results)
    requires Sound(s)
    ensures Later(s, s.Act(action, m, results))
  {
    if s.state != Terminated && Transition(s.state, action, m).Some? {
      var (to, exec) := Transition(s.state, action, m).value;
      TransitionMovesOn(s, action, m);
      TakeIsLater(s, to, exec, m.response, results);
    }
  }

  lemma TimerIsLater(s: Server, id: nat, results: Results)
    requires Sound(s)
    ensures Later(s, s.(timers := s.timers.Dequeue(id)).TimerFires(id, results))
  {
    var d := s.(timers := s.timers.Dequeue(id));
    if d.TimerActionFor(id).Some? {
      ActIsLater(d, d.TimerActionFor(id).value, NO_MESSAGE, results);
    }
  }

  lemma StepIsLater(s: Server, input: Input)
    requires Sound(s)
    ensures Later(s, Step(s, input))
  {
    var results := input.results;
    match input.event
    case ReceivesInvite =>
      ActIsLater(if s.running then s else s.(running := true), RecvInvite, NO_MESSAGE, results);
    case ReceivesAck => ActIsLater(s, RecvAck, NO_MESSAGE, results);
    case Responds(m) =>
      if ActionFor(m.response.code).Some? {
        ActIsLater(s, ActionFor(m.response.code).value, m, results);
      }
    case TransportFails => ActIsLater(s, TransportError, NO_MESSAGE, results);
    case ErrorOccurs => ActIsLater(s, Error, NO_MESSAGE, results);
    case DialogCancels => ActIsLater(s, Cancel, NO_MESSAGE, results);
    case Manages(move) =>
      MoveKeepsTimers(s.timers, move);
      if move.Dequeued? && move.id in s.timers.queued {
        TimerIsLater(s, move.id, results);
      }
  }

  lemma {:induction false} RunIsLater(s: Server, inputs: seq<Input>, g: nat)
    requires Good(s, g)
    ensures Later(s, Run(s, inputs))
  {
    if inputs != [] {
      var front := inputs[..|inputs| - 1];
      RunIsLater(s, front, g);
      RunKeepsGood(s, front, g);
      StepIsLater(Run(s, front), inputs[|inputs| - 1]);
    }
  }

  /** The transport and the intervals are those of the setup. */
  lemma AfterIsLater(setup: Setup, inputs: seq<Input>, s: Server)
    requires setup.manager.Valid() && s == setup.After(inputs)
    ensures s.reliable == setup.reliable
    ensures s.timerH.timeout == setup.intervals.h && s.timerL.timeout == setup.intervals.l
    ensures s.timerI.timeout == setup.IntervalI()
  {
    RunIsLater(setup.Server(), inputs, setup.intervals.g);
  }
}
