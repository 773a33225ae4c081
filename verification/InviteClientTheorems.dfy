/**
 What every run of an INVITE client transaction guarantees to its user and to
 the network.
 */
module InviteClientTheorems {
  import opened Wrappers
  import opened Timers
  import opened InviteClient
  import opened InviteClientRuns

  /** How a transaction is created and started. */
  datatype Launch = Launch(reliable: bool, intervals: Intervals, manager: Manager, results: Results) {
    function Client(): Client {
      Launched(reliable, intervals, manager, results)
    }

    /** Timer D is set to zero over reliable transports. */
    function IntervalD(): nat {
      if reliable then 0 else intervals.d
    }

    /** The transaction after some inputs. */
    function After(inputs: seq<Input>): Client {
      Run(Client(), inputs)
    }
  }

  lemma ClientIsGood(launch: Launch)
    requires launch.manager.Valid()
    ensures var t0 := launch.manager.now;
      Good(launch.Client(), t0, launch.intervals.a, t0 + launch.intervals.b)
  {
    StartIsGood(launch.reliable, launch.intervals, launch.manager, launch.results);
  }

  lemma AfterIsGood(launch: Launch, inputs: seq<Input>, c: Client)
    requires launch.manager.Valid() && c == launch.After(inputs)
    ensures var t0 := launch.manager.now;
      Good(c, t0, launch.intervals.a, t0 + launch.intervals.b)
  {
    var t0 := launch.manager.now;
    ClientIsGood(launch);
    RunKeepsGood(launch.Client(), inputs, t0, launch.intervals.a, t0 + launch.intervals.b);
  }

  // ----- what only grows --------------------------------------------------

  /** The states in an order in which the transaction moves through them. */
  function Rank(s: State): nat {
    match s
    case Started => 0
    case Calling => 1
    case Proceeding => 2
    case Completed => 3
    case Accepted => 4
    case Terminated => 5
  }

  /**
   What `d` has kept of `c`: the transport, the outputs, the deadlines, the intervals of all timers but A, and,
   while the state lasts, the timer that is to end it. Neither the clock nor the state goes back.
   */
  ghost predicate Later(c: Client, d: Client) {
    && d.reliable == c.reliable && d.timers.now >= c.timers.now && c.log <= d.log
    && Rank(c.state) <= Rank(d.state)
    && d.timerB.timeout == c.timerB.timeout
    && d.timerD.timeout == c.timerD.timeout
    && d.timerM.timeout == c.timerM.timeout
    && KeepsDeadlines(c.timers, d.timers)
    && (c.state == d.state ==> EndingTimerOf(d) == EndingTimerOf(c))
  }

  lemma RetimeIsLater(c: Client, exec: Exec)
    requires Sound(c)
    ensures var d := c.Retime(exec);
      && d.state == c.state && d.timers.now == c.timers.now
      && d.timerB.timeout == c.timerB.timeout
      && d.timerD.timeout == c.timerD.timeout
      && d.timerM.timeout == c.timerM.timeout
      && KeepsDeadlines(c.timers, d.timers)
  {
  }

  lemma TransitionMovesOn(c: Client, action: Action)
    requires c.state != Terminated && Transition(c.state, action).Some?
    ensures var (to, exec) := Transition(c.state, action).value;
      && Rank(c.state) <= Rank(to)
      && (to == c.state != Started ==> EndingTimerOf(c.Retime(exec)) == EndingTimerOf(c))
  {
  }

  lemma TakeIsLater(c: Client, to: State, exec: Exec, r: Response, results: Results)
    requires Sound(c) && Rank(c.state) <= Rank(to)
    requires to == c.state ==> EndingTimerOf(c.Retime(exec)) == EndingTimerOf(c)
    ensures Later(c, c.Take(to, exec, r, results))
  {
    TakePutsOut(c, to, exec, r, results);
    RetimeIsLater(c.(state := to), exec);
    if to == c.state {
      assert c.(state := to) == c;
    }
  }

  lemma ActIsLater(c: Client, action: Action, r: Response, results: Results)
    requires Sound(c) && c.state != Started
    ensures Later(c, c.Act(action, r, results))
  {
    if c.state != Terminated && Transition(c.state, action).Some? {
      var (to, exec) := Transition(c.state, action).value;
      TransitionMovesOn(c, action);
      TakeIsLater(c, to, exec, r, results);
    }
  }

  lemma TimerIsLater(c: Client, id: nat, results: Results)
    requires Sound(c) && c.state != Started
    ensures Later(c, c.(timers := c.timers.Dequeue(id)).TimerFires(id, results))
  {
    var d := c.(timers := c.timers.Dequeue(id));
    if d.TimerActionFor(id).Some? {
      ActIsLater(d, d.TimerActionFor(id).value, NO_RESPONSE, results);
    }
  }

  lemma StepIsLater(c: Client, input: Input)
    requires Sound(c) && c.running && c.state != Started
    ensures Later(c, Step(c, input))
  {
    match input.event
    case Receives(r) =>
      if ActionFor(r.code).Some? {
        ActIsLater(c, ActionFor(r.code).value, r, input.results);
      }
    case TransportFails => ActIsLater(c, TransportError, NO_RESPONSE, input.results);
    case ErrorOccurs => ActIsLater(c, Error, NO_RESPONSE, input.results);
    case DialogCancels => ActIsLater(c, Cancel, NO_RESPONSE, input.results);
    case Manages(move) =>
      MoveKeepsTimers(c.timers, move);
      if move.Dequeued? && move.id in c.timers.queued {
        TimerIsLater(c, move.id, input.results);
      }
    case StartsAgain =>
  }

  lemma {:induction false} RunIsLater(c: Client, inputs: seq<Input>, t0: nat, a: nat, expiry: nat)
    requires Good(c, t0, a, expiry)
    ensures Later(c, Run(c, inputs))
  {
    if inputs != [] {
      var front := inputs[..|inputs| - 1];
      RunIsLater(c, front, t0, a, expiry);
      RunKeepsGood(c, front, t0, a, expiry);
      StepIsLater(Run(c, front), inputs[|inputs| - 1]);
    }
  }

  lemma LaunchSets(launch: Launch)
    requires launch.manager.Valid()
    ensures var c := launch.Client();
      && c.reliable == launch.reliable && c.timers.now == launch.manager.now
      && c.timerB.timeout == launch.intervals.b && c.timerM.timeout == launch.intervals.m
      && c.timerD.timeout == launch.IntervalD()
  {
    var unsent := Fresh(launch.reliable, launch.intervals, launch.manager).(running := true);
    assert launch.Client() == unsent.Take(Calling, Started2Calling, NO_RESPONSE, launch.results);
    TakePutsOut(unsent, Calling, Started2Calling, NO_RESPONSE, launch.results);
    RetimeIsLater(unsent.(state := Calling), Started2Calling);
  }

  /** The transport and the intervals are those of the launch. */
  lemma AfterIsLater(launch: Launch, inputs: seq<Input>, c: Client)
    requires launch.manager.Valid() && c == launch.After(inputs)
    ensures c.reliable == launch.reliable && c.timers.now >= launch.manager.now
    ensures c.timerB.timeout == launch.intervals.b && c.timerM.timeout == launch.intervals.m
    ensures c.timerD.timeout == launch.IntervalD()
  {
    AfterIsGood(launch, [], launch.Client());
    var t0, a, b := launch.manager.now, launch.intervals.a, launch.intervals.b;
    RunIsLater(launch.Client(), inputs, t0, a, t0 + b);
    LaunchSets(launch);
  }

  // ----- retransmission ---------------------------------------------------

  lemma {:induction false} IntervalAtLeast(a: nat, n: nat)
    ensures Interval(a, n) >= a
    ensures n >= 7 ==> Interval(a, n) >= 128 * a
  {
    if n >= 8 {
      IntervalAtLeast(a, n - 1);
    } else if n > 0 {
      IntervalAtLeast(a, n - 1);
      if n == 7 {
        assert Interval(a, 6) == 2 * Interval(a, 5) && Interval(a, 5) == 2 * Interval(a, 4);
        assert Interval(a, 4) == 2 * Interval(a, 3) && Interval(a, 3) == 2 * Interval(a, 2);
        assert Interval(a, 2) == 2 * Interval(a, 1) && Interval(a, 1) == 2 * Interval(a, 0);
      }
    }
  }

  lemma PaceMeans(c: Client, t0: nat, a: nat)
    requires Paced(c, t0, a)
    ensures var n := Invites(c.log);
      && n >= 1
      && t0 + Interval(a, n - 1) <= c.timers.now + a
      && (c.reliable ==> n == 1)
      && (a > 0 && c.timers.now <= t0 + 64 * a ==> n <= 7)
  {
    IntervalAtLeast(a, Invites(c.log) - 1);
  }

  /**
   However the timers fire, `n` requests need the time that doubling intervals take; over a reliable transport
   there is only the one. In 64 times the first interval, which is when timer B is due by default, there are at
   most seven.
   */
  lemma RequestsTakeTime(launch: Launch, inputs: seq<Input>, c: Client)
    requires launch.manager.Valid() && c == launch.After(inputs)
    ensures var n, t0, a := Invites(c.log), launch.manager.now, launch.intervals.a;
      && n >= 1
      && t0 + Interval(a, n - 1) <= c.timers.now + a
      && (launch.reliable ==> n == 1)
      && (a > 0 && c.timers.now <= t0 + 64 * a ==> n <= 7)
  {
    AfterIsGood(launch, inputs, c);
    AfterIsLater(launch, inputs, c);
    PaceMeans(c, launch.manager.now, launch.intervals.a);
  }

  // ----- the log ----------------------------------------------------------

  predicate PassesFailure(o: Output) {
    o.PassUp? && IsFailure(o.response)
  }

  predicate PassesSuccess(o: Output) {
    o.PassUp? && IsSuccess(o.response)
  }

  /** The requests come first. */
  predicate RequestsFirst(log: seq<Output>) {
    forall i, j :: 0 <= i < j < |log| && log[j].SendInvite? ==> log[i].SendInvite?
  }

  /** Only final responses other than 2xx are acknowledged here. */
  predicate AcknowledgesFailures(log: seq<Output>) {
    forall i :: 0 <= i < |log| && log[i].SendAck? ==> IsFailure(log[i].response)
  }

  /** Each of them that the user sees has been acknowledged just before. */
  predicate FailuresAcknowledged(log: seq<Output>) {
    forall i :: 0 <= i < |log| && PassesFailure(log[i]) ==> i > 0 && log[i - 1] == SendAck(log[i].response)
  }

  /** The user sees at most one of them. */
  predicate OneFailure(log: seq<Output>) {
    forall i, j :: 0 <= i < j < |log| && PassesFailure(log[i]) ==> !PassesFailure(log[j])
  }

  /** A 2xx and an ACK exclude each other; the ACK for a 2xx is the user's business. */
  predicate SuccessOrAck(log: seq<Output>) {
    forall i, j :: 0 <= i < |log| && 0 <= j < |log| && PassesSuccess(log[i]) ==> !log[j].SendAck?
  }

  /** Nothing follows the removal, unless it is asked for once more. */
  predicate NothingFollowsRemoval(log: seq<Output>) {
    forall i, j :: 0 <= i < j < |log| && log[i].Remove? ==> log[j].Remove?
  }

  /** The guarantees, as a reader of the log can check them. */
  predicate WellBehaved(log: seq<Output>) {
    && RequestsFirst(log) && AcknowledgesFailures(log) && FailuresAcknowledged(log)
    && OneFailure(log) && SuccessOrAck(log) && NothingFollowsRemoval(log)
  }

  predicate IsEarly(o: Output) {
    o.SendInvite? || (o.PassUp? && IsProvisional(o.response))
  }

  /** What the phase tells about the outputs so far. */
  predicate Explains(p: Phase, log: seq<Output>) {
    match p
    case Idle => log == []
    case Inviting => forall i :: 0 <= i < |log| ==> log[i].SendInvite?
    case Ringing => forall i :: 0 <= i < |log| ==> IsEarly(log[i])
    case Answered => forall i :: 0 <= i < |log| ==> IsEarly(log[i]) || PassesSuccess(log[i])
    case Acknowledged(r) =>
      && IsFailure(r) && |log| > 0 && log[|log| - 1] == SendAck(r)
      && forall i :: 0 <= i < |log| ==> IsEarly(log[i]) || log[i].SendAck?
    case Rejected => forall i :: 0 <= i < |log| ==> !PassesSuccess(log[i]) && !log[i].Remove?
    case Closing => forall i :: 0 <= i < |log| ==> !log[i].Remove?
    case Closed => true
  }

  lemma ExplainsNext(p: Phase, log: seq<Output>, o: Output)
    requires Explains(p, log) && Next(p, o).Some?
    ensures Explains(Next(p, o).value, log + [o])
  {
  }

  lemma RequestsFirstNext(p: Phase, log: seq<Output>, o: Output)
    requires Explains(p, log) && Next(p, o).Some?
    ensures RequestsFirst(log) ==> RequestsFirst(log + [o])
    ensures NothingFollowsRemoval(log) ==> NothingFollowsRemoval(log + [o])
  {
  }

  lemma FailuresNext(p: Phase, log: seq<Output>, o: Output)
    requires Explains(p, log) && Next(p, o).Some?
    ensures AcknowledgesFailures(log) ==> AcknowledgesFailures(log + [o])
    ensures FailuresAcknowledged(log) ==> FailuresAcknowledged(log + [o])
    ensures OneFailure(log) ==> OneFailure(log + [o])
  {
    var more := log + [o];
    assert PassesFailure(o) ==> more[|log| - 1] == SendAck(o.response);
  }

  lemma SuccessOrAckNext(p: Phase, log: seq<Output>, o: Output)
    requires Explains(p, log) && Next(p, o).Some?
    ensures SuccessOrAck(log) ==> SuccessOrAck(log + [o])
  {
  }

  lemma {:induction false} LegalIsWellBehaved(log: seq<Output>)
    requires PhaseOf(log).Some?
    ensures WellBehaved(log) && Explains(PhaseOf(log).value, log)
  {
    if log != [] {
      var front, o := log[..|log| - 1], log[|log| - 1];
      LegalIsWellBehaved(front);
      assert log == front + [o];
      ExplainsNext(PhaseOf(front).value, front, o);
      RequestsFirstNext(PhaseOf(front).value, front, o);
      FailuresNext(PhaseOf(front).value, front, o);
      SuccessOrAckNext(PhaseOf(front).value, front, o);
    }
  }

  /** Every log is in order. */
  lemma LogsAreWellBehaved(launch: Launch, inputs: seq<Input>, c: Client)
    requires launch.manager.Valid() && c == launch.After(inputs)
    ensures PhaseOf(c.log) == Some(PhaseFor(c.state))
    ensures WellBehaved(c.log)
  {
    AfterIsGood(launch, inputs, c);
    LegalIsWellBehaved(c.log);
  }

  // ----- what the user is told --------------------------------------------

  /** The user learns how the request ended: by a final response, or by the report of an error. */
  predicate TellsOutcome(o: Output) {
    PassesSuccess(o) || PassesFailure(o) || o.ReportTimeout? || o.ReportTransportError? || o.ReportError?
  }

  ghost predicate OutcomeTold(log: seq<Output>) {
    exists i :: 0 <= i < |log| && TellsOutcome(log[i])
  }

  lemma ToldOfConcat(a: seq<Output>, b: seq<Output>)
    ensures OutcomeTold(a + b) <==> OutcomeTold(a) || OutcomeTold(b)
  {
    if OutcomeTold(a) {
      var i :| 0 <= i < |a| && TellsOutcome(a[i]);
      assert TellsOutcome((a + b)[i]);
    }
    if OutcomeTold(b) {
      var i :| 0 <= i < |b| && TellsOutcome(b[i]);
      assert TellsOutcome((a + b)[|a| + i]);
    }
  }

  /** The last output of a log that leads to `Answered` or `Rejected`. */
  lemma LastOutputDecides(log: seq<Output>)
    requires PhaseOf(log) == Some(Answered) || PhaseOf(log) == Some(Rejected)
    ensures log != []
    ensures var o := log[|log| - 1];
      && (o.PassUp? || o.SendAck?)
      && if PhaseOf(log) == Some(Answered) then IsSuccess(o.response) else IsFailure(o.response)
  {
  }

  predicate ToldInPhase(p: Phase, told: bool) {
    && (p in {Answered, Rejected, Closing} ==> told)
    && (p in {Idle, Inviting, Ringing} || p.Acknowledged? ==> !told)
    && (p.Acknowledged? ==> IsFailure(p.response))
  }

  lemma ToldNext(p: Phase, o: Output, told: bool)
    requires ToldInPhase(p, told) && Next(p, o).Some?
    ensures ToldInPhase(Next(p, o).value, told || TellsOutcome(o))
  {
  }

  /** Once there is an outcome the user knows it, while the transaction lasts. */
  lemma {:induction false} ToldByPhase(log: seq<Output>)
    requires PhaseOf(log).Some?
    ensures ToldInPhase(PhaseOf(log).value, OutcomeTold(log))
  {
    if log != [] {
      var front, o := log[..|log| - 1], log[|log| - 1];
      ToldByPhase(front);
      assert log == front + [o];
      ToldOfConcat(front, [o]);
      assert [o][0] == o;
      ToldNext(PhaseOf(front).value, o, OutcomeTold(front));
    }
  }

  /** The ways in which an action ends the transaction without a word about the outcome. */
  predicate EndsSilently(state: State, action: Action, results: Results) {
    || (state in {Calling, Proceeding} && action == Cancel)
    || (state in {Calling, Proceeding} && action == Failure && results.ack != 0)
    || (state == Proceeding && action == Provisional && results.user != 0)
  }

  lemma ToldByTransition(state: State, action: Action, r: Response, results: Results)
    requires state in {Calling, Proceeding} && Transition(state, action).Some? && Fits(action, r)
    ensures var (to, exec) := Transition(state, action).value;
      Ends(to, exec, results) ==>
        (OutcomeTold(AllOutputs(to, exec, r, results)) <==> !EndsSilently(state, action, results))
  {
    var (to, exec) := Transition(state, action).value;
    var outputs := AllOutputs(to, exec, r, results);
    if Ends(to, exec, results) {
      assert !EndsSilently(state, action, results) ==>
        TellsOutcome(outputs[0]) || (|outputs| > 1 && TellsOutcome(outputs[1]));
    }
  }

  lemma ToldByAct(c: Client, action: Action, r: Response, results: Results)
    requires InPhase(c) && c.state != Started && c.state != Terminated && Fits(action, r)
    requires c.Act(action, r, results).state == Terminated
    ensures OutcomeTold(c.Act(action, r, results).log) <==> !EndsSilently(c.state, action, results)
  {
    var (to, exec) := Transition(c.state, action).value;
    TakePutsOut(c, to, exec, r, results);
    ToldOfConcat(c.log, AllOutputs(to, exec, r, results));
    ToldByPhase(c.log);
    if c.state in {Calling, Proceeding} {
      ToldByTransition(c.state, action, r, results);
    }
  }

  /** The inputs that do so. */
  predicate IsSilentEnd(state: State, input: Input) {
    match input.event
    case DialogCancels => state in {Calling, Proceeding}
    case Receives(r) =>
      || (state in {Calling, Proceeding} && IsFailure(r) && input.results.ack != 0)
      || (state == Proceeding && IsProvisional(r) && input.results.user != 0)
    case _ => false
  }

  lemma ToldByTimer(c: Client, id: nat, results: Results)
    requires InPhase(c) && c.state != Started && c.state != Terminated
    requires c.TimerFires(id, results).state == Terminated
    ensures OutcomeTold(c.TimerFires(id, results).log)
  {
    ToldByAct(c, c.TimerActionFor(id).value, NO_RESPONSE, results);
  }

  lemma ToldByStep(c: Client, input: Input)
    requires InPhase(c) && c.state != Started && c.state != Terminated
    requires c.running && Step(c, input).state == Terminated
    ensures OutcomeTold(Step(c, input).log) <==> !IsSilentEnd(c.state, input)
  {
    match input.event
    case Receives(r) => ToldByAct(c, ActionFor(r.code).value, r, input.results);
    case TransportFails => ToldByAct(c, TransportError, NO_RESPONSE, input.results);
    case ErrorOccurs => ToldByAct(c, Error, NO_RESPONSE, input.results);
    case DialogCancels => ToldByAct(c, Cancel, NO_RESPONSE, input.results);
    case Manages(move) =>
      if move.Dequeued? && move.id in c.timers.queued {
        ToldByTimer(c.(timers := c.timers.Dequeue(move.id)), move.id, input.results);
      }
    case StartsAgain =>
  }

  /**
   When a transaction is removed its user has not been told the outcome exactly if the last input was a
   cancellation before any final response, a failure whose ACK could not be sent, or a further provisional
   response that the user refused.
   */
  lemma OutcomeIsTold(launch: Launch, inputs: seq<Input>, c: Client, input: Input)
    requires launch.manager.Valid() && c == launch.After(inputs)
    requires c.state != Terminated && Step(c, input).state == Terminated
    ensures OutcomeTold(Step(c, input).log) <==> !IsSilentEnd(c.state, input)
  {
    AfterIsGood(launch, inputs, c);
    ToldByStep(c, input);
  }

  lemma RunOfOne(c: Client, i: Input)
    ensures Run(c, [i]) == Step(c, i)
  {
    assert [i][..0] == [] && Run(c, []) == c;
  }

  lemma FailedAck(c: Client, r: Response, results: Results)
    requires c.state == Calling && IsFailure(r) && results.ack != 0
    ensures c.Receive(r, results).log == c.log + [SendAck(r), Remove]
  {
    assert c.Receive(r, results) == c.Take(Completed, Calling2Completed, r, results);
    TakePutsOut(c, Completed, Calling2Completed, r, results);
  }

  /** The first failure arrives, its ACK cannot be sent, and the user never hears of either. */
  lemma FailedAckIsSilent(launch: Launch, r: Response, i: Input)
    requires launch.manager.Valid() && IsFailure(r)
    requires i == Input(Receives(r), Results(1, 0))
    ensures launch.After([i]).log == [SendInvite, SendAck(r), Remove]
  {
    LaunchedClient(launch.reliable, launch.intervals, launch.manager, launch.results);
    RunOfOne(launch.Client(), i);
    FailedAck(launch.Client(), r, i.results);
  }

  /** The rows for any state end every transaction that has left its initial state, but none that has not. */
  lemma ErrorsEndOnceStarted(c: Client, action: Action, results: Results)
    requires action in {TransportError, Error, Cancel}
    ensures c.Act(action, NO_RESPONSE, results).state == Terminated <==> c.state != Started
    ensures c.state == Started ==> c.Act(action, NO_RESPONSE, results) == c
  {
    if c.state != Terminated && Transition(c.state, action).Some? {
      var (to, exec) := Transition(c.state, action).value;
      TakePutsOut(c, to, exec, NO_RESPONSE, results);
    }
  }

  lemma RearmedTimers(c: Client, exec: Exec)
    requires Sound(c) && exec in {Calling2Completed, Calling2Proceeding, Calling2Accepted}
    ensures var d := c.Retime(exec);
      && (!c.reliable ==> (d.timerA.id in d.timers.pending <==> exec == Calling2Accepted))
      && (d.timerB.id in d.timers.pending <==> exec == Calling2Accepted)
  {
  }

  /**
   When a response ends `Calling`, timers A and B are still pending afterwards exactly if it is a 2xx, which
   schedules them again. The comment in the code has them cancelled in both cases.
   */
  lemma SuccessRearmsTimers(c: Client, r: Response, results: Results)
    requires Sound(c) && c.state == Calling && ActionFor(r.code).Some?
    ensures var d := c.Receive(r, results);
      && (!c.reliable ==> (d.timerA.id in d.timers.pending <==> IsSuccess(r)))
      && (d.timerB.id in d.timers.pending <==> IsSuccess(r))
  {
    var (to, exec) := Transition(Calling, ActionFor(r.code).value).value;
    assert c.Receive(r, results) == c.Take(to, exec, r, results);
    RearmedTimers(c.(state := to), exec);
    EffectKeeps(c.(state := to), exec, r, results);
  }
}
