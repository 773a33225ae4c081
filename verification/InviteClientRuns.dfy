/**
 Whole runs of an INVITE client transaction: any interleaving of responses,
 errors, the passing of time, and timer callbacks, including the late callbacks
 of timers that were cancelled or superseded.
 */
module InviteClientRuns {
  import opened Wrappers
  import opened Timers
  import opened InviteClient

  datatype Event =
    | Receives(response: Response)
    | TransportFails
    | ErrorOccurs
    | DialogCancels
    | StartsAgain
    | Manages(move: Background)     // time passes, timers expire, callbacks run, and others schedule timers

  datatype Input = Input(event: Event, results: Results)

  function Step(c: Client, input: Input): Client {
    var results := input.results;
    match input.event
    case Receives(r) => c.Receive(r, results)
    case TransportFails => c.Act(TransportError, NO_RESPONSE, results)
    case ErrorOccurs => c.Act(Error, NO_RESPONSE, results)
    case DialogCancels => c.Act(Cancel, NO_RESPONSE, results)
    case StartsAgain => c.Start(results)
    case Manages(move) =>
      var d := c.(timers := Apply(c.timers, move));
      if move.Dequeued? && move.id in c.timers.queued then d.TimerFires(move.id, results) else d
  }

  function Run(c: Client, inputs: seq<Input>): Client {
    if inputs == [] then c else Step(Run(c, inputs[..|inputs| - 1]), inputs[|inputs| - 1])
  }

  // ----- what the outside sees --------------------------------------------

  predicate IsProvisional(r: Response) {
    ActionFor(r.code) == Some(Provisional)
  }

  predicate IsSuccess(r: Response) {
    ActionFor(r.code) == Some(Success)
  }

  predicate IsFailure(r: Response) {
    ActionFor(r.code) == Some(Failure)
  }

  /** A client transaction as its user and the transport see it. */
  datatype Phase =
    | Idle
    | Inviting
    | Ringing
    | Answered
    | Acknowledged(response: Response)   // the ACK is out, the response is about to be passed up
    | Rejected
    | Closing                            // a failure has been reported
    | Closed

  /** Which outputs are in order in which phase. */
  function Next(p: Phase, o: Output): Option<Phase> {
    match o
    case SendInvite => if p.Idle? || p.Inviting? then Some(Inviting) else None
    case SendAck(r) =>
      if !IsFailure(r) then None
      else if p.Inviting? || p.Ringing? then Some(Acknowledged(r))
      else if p.Rejected? then Some(Rejected)
      else None
    case PassUp(r) =>
      if (p.Inviting? || p.Ringing?) && IsProvisional(r) then Some(Ringing)
      else if (p.Inviting? || p.Ringing? || p.Answered?) && IsSuccess(r) then Some(Answered)
      else if p == Acknowledged(r) then Some(Rejected)
      else None
    case ReportTimeout => if p.Inviting? then Some(Closing) else None
    case ReportTransportError => if p.Inviting? || p.Ringing? || p.Answered? || p.Rejected? then Some(Closing) else None
    case ReportError => if p.Inviting? || p.Ringing? || p.Answered? || p.Rejected? then Some(Closing) else None
    case Remove => if p.Idle? then None else Some(Closed)
  }

  function PhaseOf(log: seq<Output>): Option<Phase> {
    if log == [] then Some(Idle)
    else
      match PhaseOf(log[..|log| - 1])
      case None => None
      case Some(p) => Next(p, log[|log| - 1])
  }

  function PhaseFor(s: State): Phase {
    match s
    case Started => Idle
    case Calling => Inviting
    case Proceeding => Ringing
    case Completed => Rejected
    case Accepted => Answered
    case Terminated => Closed
  }

  /** The phase after further outputs. */
  function Follow(p: Phase, outputs: seq<Output>): Option<Phase>
    decreases |outputs|
  {
    if outputs == [] then Some(p)
    else
      match Next(p, outputs[0])
      case None => None
      case Some(q) => Follow(q, outputs[1..])
  }

  lemma {:induction false} PhaseOfConcat(log: seq<Output>, outputs: seq<Output>)
    requires PhaseOf(log).Some?
    requires Follow(PhaseOf(log).value, outputs).Some?
    ensures PhaseOf(log + outputs) == Follow(PhaseOf(log).value, outputs)
    decreases |outputs|
  {
    if outputs == [] {
      assert log + outputs == log;
    } else {
      var longer := log + [outputs[0]];
      assert longer[..|longer| - 1] == log;
      PhaseOfConcat(longer, outputs[1..]);
      assert longer + outputs[1..] == log + outputs;
    }
  }

  lemma EffectKeeps(c: Client, exec: Exec, r: Response, results: Results)
    ensures var d := c.Effect(exec, r, results);
      d.state == c.state && d.reliable == c.reliable && d.running == c.running && d.timers.now == c.timers.now
  {
  }

  /** The log is in order, and its phase is the one of the state. */
  predicate InPhase(c: Client) {
    PhaseOf(c.log) == Some(PhaseFor(c.state))
  }

  predicate Fits(action: Action, r: Response) {
    action in {Provisional, Success, Failure} ==> ActionFor(r.code) == Some(action)
  }

  /** The outputs of a transition, and whether it is the last one. */
  predicate Ends(to: State, exec: Exec, results: Results) {
    Returned(exec, results) != 0 || to == Terminated
  }

  function AllOutputs(to: State, exec: Exec, r: Response, results: Results): seq<Output> {
    Outputs(exec, r, results) + if Ends(to, exec, results) then [Remove] else []
  }

  lemma TakePutsOut(c: Client, to: State, exec: Exec, r: Response, results: Results)
    ensures var d := c.Take(to, exec, r, results);
      && d.log == c.log + AllOutputs(to, exec, r, results)
      && d.state == (if Ends(to, exec, results) then Terminated else to)
      && d.reliable == c.reliable && d.running == c.running && d.timers.now == c.timers.now
  {
    EffectKeeps(c.(state := to), exec, r, results);
    var outputs := Outputs(exec, r, results);
    assert c.log + (outputs + [Remove]) == c.log + outputs + [Remove];
    assert c.log + (outputs + []) == c.log + outputs;
  }

  lemma {:induction false} FollowRemove(p: Phase, outputs: seq<Output>)
    requires Follow(p, outputs).Some?
    ensures Follow(p, outputs + [Remove]) == Next(Follow(p, outputs).value, Remove)
    decreases |outputs|
  {
    if outputs == [] {
      assert outputs + [Remove] == [Remove];
    } else {
      assert (outputs + [Remove])[1..] == outputs[1..] + [Remove];
      FollowRemove(Next(p, outputs[0]).value, outputs[1..]);
    }
  }

  lemma FollowOne(p: Phase, o: Output)
    ensures Follow(p, [o]) == Next(p, o)
  {
    assert [o][1..] == [];
  }

  lemma FollowTwo(p: Phase, o1: Output, o2: Output)
    requires Next(p, o1).Some?
    ensures Follow(p, [o1, o2]) == Next(Next(p, o1).value, o2)
  {
    assert [o1, o2][1..] == [o2];
    FollowOne(Next(p, o1).value, o2);
  }

  /** The outputs of each row function are in order, and lead to the phase of the new state unless they are the last. */
  lemma OutputsFollow(state: State, action: Action, r: Response, results: Results)
    requires state != Terminated && Transition(state, action).Some? && Fits(action, r)
    ensures var (to, exec) := Transition(state, action).value;
      var q := Follow(PhaseFor(state), Outputs(exec, r, results));
      q.Some? && if Ends(to, exec, results) then !q.value.Idle? && !q.value.Closed? else q.value == PhaseFor(to)
  {
    var exec := Transition(state, action).value.1;
    var p, outputs := PhaseFor(state), Outputs(exec, r, results);
    if |outputs| == 1 {
      FollowOne(p, outputs[0]);
    } else if |outputs| == 2 {
      FollowTwo(p, outputs[0], outputs[1]);
    }
  }

  /** The outputs of each transition lead from the phase of the old state to that of the new one. */
  lemma TransitionFollows(state: State, action: Action, r: Response, results: Results)
    requires state != Terminated && Transition(state, action).Some? && Fits(action, r)
    ensures var (to, exec) := Transition(state, action).value;
      Follow(PhaseFor(state), AllOutputs(to, exec, r, results)) ==
        Some(PhaseFor(if Ends(to, exec, results) then Terminated else to))
  {
    var (to, exec) := Transition(state, action).value;
    var outputs := Outputs(exec, r, results);
    OutputsFollow(state, action, r, results);
    FollowRemove(PhaseFor(state), outputs);
    assert outputs + [] == outputs;
  }

  lemma ActKeepsPhase(c: Client, action: Action, r: Response, results: Results)
    requires InPhase(c) && Fits(action, r)
    ensures InPhase(c.Act(action, r, results))
  {
    if c.state != Terminated && Transition(c.state, action).Some? {
      var (to, exec) := Transition(c.state, action).value;
      TakePutsOut(c, to, exec, r, results);
      TransitionFollows(c.state, action, r, results);
      PhaseOfConcat(c.log, AllOutputs(to, exec, r, results));
    }
  }

  // ----- the timers -------------------------------------------------------

  predicate Distinct(c: Client) {
    && Differ(c.timerA, c.timerB) && Differ(c.timerA, c.timerD) && Differ(c.timerA, c.timerM)
    && Differ(c.timerB, c.timerD) && Differ(c.timerB, c.timerM)
    && Differ(c.timerD, c.timerM)
  }

  /** The manager is consistent, and the transaction's timers are identifiers that it has given out. */
  ghost predicate Sound(c: Client) {
    && c.timers.Valid()
    && c.timerA.id < c.timers.nextId && c.timerB.id < c.timers.nextId
    && c.timerD.id < c.timers.nextId && c.timerM.id < c.timers.nextId
    && Distinct(c)
  }

  lemma RetimeKeepsSound(c: Client, exec: Exec)
    requires Sound(c)
    ensures Sound(c.Retime(exec))
  {
  }

  lemma EffectKeepsSound(c: Client, exec: Exec, r: Response, results: Results)
    requires Sound(c.Retime(exec))
    ensures Sound(c.Effect(exec, r, results))
  {
  }

  lemma FinishKeepsSound(c: Client, ret: int)
    requires Sound(c)
    ensures Sound(c.Finish(ret))
  {
  }

  lemma TakeKeepsSound(c: Client, to: State, exec: Exec, r: Response, results: Results)
    requires Sound(c)
    ensures Sound(c.Take(to, exec, r, results))
  {
    var d := c.(state := to);
    RetimeKeepsSound(d, exec);
    EffectKeepsSound(d, exec, r, results);
    FinishKeepsSound(d.Effect(exec, r, results), Returned(exec, results));
  }

  lemma ActKeepsSound(c: Client, action: Action, r: Response, results: Results)
    requires Sound(c)
    ensures Sound(c.Act(action, r, results))
  {
    if c.state != Terminated && Transition(c.state, action).Some? {
      var (to, exec) := Transition(c.state, action).value;
      TakeKeepsSound(c, to, exec, r, results);
    }
  }

  predicate HasEndingTimer(state: State) {
    state in {Calling, Completed, Accepted}
  }

  /** The timer that ends a state. */
  function EndingTimerOf(c: Client): nat {
    match c.state
    case Calling => c.timerB.id
    case Completed => c.timerD.id
    case Accepted => c.timerM.id
    case _ => INVALID_ID
  }

  /**
   In every state but `Proceeding` some timer is due that ends the transaction: timer B, D or M. It is not
   cancelled while the state lasts. `expiry` is the deadline of timer B.
   */
  ghost predicate Armed(c: Client, expiry: nat) {
    match c.state
    case Calling => IsDueBy(c.timers, c.timerB.id, expiry) && c.timers.deadlines[c.timerB.id] == expiry
    case Completed => IsDueBy(c.timers, c.timerD.id, c.timers.now + c.timerD.timeout)
    case Accepted => IsDueBy(c.timers, c.timerM.id, c.timers.now + c.timerM.timeout)
    case _ => true
  }

  /** Which row functions lead into, or stay in, a state with a timer of its own. */
  predicate Enters(from: State, to: State, exec: Exec) {
    match to
    case Calling => from == Calling && exec == Calling2CallingTimerA
    case Completed =>
      if from == Completed then exec == Completed2Completed else exec in {Calling2Completed, Proceeding2Completed}
    case Accepted =>
      if from == Accepted then exec == Accepted2Accepted else exec in {Calling2Accepted, Proceeding2Accepted}
    case _ => true
  }

  lemma TransitionInto(state: State, action: Action)
    requires state != Started && Transition(state, action).Some?
    ensures var (to, exec) := Transition(state, action).value; Enters(state, to, exec)
  {
  }

  /** The timers of the new state, for such a row function. */
  lemma RetimeArms(c: Client, from: State, exec: Exec, expiry: nat)
    requires Sound(c)
    requires from == c.state ==> Armed(c, expiry)
    requires Enters(from, c.state, exec)
    ensures Armed(c.Retime(exec), expiry)
  {
  }

  lemma FinishArms(c: Client, ret: int, expiry: nat)
    requires Armed(c, expiry)
    ensures Armed(c.Finish(ret), expiry)
  {
  }

  lemma TakeArms(c: Client, to: State, exec: Exec, r: Response, results: Results, expiry: nat)
    requires Armed(c.(state := to).Retime(exec), expiry)
    ensures Armed(c.Take(to, exec, r, results), expiry)
  {
    EffectKeeps(c.(state := to), exec, r, results);
    FinishArms(c.(state := to).Effect(exec, r, results), Returned(exec, results), expiry);
  }

  /** An action that does not end the state leaves its timer armed, and one that enters a new state arms its timer. */
  lemma ActKeepsArmed(c: Client, action: Action, r: Response, results: Results, expiry: nat)
    requires Sound(c) && Armed(c, expiry) && c.state != Started
    ensures Armed(c.Act(action, r, results), expiry)
  {
    if c.state != Terminated && Transition(c.state, action).Some? {
      var (to, exec) := Transition(c.state, action).value;
      TransitionInto(c.state, action);
      RetimeArms(c.(state := to), c.state, exec, expiry);
      TakeArms(c, to, exec, r, results, expiry);
    }
  }

  // ----- retransmission ---------------------------------------------------

  function Invites(log: seq<Output>): nat {
    if log == [] then 0
    else Invites(log[..|log| - 1]) + if log[|log| - 1].SendInvite? then 1 else 0
  }

  lemma InvitesOfSnoc(log: seq<Output>, o: Output)
    ensures Invites(log + [o]) == Invites(log) + if o.SendInvite? then 1 else 0
  {
    assert (log + [o])[..|log|] == log;
  }

  /** The interval of timer A after `n` retransmissions. */
  function Interval(a: nat, n: nat): nat {
    if n == 0 then a else 2 * Interval(a, n - 1)
  }

  /**
   Since the start at time `t0`, enough time has passed for the retransmissions made, with intervals that
   double from `a`; and while `Calling` lasts, timer A is set for the next.
   */
  ghost predicate Paced(c: Client, t0: nat, a: nat) {
    var n := Invites(c.log);
    && n >= 1
    && t0 + Interval(a, n - 1) <= c.timers.now + a
    && (c.reliable ==> n == 1)
    && (c.state == Calling ==>
          && c.timerA.timeout == Interval(a, n - 1)
          && (c.reliable ==> c.timerA.id == INVALID_ID)
          && (!c.reliable ==>
                c.timerA.id in c.timers.deadlines && t0 + Interval(a, n) <= c.timers.deadlines[c.timerA.id] + a))
  }

  lemma {:induction false} OtherOutputs(log: seq<Output>, outputs: seq<Output>)
    requires forall i :: 0 <= i < |outputs| ==> !outputs[i].SendInvite?
    ensures Invites(log + outputs) == Invites(log)
    decreases |outputs|
  {
    if outputs == [] {
      assert log + outputs == log;
    } else {
      InvitesOfSnoc(log, outputs[0]);
      OtherOutputs(log + [outputs[0]], outputs[1..]);
      assert log + [outputs[0]] + outputs[1..] == log + outputs;
    }
  }

  lemma OtherActionsLeaveCalling(state: State, action: Action, r: Response, results: Results)
    requires state != Started && action != TimerA
    requires Transition(state, action).Some?
    ensures var (to, exec) := Transition(state, action).value;
      && to != Calling
      && forall i :: 0 <= i < |Outputs(exec, r, results)| ==> !Outputs(exec, r, results)[i].SendInvite?
  {
  }

  lemma PaceLasts(c: Client, d: Client, t0: nat, a: nat)
    requires Paced(c, t0, a)
    requires Invites(d.log) == Invites(c.log) && d.reliable == c.reliable && d.timers.now == c.timers.now
    requires d.state != Calling
    ensures Paced(d, t0, a)
  {
  }

  lemma OtherActionsKeepPaced(
      c: Client, action: Action, r: Response, results: Results, t0: nat, a: nat)
    requires Paced(c, t0, a) && c.state != Started && action != TimerA
    ensures Paced(c.Act(action, r, results), t0, a)
  {
    if c.state != Terminated && Transition(c.state, action).Some? {
      var (to, exec) := Transition(c.state, action).value;
      OtherActionsLeaveCalling(c.state, action, r, results);
      var d := c.Take(to, exec, r, results);
      TakePutsOut(c, to, exec, r, results);
      OtherOutputs(c.log, AllOutputs(to, exec, r, results));
      PaceLasts(c, d, t0, a);
    }
  }

  lemma PaceDoubles(c: Client, d: Client, t0: nat, a: nat)
    requires Paced(c, t0, a) && c.state == Calling && !c.reliable && !d.reliable
    requires Invites(d.log) == Invites(c.log) + 1 && d.timers.now == c.timers.now
    requires c.timers.deadlines[c.timerA.id] <= c.timers.now
    requires d.timerA.timeout == 2 * c.timerA.timeout
    requires d.timerA.id in d.timers.deadlines
    requires d.timers.deadlines[d.timerA.id] == c.timers.now + 2 * c.timerA.timeout
    ensures Paced(d, t0, a)
  {
    var n := Invites(c.log);
    assert Interval(a, n) == 2 * Interval(a, n - 1);
    assert Interval(a, n + 1) == 2 * Interval(a, n);
  }

  lemma RetransmissionDoubles(c: Client, r: Response, results: Results)
    requires c.state == Calling
    ensures var d := c.Take(Calling, Calling2CallingTimerA, r, results);
      && d.timerA.timeout == 2 * c.timerA.timeout
      && IsArmed(d.timers, d.timerA.id)
      && d.timerA.id in d.timers.deadlines
      && d.timers.deadlines[d.timerA.id] == c.timers.now + 2 * c.timerA.timeout
  {
  }

  /** Timer A over an unreliable transport: one more request, and twice the interval until the next. */
  lemma RetransmissionKeepsPaced(c: Client, r: Response, results: Results, t0: nat, a: nat)
    requires Sound(c) && Paced(c, t0, a) && c.state == Calling && !c.reliable
    requires c.timers.deadlines[c.timerA.id] <= c.timers.now
    ensures Paced(c.Act(TimerA, r, results), t0, a)
  {
    var d := c.Take(Calling, Calling2CallingTimerA, r, results);
    TakePutsOut(c, Calling, Calling2CallingTimerA, r, results);
    assert AllOutputs(Calling, Calling2CallingTimerA, r, results) == [SendInvite];
    RetransmissionDoubles(c, r, results);
    InvitesOfSnoc(c.log, SendInvite);
    PaceDoubles(c, d, t0, a);
  }

  /** While `Calling` lasts over an unreliable transport, the next retransmission is due within the current interval. */
  ghost predicate Resending(c: Client) {
    c.state == Calling && !c.reliable ==> IsDueBy(c.timers, c.timerA.id, c.timers.now + c.timerA.timeout)
  }

  /** An action keeps that. It may be the callback of timer A, which has just left the manager's queue. */
  lemma ActKeepsResending(c: Client, action: Action, r: Response, results: Results)
    requires c.state != Started && (Resending(c) || action == TimerA)
    ensures Resending(c.Act(action, r, results))
  {
    if c.state != Terminated && Transition(c.state, action).Some? {
      var (to, exec) := Transition(c.state, action).value;
      TransitionInto(c.state, action);
      TakePutsOut(c, to, exec, r, results);
      if to == Calling {
        RetransmissionDoubles(c, r, results);
      }
    }
  }

  // ----- all runs ---------------------------------------------------------

  /** Everything that holds of a transaction started at time `t0` with timer A at `a` and timer B due at `expiry`. */
  ghost predicate Good(c: Client, t0: nat, a: nat, expiry: nat) {
    && c.running && c.state != Started
    && Sound(c) && Armed(c, expiry) && Paced(c, t0, a) && Resending(c) && InPhase(c)
  }

  lemma ActStaysStarted(c: Client, action: Action, r: Response, results: Results)
    requires c.running && c.state != Started
    ensures var d := c.Act(action, r, results); d.running && d.state != Started
  {
    if c.state != Terminated && Transition(c.state, action).Some? {
      var (to, exec) := Transition(c.state, action).value;
      EffectKeeps(c.(state := to), exec, r, results);
    }
  }

  lemma ActKeepsGood(
      c: Client, action: Action, r: Response, results: Results, t0: nat, a: nat, expiry: nat)
    requires Good(c, t0, a, expiry) && Fits(action, r) && action != TimerA
    ensures Good(c.Act(action, r, results), t0, a, expiry)
  {
    ActKeepsSound(c, action, r, results);
    ActKeepsArmed(c, action, r, results, expiry);
    OtherActionsKeepPaced(c, action, r, results, t0, a);
    ActKeepsResending(c, action, r, results);
    ActKeepsPhase(c, action, r, results);
    ActStaysStarted(c, action, r, results);
  }

  /** The callbacks of the timers that end the state. */
  lemma EndingTimer(c: Client, results: Results)
    ensures c.state == Calling ==> c.Act(TimerB, NO_RESPONSE, results).state == Terminated
    ensures c.state == Completed ==> c.Act(TimerD, NO_RESPONSE, results).state == Terminated
    ensures c.state == Accepted ==> c.Act(TimerM, NO_RESPONSE, results).state == Terminated
  {
  }

  /** In the other states a timer's callback changes nothing: late callbacks are harmless. */
  lemma LateTimer(c: Client, action: Action, results: Results)
    requires c.state != Started
    requires action == TimerA || action == TimerB ==> c.state != Calling
    requires action == TimerD ==> c.state != Completed
    requires action == TimerM ==> c.state != Accepted
    requires action in {TimerA, TimerB, TimerD, TimerM}
    ensures c.Act(action, NO_RESPONSE, results) == c
  {
  }

  /** The callback of a queued timer, by the action that the timer stands for. */
  lemma TimerKeepsGood(c: Client, action: Action, results: Results, t0: nat, a: nat, expiry: nat)
    requires c.running && c.state != Started && Sound(c) && Paced(c, t0, a) && InPhase(c)
    requires action in {TimerA, TimerB, TimerD, TimerM}
    requires Armed(c, expiry)
      || (c.state == Calling && action == TimerB)
      || (c.state == Completed && action == TimerD)
      || (c.state == Accepted && action == TimerM)
    requires Resending(c) || action == TimerA
    requires c.state == Calling && action == TimerA ==> !c.reliable && c.timers.deadlines[c.timerA.id] <= c.timers.now
    ensures Good(c.Act(action, NO_RESPONSE, results), t0, a, expiry)
  {
    ActKeepsSound(c, action, NO_RESPONSE, results);
    ActKeepsResending(c, action, NO_RESPONSE, results);
    ActKeepsPhase(c, action, NO_RESPONSE, results);
    ActStaysStarted(c, action, NO_RESPONSE, results);
    if action != TimerA {
      OtherActionsKeepPaced(c, action, NO_RESPONSE, results, t0, a);
    } else if c.state == Calling {
      RetransmissionKeepsPaced(c, NO_RESPONSE, results, t0, a);
    } else {
      LateTimer(c, TimerA, results);
    }
    if Armed(c, expiry) {
      ActKeepsArmed(c, action, NO_RESPONSE, results, expiry);
    } else {
      EndingTimer(c, results);
    }
  }

  lemma FiresKeepsGood(c: Client, id: nat, results: Results, t0: nat, a: nat, expiry: nat)
    requires Good(c, t0, a, expiry) && id in c.timers.queued
    ensures Good(c.(timers := c.timers.Dequeue(id)).TimerFires(id, results), t0, a, expiry)
  {
    var d := c.(timers := c.timers.Dequeue(id));
    if d.TimerActionFor(id).Some? {
      TimerKeepsGood(d, d.TimerActionFor(id).value, results, t0, a, expiry);
    }
  }

  /** The manager moves on by itself. */
  lemma ManagerKeepsGood(c: Client, move: Background, t0: nat, a: nat, expiry: nat)
    requires Good(c, t0, a, expiry) && !move.Dequeued?
    ensures Good(c.(timers := Apply(c.timers, move)), t0, a, expiry)
  {
    MoveKeepsTimers(c.timers, move);
  }

  lemma StepKeepsGood(c: Client, input: Input, t0: nat, a: nat, expiry: nat)
    requires Good(c, t0, a, expiry)
    ensures Good(Step(c, input), t0, a, expiry)
  {
    match input.event
    case Receives(r) =>
      if ActionFor(r.code).Some? {
        ActKeepsGood(c, ActionFor(r.code).value, r, input.results, t0, a, expiry);
      }
    case TransportFails => ActKeepsGood(c, TransportError, NO_RESPONSE, input.results, t0, a, expiry);
    case ErrorOccurs => ActKeepsGood(c, Error, NO_RESPONSE, input.results, t0, a, expiry);
    case DialogCancels => ActKeepsGood(c, Cancel, NO_RESPONSE, input.results, t0, a, expiry);
    case Manages(move) =>
      if !move.Dequeued? {
        ManagerKeepsGood(c, move, t0, a, expiry);
      } else if move.id in c.timers.queued {
        FiresKeepsGood(c, move.id, input.results, t0, a, expiry);
      } else {
        assert Apply(c.timers, move) == c.timers;
      }
    case StartsAgain =>
  }

  /** Every run keeps everything. */
  lemma {:induction false} RunKeepsGood(c: Client, inputs: seq<Input>, t0: nat, a: nat, expiry: nat)
    requires Good(c, t0, a, expiry)
    ensures Good(Run(c, inputs), t0, a, expiry)
  {
    if inputs != [] {
      RunKeepsGood(c, inputs[..|inputs| - 1], t0, a, expiry);
      StepKeepsGood(Run(c, inputs[..|inputs| - 1]), inputs[|inputs| - 1], t0, a, expiry);
    }
  }

  /** A new transaction, started. */
  function Launched(reliable: bool, intervals: Intervals, manager: Manager, results: Results): Client {
    Fresh(reliable, intervals, manager).Start(results)
  }

  lemma LaunchedClient(reliable: bool, intervals: Intervals, manager: Manager, results: Results)
    requires manager.Valid()
    ensures var c := Launched(reliable, intervals, manager, results);
      && c.log == [SendInvite] && c.state == Calling && c.running && c.reliable == reliable
      && c.timers.now == manager.now && Sound(c) && Armed(c, manager.now + intervals.b)
      && c.timerA.timeout == intervals.a && Resending(c)
      && (if reliable then c.timerA.id == INVALID_ID
          else c.timerA.id in c.timers.deadlines && c.timers.deadlines[c.timerA.id] == manager.now + intervals.a)
  {
  }

  lemma StartIsGood(reliable: bool, intervals: Intervals, manager: Manager, results: Results)
    requires manager.Valid()
    ensures Good(Launched(reliable, intervals, manager, results), manager.now, intervals.a, manager.now + intervals.b)
  {
    LaunchedClient(reliable, intervals, manager, results);
    PhaseOfConcat([], [SendInvite]);
    FollowOne(Idle, SendInvite);
    InvitesOfSnoc([], SendInvite);
    assert [] + [SendInvite] == [SendInvite];
    assert Interval(intervals.a, 1) == 2 * Interval(intervals.a, 0);
  }
}
