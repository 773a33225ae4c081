/**
 Whole runs of an INVITE server transaction: any interleaving of requests, ACKs,
 responses from its user, errors, the passing of time, and timer callbacks, the
 late ones included.
 */
module InviteServerRuns {
  import opened Timers
  import opened InviteServer

  datatype Event =
    | ReceivesInvite
    | ReceivesAck
    | Responds(message: Message)
    | TransportFails
    | ErrorOccurs
    | DialogCancels
    | Manages(move: Background)     // time passes, timers expire, callbacks run, and others schedule timers

  datatype Input = Input(event: Event, results: Results)

  function Step(s: Server, input: Input): Server {
    var results := input.results;
    match input.event
    case ReceivesInvite => if s.running then s.Act(RecvInvite, NO_MESSAGE, results) else s.Start(results)
    case ReceivesAck => s.Act(RecvAck, NO_MESSAGE, results)
    case Responds(m) => s.Respond(m, results)
    case TransportFails => s.Act(TransportError, NO_MESSAGE, results)
    case ErrorOccurs => s.Act(Error, NO_MESSAGE, results)
    case DialogCancels => s.Act(Cancel, NO_MESSAGE, results)
    case Manages(move) =>
      var d := s.(timers := Apply(s.timers, move));
      if move.Dequeued? && move.id in s.timers.queued then d.TimerFires(move.id, results) else d
  }

  function Run(s: Server, inputs: seq<Input>): Server {
    if inputs == [] then s else Step(Run(s, inputs[..|inputs| - 1]), inputs[|inputs| - 1])
  }

  // ----- the timers -------------------------------------------------------

  predicate Distinct(s: Server) {
    && Differ(s.timerH, s.timerI) && Differ(s.timerH, s.timerG) && Differ(s.timerH, s.timerL)
    && Differ(s.timerI, s.timerG) && Differ(s.timerI, s.timerL)
    && Differ(s.timerG, s.timerL)
  }

  /** The manager is consistent, and the transaction's timers are identifiers that it has given out. */
  ghost predicate Sound(s: Server) {
    && s.timers.Valid()
    && s.timerH.id < s.timers.nextId && s.timerI.id < s.timers.nextId
    && s.timerG.id < s.timers.nextId && s.timerL.id < s.timers.nextId
    && Distinct(s)
  }

  predicate HasEndingTimer(state: State) {
    state in {Completed, Confirmed, Accepted}
  }

  /** The timer that ends a state. */
  function EndingTimerOf(s: Server): Timer {
    match s.state
    case Completed => s.timerH
    case Confirmed => s.timerI
    case _ => s.timerL
  }

  /** In every state but `Proceeding` some timer is due that ends the transaction: timer H, I or L. */
  ghost predicate Armed(s: Server) {
    HasEndingTimer(s.state) ==> IsDueBy(s.timers, EndingTimerOf(s).id, s.timers.now + EndingTimerOf(s).timeout)
  }

  function Max(m: nat, n: nat): nat {
    if m < n then n else m
  }

  ghost predicate GIsPaced(s: Server, g: nat) {
    && s.timerG.timeout <= Max(g, T2) && (g > 0 <==> s.timerG.timeout > 0)
    && (s.reliable ==> s.timerG.id == INVALID_ID)
  }

  /**
   Over an unreliable transport, a server that waits for the ACK has its next retransmission due, at intervals
   that stay below `T2` or the initial interval `g`.
   */
  ghost predicate Retransmitting(s: Server, g: nat) {
    && GIsPaced(s, g)
    && (s.state == Completed && !s.reliable ==> IsDueBy(s.timers, s.timerG.id, s.timers.now + s.timerG.timeout))
  }

  ghost predicate Good(s: Server, g: nat) {
    Sound(s) && Armed(s) && Retransmitting(s, g)
  }

  lemma RetimeKeepsSound(s: Server, exec: Exec)
    requires Sound(s)
    ensures Sound(s.Retime(exec))
  {
  }

  /** Which row functions lead into, or stay in, a state with a timer of its own. */
  predicate Leads(from: State, to: State, exec: Exec) {
    match to
    case Completed =>
      if from == Completed then exec in {Completed2CompletedInvite, Completed2CompletedTimerG}
      else exec == Proceeding2Completed
    case Confirmed => exec == Completed2Confirmed
    case Accepted =>
      if from == Accepted then exec in {Accepted2AcceptedInvite, Accepted2Accepted, Accepted2AcceptedAck}
      else exec == Proceeding2Accepted
    case _ => exec != Completed2CompletedTimerG
  }

  lemma TransitionLeads(state: State, action: Action, m: Message)
    requires Transition(state, action, m).Some?
    ensures var (to, exec) := Transition(state, action, m).value; Leads(state, to, exec)
  {
  }

  lemma RetimeArms(s: Server, from: State, exec: Exec)
    requires Sound(s) && Leads(from, s.state, exec)
    requires from == s.state ==> Armed(s)
    ensures Armed(s.Retime(exec))
  {
  }

  lemma RetimeRetransmits(s: Server, from: State, exec: Exec, g: nat)
    requires Sound(s) && Leads(from, s.state, exec) && GIsPaced(s, g)
    requires from == s.state && exec != Completed2CompletedTimerG ==> Retransmitting(s, g)
    requires exec == Completed2CompletedTimerG ==> !s.reliable
    ensures Retransmitting(s.Retime(exec), g)
  {
  }

  lemma EffectKeepsGood(s: Server, exec: Exec, r: Response, results: Results, g: nat)
    requires Good(s.Retime(exec), g)
    ensures Good(s.Effect(exec, r, results), g)
  {
  }

  lemma FinishKeepsGood(s: Server, ret: int, g: nat)
    requires Good(s, g)
    ensures Good(s.Finish(ret), g)
  {
  }

  lemma TakeKeepsGood(s: Server, to: State, exec: Exec, r: Response, results: Results, g: nat)
    requires Sound(s) && Leads(s.state, to, exec) && GIsPaced(s, g)
    requires to == s.state ==> Armed(s)
    requires to == s.state && exec != Completed2CompletedTimerG ==> Retransmitting(s, g)
    requires exec == Completed2CompletedTimerG ==> !s.reliable
    ensures Good(s.Take(to, exec, r, results), g)
  {
    var t := s.(state := to);
    RetimeKeepsSound(t, exec);
    RetimeArms(t, s.state, exec);
    RetimeRetransmits(t, s.state, exec, g);
    EffectKeepsGood(t, exec, r, results, g);
    FinishKeepsGood(t.Effect(exec, r, results), Returned(exec, s.last, results), g);
  }

  /** The callback of the timer that ends the state. */
  predicate IsEnding(state: State, action: Action) {
    || (state == Completed && action == TimerH)
    || (state == Confirmed && action == TimerI)
    || (state == Accepted && action == TimerL)
  }

  /**
   An action keeps everything. It may be the callback of a timer that has just left the manager's queue: then
   that timer need not be armed.
   */
  lemma ActKeepsGood(s: Server, action: Action, m: Message, results: Results, g: nat)
    requires Sound(s) && GIsPaced(s, g)
    requires Armed(s) || IsEnding(s.state, action)
    requires Retransmitting(s, g) || (s.state == Completed && action == TimerG)
    requires s.state == Completed && action == TimerG ==> !s.reliable
    ensures Good(s.Act(action, m, results), g)
  {
    if s.state != Terminated && Transition(s.state, action, m).Some? {
      var (to, exec) := Transition(s.state, action, m).value;
      TransitionLeads(s.state, action, m);
      TakeKeepsGood(s, to, exec, m.response, results, g);
    }
  }

  lemma EndingTimer(s: Server, action: Action, results: Results)
    requires IsEnding(s.state, action)
    ensures s.Act(action, NO_MESSAGE, results).state == Terminated
  {
  }

  lemma FiresKeepsGood(s: Server, id: nat, results: Results, g: nat)
    requires Good(s, g) && id in s.timers.queued
    ensures Good(s.(timers := s.timers.Dequeue(id)).TimerFires(id, results), g)
  {
    var d := s.(timers := s.timers.Dequeue(id));
    if d.TimerActionFor(id).Some? {
      ActKeepsGood(d, d.TimerActionFor(id).value, NO_MESSAGE, results, g);
    }
  }

  lemma ManagerKeepsGood(s: Server, move: Background, g: nat)
    requires Good(s, g) && !move.Dequeued?
    ensures Good(s.(timers := Apply(s.timers, move)), g)
  {
    MoveKeepsTimers(s.timers, move);
  }

  lemma StepKeepsGood(s: Server, input: Input, g: nat)
    requires Good(s, g)
    ensures Good(Step(s, input), g)
  {
    var results := input.results;
    match input.event
    case ReceivesInvite =>
      ActKeepsGood(if s.running then s else s.(running := true), RecvInvite, NO_MESSAGE, results, g);
    case ReceivesAck => ActKeepsGood(s, RecvAck, NO_MESSAGE, results, g);
    case Responds(m) =>
      if ActionFor(m.response.code).Some? {
        ActKeepsGood(s, ActionFor(m.response.code).value, m, results, g);
      }
    case TransportFails => ActKeepsGood(s, TransportError, NO_MESSAGE, results, g);
    case ErrorOccurs => ActKeepsGood(s, Error, NO_MESSAGE, results, g);
    case DialogCancels => ActKeepsGood(s, Cancel, NO_MESSAGE, results, g);
    case Manages(move) =>
      if !move.Dequeued? {
        ManagerKeepsGood(s, move, g);
      } else if move.id in s.timers.queued {
        FiresKeepsGood(s, move.id, results, g);
      } else {
        assert Apply(s.timers, move) == s.timers;
      }
  }

  /** Every run keeps everything. */
  lemma {:induction false} RunKeepsGood(s: Server, inputs: seq<Input>, g: nat)
    requires Good(s, g)
    ensures Good(Run(s, inputs), g)
  {
    if inputs != [] {
      RunKeepsGood(s, inputs[..|inputs| - 1], g);
      StepKeepsGood(Run(s, inputs[..|inputs| - 1]), inputs[|inputs| - 1], g);
    }
  }
}
