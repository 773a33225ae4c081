/**
 The SIP INVITE client transaction (section 17.1.1 of RFC 3261, with the
 Accepted state of draft-sparks-sip-invfix): its table, what each row does, and
 the machine that the table amounts to.
 */
module InviteClient {
  import opened Wrappers
  import opened Fsm
  import opened Timers

  datatype State = Started | Calling | Proceeding | Completed | Accepted | Terminated

  datatype Action =
    | Cancel
    | Send
    | TimerA
    | TimerB
    | TimerD
    | TimerM
    | Provisional     // 1xx
    | Success         // 2xx
    | Failure         // 300 to 699
    | TransportError
    | Error

  /** The function that a row executes. */
  datatype Exec =
    | Nothing
    | Started2Calling
    | Calling2CallingTimerA
    | Calling2TerminatedTimerB
    | Calling2Completed
    | Calling2Proceeding
    | Calling2Accepted
    | Proceeding2Proceeding
    | Proceeding2Completed
    | Proceeding2Accepted
    | Completed2Completed
    | Completed2TerminatedTimerD
    | Accepted2Accepted
    | Accepted2TerminatedTimerM
    | Any2TerminatedTransportError
    | Any2TerminatedError
    | Any2TerminatedCancel

  datatype Response = Response(code: int, serial: nat)

  /** The message is a response for the actions that receive one; for the others it is never looked at. */
  type Row = Entry<State, Action, Response, Exec>

  const ALWAYS: Response -> bool := (m: Response) => true

  function On(from: State, action: Action, to: State, exec: Exec): Row {
    Entry(Some(from), Some(action), ALWAYS, Some(to), exec)
  }

  function OnAny(action: Action, exec: Exec): Row {
    Entry(None, Some(action), ALWAYS, Some(Terminated), exec)
  }

  /** The rows that are declared for one state. */
  function Rows(state: State): (rows: seq<Row>)
    ensures forall i :: 0 <= i < |rows| ==> rows[i].from == Some(state)
  {
    match state
    case Started =>
      [ On(Started, Send, Calling, Started2Calling),
        Entry(Some(Started), None, ALWAYS, Some(Started), Nothing) ]
    case Calling =>
      [ On(Calling, TimerA, Calling, Calling2CallingTimerA),
        On(Calling, TimerB, Terminated, Calling2TerminatedTimerB),
        On(Calling, Failure, Completed, Calling2Completed),
        On(Calling, Provisional, Proceeding, Calling2Proceeding),
        On(Calling, Success, Accepted, Calling2Accepted) ]
    case Proceeding =>
      [ On(Proceeding, Provisional, Proceeding, Proceeding2Proceeding),
        On(Proceeding, Failure, Completed, Proceeding2Completed),
        On(Proceeding, Success, Accepted, Proceeding2Accepted) ]
    case Completed =>
      [ On(Completed, Failure, Completed, Completed2Completed),
        On(Completed, TimerD, Terminated, Completed2TerminatedTimerD) ]
    case Accepted =>
      [ On(Accepted, Success, Accepted, Accepted2Accepted),
        On(Accepted, TimerM, Terminated, Accepted2TerminatedTimerM) ]
    case Terminated => []
  }

  /** The rows that are declared for any state. */
  function AnyRows(): (rows: seq<Row>)
    ensures forall i :: 0 <= i < |rows| ==> rows[i].from == None
  {
    [ OnAny(TransportError, Any2TerminatedTransportError),
      OnAny(Error, Any2TerminatedError),
      OnAny(Cancel, Any2TerminatedCancel) ]
  }

  function Blocks(): seq<seq<Row>> {
    [Rows(Started), Rows(Calling), Rows(Proceeding), Rows(Completed), Rows(Accepted)]
  }

  /** The whole table in order of declaration. */
  function Table(): seq<Row> {
    Join(Blocks()) + AnyRows()
  }

  /** The number of the block for a state. */
  function BlockOf(state: State): (k: nat)
    requires state != Terminated
    ensures k < |Blocks()| && Blocks()[k] == Rows(state)
    ensures forall i, j :: 0 <= i < |Blocks()| && i != k && 0 <= j < |Blocks()[i]| ==>
      Blocks()[i][j].from != Some(state)
  {
    match state
    case Started => 0
    case Calling => 1
    case Proceeding => 2
    case Completed => 3
    case Accepted => 4
  }

  /** The transition diagram: what an action does in a state that has a transition of its own for it. */
  function OwnTransition(state: State, action: Action): Option<(State, Exec)> {
    match (state, action)
    case (Started, Send) => Some((Calling, Started2Calling))
    case (Started, _) => Some((Started, Nothing))
    case (Calling, TimerA) => Some((Calling, Calling2CallingTimerA))
    case (Calling, TimerB) => Some((Terminated, Calling2TerminatedTimerB))
    case (Calling, Failure) => Some((Completed, Calling2Completed))
    case (Calling, Provisional) => Some((Proceeding, Calling2Proceeding))
    case (Calling, Success) => Some((Accepted, Calling2Accepted))
    case (Proceeding, Provisional) => Some((Proceeding, Proceeding2Proceeding))
    case (Proceeding, Failure) => Some((Completed, Proceeding2Completed))
    case (Proceeding, Success) => Some((Accepted, Proceeding2Accepted))
    case (Completed, Failure) => Some((Completed, Completed2Completed))
    case (Completed, TimerD) => Some((Terminated, Completed2TerminatedTimerD))
    case (Accepted, Success) => Some((Accepted, Accepted2Accepted))
    case (Accepted, TimerM) => Some((Terminated, Accepted2TerminatedTimerM))
    case (_, _) => None
  }

  /** What an action does in any other state. */
  function AnyTransition(action: Action): Option<(State, Exec)> {
    match action
    case TransportError => Some((Terminated, Any2TerminatedTransportError))
    case Error => Some((Terminated, Any2TerminatedError))
    case Cancel => Some((Terminated, Any2TerminatedCancel))
    case _ => None
  }

  function Transition(state: State, action: Action): Option<(State, Exec)> {
    if OwnTransition(state, action).Some? then OwnTransition(state, action) else AnyTransition(action)
  }

  /** The index, among the rows for `state`, of the row for `action`. */
  function RowFor(state: State, action: Action): (i: nat)
    ensures i <= |Rows(state)|
  {
    match (state, action)
    case (Started, Send) => 0
    case (Started, _) => 1
    case (Calling, TimerA) => 0
    case (Calling, TimerB) => 1
    case (Calling, Failure) => 2
    case (Calling, Provisional) => 3
    case (Calling, Success) => 4
    case (Proceeding, Provisional) => 0
    case (Proceeding, Failure) => 1
    case (Proceeding, Success) => 2
    case (Completed, Failure) => 0
    case (Completed, TimerD) => 1
    case (Accepted, Success) => 0
    case (Accepted, TimerM) => 1
    case (_, _) => |Rows(state)|
  }

  ghost predicate IsRowFor(row: Option<Row>, t: Option<(State, Exec)>) {
    match t
    case None => row == None
    case Some((to, exec)) => row.Some? && row.value.to == Some(to) && row.value.exec == exec
  }

  lemma AnyRowsMean(state: State, action: Action, m: Response)
    ensures IsRowFor(FirstToApply(AnyRows(), state, action, m), AnyTransition(action))
  {
    var i := match action case TransportError => 0 case Error => 1 case Cancel => 2 case _ => 3;
    FirstToApplyAt(AnyRows(), state, action, m, i);
  }

  lemma RowsMean(state: State, action: Action, m: Response)
    ensures IsRowFor(FirstToApply(Rows(state), state, action, m), OwnTransition(state, action))
  {
    FirstToApplyAt(Rows(state), state, action, m, RowFor(state, action));
  }

  /** Dispatch through the ordered list is the transition diagram. */
  lemma DispatchIsTransition(state: State, action: Action, m: Response)
    requires state != Terminated
    ensures IsRowFor(FirstToApply(Build(Table()), state, action, m), Transition(state, action))
  {
    JoinIsSpecific(Blocks());
    SpecificThenWild(Join(Blocks()), AnyRows());
    OwnBlockDecides(Blocks(), BlockOf(state), AnyRows(), state, action, m);
    RowsMean(state, action, m);
    AnyRowsMean(state, action, m);
  }

  // ----- the transaction as a value ---------------------------------------

  /** What the transaction hands to the transport and to its user, in order. */
  datatype Output =
    | SendInvite
    | SendAck(response: Response)
    | PassUp(response: Response)
    | ReportTimeout
    | ReportTransportError
    | ReportError
    | Remove

  /** What sending the ACK and calling the user back return, should an action do so; zero is success. */
  datatype Results = Results(ack: int, user: int)

  /** What the function of a row puts out. */
  function Outputs(exec: Exec, r: Response, results: Results): seq<Output> {
    match exec
    case Started2Calling => [SendInvite]
    case Calling2CallingTimerA => [SendInvite]
    case Calling2TerminatedTimerB => [ReportTimeout]
    case Calling2Completed => if results.ack != 0 then [SendAck(r)] else [SendAck(r), PassUp(r)]
    case Proceeding2Completed => if results.ack != 0 then [SendAck(r)] else [SendAck(r), PassUp(r)]
    case Calling2Proceeding => [PassUp(r)]
    case Calling2Accepted => [PassUp(r)]
    case Proceeding2Proceeding => [PassUp(r)]
    case Proceeding2Accepted => [PassUp(r)]
    case Completed2Completed => [SendAck(r)]
    case Accepted2Accepted => [PassUp(r)]
    case Any2TerminatedTransportError => [ReportTransportError]
    case Any2TerminatedError => [ReportError]
    case _ => []
  }

  /** What it returns. */
  function Returned(exec: Exec, results: Results): int {
    match exec
    case Calling2Completed => if results.ack != 0 then results.ack else results.user
    case Proceeding2Completed => if results.ack != 0 then results.ack else results.user
    case Calling2Accepted => results.user
    case Proceeding2Proceeding => results.user
    case Proceeding2Accepted => results.user
    case Completed2Completed => results.ack
    case Any2TerminatedTransportError => results.user
    case Any2TerminatedError => results.user
    case _ => 0
  }

  /** The message that accompanies actions other than the receipt of a response. */
  const NO_RESPONSE := Response(0, 0)

  function ActionFor(code: int): Option<Action> {
    if 100 <= code <= 199 then Some(Provisional)
    else if 200 <= code <= 299 then Some(Success)
    else if 300 <= code <= 699 then Some(Failure)
    else None
  }

  datatype Client = Client(
    state: State, reliable: bool, running: bool,
    timerA: Timer, timerB: Timer, timerD: Timer, timerM: Timer,
    timers: Manager, log: seq<Output>)
  {
    function ScheduleA(): Client {
      this.(timerA := Timer(timers.nextId, timerA.timeout), timers := timers.Schedule(timerA.timeout))
    }

    function ScheduleB(): Client {
      this.(timerB := Timer(timers.nextId, timerB.timeout), timers := timers.Schedule(timerB.timeout))
    }

    function ScheduleD(): Client {
      this.(timerD := Timer(timers.nextId, timerD.timeout), timers := timers.Schedule(timerD.timeout))
    }

    function ScheduleM(): Client {
      this.(timerM := Timer(timers.nextId, timerM.timeout), timers := timers.Schedule(timerM.timeout))
    }

    /** Timer A exists only over unreliable transports. */
    function ScheduleAIfUnreliable(): Client {
      if reliable then this else ScheduleA()
    }

    /** Leaving `Calling` on a response other than a 2xx: nothing is retransmitted any more. */
    function CancelAB(): Client {
      this.(timers := (if reliable then timers else timers.Cancel(timerA.id)).Cancel(timerB.id))
    }

    /**
     What the function of a row does to the timers. On a 2xx the comment in the code says that timers A and B
     are cancelled, but they are scheduled again.
     */
    function Retime(exec: Exec): Client {
      match exec
      case Started2Calling => ScheduleAIfUnreliable().ScheduleB()
      case Calling2CallingTimerA => this.(timerA := Timer(timerA.id, 2 * timerA.timeout)).ScheduleA()
      case Calling2Completed => CancelAB().ScheduleD()
      case Proceeding2Completed => CancelAB().ScheduleD()
      case Calling2Proceeding => CancelAB()
      case Calling2Accepted => ScheduleM().ScheduleAIfUnreliable().ScheduleB()
      case Proceeding2Accepted => ScheduleM().ScheduleAIfUnreliable().ScheduleB()
      case _ => this
    }

    /** The whole effect of a row function. */
    function Effect(exec: Exec, r: Response, results: Results): Client {
      Retime(exec).(log := log + Outputs(exec, r, results))
    }

    /** A row function that fails takes the machine to its final state, and reaching that removes the transaction. */
    function Finish(ret: int): Client {
      if ret != 0 || state == Terminated then this.(state := Terminated, log := log + [Remove]) else this
    }

    function Take(to: State, exec: Exec, r: Response, results: Results): Client {
      this.(state := to).Effect(exec, r, results).Finish(Returned(exec, results))
    }

    /** Running an action through the state machine. Without a transition nothing happens. */
    function Act(action: Action, r: Response, results: Results): Client {
      if state == Terminated || Transition(state, action).None? then this
      else
        var (to, exec) := Transition(state, action).value;
        Take(to, exec, r, results)
    }

    /** What that returns. */
    function ActReturns(action: Action, results: Results): int {
      if state == Terminated then -2
      else if Transition(state, action).None? then 0
      else Returned(Transition(state, action).value.1, results)
    }

    /** The response arrives from the transport. */
    function Receive(r: Response, results: Results): Client {
      match ActionFor(r.code)
      case None => this
      case Some(action) => Act(action, r, results)
    }

    /** The action that the timer with identifier `id` stands for: only the latest schedule of each timer counts. */
    function TimerActionFor(id: nat): Option<Action> {
      if id == timerA.id then Some(TimerA)
      else if id == timerB.id then Some(TimerB)
      else if id == timerD.id then Some(TimerD)
      else if id == timerM.id then Some(TimerM)
      else None
    }

    /** The callback of that timer. */
    function TimerFires(id: nat, results: Results): Client {
      match TimerActionFor(id)
      case None => this
      case Some(action) => Act(action, NO_RESPONSE, results)
    }

    /** The request is handed over; this happens once. */
    function Start(results: Results): Client {
      if running then this else this.(running := true).Act(Send, NO_RESPONSE, results)
    }
  }

  /** The intervals that a transaction is created with. */
  datatype Intervals = Intervals(a: nat, b: nat, d: nat, m: nat)

  function Fresh(reliable: bool, intervals: Intervals, manager: Manager): Client {
    Client(Started, reliable, false,
           Timer(INVALID_ID, intervals.a), Timer(INVALID_ID, intervals.b),
           Timer(INVALID_ID, if reliable then 0 else intervals.d), Timer(INVALID_ID, intervals.m),
           manager, [])
  }
}
