/**
 The SIP INVITE server transaction (section 17.2.1 of RFC 3261, with the
 Accepted state of draft-sparks-sip-invfix): its table, what each row does, and
 the machine that the table amounts to.
 */
module InviteServer {
  import opened Wrappers
  import opened Fsm
  import opened Timers
  import C = InviteClient

  type Response = C.Response

  datatype State = Started | Proceeding | Completed | Accepted | Confirmed | Terminated

  datatype Action =
    | Cancel
    | RecvInvite
    | RecvAck
    | SendProvisional   // 1xx
    | SendSuccess       // 2xx
    | SendFailure       // 300 to 699
    | TimerH
    | TimerI
    | TimerG
    | TimerL
    | TransportError
    | Error

  datatype Exec =
    | Nothing
    | Started2Proceeding
    | Proceeding2ProceedingInvite
    | Proceeding2Proceeding
    | Proceeding2Completed
    | Proceeding2Accepted
    | Completed2CompletedInvite
    | Completed2CompletedTimerG
    | Completed2TerminatedTimerH
    | Completed2Confirmed
    | Accepted2AcceptedInvite
    | Accepted2Accepted
    | Accepted2AcceptedAck
    | Accepted2TerminatedTimerL
    | Confirmed2TerminatedTimerI
    | Any2TerminatedTransportError
    | Any2TerminatedError
    | Any2TerminatedCancel

  /** The message that accompanies an action: only for a response to send is it ever looked at. */
  datatype Message = Message(response: Response, toInvite: bool)

  type Row = Entry<State, Action, Message, Exec>

  const ALWAYS: Message -> bool := (m: Message) => true
  const IS_RESPONSE_TO_INVITE: Message -> bool := (m: Message) => m.toInvite

  function On(from: State, action: Action, to: State, exec: Exec): Row {
    Entry(Some(from), Some(action), ALWAYS, Some(to), exec)
  }

  /** A row for a response from the user: responses to other requests are not for this machine. */
  function OnSend(from: State, action: Action, to: State, exec: Exec): Row {
    Entry(Some(from), Some(action), IS_RESPONSE_TO_INVITE, Some(to), exec)
  }

  function OnAny(action: Action, exec: Exec): Row {
    Entry(None, Some(action), ALWAYS, Some(Terminated), exec)
  }

  /** The rows that are declared for one state. */
  function Rows(state: State): (rows: seq<Row>)
    ensures forall i :: 0 <= i < |rows| ==> rows[i].from == Some(state)
  {
    match state
    case Started =>
      [ On(Started, RecvInvite, Proceeding, Started2Proceeding),
        Entry(Some(Started), None, ALWAYS, Some(Started), Nothing) ]
    case Proceeding =>
      [ On(Proceeding, RecvInvite, Proceeding, Proceeding2ProceedingInvite),
        OnSend(Proceeding, SendProvisional, Proceeding, Proceeding2Proceeding),
        OnSend(Proceeding, SendFailure, Completed, Proceeding2Completed),
        OnSend(Proceeding, SendSuccess, Accepted, Proceeding2Accepted) ]
    case Completed =>
      [ On(Completed, RecvInvite, Completed, Completed2CompletedInvite),
        On(Completed, TimerG, Completed, Completed2CompletedTimerG),
        On(Completed, TimerH, Terminated, Completed2TerminatedTimerH),
        On(Completed, RecvAck, Confirmed, Completed2Confirmed) ]
    case Accepted =>
      [ On(Accepted, RecvInvite, Accepted, Accepted2AcceptedInvite),
        OnSend(Accepted, SendSuccess, Accepted, Accepted2Accepted),
        On(Accepted, RecvAck, Accepted, Accepted2AcceptedAck),
        On(Accepted, TimerL, Terminated, Accepted2TerminatedTimerL) ]
    case Confirmed =>
      [ On(Confirmed, TimerI, Terminated, Confirmed2TerminatedTimerI) ]
    case Terminated => []
  }

  /** The rows that are declared for any state. */
  function AnyRows(): (rows: seq<Row>)
    ensures forall i :: 0 <= i < |rows| ==> rows[i].from == None
  {
    [ OnAny(TransportError, Any2TerminatedTransportError),
      OnAny(Error, Any2TerminatedError),
      OnAny(Cancel, Any2TerminatedCancel) ]
  }

  function Blocks(): seq<seq<Row>> {
    [Rows(Started), Rows(Proceeding), Rows(Completed), Rows(Accepted), Rows(Confirmed)]
  }

  /** The whole table in order of declaration. */
  function Table(): seq<Row> {
    Join(Blocks()) + AnyRows()
  }

  /** The number of the block for a state. */
  function BlockOf(state: State): (k: nat)
    requires state != Terminated
    ensures k < |Blocks()| && Blocks()[k] == Rows(state)
    ensures forall i, j :: 0 <= i < |Blocks()| && i != k && 0 <= j < |Blocks()[i]| ==>
      Blocks()[i][j].from != Some(state)
  {
    match state
    case Started => 0
    case Proceeding => 1
    case Completed => 2
    case Accepted => 3
    case Confirmed => 4
  }

  /** The transition diagram: what an action does in a state that has a transition of its own for it. */
  function OwnTransition(state: State, action: Action, m: Message): Option<(State, Exec)> {
    match (state, action)
    case (Started, RecvInvite) => Some((Proceeding, Started2Proceeding))
    case (Started, _) => Some((Started, Nothing))
    case (Proceeding, RecvInvite) => Some((Proceeding, Proceeding2ProceedingInvite))
    case (Proceeding, SendProvisional) => if m.toInvite then Some((Proceeding, Proceeding2Proceeding)) else None
    case (Proceeding, SendFailure) => if m.toInvite then Some((Completed, Proceeding2Completed)) else None
    case (Proceeding, SendSuccess) => if m.toInvite then Some((Accepted, Proceeding2Accepted)) else None
    case (Completed, RecvInvite) => Some((Completed, Completed2CompletedInvite))
    case (Completed, TimerG) => Some((Completed, Completed2CompletedTimerG))
    case (Completed, TimerH) => Some((Terminated, Completed2TerminatedTimerH))
    case (Completed, RecvAck) => Some((Confirmed, Completed2Confirmed))
    case (Accepted, RecvInvite) => Some((Accepted, Accepted2AcceptedInvite))
    case (Accepted, SendSuccess) => if m.toInvite then Some((Accepted, Accepted2Accepted)) else None
    case (Accepted, RecvAck) => Some((Accepted, Accepted2AcceptedAck))
    case (Accepted, TimerL) => Some((Terminated, Accepted2TerminatedTimerL))
    case (Confirmed, TimerI) => Some((Terminated, Confirmed2TerminatedTimerI))
    case (_, _) => None
  }

  /** What an action does in any other state. */
  function AnyTransition(action: Action): Option<(State, Exec)> {
    match action
    case TransportError => Some((Terminated, Any2TerminatedTransportError))
    case Error => Some((Terminated, Any2TerminatedError))
    case Cancel => Some((Terminated, Any2TerminatedCancel))
    case _ => None
  }

  function Transition(state: State, action: Action, m: Message): Option<(State, Exec)> {
    if OwnTransition(state, action, m).Some? then OwnTransition(state, action, m) else AnyTransition(action)
  }

  /** The index, among the rows for `state`, of the row for `action`. */
  function RowFor(state: State, action: Action, m: Message): (i: nat)
    ensures i <= |Rows(state)|
  {
    match (state, action)
    case (Started, RecvInvite) => 0
    case (Started, _) => 1
    case (Proceeding, RecvInvite) => 0
    case (Proceeding, SendProvisional) => if m.toInvite then 1 else 4
    case (Proceeding, SendFailure) => if m.toInvite then 2 else 4
    case (Proceeding, SendSuccess) => if m.toInvite then 3 else 4
    case (Completed, RecvInvite) => 0
    case (Completed, TimerG) => 1
    case (Completed, TimerH) => 2
    case (Completed, RecvAck) => 3
    case (Accepted, RecvInvite) => 0
    case (Accepted, SendSuccess) => if m.toInvite then 1 else 4
    case (Accepted, RecvAck) => 2
    case (Accepted, TimerL) => 3
    case (Confirmed, TimerI) => 0
    case (_, _) => |Rows(state)|
  }

  ghost predicate IsRowFor(row: Option<Row>, t: Option<(State, Exec)>) {
    match t
    case None => row == None
    case Some((to, exec)) => row.Some? && row.value.to == Some(to) && row.value.exec == exec
  }

  lemma AnyRowsMean(state: State, action: Action, m: Message)
    ensures IsRowFor(FirstToApply(AnyRows(), state, action, m), AnyTransition(action))
  {
    var i := match action case TransportError => 0 case Error => 1 case Cancel => 2 case _ => 3;
    FirstToApplyAt(AnyRows(), state, action, m, i);
  }

  lemma RowsMean(state: State, action: Action, m: Message)
    ensures IsRowFor(FirstToApply(Rows(state), state, action, m), OwnTransition(state, action, m))
  {
    FirstToApplyAt(Rows(state), state, action, m, RowFor(state, action, m));
  }

  /** Dispatch through the ordered list is the transition diagram. */
  lemma DispatchIsTransition(state: State, action: Action, m: Message)
    requires state != Terminated
    ensures IsRowFor(FirstToApply(Build(Table()), state, action, m), Transition(state, action, m))
  {
    JoinIsSpecific(Blocks());
    SpecificThenWild(Join(Blocks()), AnyRows());
    OwnBlockDecides(Blocks(), BlockOf(state), AnyRows(), state, action, m);
    RowsMean(state, action, m);
    AnyRowsMean(state, action, m);
  }

  // ----- the transaction as a value ---------------------------------------

  /** What the transaction hands to the transport and to its user, in order. */
  datatype Output =
    | Send(response: Response)
    | PassUpInvite
    | PassUpAck
    | PassUpNothing      // the report of a transport error: a message that is null
    | ReportTransportError
    | ReportError
    | Remove

  /** What sending and calling the user back return; zero is success. */
  datatype Results = Results(send: int, user: int)

  /** The longest interval between retransmissions of a response. */
  const T2: nat := 4000

  /** The response that the transaction itself sends to the first request. */
  const TRYING := C.Response(100, 0)

  /** The response that the function of a row sends: a new one, or the last one again. */
  function Sends(exec: Exec, r: Response, last: Option<Response>): Option<Response> {
    match exec
    case Started2Proceeding => Some(TRYING)
    case Proceeding2Proceeding => Some(r)
    case Proceeding2Completed => Some(r)
    case Proceeding2Accepted => Some(r)
    case Accepted2Accepted => Some(r)
    case Proceeding2ProceedingInvite => last
    case Completed2CompletedInvite => last
    case Completed2CompletedTimerG => last
    case Accepted2AcceptedInvite => last
    case _ => None
  }

  /** What it tells the user then. */
  function Tells(exec: Exec, results: Results): seq<Output> {
    match exec
    case Started2Proceeding => if results.send != 0 then [] else [PassUpInvite]
    case Completed2TerminatedTimerH => [ReportTransportError]
    case Accepted2AcceptedAck => [PassUpAck]
    case Any2TerminatedTransportError => [PassUpNothing]
    case Any2TerminatedError => [ReportError]
    case _ => []
  }

  function Outputs(exec: Exec, r: Response, last: Option<Response>, results: Results): seq<Output> {
    (match Sends(exec, r, last) case None => [] case Some(q) => [Send(q)]) + Tells(exec, results)
  }

  /** What it returns. Sending the last response again fails, except in `Accepted`, if there is none. */
  function Returned(exec: Exec, last: Option<Response>, results: Results): int {
    match exec
    case Started2Proceeding => if results.send != 0 then results.send else results.user
    case Proceeding2Proceeding => results.send
    case Proceeding2Completed => results.send
    case Proceeding2Accepted => results.send
    case Accepted2Accepted => results.send
    case Proceeding2ProceedingInvite => if last.Some? then results.send else -1
    case Completed2CompletedInvite => if last.Some? then results.send else -1
    case Completed2CompletedTimerG => if last.Some? then results.send else -1
    case Accepted2AcceptedInvite => if last.Some? then results.send else 0
    case Completed2TerminatedTimerH => results.user
    case Accepted2AcceptedAck => results.user
    case Any2TerminatedTransportError => results.user
    case Any2TerminatedError => results.user
    case _ => 0
  }

  const NO_MESSAGE := Message(TRYING, false)

  function ActionFor(code: int): Option<Action> {
    if 100 <= code <= 199 then Some(SendProvisional)
    else if 200 <= code <= 299 then Some(SendSuccess)
    else if 300 <= code <= 699 then Some(SendFailure)
    else None
  }

  datatype Server = Server(
    state: State, reliable: bool, running: bool,
    timerH: Timer, timerI: Timer, timerG: Timer, timerL: Timer,
    timers: Manager, last: Option<Response>, log: seq<Output>)
  {
    function ScheduleH(): Server {
      this.(timerH := Timer(timers.nextId, timerH.timeout), timers := timers.Schedule(timerH.timeout))
    }

    function ScheduleI(): Server {
      this.(timerI := Timer(timers.nextId, timerI.timeout), timers := timers.Schedule(timerI.timeout))
    }

    function ScheduleG(): Server {
      this.(timerG := Timer(timers.nextId, timerG.timeout), timers := timers.Schedule(timerG.timeout))
    }

    function ScheduleL(): Server {
      this.(timerL := Timer(timers.nextId, timerL.timeout), timers := timers.Schedule(timerL.timeout))
    }

    function ScheduleGIfUnreliable(): Server {
      if reliable then this else ScheduleG()
    }

    function DoubledG(): nat {
      if 2 * timerG.timeout < T2 then 2 * timerG.timeout else T2
    }

    /** What the function of a row does to the timers. */
    function Retime(exec: Exec): Server {
      match exec
      case Proceeding2Completed => ScheduleGIfUnreliable().ScheduleH()
      case Proceeding2Accepted => ScheduleL()
      case Completed2CompletedTimerG => this.(timerG := Timer(timerG.id, DoubledG())).ScheduleG()
      case Completed2Confirmed => this.(timers := timers.Cancel(timerG.id)).ScheduleI()
      case _ => this
    }

    /** The whole effect of a row function. */
    function Effect(exec: Exec, r: Response, results: Results): Server {
      Retime(exec).(
        log := log + Outputs(exec, r, last, results),
        last := if Sends(exec, r, last).Some? then Sends(exec, r, last) else last)
    }

    /** A row function that fails takes the machine to its final state, and reaching that removes the transaction. */
    function Finish(ret: int): Server {
      if ret != 0 || state == Terminated then this.(state := Terminated, log := log + [Remove]) else this
    }

    function Take(to: State, exec: Exec, r: Response, results: Results): Server {
      this.(state := to).Effect(exec, r, results).Finish(Returned(exec, last, results))
    }

    /** Running an action through the state machine. Without a transition nothing happens. */
    function Act(action: Action, m: Message, results: Results): Server {
      if state == Terminated || Transition(state, action, m).None? then this
      else
        var (to, exec) := Transition(state, action, m).value;
        Take(to, exec, m.response, results)
    }

    /** What that returns. */
    function ActReturns(action: Action, m: Message, results: Results): int {
      if state == Terminated then -2
      else if Transition(state, action, m).None? then 0
      else Returned(Transition(state, action, m).value.1, last, results)
    }

    /** The user sends a response. */
    function Respond(m: Message, results: Results): Server {
      match ActionFor(m.response.code)
      case None => this
      case Some(action) => Act(action, m, results)
    }

    /** The action that the timer with identifier `id` stands for: only the latest schedule of each timer counts. */
    function TimerActionFor(id: nat): Option<Action> {
      if id == timerH.id then Some(TimerH)
      else if id == timerI.id then Some(TimerI)
      else if id == timerG.id then Some(TimerG)
      else if id == timerL.id then Some(TimerL)
      else None
    }

    /** The callback of that timer. */
    function TimerFires(id: nat, results: Results): Server {
      match TimerActionFor(id)
      case None => this
      case Some(action) => Act(action, NO_MESSAGE, results)
    }

    /** The first request is handed over; this happens once. */
    function Start(results: Results): Server {
      if running then this else this.(running := true).Act(RecvInvite, NO_MESSAGE, results)
    }
  }

  /** The intervals that a transaction is created with. */
  datatype Intervals = Intervals(h: nat, i: nat, g: nat, l: nat)

  function Fresh(reliable: bool, intervals: Intervals, manager: Manager): Server {
    Server(Started, reliable, false,
           Timer(INVALID_ID, intervals.h), Timer(INVALID_ID, if reliable then 0 else intervals.i),
           Timer(INVALID_ID, intervals.g), Timer(INVALID_ID, intervals.l),
           manager, None, [])
  }
}
