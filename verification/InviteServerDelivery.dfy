/**
 What an INVITE server transaction does with what happens to it, event by
 event, as its user and the network see it: what is sent and remembered, how a
 retransmitted request is answered, what the user is told, and what each timer
 stands for.
 */
module InviteServerDelivery {
  import opened Wrappers
  import opened Timers
  import opened InviteServer
  import opened InviteServerRuns
  import opened InviteServerTheorems
  import opened InviteServerTermination
  import opened InviteServerReentrancy
  import C = InviteClient

  /** How an event is taken: what it puts out, whether the transaction ends with it, and what is left if not. */
  datatype Reaction = Reaction(outputs: seq<Output>, breaks: bool, state: State, last: Option<Response>)

  /** `d` is what `s` has become. */
  predicate Reacts(s: Server, reaction: Reaction, d: Server) {
    && d.log == s.log + reaction.outputs + (if reaction.breaks then [Remove] else [])
    && d.state == (if reaction.breaks then Terminated else reaction.state)
    && d.last == reaction.last
  }

  function Unmoved(s: Server): Reaction {
    Reaction([], false, s.state, s.last)
  }

  lemma UnmovedReacts(s: Server, d: Server)
    requires d.state == s.state && d.log == s.log && d.last == s.last
    ensures Reacts(s, Unmoved(s), d)
  {
    assert s.log + [] + [] == s.log;
  }

  /** Any reaction is that of one row, if the row has these outputs and ends. */
  lemma TakeReacts(s: Server, to: State, exec: Exec, r: Response, results: Results, reaction: Reaction)
    requires reaction.outputs == Outputs(exec, r, s.last, results)
    requires reaction.breaks == Ends(to, exec, s.last, results)
    requires !reaction.breaks ==> reaction.state == to
    requires reaction.last == LastAfter(exec, r, s.last)
    ensures Reacts(s, reaction, s.Take(to, exec, r, results))
  {
    TakePutsOut(s, to, exec, r, results);
  }

  // ----- responses of the user --------------------------------------------

  /** The user's response goes out: any to the request while it is undecided, and further 2xx responses after a 2xx. */
  predicate IsForwarded(state: State, m: Message) {
    && m.toInvite
    && ((state == Proceeding && 100 <= m.response.code <= 699) || (state == Accepted && 200 <= m.response.code <= 299))
  }

  function StateAfter(state: State, code: int): State {
    if state != Proceeding || code <= 199 then state else if code <= 299 then Accepted else Completed
  }

  function Forwarding(s: Server, m: Message, results: Results): Reaction {
    if IsForwarded(s.state, m)
    then Reaction([Send(m.response)], results.send != 0, StateAfter(s.state, m.response.code), Some(m.response))
    else Unmoved(s)
  }

  lemma RowForwards(state: State, m: Message, last: Option<Response>, results: Results)
    requires state != Started && state != Terminated
    requires IsForwarded(state, m)
    ensures ActionFor(m.response.code).Some?
    ensures Transition(state, ActionFor(m.response.code).value, m).Some?
    ensures var (to, exec) := Transition(state, ActionFor(m.response.code).value, m).value;
      && to == StateAfter(state, m.response.code)
      && Outputs(exec, m.response, last, results) == [Send(m.response)]
      && (Ends(to, exec, last, results) <==> results.send != 0)
      && LastAfter(exec, m.response, last) == Some(m.response)
  {
  }

  lemma NothingToForward(state: State, m: Message)
    requires state != Started && state != Terminated && !IsForwarded(state, m) && ActionFor(m.response.code).Some?
    ensures Transition(state, ActionFor(m.response.code).value, m).None?
  {
  }

  /** Every response that the user passes down, in every state. */
  lemma ResponseIsForwarded(s: Server, m: Message, results: Results)
    requires s.state != Started
    ensures Reacts(s, Forwarding(s, m, results), s.Respond(m, results))
  {
    if IsForwarded(s.state, m) {
      RowForwards(s.state, m, s.last, results);
      var (to, exec) := Transition(s.state, ActionFor(m.response.code).value, m).value;
      TakeReacts(s, to, exec, m.response, results, Forwarding(s, m, results));
    } else {
      if s.state != Terminated && ActionFor(m.response.code).Some? {
        NothingToForward(s.state, m);
      }
      UnmovedReacts(s, s.Respond(m, results));
    }
  }

  /** What the user is returned: whether sending failed, or that there was nothing to do it with. */
  function ResponseReturns(s: Server, m: Message, results: Results): int {
    if !(100 <= m.response.code <= 699) then -1
    else if s.state == Terminated then -2
    else if IsForwarded(s.state, m) then results.send
    else 0
  }

  lemma ResponseIsReturned(s: Server, m: Message, results: Results)
    ensures Returns(s, Input(Responds(m), results)) == ResponseReturns(s, m, results)
  {
  }

  // ----- requests ---------------------------------------------------------

  function Response100(): Response {
    C.Response(100, 0)
  }

  /** The last response once more. Without one, `none` is what that returns. */
  function Repeating(s: Server, results: Results, none: int): Reaction {
    match s.last
    case None => Reaction([], none != 0, s.state, None)
    case Some(r) => Reaction([Send(r)], results.send != 0, s.state, Some(r))
  }

  /** A request is answered with 100 and given to the user; a retransmission is answered with the last response. */
  function Answering(s: Server, results: Results): Reaction {
    match s.state
    case Started =>
      Reaction([Send(Response100())] + (if results.send == 0 then [PassUpInvite] else []),
               results.send != 0 || results.user != 0, Proceeding, Some(Response100()))
    case Proceeding => Repeating(s, results, -1)
    case Completed => Repeating(s, results, -1)
    case Accepted => Repeating(s, results, 0)
    case _ => Unmoved(s)
  }

  lemma RowAnswers(s: Server, results: Results)
    requires s.state in {Started, Proceeding, Completed, Accepted}
    ensures Transition(s.state, RecvInvite, NO_MESSAGE).Some?
    ensures var (to, exec) := Transition(s.state, RecvInvite, NO_MESSAGE).value;
      var reaction := Answering(s, results);
      && to == reaction.state
      && Outputs(exec, TRYING, s.last, results) == reaction.outputs
      && (Ends(to, exec, s.last, results) <==> reaction.breaks)
      && LastAfter(exec, TRYING, s.last) == reaction.last
  {
  }

  /** Every request, in every state. */
  lemma RequestIsAnswered(s: Server, results: Results)
    requires IsLive(s)
    ensures Reacts(s, Answering(s, results), Step(s, Input(ReceivesInvite, results)))
  {
    var d := s.(running := true);
    StepIsAct(s, Input(ReceivesInvite, results));
    if s.state in {Started, Proceeding, Completed, Accepted} {
      RowAnswers(s, results);
      var (to, exec) := Transition(s.state, RecvInvite, NO_MESSAGE).value;
      TakeReacts(d, to, exec, TRYING, results, Answering(s, results));
    } else {
      UnmovedReacts(s, Step(s, Input(ReceivesInvite, results)));
    }
  }

  /** The ACK of a failure is absorbed; that of a 2xx is for the user. */
  function Absorbing(s: Server, results: Results): Reaction {
    match s.state
    case Completed => Reaction([], false, Confirmed, s.last)
    case Accepted => Reaction([PassUpAck], results.user != 0, Accepted, s.last)
    case _ => Unmoved(s)
  }

  lemma RowAbsorbs(s: Server, results: Results)
    requires s.state in {Completed, Accepted}
    ensures Transition(s.state, RecvAck, NO_MESSAGE).Some?
    ensures var (to, exec) := Transition(s.state, RecvAck, NO_MESSAGE).value;
      var reaction := Absorbing(s, results);
      && to == reaction.state
      && Outputs(exec, TRYING, s.last, results) == reaction.outputs
      && (Ends(to, exec, s.last, results) <==> reaction.breaks)
      && LastAfter(exec, TRYING, s.last) == reaction.last
  {
  }

  /** Every ACK, in every state. */
  lemma AckIsAbsorbed(s: Server, results: Results)
    requires s.state != Started
    ensures Reacts(s, Absorbing(s, results), Step(s, Input(ReceivesAck, results)))
  {
    if s.state in {Completed, Accepted} {
      RowAbsorbs(s, results);
      var (to, exec) := Transition(s.state, RecvAck, NO_MESSAGE).value;
      TakeReacts(s, to, exec, TRYING, results, Absorbing(s, results));
    } else {
      UnmovedReacts(s, Step(s, Input(ReceivesAck, results)));
    }
  }

  /** What the stack is told of a request: anything but 0 makes it open another transaction. */
  function RequestReturns(s: Server, results: Results): int {
    match s.state
    case Started => if results.send != 0 then results.send else results.user
    case Confirmed => 0
    case Terminated => -2
    case _ => if s.last.Some? then results.send else if s.state == Accepted then 0 else -1
  }

  function AckReturns(s: Server, results: Results): int {
    if s.state == Accepted then results.user else if s.state == Terminated then -2 else 0
  }

  lemma RequestIsReturned(s: Server, results: Results)
    ensures Returns(s, Input(ReceivesInvite, results)) == RequestReturns(s, results)
    ensures Returns(s, Input(ReceivesAck, results)) == AckReturns(s, results)
  {
  }

  // ----- errors -----------------------------------------------------------

  /** Every error is reported, and a cancellation is not; both end the transaction. */
  function Failing(s: Server, e: Event): Reaction {
    if s.state == Started || s.state == Terminated then Unmoved(s)
    else
      match e
      case TransportFails => Reaction([PassUpNothing], true, Terminated, s.last)
      case ErrorOccurs => Reaction([ReportError], true, Terminated, s.last)
      case _ => Reaction([], true, Terminated, s.last)
  }

  predicate IsFailureEvent(e: Event) {
    e.TransportFails? || e.ErrorOccurs? || e.DialogCancels?
  }

  lemma ErrorReacts(s: Server, action: Action, exec: Exec, results: Results, reaction: Reaction)
    requires s.state != Started && s.state != Terminated
    requires Transition(s.state, action, NO_MESSAGE) == Some((Terminated, exec))
    requires Sends(exec, TRYING, s.last) == None && Tells(exec, results) == reaction.outputs
    requires reaction == Reaction(reaction.outputs, true, Terminated, s.last)
    ensures Reacts(s, reaction, s.Act(action, NO_MESSAGE, results))
  {
    TakeReacts(s, Terminated, exec, TRYING, results, reaction);
  }

  lemma ErrorIsReported(s: Server, e: Event, results: Results)
    requires IsFailureEvent(e)
    ensures Reacts(s, Failing(s, e), Step(s, Input(e, results)))
  {
    if s.state == Started || s.state == Terminated {
      var (d, action, m) := ActionOf(s, e).value;
      StepIsAct(s, Input(e, results));
      ErrorsEndOnceStarted(s, action, results);
      UnmovedReacts(s, Step(s, Input(e, results)));
    } else {
      match e
      case TransportFails => ErrorReacts(s, TransportError, Any2TerminatedTransportError, results, Failing(s, e));
      case ErrorOccurs => ErrorReacts(s, Error, Any2TerminatedError, results, Failing(s, e));
      case DialogCancels => ErrorReacts(s, Cancel, Any2TerminatedCancel, results, Failing(s, e));
    }
  }

  // ----- timers -----------------------------------------------------------

  /** Each timer has its state, and means nothing in the others. */
  function Ringing(s: Server, id: nat, results: Results): Reaction {
    if s.state == Completed && id == s.timerH.id then Reaction([ReportTransportError], true, Terminated, s.last)
    else if s.state == Completed && id == s.timerG.id then Repeating(s, results, -1)
    else if s.state == Confirmed && id == s.timerI.id then Reaction([], true, Terminated, s.last)
    else if s.state == Accepted && id == s.timerL.id then Reaction([], true, Terminated, s.last)
    else Unmoved(s)
  }

  lemma RowRings(s: Server, id: nat, results: Results)
    requires Sound(s) && s.state != Started && s.state != Terminated && id in s.timers.queued
    requires s.TimerActionFor(id).Some? && Transition(s.state, s.TimerActionFor(id).value, NO_MESSAGE).Some?
    ensures var (to, exec) := Transition(s.state, s.TimerActionFor(id).value, NO_MESSAGE).value;
      var reaction := Ringing(s, id, results);
      && Outputs(exec, TRYING, s.last, results) == reaction.outputs
      && (Ends(to, exec, s.last, results) <==> reaction.breaks)
      && (!reaction.breaks ==> to == reaction.state)
      && LastAfter(exec, TRYING, s.last) == reaction.last
  {
  }

  lemma NothingRings(s: Server, id: nat, results: Results)
    requires Sound(s) && s.state != Started && id in s.timers.queued
    requires s.state == Terminated || s.TimerActionFor(id).None?
      || Transition(s.state, s.TimerActionFor(id).value, NO_MESSAGE).None?
    ensures Ringing(s, id, results) == Unmoved(s)
  {
  }

  lemma SameTimers(s: Server, d: Server, id: nat, results: Results)
    requires d == s.(timers := d.timers)
    ensures Ringing(d, id, results) == Ringing(s, id, results) && d.TimerActionFor(id) == s.TimerActionFor(id)
  {
  }

  lemma ServedByRow(s: Server, d: Server, id: nat, to: State, exec: Exec, results: Results)
    requires Sound(s) && s.state != Started && s.state != Terminated && id in s.timers.queued
    requires d == s.(timers := d.timers) && s.TimerActionFor(id).Some?
    requires Transition(s.state, s.TimerActionFor(id).value, NO_MESSAGE) == Some((to, exec))
    ensures Reacts(s, Ringing(s, id, results), d.Take(to, exec, TRYING, results))
  {
    RowRings(s, id, results);
    TakeReacts(d, to, exec, TRYING, results, Ringing(s, id, results));
  }

  lemma FiresAs(s: Server, d: Server, id: nat, results: Results)
    requires d == s.(timers := d.timers)
    ensures d.TimerFires(id, results) ==
      match s.TimerActionFor(id) case None => d case Some(action) => d.Act(action, NO_MESSAGE, results)
  {
  }

  /** The callback, whatever the manager has done with it. */
  lemma TimerReacts(s: Server, d: Server, id: nat, results: Results)
    requires Sound(s) && s.state != Started && id in s.timers.queued && d == s.(timers := d.timers)
    ensures Reacts(s, Ringing(s, id, results), d.TimerFires(id, results))
  {
    FiresAs(s, d, id, results);
    if s.state != Terminated && s.TimerActionFor(id).Some?
      && Transition(s.state, s.TimerActionFor(id).value, NO_MESSAGE).Some?
    {
      var (to, exec) := Transition(s.state, s.TimerActionFor(id).value, NO_MESSAGE).value;
      ServedByRow(s, d, id, to, exec, results);
    } else {
      NothingRings(s, id, results);
      UnmovedReacts(s, d.TimerFires(id, results));
    }
  }

  /** Every callback. */
  lemma TimerIsServed(s: Server, id: nat, results: Results)
    requires Sound(s) && s.state != Started && id in s.timers.queued
    ensures Reacts(s, Ringing(s, id, results), Step(s, Input(Manages(Dequeued(id)), results)))
  {
    var d := s.(timers := s.timers.Dequeue(id));
    WorkSteps(s, Input(Manages(Dequeued(id)), results));
    TimerReacts(s, d, id, results);
  }

  // ----- every event ------------------------------------------------------

  /** What an event comes to. */
  function ReactionTo(s: Server, input: Input): Reaction {
    match input.event
    case ReceivesInvite => Answering(s, input.results)
    case ReceivesAck => if s.state == Started then Unmoved(s) else Absorbing(s, input.results)
    case Responds(m) => if s.state == Started then Unmoved(s) else Forwarding(s, m, input.results)
    case Manages(move) =>
      if move.Dequeued? && move.id in s.timers.queued && s.state != Started
      then Ringing(s, move.id, input.results) else Unmoved(s)
    case e => Failing(s, e)
  }

  /** Before the request has come, nothing else counts. */
  lemma NothingBeforeTheRequest(s: Server, input: Input)
    requires s.state == Started && !input.event.ReceivesInvite?
    ensures var d := Step(s, input); d.state == s.state && d.log == s.log && d.last == s.last
  {
    StepIsAct(s, input);
    if ActionOf(s, input.event).Some? {
      var (d, action, m) := ActionOf(s, input.event).value;
      if Transition(d.state, action, m).Some? {
        var (to, exec) := Transition(d.state, action, m).value;
        OnlyRequestsStart(d.state, action, m);
        TakePutsOut(d, to, exec, m.response, input.results);
      }
    }
  }

  /** Every event, in every state. */
  lemma EventIsTaken(s: Server, input: Input)
    requires Sound(s) && IsLive(s)
    ensures Reacts(s, ReactionTo(s, input), Step(s, input))
  {
    if s.state == Started && !input.event.ReceivesInvite? {
      NothingBeforeTheRequest(s, input);
      UnmovedReacts(s, Step(s, input));
    } else {
      match input.event
      case ReceivesInvite => RequestIsAnswered(s, input.results);
      case ReceivesAck => AckIsAbsorbed(s, input.results);
      case Responds(m) => ResponseIsForwarded(s, m, input.results);
      case Manages(move) =>
        if move.Dequeued? && move.id in s.timers.queued {
          TimerIsServed(s, move.id, input.results);
        } else {
          UnmovedReacts(s, Step(s, input));
        }
      case _ => ErrorIsReported(s, input.event, input.results);
    }
  }

  lemma OutputsNeedOnlySending(s: Server, e: Event, results: Results, others: Results)
    requires results.send == others.send
    ensures ReactionTo(s, Input(e, results)).outputs == ReactionTo(s, Input(e, others)).outputs
  {
  }

  /** What an event puts out does not depend on what the user returns, or does meanwhile. */
  lemma CallIsTaken(s: Server, call: Call)
    requires Sound(s) && IsLive(s)
    ensures s.log + ReactionTo(s, call.input).outputs <= Perform(s, call).log
    ensures call.inner == [] ==> Reacts(s, ReactionTo(s, call.input), Perform(s, call))
  {
    var first, more, n := CallFlattens(s, call);
    var input := Input(call.input.event, first);
    EventIsTaken(s, input);
    OutputsNeedOnlySending(s, call.input.event, call.input.results, first);
    RunGrows(Step(s, input), more);
    if call.inner == [] {
      PerformWithoutInner(s, call.input);
      EventIsTaken(s, call.input);
      assert call == Call(call.input, []);
    }
  }

  lemma ResponsesCallNobody(state: State, m: Message, results: Results)
    requires ActionFor(m.response.code).Some? && Transition(state, ActionFor(m.response.code).value, m).Some?
    ensures !CallsUser(Transition(state, ActionFor(m.response.code).value, m).value.1, results)
  {
  }

  lemma ActAroundSilently(s: Server, action: Action, m: Message, results: Results, inner: seq<Call>)
    requires Transition(s.state, action, m).Some? ==> !CallsUser(Transition(s.state, action, m).value.1, results)
    ensures ActAround(s, action, m, results, inner) == s.Act(action, m, results)
  {
  }

  /** Sending a response calls nobody. */
  lemma ForwardingCallsNobody(s: Server, m: Message, results: Results, inner: seq<Call>)
    requires Sound(s) && IsLive(s)
    ensures Reacts(s, Forwarding(s, m, results), Perform(s, Call(Input(Responds(m), results), inner)))
  {
    var input := Input(Responds(m), results);
    EventIsTaken(s, input);
    assert ReactionTo(s, input) == Forwarding(s, m, results);
    if ActionFor(m.response.code).Some? {
      var action := ActionFor(m.response.code).value;
      if Transition(s.state, action, m).Some? {
        ResponsesCallNobody(s.state, m, results);
      }
      ActAroundSilently(s, action, m, results, inner);
    }
    assert Perform(s, Call(input, inner)) == Step(s, input);
  }

  /** What the user does when it is given the request, or an ACK, happens then, and before its failing counts. */
  lemma UserActsInside(s: Server, e: Event, results: Results, inner: seq<Call>)
    requires e.ReceivesInvite? || e.ReceivesAck?
    requires if e.ReceivesInvite? then s.state == Started && results.send == 0 else s.state == Accepted
    ensures var d := Step(s, Input(e, results.(user := 0)));
      && d.state == (if e.ReceivesInvite? then Proceeding else Accepted)
      && Perform(s, Call(Input(e, results), inner)) == PerformAll(d, inner).Finish(results.user)
  {
    var (before, action, m) := ActionOf(s, e).value;
    var (to, exec) := Transition(before.state, action, m).value;
    SucceedingRow(before, to, exec, TRYING, results);
    StepIsAct(s, Input(e, results.(user := 0)));
    var d := before.Take(to, exec, TRYING, results.(user := 0));
    TakePutsOut(before, to, exec, TRYING, results.(user := 0));
    assert Inside(before, to, exec, TRYING, results, inner) == PerformAll(d, inner);
  }

  // ----- whole runs -------------------------------------------------------

  /** The latest response that there is to repeat: the 100, or what the user has passed down since. */
  function LatestAfter(before: Server, e: Event, latest: Option<Response>): Option<Response> {
    match e
    case ReceivesInvite => if before.state == Started then Some(C.Response(100, 0)) else latest
    case Responds(m) => if IsForwarded(before.state, m) then Some(m.response) else latest
    case _ => latest
  }

  function Latest(s: Server, inputs: seq<Input>): Option<Response> {
    if inputs == [] then s.last
    else
      var front := inputs[..|inputs| - 1];
      LatestAfter(Run(s, front), inputs[|inputs| - 1].event, Latest(s, front))
  }

  /** Whether the last response is sent again: to a retransmitted request, or for timer G. */
  predicate Repeats(s: Server, e: Event) {
    match e
    case ReceivesInvite => s.state in {Proceeding, Completed, Accepted}
    case Manages(move) =>
      && move.Dequeued? && move.id in s.timers.queued
      && s.state == Completed && move.id == s.timerG.id && move.id != s.timerH.id
    case _ => false
  }

  /** The responses that are to be sent. */
  function DueAt(before: Server, e: Event, latest: Option<Response>): seq<Response> {
    if e.ReceivesInvite? && before.state == Started then [C.Response(100, 0)]
    else if e.Responds? && IsForwarded(before.state, e.message) then [e.message.response]
    else if Repeats(before, e) && latest.Some? then [latest.value]
    else []
  }

  function Due(s: Server, inputs: seq<Input>): seq<Response> {
    if inputs == [] then []
    else
      var front := inputs[..|inputs| - 1];
      Due(s, front) + DueAt(Run(s, front), inputs[|inputs| - 1].event, Latest(s, front))
  }

  /** The responses that a log sends, in order. */
  function SentIn(log: seq<Output>): seq<Response> {
    if log == [] then []
    else
      var o := log[|log| - 1];
      SentIn(log[..|log| - 1]) + if o.Send? then [o.response] else []
  }

  lemma {:induction false} SentInConcat(log: seq<Output>, more: seq<Output>)
    ensures SentIn(log + more) == SentIn(log) + SentIn(more)
    decreases |more|
  {
    if more == [] {
      assert log + more == log;
    } else {
      var all := log + more;
      assert all[..|all| - 1] == log + more[..|more| - 1];
      SentInConcat(log, more[..|more| - 1]);
    }
  }

  lemma {:induction false} SentInTail(log: seq<Output>)
    requires forall i :: 1 <= i < |log| ==> !log[i].Send?
    ensures SentIn(log) == if log != [] && log[0].Send? then [log[0].response] else []
  {
    if |log| > 1 {
      SentInTail(log[..|log| - 1]);
    } else if |log| == 1 {
      assert log[..0] == [];
    }
  }

  /** No event sends more than one response, and none after anything else. */
  lemma ReactionSends(s: Server, input: Input)
    ensures var reaction := ReactionTo(s, input);
      forall i :: 1 <= i < |reaction.outputs| ==> !reaction.outputs[i].Send?
  {
  }

  lemma StepSends(s: Server, input: Input, d: Server)
    requires Sound(s) && IsLive(s) && d == Step(s, input)
    ensures var outputs := ReactionTo(s, input).outputs;
      SentIn(d.log) == SentIn(s.log) + if outputs != [] && outputs[0].Send? then [outputs[0].response] else []
  {
    var reaction := ReactionTo(s, input);
    var more := reaction.outputs + if reaction.breaks then [Remove] else [];
    EventIsTaken(s, input);
    ReactionSends(s, input);
    assert d.log == s.log + more;
    SentInConcat(s.log, more);
    SentInTail(more);
  }

  /** What is sent, and what is the latest response then. */
  lemma ReactionIsDue(s: Server, input: Input, latest: Option<Response>)
    requires Sound(s) && s.last == latest
    ensures var reaction, outputs := ReactionTo(s, input), ReactionTo(s, input).outputs;
      && reaction.last == LatestAfter(s, input.event, latest)
      && (if outputs != [] && outputs[0].Send? then [outputs[0].response] else []) == DueAt(s, input.event, latest)
  {
  }

  lemma StepIsDue(s: Server, input: Input, d: Server)
    requires Sound(s) && IsLive(s) && d == Step(s, input)
    ensures d.last == LatestAfter(s, input.event, s.last)
    ensures SentIn(d.log) == SentIn(s.log) + DueAt(s, input.event, s.last)
  {
    StepSends(s, input, d);
    EventIsTaken(s, input);
    ReactionIsDue(s, input, s.last);
  }

  lemma {:induction false} RunSends(s: Server, inputs: seq<Input>, g: nat)
    requires Good(s, g) && IsLive(s)
    ensures Run(s, inputs).last == Latest(s, inputs)
    ensures SentIn(Run(s, inputs).log) == SentIn(s.log) + Due(s, inputs)
  {
    if inputs != [] {
      var front, last := inputs[..|inputs| - 1], inputs[|inputs| - 1];
      RunSends(s, front, g);
      RunKeepsGood(s, front, g);
      RunStaysLive(s, front);
      StepIsDue(Run(s, front), last, Run(s, inputs));
    }
  }

  /**
   In every run the network is sent, in order, exactly the 100, the responses that the user passes down while they
   are to be sent, and the latest of these for each retransmitted request and each callback of timer G.
   */
  lemma NetworkHearsTheUser(setup: Setup, inputs: seq<Input>, s: Server)
    requires setup.manager.Valid() && s == setup.After(inputs)
    ensures s.last == Latest(setup.Server(), inputs)
    ensures SentIn(s.log) == Due(setup.Server(), inputs)
  {
    RunSends(setup.Server(), inputs, setup.intervals.g);
  }

  // ----- time -------------------------------------------------------------

  /** How long a state lasts if nothing else ends it. */
  function WaitFor(s: Server): nat {
    match s.state
    case Completed => s.timerH.timeout
    case Confirmed => s.timerI.timeout
    case _ => s.timerL.timeout
  }

  lemma RowEntersOnTime(s: Server, from: State, exec: Exec)
    requires Sound(s) && HasEndingTimer(s.state) && from != s.state && Leads(from, s.state, exec)
    ensures var d := s.Retime(exec);
      && EndingTimerOf(d).id in d.timers.deadlines
      && d.timers.deadlines[EndingTimerOf(d).id] == s.timers.now + WaitFor(s)
      && EndingTimerOf(d).timeout == WaitFor(s)
  {
  }

  /** Over an unreliable transport timer G is set on entry to `Completed`; for `Confirmed` it is cancelled. */
  lemma RowSetsG(s: Server, from: State, exec: Exec)
    requires Sound(s) && from != s.state && Leads(from, s.state, exec)
    ensures var d := s.Retime(exec);
      && (s.state == Completed && !s.reliable ==>
            d.timerG.id in d.timers.deadlines && d.timers.deadlines[d.timerG.id] == s.timers.now + s.timerG.timeout)
      && (s.state == Confirmed ==> d.timerG.id !in d.timers.pending)
  {
  }

  predicate SetsG(now: nat, timeout: nat, d: Server) {
    && (d.state == Completed && !d.reliable ==>
          d.timerG.id in d.timers.deadlines && d.timers.deadlines[d.timerG.id] == now + timeout)
    && (d.state == Confirmed ==> d.timerG.id !in d.timers.pending)
  }

  predicate SetsEnding(now: nat, d: Server) {
    && EndingTimerOf(d).id in d.timers.deadlines
    && d.timers.deadlines[EndingTimerOf(d).id] == now + WaitFor(d)
  }

  /** How a state with a timer of its own is entered. */
  lemma EnteredBy(s: Server, input: Input, d: Server) returns (e: Server, from: State, exec: Exec)
    requires Sound(s) && d == Step(s, input) && d.state != s.state && HasEndingTimer(d.state)
    ensures Sound(e) && e.state == d.state && from == s.state && Leads(from, e.state, exec)
    ensures e.timers.now == s.timers.now && e.timerG.timeout == s.timerG.timeout && e.reliable == d.reliable
    ensures var x := e.Retime(exec);
      && d.timers == x.timers && d.timerH == x.timerH && d.timerI == x.timerI
      && d.timerL == x.timerL && d.timerG == x.timerG && x.state == d.state
  {
    StepIsAct(s, input);
    if input.event.Manages? {
      TimerEventStaysOrEnds(s, input);
    }
    var (before, action, m) := ActionOf(s, input.event).value;
    var to := Transition(before.state, action, m).value.0;
    exec := Transition(before.state, action, m).value.1;
    TransitionLeads(before.state, action, m);
    TakePutsOut(before, to, exec, m.response, input.results);
    RetimeKeeps(before.(state := to), exec);
    e, from := before.(state := to), s.state;
  }

  /** The timers of the states are set, on entry, to their own intervals from then. */
  lemma EntersOnTime(s: Server, input: Input, d: Server)
    requires Sound(s) && d == Step(s, input) && d.state != s.state && HasEndingTimer(d.state)
    ensures SetsEnding(s.timers.now, d) && SetsG(s.timers.now, s.timerG.timeout, d)
  {
    var e, from, exec := EnteredBy(s, input, d);
    RowEntersOnTime(e, from, exec);
    RowSetsG(e, from, exec);
  }

  /** Only the state's own timer, or a retransmission that fails, ends it by itself; the timer not before it is due. */
  lemma EndsWhenDue(s: Server, input: Input)
    requires Sound(s) && HasEndingTimer(s.state) && input.event.Manages?
    requires Step(s, input).state == Terminated
    requires !Repeats(s, input.event)
    ensures EndingTimerOf(s).id in s.timers.deadlines && s.timers.deadlines[EndingTimerOf(s).id] <= s.timers.now
  {
    if input.event.move.Dequeued? && input.event.move.id in s.timers.queued {
      TimerIsServed(s, input.event.move.id, input.results);
    }
  }

  lemma EntryTakesNoTime(s: Server, input: Input)
    requires Step(s, input).state != s.state
    ensures Step(s, input).timers.now == s.timers.now
  {
    StepIsAct(s, input);
    if ActionOf(s, input.event).Some? {
      var (d, action, m) := ActionOf(s, input.event).value;
      if d.state != Terminated && Transition(d.state, action, m).Some? {
        var (to, exec) := Transition(d.state, action, m).value;
        TakePutsOut(d, to, exec, m.response, input.results);
      }
    }
  }

  lemma EndsNoEarlier(s: Server, entry: Input, d: Server, more: seq<Input>, e: Server, last: Input, g: nat)
    requires Good(s, g) && d == Step(s, entry) && e == Run(d, more)
    requires d.state != s.state && HasEndingTimer(d.state) && e.state == d.state
    requires last.event.Manages? && !Repeats(e, last.event) && Step(e, last).state == Terminated
    ensures e.timers.now >= d.timers.now + WaitFor(d)
  {
    StepKeepsGood(s, entry, g);
    EntersOnTime(s, entry, d);
    StepIsLater(s, entry);
    RunKeepsGood(d, more, g);
    RunIsLater(d, more, g);
    EndsWhenDue(e, last);
    assert d.timers.now == s.timers.now by {
      EntryTakesNoTime(s, entry);
    }
  }

  /** The interval of the timer that ends a state. */
  function IntervalOf(setup: Setup, state: State): nat {
    match state
    case Completed => setup.intervals.h
    case Confirmed => if setup.reliable then 0 else setup.intervals.i
    case _ => setup.intervals.l
  }

  /**
   In no run does a timer end `Completed`, `Confirmed` or `Accepted` before the interval of timer H, I or L has passed
   since the state was entered.
   */
  lemma TimersEndNoEarlier(
      setup: Setup, inputs: seq<Input>, s: Server, entry: Input, d: Server, more: seq<Input>, e: Server, last: Input)
    requires setup.manager.Valid() && s == setup.After(inputs) && d == Step(s, entry) && e == Run(d, more)
    requires d.state != s.state && HasEndingTimer(d.state) && e.state == d.state
    requires last.event.Manages? && !Repeats(e, last.event) && Step(e, last).state == Terminated
    ensures e.timers.now >= d.timers.now + IntervalOf(setup, d.state)
  {
    AfterIsGood(setup, inputs, s);
    AfterIsLater(setup, inputs, s);
    StepIsLater(s, entry);
    EndsNoEarlier(s, entry, d, more, e, last, setup.intervals.g);
  }

  /** The intervals between retransmissions double, but not beyond four seconds. */
  function NextInterval(g: nat): nat {
    if g < 2000 then 2 * g else 4000
  }

  function Backoff(g: nat, n: nat): nat {
    if n == 0 then g else NextInterval(Backoff(g, n - 1))
  }

  /** How often timer G has had the response sent again. */
  function Resends(s: Server, inputs: seq<Input>): nat {
    if inputs == [] then 0
    else
      var front, e := inputs[..|inputs| - 1], inputs[|inputs| - 1].event;
      Resends(s, front) + if e.Manages? && Repeats(Run(s, front), e) then 1 else 0
  }

  /** What timer G is set to, with and without a retransmission. */
  predicate BacksOff(s: Server, resends: bool, d: Server) {
    if resends then
      && d.timerG.timeout == NextInterval(s.timerG.timeout)
      && d.timerG.id in d.timers.deadlines && d.timers.deadlines[d.timerG.id] == s.timers.now + d.timerG.timeout
    else d.timerG.timeout == s.timerG.timeout
  }

  lemma TakeBacksOff(s: Server, to: State, exec: Exec, r: Response, results: Results)
    ensures BacksOff(s, exec == Completed2CompletedTimerG, s.Take(to, exec, r, results))
  {
  }

  lemma OnlyGResends(s: Server, e: Event)
    requires Sound(s) && ActionOf(s, e).Some? && s.state != Terminated
    ensures var (d, action, m) := ActionOf(s, e).value;
      Transition(d.state, action, m).Some? ==>
        (Transition(d.state, action, m).value.1 == Completed2CompletedTimerG <==> e.Manages? && Repeats(s, e))
  {
  }

  /** Timer G sends again, and is set to twice its interval or four seconds; nothing else changes that. */
  lemma StepBacksOff(s: Server, input: Input)
    requires Sound(s)
    ensures BacksOff(s, input.event.Manages? && Repeats(s, input.event), Step(s, input))
  {
    StepIsAct(s, input);
    if ActionOf(s, input.event).Some? && s.state != Terminated {
      var (d, action, m) := ActionOf(s, input.event).value;
      if Transition(d.state, action, m).Some? {
        var (to, exec) := Transition(d.state, action, m).value;
        TakeBacksOff(d, to, exec, m.response, input.results);
        OnlyGResends(s, input.event);
      }
    }
  }

  lemma StepCounts(s: Server, input: Input, d: Server, g: nat, n: nat, m: nat)
    requires Sound(s) && d == Step(s, input) && s.timerG.timeout == Backoff(g, n)
    requires m == n + if input.event.Manages? && Repeats(s, input.event) then 1 else 0
    ensures d.timerG.timeout == Backoff(g, m)
  {
    StepBacksOff(s, input);
  }

  lemma {:induction false} RunBacksOff(s: Server, inputs: seq<Input>, g: nat, d: Server, n: nat)
    requires Good(s, g) && d == Run(s, inputs) && n == Resends(s, inputs)
    ensures d.timerG.timeout == Backoff(s.timerG.timeout, n)
  {
    if inputs != [] {
      var front, last := inputs[..|inputs| - 1], inputs[|inputs| - 1];
      RunBacksOff(s, front, g, Run(s, front), Resends(s, front));
      RunKeepsGood(s, front, g);
      StepCounts(Run(s, front), last, d, s.timerG.timeout, Resends(s, front), n);
    }
  }

  /** In every run the interval of timer G is the first one, doubled for every retransmission up to four seconds. */
  lemma RetransmissionsBackOff(setup: Setup, inputs: seq<Input>, s: Server)
    requires setup.manager.Valid() && s == setup.After(inputs)
    ensures s.timerG.timeout == Backoff(setup.intervals.g, Resends(setup.Server(), inputs))
  {
    RunBacksOff(setup.Server(), inputs, setup.intervals.g, s, Resends(setup.Server(), inputs));
  }
}
