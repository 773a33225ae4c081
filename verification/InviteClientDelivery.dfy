/**
 What an INVITE client transaction does with what happens to it, event by
 event, as its user and the network see it: which response is passed up or
 acknowledged in which state, what the user is told of errors, and what each
 timer stands for.
 */
module InviteClientDelivery {
  import opened Wrappers
  import opened Timers
  import opened InviteClient
  import opened InviteClientRuns
  import opened InviteClientTheorems
  import opened InviteClientTermination
  import opened InviteClientReentrancy

  predicate IsWaiting(state: State) {
    state == Calling || state == Proceeding
  }

  // ----- responses --------------------------------------------------------

  /** The response is passed up: the first ones, whatever they are, and 2xx responses after a 2xx. */
  predicate IsPassedUp(state: State, code: int, results: Results) {
    || (IsWaiting(state) && 100 <= code <= 299)
    || (IsWaiting(state) && 300 <= code <= 699 && results.ack == 0)
    || (state == Accepted && 200 <= code <= 299)
  }

  /** It is acknowledged. */
  predicate IsAcknowledged(state: State, code: int) {
    (IsWaiting(state) || state == Completed) && 300 <= code <= 699
  }

  /** The ACK goes out first. */
  function Delivery(state: State, r: Response, results: Results): seq<Output> {
    (if IsAcknowledged(state, r.code) then [SendAck(r)] else [])
    + (if IsPassedUp(state, r.code, results) then [PassUp(r)] else [])
  }

  /** An ACK that cannot be sent ends the transaction, and so does a user that fails, but not on every response. */
  predicate Breaks(state: State, code: int, results: Results) {
    || (IsAcknowledged(state, code) && results.ack != 0)
    || (IsWaiting(state) && 200 <= code <= 699 && results.user != 0)
    || (state == Proceeding && 100 <= code <= 199 && results.user != 0)
  }

  function StateAfter(state: State, code: int): State {
    if IsWaiting(state) && 100 <= code <= 199 then Proceeding
    else if IsWaiting(state) && 200 <= code <= 299 then Accepted
    else if IsWaiting(state) && 300 <= code <= 699 then Completed
    else state
  }

  lemma RowDelivers(state: State, r: Response, results: Results)
    requires state != Started && state != Terminated
    requires ActionFor(r.code).Some? && Transition(state, ActionFor(r.code).value).Some?
    ensures var (to, exec) := Transition(state, ActionFor(r.code).value).value;
      && Outputs(exec, r, results) == Delivery(state, r, results)
      && (Ends(to, exec, results) <==> Breaks(state, r.code, results))
      && to == StateAfter(state, r.code)
  {
  }

  lemma NothingToDeliver(state: State, r: Response, results: Results)
    requires state != Started
    requires state == Terminated || ActionFor(r.code).None? || Transition(state, ActionFor(r.code).value).None?
    ensures Delivery(state, r, results) == [] && !Breaks(state, r.code, results) && StateAfter(state, r.code) == state
  {
  }

  /** Every response, in every state. */
  lemma ResponseIsDelivered(c: Client, r: Response, results: Results)
    requires c.state != Started
    ensures var d, breaks := c.Receive(r, results), Breaks(c.state, r.code, results);
      && d.log == c.log + Delivery(c.state, r, results) + (if breaks then [Remove] else [])
      && d.state == if breaks then Terminated else StateAfter(c.state, r.code)
  {
    if c.state != Terminated && ActionFor(r.code).Some? && Transition(c.state, ActionFor(r.code).value).Some? {
      var (to, exec) := Transition(c.state, ActionFor(r.code).value).value;
      TakePutsOut(c, to, exec, r, results);
      RowDelivers(c.state, r, results);
    } else {
      NothingToDeliver(c.state, r, results);
      assert c.log + [] + [] == c.log;
    }
  }

  lemma StepDelivers(c: Client, r: Response, results: Results, others: Results)
    requires c.state != Started && results.ack == others.ack
    ensures c.log + Delivery(c.state, r, results) <= Step(c, Input(Receives(r), others)).log
  {
    ResponseIsDelivered(c, r, others);
  }

  /** Delivering does not depend on what the user returns. */
  lemma CallDelivers(c: Client, r: Response, results: Results, inner: seq<Call>)
    requires c.running && c.state != Started
    ensures c.log + Delivery(c.state, r, results) <= Perform(c, Call(Input(Receives(r), results), inner)).log
  {
    var call := Call(Input(Receives(r), results), inner);
    var first, more, n := CallFlattens(c, call);
    StepDelivers(c, r, results, first);
    RunGrows(Step(c, Input(Receives(r), first)), more);
  }

  /** What the row function returns when the user fails: on some responses that goes unnoticed. */
  function Returning(state: State, code: int, results: Results): int {
    if (state == Calling && code <= 199) || state == Accepted then 0 else results.user
  }

  lemma PassedUpRow(state: State, r: Response, results: Results)
    requires state != Started && IsPassedUp(state, r.code, results)
    ensures ActionFor(r.code).Some? && Transition(state, ActionFor(r.code).value).Some?
    ensures var (to, exec) := Transition(state, ActionFor(r.code).value).value;
      && to != Terminated && CallsUser(exec, results) && Returned(exec, results) == Returning(state, r.code, results)
  {
  }

  /** What the user does when it is given a response happens after the delivery, and before its failing counts. */
  lemma UserActsAfterDelivery(c: Client, r: Response, results: Results, inner: seq<Call>)
    requires c.state != Started && IsPassedUp(c.state, r.code, results)
    ensures var d := Step(c, Input(Receives(r), results.(user := 0)));
      && d.state == StateAfter(c.state, r.code)
      && Perform(c, Call(Input(Receives(r), results), inner)) ==
           PerformAll(d, inner).Finish(Returning(c.state, r.code, results))
  {
    var (to, exec) := Transition(c.state, ActionFor(r.code).value).value;
    ResponseIsDelivered(c, r, results.(user := 0));
    PassedUpRow(c.state, r, results);
    SucceedingRow(c, to, exec, r, results);
    var d := c.Take(to, exec, r, results.(user := 0));
    assert Step(c, Input(Receives(r), results.(user := 0))) == d;
    var call := Call(Input(Receives(r), results), inner);
    assert ActionOf(c, call.input.event) == Some((c, ActionFor(r.code).value, r));
    assert Inside(c, to, exec, r, results, inner) == PerformAll(d, inner);
  }

  /** What the stack is told: an ACK that could not be sent, the failing of the user, or that it came too late. */
  function Answer(state: State, code: int, results: Results): int {
    if state == Terminated then (if 100 <= code <= 699 then -2 else 0)
    else if IsAcknowledged(state, code) && results.ack != 0 then results.ack
    else if IsPassedUp(state, code, results) then Returning(state, code, results)
    else 0
  }

  lemma ResponseReturns(c: Client, r: Response, results: Results)
    requires c.state != Started
    ensures Returns(c, Input(Receives(r), results)) == Answer(c.state, r.code, results)
  {
  }

  // ----- errors -----------------------------------------------------------

  predicate IsFailureEvent(e: Event) {
    e.TransportFails? || e.ErrorOccurs? || e.DialogCancels?
  }

  lemma ErrorEnds(c: Client, action: Action, exec: Exec, report: seq<Output>, results: Results)
    requires c.state != Started && c.state != Terminated
    requires Transition(c.state, action) == Some((Terminated, exec)) && Outputs(exec, NO_RESPONSE, results) == report
    ensures var d := c.Act(action, NO_RESPONSE, results); d.state == Terminated && d.log == c.log + (report + [Remove])
  {
    TakePutsOut(c, Terminated, exec, NO_RESPONSE, results);
  }

  /** Every error is reported, and a cancellation is not; both end the transaction. */
  lemma ErrorIsReported(c: Client, e: Event, results: Results)
    requires c.state != Started && c.state != Terminated
    requires IsFailureEvent(e)
    ensures var d := Step(c, Input(e, results));
      && d.state == Terminated
      && d.log == match e
        case TransportFails => c.log + [ReportTransportError, Remove]
        case ErrorOccurs => c.log + [ReportError, Remove]
        case _ => c.log + [Remove]
  {
    match e
    case TransportFails => ErrorEnds(c, TransportError, Any2TerminatedTransportError, [ReportTransportError], results);
    case ErrorOccurs => ErrorEnds(c, Error, Any2TerminatedError, [ReportError], results);
    case DialogCancels => ErrorEnds(c, Cancel, Any2TerminatedCancel, [], results);
  }

  // ----- timers -----------------------------------------------------------

  /** What the callback of a timer puts out. */
  function Alarm(c: Client, id: nat): seq<Output> {
    if c.state == Calling && id == c.timerA.id then [SendInvite]
    else if c.state == Calling && id == c.timerB.id then [ReportTimeout, Remove]
    else if c.state == Completed && id == c.timerD.id then [Remove]
    else if c.state == Accepted && id == c.timerM.id then [Remove]
    else []
  }

  predicate IsEnding(c: Client, id: nat) {
    || (c.state == Calling && id == c.timerB.id)
    || (c.state == Completed && id == c.timerD.id)
    || (c.state == Accepted && id == c.timerM.id)
  }

  lemma RowAlarms(c: Client, id: nat, results: Results)
    requires Sound(c) && c.state != Started && c.state != Terminated && id in c.timers.queued
    requires c.TimerActionFor(id).Some? && Transition(c.state, c.TimerActionFor(id).value).Some?
    ensures var (to, exec) := Transition(c.state, c.TimerActionFor(id).value).value;
      && AllOutputs(to, exec, NO_RESPONSE, results) == Alarm(c, id)
      && (if Ends(to, exec, results) then Terminated else to) == if IsEnding(c, id) then Terminated else c.state
  {
  }

  lemma TakeAlarms(c: Client, id: nat, to: State, exec: Exec, results: Results)
    requires AllOutputs(to, exec, NO_RESPONSE, results) == Alarm(c, id)
    requires (if Ends(to, exec, results) then Terminated else to) == if IsEnding(c, id) then Terminated else c.state
    ensures var d := c.Take(to, exec, NO_RESPONSE, results);
      d.log == c.log + Alarm(c, id) && d.state == if IsEnding(c, id) then Terminated else c.state
  {
    TakePutsOut(c, to, exec, NO_RESPONSE, results);
  }

  lemma NothingToAlarm(c: Client, id: nat)
    requires Sound(c) && c.state != Started && id in c.timers.queued
    requires c.state == Terminated || c.TimerActionFor(id).None?
      || Transition(c.state, c.TimerActionFor(id).value).None?
    ensures Alarm(c, id) == [] && !IsEnding(c, id)
  {
  }

  lemma SameTimers(c: Client, d: Client, id: nat)
    requires d == c.(timers := d.timers)
    ensures Alarm(d, id) == Alarm(c, id) && (IsEnding(d, id) <==> IsEnding(c, id))
    ensures d.TimerActionFor(id) == c.TimerActionFor(id)
  {
  }

  /** Every callback: each timer has its state, and means nothing in the others. */
  lemma TimerIsServed(c: Client, id: nat, results: Results)
    requires Sound(c) && c.state != Started && id in c.timers.queued
    ensures var d := Step(c, Input(Manages(Dequeued(id)), results));
      && d.log == c.log + Alarm(c, id)
      && d.state == if IsEnding(c, id) then Terminated else c.state
  {
    var d := c.(timers := c.timers.Dequeue(id));
    SameTimers(c, d, id);
    if c.state != Terminated && c.TimerActionFor(id).Some? && Transition(c.state, c.TimerActionFor(id).value).Some? {
      var (to, exec) := Transition(c.state, c.TimerActionFor(id).value).value;
      RowAlarms(c, id, results);
      SameTimers(c, d, id);
      TakeAlarms(d, id, to, exec, results);
    } else {
      NothingToAlarm(c, id);
      assert c.log + [] == c.log;
    }
  }

  // ----- whole runs -------------------------------------------------------

  /** The responses that a log passes up, in order. */
  function PassedUp(log: seq<Output>): seq<Response> {
    if log == [] then []
    else
      var o := log[|log| - 1];
      PassedUp(log[..|log| - 1]) + if o.PassUp? then [o.response] else []
  }

  /** The responses that it acknowledges. */
  function Acked(log: seq<Output>): seq<Response> {
    if log == [] then []
    else
      var o := log[|log| - 1];
      Acked(log[..|log| - 1]) + if o.SendAck? then [o.response] else []
  }

  /** The responses that arrive, in the states in which they are to be passed up. */
  function Heard(c: Client, inputs: seq<Input>): seq<Response> {
    if inputs == [] then []
    else
      var front, input := inputs[..|inputs| - 1], inputs[|inputs| - 1];
      Heard(c, front) +
      if input.event.Receives? && IsPassedUp(Run(c, front).state, input.event.response.code, input.results)
      then [input.event.response] else []
  }

  /** Those that arrive in the states in which they are to be acknowledged. */
  function Refused(c: Client, inputs: seq<Input>): seq<Response> {
    if inputs == [] then []
    else
      var front, input := inputs[..|inputs| - 1], inputs[|inputs| - 1];
      Refused(c, front) +
      if input.event.Receives? && IsAcknowledged(Run(c, front).state, input.event.response.code)
      then [input.event.response] else []
  }

  lemma {:induction false} ProjectionsOfConcat(log: seq<Output>, more: seq<Output>)
    ensures PassedUp(log + more) == PassedUp(log) + PassedUp(more)
    ensures Acked(log + more) == Acked(log) + Acked(more)
    decreases |more|
  {
    if more == [] {
      assert log + more == log;
    } else {
      var all := log + more;
      assert all[..|all| - 1] == log + more[..|more| - 1];
      ProjectionsOfConcat(log, more[..|more| - 1]);
    }
  }

  lemma ProjectionsOfOne(log: seq<Output>)
    requires |log| <= 1
    ensures PassedUp(log) == if log != [] && log[0].PassUp? then [log[0].response] else []
    ensures Acked(log) == if log != [] && log[0].SendAck? then [log[0].response] else []
  {
    if log != [] {
      assert log[..0] == [];
    }
  }

  lemma ProjectionsOfThree(ack: seq<Output>, up: seq<Output>, end: seq<Output>)
    ensures PassedUp(ack + up + end) == PassedUp(ack) + PassedUp(up) + PassedUp(end)
    ensures Acked(ack + up + end) == Acked(ack) + Acked(up) + Acked(end)
  {
    ProjectionsOfConcat(ack + up, end);
    ProjectionsOfConcat(ack, up);
  }

  lemma ProjectionsOfDelivery(state: State, r: Response, results: Results, end: seq<Output>)
    requires end == [] || end == [Remove]
    ensures var more := Delivery(state, r, results) + end;
      && PassedUp(more) == (if IsPassedUp(state, r.code, results) then [r] else [])
      && Acked(more) == (if IsAcknowledged(state, r.code) then [r] else [])
  {
    var ack: seq<Output> := if IsAcknowledged(state, r.code) then [SendAck(r)] else [];
    var up: seq<Output> := if IsPassedUp(state, r.code, results) then [PassUp(r)] else [];
    ProjectionsOfThree(ack, up, end);
    ProjectionsOfOne(ack);
    ProjectionsOfOne(up);
    ProjectionsOfOne(end);
  }

  /** What an event other than a response puts out. */
  function Announcement(c: Client, e: Event): seq<Output> {
    match e
    case TransportFails => if c.state == Terminated then [] else [ReportTransportError, Remove]
    case ErrorOccurs => if c.state == Terminated then [] else [ReportError, Remove]
    case DialogCancels => if c.state == Terminated then [] else [Remove]
    case Manages(move) => if move.Dequeued? && move.id in c.timers.queued then Alarm(c, move.id) else []
    case _ => []
  }

  /** Every other event. */
  lemma EventIsAnnounced(c: Client, input: Input)
    requires Sound(c) && c.running && c.state != Started && !input.event.Receives?
    ensures Step(c, input).log == c.log + Announcement(c, input.event)
  {
    assert c.log + [] == c.log;
    match input.event
    case Manages(move) =>
      if move.Dequeued? && move.id in c.timers.queued {
        TimerIsServed(c, move.id, input.results);
      }
    case StartsAgain =>
    case _ =>
      if c.state != Terminated {
        ErrorIsReported(c, input.event, input.results);
      }
  }

  lemma {:induction false} NothingToProject(log: seq<Output>)
    requires forall i :: 0 <= i < |log| ==> !log[i].PassUp? && !log[i].SendAck?
    ensures PassedUp(log) == [] && Acked(log) == []
  {
    if log != [] {
      NothingToProject(log[..|log| - 1]);
    }
  }

  lemma ReceiptProjects(c: Client, r: Response, results: Results)
    requires c.state != Started
    ensures var d := c.Receive(r, results);
      && PassedUp(d.log) == PassedUp(c.log) + (if IsPassedUp(c.state, r.code, results) then [r] else [])
      && Acked(d.log) == Acked(c.log) + (if IsAcknowledged(c.state, r.code) then [r] else [])
  {
    var end := if Breaks(c.state, r.code, results) then [Remove] else [];
    var d := c.Receive(r, results);
    ResponseIsDelivered(c, r, results);
    assert d.log == c.log + (Delivery(c.state, r, results) + end);
    ProjectionsOfConcat(c.log, Delivery(c.state, r, results) + end);
    ProjectionsOfDelivery(c.state, r, results, end);
  }

  lemma AnnouncementIsNeither(c: Client, e: Event)
    ensures var more := Announcement(c, e); forall i :: 0 <= i < |more| ==> !more[i].PassUp? && !more[i].SendAck?
  {
  }

  lemma NeitherProjects(log: seq<Output>, more: seq<Output>, all: seq<Output>)
    requires all == log + more
    requires forall i :: 0 <= i < |more| ==> !more[i].PassUp? && !more[i].SendAck?
    ensures PassedUp(all) == PassedUp(log) && Acked(all) == Acked(log)
  {
    ProjectionsOfConcat(log, more);
    NothingToProject(more);
  }

  lemma AnnouncementProjects(c: Client, input: Input)
    requires Sound(c) && c.running && c.state != Started && !input.event.Receives?
    ensures PassedUp(Step(c, input).log) == PassedUp(c.log) && Acked(Step(c, input).log) == Acked(c.log)
  {
    EventIsAnnounced(c, input);
    AnnouncementIsNeither(c, input.event);
    NeitherProjects(c.log, Announcement(c, input.event), Step(c, input).log);
  }

  lemma StepProjects(c: Client, input: Input)
    requires Sound(c) && c.running && c.state != Started
    ensures var r := if input.event.Receives? then input.event.response else NO_RESPONSE;
      && PassedUp(Step(c, input).log) == PassedUp(c.log) +
           (if input.event.Receives? && IsPassedUp(c.state, r.code, input.results) then [r] else [])
      && Acked(Step(c, input).log) == Acked(c.log) +
           (if input.event.Receives? && IsAcknowledged(c.state, r.code) then [r] else [])
  {
    if input.event.Receives? {
      ReceiptProjects(c, input.event.response, input.results);
    } else {
      AnnouncementProjects(c, input);
    }
  }

  lemma {:induction false} RunProjects(c: Client, inputs: seq<Input>, t0: nat, a: nat, expiry: nat)
    requires Good(c, t0, a, expiry)
    ensures PassedUp(Run(c, inputs).log) == PassedUp(c.log) + Heard(c, inputs)
    ensures Acked(Run(c, inputs).log) == Acked(c.log) + Refused(c, inputs)
  {
    if inputs != [] {
      var front, last := inputs[..|inputs| - 1], inputs[|inputs| - 1];
      RunProjects(c, front, t0, a, expiry);
      RunKeepsGood(c, front, t0, a, expiry);
      StepProjects(Run(c, front), last);
    }
  }

  /**
   In every run the user is given, in order, exactly the responses that arrive while they are to be passed up, and
   exactly those that arrive while they are to be acknowledged are acknowledged.
   */
  lemma UserHearsWhatArrives(launch: Launch, inputs: seq<Input>, c: Client)
    requires launch.manager.Valid() && c == launch.After(inputs)
    ensures PassedUp(c.log) == Heard(launch.Client(), inputs)
    ensures Acked(c.log) == Refused(launch.Client(), inputs)
  {
    var t0 := launch.manager.now;
    AfterIsGood(launch, [], launch.Client());
    LaunchedClient(launch.reliable, launch.intervals, launch.manager, launch.results);
    RunProjects(launch.Client(), inputs, t0, launch.intervals.a, t0 + launch.intervals.b);
    NothingToProject([SendInvite]);
  }

  // ----- time -------------------------------------------------------------

  /** Only timer B reports a timeout, and not before it is due. */
  lemma StepTimesOut(c: Client, input: Input, t0: nat, a: nat, expiry: nat)
    requires Good(c, t0, a, expiry) && ReportTimeout in Step(c, input).log
    ensures ReportTimeout in c.log || c.timers.now >= expiry
  {
    if input.event.Receives? {
      ResponseIsDelivered(c, input.event.response, input.results);
    } else {
      EventIsAnnounced(c, input);
      if ReportTimeout in Announcement(c, input.event) {
        assert c.state == Calling && c.timerB.id in c.timers.queued;
      }
    }
  }

  lemma {:induction false} RunTimesOut(c: Client, inputs: seq<Input>, t0: nat, a: nat, expiry: nat)
    requires Good(c, t0, a, expiry) && ReportTimeout !in c.log
    ensures ReportTimeout in Run(c, inputs).log ==> Run(c, inputs).timers.now >= expiry
  {
    if inputs != [] {
      var front, last := inputs[..|inputs| - 1], inputs[|inputs| - 1];
      RunTimesOut(c, front, t0, a, expiry);
      RunKeepsGood(c, front, t0, a, expiry);
      if ReportTimeout in Run(c, inputs).log {
        StepTimesOut(Run(c, front), last, t0, a, expiry);
      }
      StepIsLater(Run(c, front), last);
    }
  }

  /** In no run is the user told of a timeout before the interval of timer B has passed since the start. */
  lemma TimeoutTakesTime(launch: Launch, inputs: seq<Input>, c: Client)
    requires launch.manager.Valid() && c == launch.After(inputs)
    ensures ReportTimeout in c.log ==> c.timers.now >= launch.manager.now + launch.intervals.b
  {
    var t0 := launch.manager.now;
    AfterIsGood(launch, [], launch.Client());
    LaunchedClient(launch.reliable, launch.intervals, launch.manager, launch.results);
    RunTimesOut(launch.Client(), inputs, t0, launch.intervals.a, t0 + launch.intervals.b);
  }

  /** How long a final response is waited out. */
  function WaitFor(c: Client): nat {
    if c.state == Completed then c.timerD.timeout else c.timerM.timeout
  }

  lemma RowEntersOnTime(c: Client, exec: Exec)
    requires Sound(c)
    requires c.state == Completed || c.state == Accepted
    requires c.state == Completed ==> exec in {Calling2Completed, Proceeding2Completed}
    requires c.state == Accepted ==> exec in {Calling2Accepted, Proceeding2Accepted}
    ensures var d := c.Retime(exec);
      EndingTimerOf(d) in d.timers.deadlines && d.timers.deadlines[EndingTimerOf(d)] == c.timers.now + WaitFor(c)
  {
  }

  /** The timer of `Completed` or `Accepted` is set, on entry, to its own interval from then. */
  lemma EntersOnTime(c: Client, input: Input, d: Client)
    requires Sound(c) && c.running && c.state != Started && d == Step(c, input)
    requires d.state != c.state && d.state in {Completed, Accepted}
    ensures EndingTimerOf(d) in d.timers.deadlines
    ensures d.timers.deadlines[EndingTimerOf(d)] == c.timers.now + WaitFor(d) && d.timers.now == c.timers.now
  {
    if input.event.Receives? {
      ResponseIsDelivered(c, input.event.response, input.results);
      var (to, exec) := Transition(c.state, ActionFor(input.event.response.code).value).value;
      TransitionInto(c.state, ActionFor(input.event.response.code).value);
      TakePutsOut(c, to, exec, input.event.response, input.results);
      RowEntersOnTime(c.(state := to), exec);
    } else if input.event.Manages? {
      TimerEventStaysOrEnds(c, input);
    } else if c.state != Terminated && !input.event.StartsAgain? {
      ErrorIsReported(c, input.event, input.results);
    }
  }

  /** Only the state's own timer ends it, and not before it is due. */
  lemma EndsWhenDue(c: Client, input: Input)
    requires Sound(c) && c.state in {Completed, Accepted} && input.event.Manages?
    requires Step(c, input).state == Terminated
    ensures EndingTimerOf(c) in c.timers.deadlines && c.timers.deadlines[EndingTimerOf(c)] <= c.timers.now
  {
    if input.event.move.Dequeued? && input.event.move.id in c.timers.queued {
      TimerIsServed(c, input.event.move.id, input.results);
    }
  }

  /**
   In no run does a timer end `Completed` or `Accepted` before the interval of timer D or M has passed since the
   state was entered.
   */
  lemma TimersEndNoEarlier(
      launch: Launch, inputs: seq<Input>, c: Client, entry: Input, d: Client, more: seq<Input>, e: Client, last: Input)
    requires launch.manager.Valid() && c == launch.After(inputs) && d == Step(c, entry) && e == Run(d, more)
    requires d.state != c.state && d.state in {Completed, Accepted} && e.state == d.state
    requires last.event.Manages? && Step(e, last).state == Terminated
    ensures e.timers.now >= d.timers.now + if d.state == Completed then launch.IntervalD() else launch.intervals.m
  {
    var t0, a, expiry := launch.manager.now, launch.intervals.a, launch.manager.now + launch.intervals.b;
    AfterIsGood(launch, inputs, c);
    AfterIsLater(launch, inputs, c);
    StepKeepsGood(c, entry, t0, a, expiry);
    EntersOnTime(c, entry, d);
    StepIsLater(c, entry);
    RunKeepsGood(d, more, t0, a, expiry);
    RunIsLater(d, more, t0, a, expiry);
    EndsWhenDue(e, last);
  }
}
