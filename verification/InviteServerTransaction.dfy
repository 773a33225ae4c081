/**
 The server transaction as the object that the stack creates: fields updated
 in place by the functions of the table rows, which are dispatched through the
 ordered list.

 Every method that may call the user takes the calls that the user makes before
 it returns. A ghost history of all calls ties the object to the nests of
 `InviteServerReentrancy`, and so to runs: every theorem about runs is one about
 the object.
 */
module InviteServerTransaction {
  import opened Wrappers
  import opened Fsm
  import opened Timers
  import opened InviteServer
  import opened InviteServerRuns
  import opened InviteServerTheorems
  import opened InviteServerTermination
  import opened InviteServerReentrancy
  import opened InviteServerDelivery

  lemma ElapsesBy(s: Server, call: Call)
    requires call.input.event.Manages? && !call.input.event.move.Dequeued?
    ensures Perform(s, call) == s.(timers := Apply(s.timers, call.input.event.move))
  {
  }

  lemma {:induction false} PerformAllSnoc(s: Server, calls: seq<Call>, call: Call)
    ensures PerformAll(s, calls + [call]) == Perform(PerformAll(s, calls), call)
    decreases |calls|
  {
    if calls == [] {
      assert [] + [call] == [call] && [call][1..] == [];
    } else {
      assert (calls + [call])[1..] == calls[1..] + [call];
      PerformAllSnoc(Perform(s, calls[0]), calls[1..], call);
    }
  }

  lemma StartsRunning(s: Server, input: Input)
    requires s.running || input.event.ReceivesInvite?
    ensures Step(s, input).running
  {
    if input.event.ReceivesInvite? {
      var d := s.(running := true);
      assert Step(s, input) == d.Act(RecvInvite, NO_MESSAGE, input.results);
      if d.state != Terminated && Transition(d.state, RecvInvite, NO_MESSAGE).Some? {
        var (to, exec) := Transition(d.state, RecvInvite, NO_MESSAGE).value;
        TakePutsOut(d, to, exec, TRYING, input.results);
      }
    } else {
      StepGrows(s, input);
    }
  }

  lemma StaysRunning(s: Server, call: Call)
    requires IsLive(s) && (s.running || call.input.event.ReceivesInvite?)
    ensures Perform(s, call).running
  {
    var first, more, n := CallFlattens(s, call);
    var x := Step(s, Input(call.input.event, first));
    StepGrows(s, Input(call.input.event, first));
    StepIsAct(s, Input(call.input.event, first));
    StartsRunning(s, Input(call.input.event, first));
    RunGrows(x, more);
  }

  /** A transaction, after any nest of calls, is one after a run; if it has not ended, precisely so. */
  lemma NestsAreLive(setup: Setup, calls: seq<Call>, s: Server)
    requires setup.manager.Valid() && s == PerformAll(setup.Server(), calls)
    ensures s.timers.Valid() && IsLive(s)
    ensures s.state != Terminated ==> exists flat :: s == setup.After(flat)
  {
    var flat, n := NestsAreRuns(setup, calls, s);
    AfterIsGood(setup, flat, setup.After(flat));
    RunStaysLive(setup.Server(), flat);
    AgainAgain(setup.After(flat), 0, 0);
  }

  /** One more call. */
  lemma Continues(setup: Setup, calls: seq<Call>, s: Server, call: Call, d: Server)
    requires setup.manager.Valid() && s == PerformAll(setup.Server(), calls) && d == Perform(s, call)
    ensures d == PerformAll(setup.Server(), calls + [call]) && KeepsWord(setup, d) && s.log <= d.log
  {
    PerformAllSnoc(setup.Server(), calls, call);
    NestsKeepWord(setup, calls + [call], d);
    NestsAreLive(setup, calls, s);
    var flat, n := PerformFlattens(s, call);
    RunGrows(s, flat);
  }

  /** What the user does while being told of the end puts nothing out. */
  lemma InsideTheEnd(s: Server, exec: Exec, results: Results, inner: seq<Call>)
    requires s.running
    ensures var d := Inside(s, Terminated, exec, TRYING, results, inner);
      && d.state == Terminated
      && d.log == s.(state := Terminated).Effect(exec, TRYING, results).log
      && d.last == s.(state := Terminated).Effect(exec, TRYING, results).last
  {
    var d := s.(state := Terminated).Effect(exec, TRYING, results);
    RetimeKeeps(s.(state := Terminated), exec);
    var more, m := PerformAllFlattens(d, inner);
    RunAfterRemoval(d, 0, more);
    AgainAgain(Run(d, more), 0, 0);
  }

  lemma EndAround(s: Server, action: Action, results: Results, inner: seq<Call>)
    requires IsLive(s) && action in {TransportError, Error, Cancel}
    ensures var d, e := ActAround(s, action, NO_MESSAGE, results, inner), s.Act(action, NO_MESSAGE, results);
      d.state == e.state && d.log == e.log && d.last == e.last
  {
    if s.state == Started {
      assert Transition(s.state, action, NO_MESSAGE) == Some((Started, Nothing));
    } else if s.state != Terminated {
      var (to, exec) := Transition(s.state, action, NO_MESSAGE).value;
      InsideTheEnd(s, exec, results, inner);
    }
  }

  function FailureReturns(state: State, input: Input): int {
    if state == Terminated then -2
    else if state == Started || input.event.DialogCancels? then 0
    else input.results.user
  }

  lemma ErrorReturns(s: Server, input: Input)
    requires IsFailureEvent(input.event)
    ensures Returns(s, input) == FailureReturns(s.state, input)
  {
  }

  lemma FailureEnds(setup: Setup, calls: seq<Call>, s: Server, call: Call, d: Server)
    requires setup.manager.Valid() && s == PerformAll(setup.Server(), calls) && d == Perform(s, call)
    requires IsFailureEvent(call.input.event)
    ensures Reacts(s, Failing(s, call.input.event), d)
    ensures Returns(s, call.input) == FailureReturns(s.state, call.input)
    ensures d.state == Terminated <==> s.state != Started
    ensures s.state !in {Started, Terminated} ==> (FailureReported(d.log) <==> !call.input.event.DialogCancels?)
  {
    NestsAreLive(setup, calls, s);
    var action := ActionOf(s, call.input.event).value.1;
    ErrorReturns(s, call.input);
    EndAround(s, action, call.input.results, call.inner);
    ErrorsEndOnceStarted(s, action, call.input.results);
    ErrorIsReported(s, call.input.event, call.input.results);
    if s.state !in {Started, Terminated} {
      var flat :| s == setup.After(flat);
      FailureIsReported(setup, flat, s, call.input);
    }
  }

  lemma RetimeKeepsUnarmed(s: Server, exec: Exec, id: nat)
    requires s.timers.Valid() && id in s.timers.deadlines && !IsArmed(s.timers, id)
    ensures !IsArmed(s.Retime(exec).timers, id)
  {
  }

  lemma ActKeepsUnarmed(s: Server, action: Action, m: Message, results: Results, id: nat)
    requires s.timers.Valid() && id in s.timers.deadlines && !IsArmed(s.timers, id)
    ensures !IsArmed(s.Act(action, m, results).timers, id)
  {
    if s.state != Terminated && Transition(s.state, action, m).Some? {
      var (to, exec) := Transition(s.state, action, m).value;
      RetimeKeepsUnarmed(s.(state := to), exec, id);
      assert s.Act(action, m, results).timers == s.(state := to).Retime(exec).timers;
    }
  }

  /** What is over stays over. */
  lemma StepKeepsUnarmed(s: Server, input: Input, id: nat)
    requires s.timers.Valid() && id in s.timers.deadlines
    requires !IsArmed(s.timers, id) || (id in s.timers.queued && input.event == Manages(Dequeued(id)))
    ensures !IsArmed(Step(s, input).timers, id)
  {
    StepIsAct(s, input);
    if ActionOf(s, input.event).Some? {
      var (d, action, m) := ActionOf(s, input.event).value;
      ActKeepsUnarmed(d, action, m, input.results, id);
    }
  }

  lemma {:induction false} RunKeepsUnarmed(s: Server, inputs: seq<Input>, id: nat, g: nat)
    requires Good(s, g) && id in s.timers.deadlines && !IsArmed(s.timers, id)
    ensures !IsArmed(Run(s, inputs).timers, id)
  {
    if inputs != [] {
      var front := inputs[..|inputs| - 1];
      RunKeepsUnarmed(s, front, id, g);
      RunKeepsGood(s, front, g);
      RunIsLater(s, front, g);
      StepKeepsUnarmed(Run(s, front), inputs[|inputs| - 1], id);
    }
  }

  lemma GoodCallback(s: Server, call: Call, d: Server, g: nat)
    requires Good(s, g) && IsLive(s) && d == Perform(s, call)
    requires call.input.event.Manages? && call.input.event.move.Dequeued?
    requires call.input.event.move.id in s.timers.queued
    ensures !IsArmed(d.timers, call.input.event.move.id)
    ensures HasEndingTimer(s.state) && call.input.event.move.id == EndingTimerOf(s).id ==> d.state == Terminated
  {
    var id := call.input.event.move.id;
    var first, more, n := CallFlattens(s, call);
    var input := Input(call.input.event, first);
    var x := Step(s, input);
    StepKeepsUnarmed(s, input, id);
    StepKeepsGood(s, input, g);
    StepIsLater(s, input);
    RunKeepsUnarmed(x, more, id, g);
    if HasEndingTimer(s.state) && id == EndingTimerOf(s).id {
      EndingCallback(s, first);
      assert Input(Manages(Dequeued(EndingTimerOf(s).id)), first) == input;
      StepStaysLive(s, input);
      RunAfterRemoval(x, 0, more);
    }
  }

  lemma CallbackIsOver(setup: Setup, calls: seq<Call>, s: Server, call: Call, d: Server)
    requires setup.manager.Valid() && s == PerformAll(setup.Server(), calls) && d == Perform(s, call)
    requires call.input.event.Manages? && call.input.event.move.Dequeued?
    requires call.input.event.move.id in s.timers.queued
    ensures !IsArmed(d.timers, call.input.event.move.id)
    ensures HasEndingTimer(s.state) && call.input.event.move.id == EndingTimerOf(s).id ==> d.state == Terminated
  {
    NestsAreLive(setup, calls, s);
    if s.state != Terminated {
      var flat :| s == setup.After(flat);
      AfterIsGood(setup, flat, s);
      GoodCallback(s, call, d, setup.intervals.g);
    }
  }

  /** A request or an ACK. */
  function Taking(s: Server, isAck: bool, results: Results): Reaction {
    if isAck then (if s.state == Started then Unmoved(s) else Absorbing(s, results)) else Answering(s, results)
  }

  /** A callback. */
  function Alarming(s: Server, id: nat, results: Results): Reaction {
    if s.state == Started then Unmoved(s) else Ringing(s, id, results)
  }

  lemma NestsAreSound(setup: Setup, calls: seq<Call>, s: Server)
    requires setup.manager.Valid() && s == PerformAll(setup.Server(), calls)
    ensures Sound(s) && IsLive(s)
  {
    NestsAreLive(setup, calls, s);
    var flat, n := NestsAreRuns(setup, calls, s);
    AfterIsGood(setup, flat, setup.After(flat));
  }

  /** After a nest of calls, every further call is taken as its event is. */
  lemma CallIsServed(setup: Setup, calls: seq<Call>, s: Server, call: Call)
    requires setup.manager.Valid() && s == PerformAll(setup.Server(), calls)
    ensures s.log + ReactionTo(s, call.input).outputs <= Perform(s, call).log
    ensures call.inner == [] ==> Reacts(s, ReactionTo(s, call.input), Perform(s, call))
  {
    NestsAreSound(setup, calls, s);
    CallIsTaken(s, call);
  }

  lemma ResponseIsServed(
      setup: Setup, calls: seq<Call>, s: Server, m: Message, results: Results, inner: seq<Call>)
    requires setup.manager.Valid() && s == PerformAll(setup.Server(), calls)
    ensures Reacts(s, Forwarding(s, m, results), Perform(s, Call(Input(Responds(m), results), inner)))
  {
    NestsAreSound(setup, calls, s);
    ForwardingCallsNobody(s, m, results, inner);
  }

  class Transaction {
    const entries: seq<Row>
    const reliable: bool
    var state: State
    var running: bool
    var timerH: Timer
    var timerI: Timer
    var timerG: Timer
    var timerL: Timer
    /** The timer manager, which the transaction shares with all others. */
    var timers: Manager
    var lastResponse: Option<Response>
    var log: seq<Output>

    ghost const setup: Setup
    ghost var history: seq<Call>

    ghost function Value(): Server
      reads this`state, this`running, this`timerH, this`timerI, this`timerG, this`timerL,
            this`timers, this`lastResponse, this`log
    {
      Server(state, reliable, running, timerH, timerI, timerG, timerL, timers, lastResponse, log)
    }

    /** The object is where its history leads. */
    ghost predicate Valid()
      reads this
    {
      entries == Build(Table()) && setup.manager.Valid() && Value() == PerformAll(setup.Server(), history)
    }

    constructor (reliable: bool, intervals: Intervals, manager: Manager)
      requires manager.Valid()
      ensures Valid() && setup == Setup(reliable, intervals, manager) && history == []
      ensures Value() == Fresh(reliable, intervals, manager)
    {
      var rows := Set(Table());
      this.entries := rows;
      this.reliable := reliable;
      state := Started;
      running := false;
      timerH := Timer(INVALID_ID, intervals.h);
      timerI := Timer(INVALID_ID, if reliable then 0 else intervals.i);
      timerG := Timer(INVALID_ID, intervals.g);
      timerL := Timer(INVALID_ID, intervals.l);
      timers := manager;
      lastResponse := None;
      log := [];
      setup := Setup(reliable, intervals, manager);
      history := [];
    }

    // ----- the functions of the rows --------------------------------------

    method Schedule(timeout: nat) returns (t: Timer)
      modifies this`timers
      ensures t == Timer(old(timers).nextId, timeout) && timers == old(timers).Schedule(timeout)
    {
      t := Timer(timers.nextId, timeout);
      timers := timers.Schedule(timeout);
    }

    method SendNew(r: Response)
      modifies this`log, this`lastResponse
      ensures log == old(log) + [Send(r)] && lastResponse == Some(r)
    {
      log := log + [Send(r)];
      lastResponse := Some(r);
    }

    method Resend(results: Results) returns (ret: int)
      modifies this`log
      ensures log == old(log) + (match lastResponse case None => [] case Some(r) => [Send(r)])
      ensures ret == if lastResponse.Some? then results.send else -1
    {
      ret := -1;
      if lastResponse.Some? {
        log := log + [Send(lastResponse.value)];
        ret := results.send;
      }
    }

    method Answer(results: Results) returns (ret: int)
      modifies this`log, this`lastResponse
      ensures Value() == old(Value()).Effect(Started2Proceeding, TRYING, results)
      ensures ret == Returned(Started2Proceeding, old(lastResponse), results)
    {
      SendNew(TRYING);
      ret := results.send;
      if ret == 0 {
        log := log + [PassUpInvite];
        ret := results.user;
      }
    }

    method Retransmit(results: Results) returns (ret: int)
      modifies this`log, this`timers, this`timerG
      ensures Value() == old(Value()).Effect(Completed2CompletedTimerG, TRYING, results)
      ensures ret == Returned(Completed2CompletedTimerG, lastResponse, results)
    {
      ret := Resend(results);
      timerG := Timer(timerG.id, if 2 * timerG.timeout < T2 then 2 * timerG.timeout else T2);
      timerG := Schedule(timerG.timeout);
    }

    method Complete(r: Response, results: Results) returns (ret: int)
      modifies this`log, this`lastResponse, this`timers, this`timerG, this`timerH
      ensures Value() == old(Value()).Effect(Proceeding2Completed, r, results)
      ensures ret == Returned(Proceeding2Completed, old(lastResponse), results)
    {
      if !reliable {
        timerG := Schedule(timerG.timeout);
      }
      SendNew(r);
      timerH := Schedule(timerH.timeout);
      ret := results.send;
    }

    method Agree(r: Response, results: Results) returns (ret: int)
      modifies this`log, this`lastResponse, this`timers, this`timerL
      ensures Value() == old(Value()).Effect(Proceeding2Accepted, r, results)
      ensures ret == Returned(Proceeding2Accepted, old(lastResponse), results)
    {
      SendNew(r);
      timerL := Schedule(timerL.timeout);
      ret := results.send;
    }

    /** Nothing is retransmitted any more. */
    method Confirm()
      modifies this`timers, this`timerI
      ensures Value() == old(Value()).Retime(Completed2Confirmed)
    {
      timers := timers.Cancel(timerG.id);
      timerI := Schedule(timerI.timeout);
    }

    method Execute(exec: Exec, r: Response, results: Results) returns (ret: int)
      modifies this`log, this`lastResponse, this`timers, this`timerH, this`timerI, this`timerG, this`timerL
      ensures Value() == old(Value()).Effect(exec, r, results)
      ensures ret == Returned(exec, old(lastResponse), results)
    {
      ret := 0;
      match exec
      case Started2Proceeding =>
        ret := Answer(results);
      case Proceeding2ProceedingInvite =>
        ret := Resend(results);
      case Proceeding2Proceeding =>
        SendNew(r);
        ret := results.send;
      case Proceeding2Completed =>
        ret := Complete(r, results);
      case Proceeding2Accepted =>
        ret := Agree(r, results);
      case Completed2CompletedInvite =>
        ret := Resend(results);
      case Completed2CompletedTimerG =>
        ret := Retransmit(results);
      case Completed2TerminatedTimerH =>
        log := log + [ReportTransportError];
        ret := results.user;
      case Completed2Confirmed =>
        Confirm();
      case Accepted2AcceptedInvite =>
        if lastResponse.Some? {
          ret := Resend(results);
        }
      case Accepted2Accepted =>
        SendNew(r);
        ret := results.send;
      case Accepted2AcceptedAck =>
        log := log + [PassUpAck];
        ret := results.user;
      case Any2TerminatedTransportError =>
        log := log + [PassUpNothing];
        ret := results.user;
      case Any2TerminatedError =>
        log := log + [ReportError];
        ret := results.user;
      case _ =>
    }

    // ----- dispatch -------------------------------------------------------

    /** The first row of the list that applies: its state and its function. */
    method Lookup(action: Action, m: Message) returns (found: Option<(State, Exec)>)
      requires entries == Build(Table()) && state != Terminated
      ensures found == Transition(state, action, m)
    {
      DispatchIsTransition(state, action, m);
      var row := Find(entries, state, action, m);
      if row.None? {
        found := None;
      } else {
        found := Some((if row.value.to.None? then state else row.value.to.value, row.value.exec));
      }
    }

    /** Failing or reaching the final state is the end. */
    method Finish(ret: int)
      modifies this`state, this`log
      ensures Value() == old(Value()).Finish(ret)
    {
      if ret != 0 || state == Terminated {
        state := Terminated;
        log := log + [Remove];
      }
    }

    method Move(to: State, exec: Exec, r: Response, results: Results) returns (ret: int)
      modifies this`state, this`timers, this`timerH, this`timerI, this`timerG, this`timerL,
               this`lastResponse, this`log
      ensures Value() == old(Value()).(state := to).Effect(exec, r, results)
      ensures ret == Returned(exec, old(lastResponse), results)
    {
      state := to;
      ret := Execute(exec, r, results);
    }

    /** What the user does before the row function returns. */
    method Meanwhile(exec: Exec, results: Results, inner: seq<Call>)
      requires entries == Build(Table())
      modifies this`state, this`running, this`timers, this`timerH, this`timerI, this`timerG, this`timerL,
               this`lastResponse, this`log
      ensures Value() == if CallsUser(exec, results) then PerformAll(old(Value()), inner) else old(Value())
      decreases inner, 1
    {
      if CallsUser(exec, results) {
        DoAll(inner);
      }
    }

    /** The row's state is entered and its function executed, with what its user does meanwhile. */
    method Enter(to: State, exec: Exec, r: Response, results: Results, inner: seq<Call>) returns (ret: int)
      requires entries == Build(Table())
      modifies this`state, this`running, this`timers, this`timerH, this`timerI, this`timerG, this`timerL,
               this`lastResponse, this`log
      ensures Value() == Inside(old(Value()), to, exec, r, results, inner)
      ensures ret == Returned(exec, old(lastResponse), results)
      decreases inner, 2
    {
      ret := Move(to, exec, r, results);
      Meanwhile(exec, results, inner);
    }

    /** The whole of a row. */
    method Take(to: State, exec: Exec, r: Response, results: Results, inner: seq<Call>) returns (ret: int)
      requires entries == Build(Table())
      modifies this`state, this`running, this`timers, this`timerH, this`timerI, this`timerG, this`timerL,
               this`lastResponse, this`log
      ensures Value() == Inside(old(Value()), to, exec, r, results, inner).Finish(ret)
      ensures ret == Returned(exec, old(lastResponse), results)
      decreases inner, 3
    {
      ret := Enter(to, exec, r, results, inner);
      Finish(ret);
    }

    /** One action through the list. */
    method Act(action: Action, m: Message, results: Results, inner: seq<Call>) returns (ret: int)
      requires entries == Build(Table())
      modifies this`state, this`running, this`timers, this`timerH, this`timerI, this`timerG, this`timerL,
               this`lastResponse, this`log
      ensures Value() == ActAround(old(Value()), action, m, results, inner)
      ensures ret == old(Value()).ActReturns(action, m, results)
      decreases inner, 4
    {
      if state == Terminated {
        return -2;
      }
      var found := Lookup(action, m);
      if found.None? {
        return 0;
      }
      ret := Take(found.value.0, found.value.1, m.response, results, inner);
    }

    method OnUserResponse(m: Message, results: Results, inner: seq<Call>) returns (ret: int)
      requires entries == Build(Table())
      modifies this`state, this`running, this`timers, this`timerH, this`timerI, this`timerG, this`timerL,
               this`lastResponse, this`log
      ensures Value() == match ActionFor(m.response.code)
        case None => old(Value())
        case Some(action) => ActAround(old(Value()), action, m, results, inner)
      ensures ret == match ActionFor(m.response.code)
        case None => -1
        case Some(action) => old(Value()).ActReturns(action, m, results)
      decreases inner, 5
    {
      ret := -1;
      if 100 <= m.response.code <= 199 {
        ret := Act(SendProvisional, m, results, inner);
      } else if 200 <= m.response.code <= 299 {
        ret := Act(SendSuccess, m, results, inner);
      } else if 300 <= m.response.code <= 699 {
        ret := Act(SendFailure, m, results, inner);
      }
    }

    /** Only the latest schedule of each timer counts. */
    method OnTimer(id: nat, results: Results, inner: seq<Call>) returns (ret: int)
      requires entries == Build(Table())
      modifies this`state, this`running, this`timers, this`timerH, this`timerI, this`timerG, this`timerL,
               this`lastResponse, this`log
      ensures Value() == match old(Value()).TimerActionFor(id)
        case None => old(Value())
        case Some(action) => ActAround(old(Value()), action, NO_MESSAGE, results, inner)
      ensures ret == match old(Value()).TimerActionFor(id)
        case None => -1
        case Some(action) => old(Value()).ActReturns(action, NO_MESSAGE, results)
      decreases inner, 5
    {
      ret := -1;
      if id == timerH.id {
        ret := Act(TimerH, NO_MESSAGE, results, inner);
      } else if id == timerI.id {
        ret := Act(TimerI, NO_MESSAGE, results, inner);
      } else if id == timerG.id {
        ret := Act(TimerG, NO_MESSAGE, results, inner);
      } else if id == timerL.id {
        ret := Act(TimerL, NO_MESSAGE, results, inner);
      }
    }

    /** The manager moves on; its thread takes up a callback. */
    method OnMove(move: Background, results: Results, inner: seq<Call>) returns (ret: int)
      requires entries == Build(Table())
      modifies this`state, this`running, this`timers, this`timerH, this`timerI, this`timerG, this`timerL,
               this`lastResponse, this`log
      ensures Value() == Perform(old(Value()), Call(Input(Manages(move), results), inner))
      ensures ret == Returns(old(Value()), Input(Manages(move), results))
      decreases inner, 6
    {
      ret := 0;
      ghost var s := Value();
      var fires := move.Dequeued? && move.id in timers.queued;
      timers := Apply(timers, move);
      StepIsAct(s, Input(Manages(move), results));
      if fires {
        ret := OnTimer(move.id, results, inner);
      }
    }

    /** The first request is taken from the dialogs, all others from the transport. */
    method OnInvite(results: Results, inner: seq<Call>) returns (ret: int)
      requires entries == Build(Table())
      modifies this`state, this`running, this`timers, this`timerH, this`timerI, this`timerG, this`timerL,
               this`lastResponse, this`log
      ensures Value() == ActAround(old(Value()).(running := true), RecvInvite, NO_MESSAGE, results, inner)
      ensures ret == old(Value()).ActReturns(RecvInvite, NO_MESSAGE, results)
      decreases inner, 5
    {
      running := true;
      ret := Act(RecvInvite, NO_MESSAGE, results, inner);
    }

    method Do(call: Call) returns (ret: int)
      requires entries == Build(Table())
      modifies this`state, this`running, this`timers, this`timerH, this`timerI, this`timerG, this`timerL,
               this`lastResponse, this`log
      ensures Value() == Perform(old(Value()), call)
      ensures ret == Returns(old(Value()), call.input)
      decreases call
    {
      match call.input.event
      case ReceivesInvite =>
        ret := OnInvite(call.input.results, call.inner);
      case ReceivesAck =>
        ret := Act(RecvAck, NO_MESSAGE, call.input.results, call.inner);
      case Responds(m) =>
        ret := OnUserResponse(m, call.input.results, call.inner);
      case TransportFails =>
        ret := Act(TransportError, NO_MESSAGE, call.input.results, call.inner);
      case ErrorOccurs =>
        ret := Act(Error, NO_MESSAGE, call.input.results, call.inner);
      case DialogCancels =>
        ret := Act(Cancel, NO_MESSAGE, call.input.results, call.inner);
      case Manages(move) =>
        ret := OnMove(move, call.input.results, call.inner);
    }

    method DoAll(calls: seq<Call>)
      requires entries == Build(Table())
      modifies this`state, this`running, this`timers, this`timerH, this`timerI, this`timerG, this`timerL,
               this`lastResponse, this`log
      ensures Value() == PerformAll(old(Value()), calls)
      decreases calls, 0
    {
      if calls != [] {
        var _ := Do(calls[0]);
        DoAll(calls[1..]);
      }
    }

    // ----- what happens to a transaction ----------------------------------

    /** A call, for the history. */
    method Happen(call: Call) returns (ret: int)
      requires Valid()
      modifies this
      ensures Valid() && history == old(history) + [call]
      ensures Value() == Perform(old(Value()), call)
      ensures old(log) <= log
      ensures ret == Returns(old(Value()), call.input)
    {
      ghost var s, h := Value(), history;
      history := h + [call];
      ret := Do(call);
      Continues(setup, h, s, call, Value());
    }

    /** The first request is handed over; this happens once. */
    method Start(results: Results, inner: seq<Call>) returns (ret: int)
      requires Valid()
      modifies this
      ensures Valid() && running
      ensures old(running) ==> Value() == old(Value()) && history == old(history)
      ensures !old(running) ==>
        && history == old(history) + [Call(Input(ReceivesInvite, results), inner)]
        && KeepsWord(setup, Value()) && old(log) <= log
        && old(log) + Answering(old(Value()), results).outputs <= log
        && (inner == [] ==> Reacts(old(Value()), Answering(old(Value()), results), Value()))
      ensures ret == if old(running) then -1 else RequestReturns(old(Value()), results)
    {
      ret := -1;
      if !running {
        var call := Call(Input(ReceivesInvite, results), inner);
        NestsAreLive(setup, history, Value());
        CallIsServed(setup, history, Value(), call);
        StaysRunning(Value(), call);
        RequestIsReturned(Value(), results);
        ret := Happen(call);
        NestsKeepWord(setup, history, Value());
      }
    }

    /** A request arrives: the first one again, or an ACK. */
    method Receive(isAck: bool, results: Results, inner: seq<Call>) returns (ret: int)
      requires Valid() && running
      modifies this
      ensures Valid() && running
      ensures history == old(history) + [Call(Input(if isAck then ReceivesAck else ReceivesInvite, results), inner)]
      ensures KeepsWord(setup, Value()) && old(log) <= log
      ensures ret == if isAck then AckReturns(old(Value()), results) else RequestReturns(old(Value()), results)
      ensures ret != 0 ==> state == Terminated
      ensures old(log) + Taking(old(Value()), isAck, results).outputs <= log
      ensures inner == [] ==> Reacts(old(Value()), Taking(old(Value()), isAck, results), Value())
    {
      var call := Call(Input(if isAck then ReceivesAck else ReceivesInvite, results), inner);
      CallIsServed(setup, history, Value(), call);
      StaysRunning(Value(), call);
      RequestIsReturned(Value(), results);
      FailingEnds(Value(), call);
      ret := Happen(call);
      NestsKeepWord(setup, history, Value());
    }

    /** The user sends a response. */
    method Respond(m: Message, results: Results, inner: seq<Call>) returns (ret: int)
      requires Valid() && running
      modifies this
      ensures Valid() && running
      ensures history == old(history) + [Call(Input(Responds(m), results), inner)]
      ensures KeepsWord(setup, Value()) && old(log) <= log
      ensures !(100 <= m.response.code <= 699) ==> Value() == old(Value())
      ensures Reacts(old(Value()), Forwarding(old(Value()), m, results), Value())
      ensures ret == ResponseReturns(old(Value()), m, results)
    {
      var call := Call(Input(Responds(m), results), inner);
      ResponseIsServed(setup, history, Value(), m, results, inner);
      ResponseIsReturned(Value(), m, results);
      StaysRunning(Value(), call);
      ret := Happen(call);
      NestsKeepWord(setup, history, Value());
    }

    /** The transport fails, some other error occurs, or the dialog cancels: a transaction that has started ends. */
    method Fail(event: Event, results: Results, inner: seq<Call>) returns (ret: int)
      requires Valid() && IsFailureEvent(event)
      modifies this
      ensures Valid()
      ensures history == old(history) + [Call(Input(event, results), inner)]
      ensures KeepsWord(setup, Value()) && old(log) <= log
      ensures state == Terminated <==> old(state) != Started
      ensures old(state) !in {Started, Terminated} ==> (FailureReported(log) <==> !event.DialogCancels?)
      ensures Reacts(old(Value()), Failing(old(Value()), event), Value())
      ensures ret == FailureReturns(old(state), Input(event, results))
    {
      ghost var s, before := Value(), history;
      var call := Call(Input(event, results), inner);
      ret := Happen(call);
      NestsKeepWord(setup, history, Value());
      FailureEnds(setup, before, s, call, Value());
    }

    /** The manager's thread takes a callback from its queue. */
    method Callback(id: nat, results: Results, inner: seq<Call>) returns (ret: int)
      requires Valid() && id in timers.queued
      modifies this
      ensures Valid()
      ensures history == old(history) + [Call(Input(Manages(Dequeued(id)), results), inner)]
      ensures KeepsWord(setup, Value()) && old(log) <= log
      ensures !IsArmed(timers, id)
      ensures old(HasEndingTimer(state) && id == EndingTimerOf(Value()).id) ==> state == Terminated
      ensures old(log) + Alarming(old(Value()), id, results).outputs <= log
      ensures inner == [] ==> Reacts(old(Value()), Alarming(old(Value()), id, results), Value())
    {
      ghost var s, before := Value(), history;
      var call := Call(Input(Manages(Dequeued(id)), results), inner);
      CallIsServed(setup, history, Value(), call);
      ret := Happen(call);
      NestsKeepWord(setup, history, Value());
      CallbackIsOver(setup, before, s, call, Value());
    }

    /** Time passes, a timer expires, or another transaction schedules one. */
    method Elapse(move: Background, results: Results)
      requires Valid() && !move.Dequeued?
      modifies this
      ensures Valid() && running == old(running)
      ensures history == old(history) + [Call(Input(Manages(move), results), [])]
      ensures KeepsWord(setup, Value()) && log == old(log) && state == old(state)
      ensures timers == Apply(old(timers), move)
    {
      var call := Call(Input(Manages(move), results), []);
      ElapsesBy(Value(), call);
      var _ := Happen(call);
      NestsKeepWord(setup, history, Value());
    }
  }
}
