/**
 The client transaction as the object that the stack creates: fields updated
 in place by the functions of the table rows, which are dispatched through the
 ordered list.

 Every method that may call the user takes the calls that the user makes before
 it returns. A ghost history of all calls ties the object to the nests of
 `InviteClientReentrancy`, and so to runs: every theorem about runs is one about
 the object.
 */
module InviteClientTransaction {
  import opened Wrappers
  import opened Fsm
  import opened Timers
  import opened InviteClient
  import opened InviteClientRuns
  import opened InviteClientTheorems
  import opened InviteClientTermination
  import opened InviteClientReentrancy
  import opened InviteClientDelivery

  lemma ElapsesBy(c: Client, call: Call)
    requires call.input.event.Manages? && !call.input.event.move.Dequeued?
    ensures Perform(c, call) == c.(timers := Apply(c.timers, call.input.event.move))
  {
  }

  lemma {:induction false} PerformAllSnoc(c: Client, calls: seq<Call>, call: Call)
    ensures PerformAll(c, calls + [call]) == Perform(PerformAll(c, calls), call)
    decreases |calls|
  {
    if calls == [] {
      assert [] + [call] == [call] && [call][1..] == [];
    } else {
      assert (calls + [call])[1..] == calls[1..] + [call];
      PerformAllSnoc(Perform(c, calls[0]), calls[1..], call);
    }
  }

  /** A transaction, after any nest of calls, is one after a run; if it has not ended, precisely so. */
  lemma NestsAreLive(launch: Launch, calls: seq<Call>, c: Client)
    requires launch.manager.Valid() && c == PerformAll(launch.Client(), calls)
    ensures c.timers.Valid() && c.running && c.state != Started
    ensures c.state != Terminated ==> exists flat :: c == launch.After(flat)
  {
    var flat, n := NestsAreRuns(launch, calls, c);
    AfterIsGood(launch, flat, launch.After(flat));
    AgainAgain(launch.After(flat), 0, 0);
  }

  /** One more call. */
  lemma Continues(launch: Launch, calls: seq<Call>, c: Client, call: Call, d: Client)
    requires launch.manager.Valid() && c == PerformAll(launch.Client(), calls) && d == Perform(c, call)
    ensures d == PerformAll(launch.Client(), calls + [call]) && KeepsWord(launch, d)
    ensures c.log <= d.log && d.timers.Valid() && d.running && d.reliable == c.reliable
  {
    PerformAllSnoc(launch.Client(), calls, call);
    NestsKeepWord(launch, calls + [call], d);
    NestsAreLive(launch, calls, c);
    NestsAreLive(launch, calls + [call], d);
    var flat, n := PerformFlattens(c, call);
    RunGrows(c, flat);
  }

  /** What the user does while being told of the end puts nothing out. */
  lemma EndAround(c: Client, action: Action, results: Results, inner: seq<Call>)
    requires c.running && c.state != Started && action in {TransportError, Error, Cancel}
    ensures var d, e := ActAround(c, action, NO_RESPONSE, results, inner), c.Act(action, NO_RESPONSE, results);
      d.state == e.state == Terminated && d.log == e.log
  {
    ErrorsEndOnceStarted(c, action, results);
    if c.state != Terminated {
      var (to, exec) := Transition(c.state, action).value;
      var d := c.(state := to).Effect(exec, NO_RESPONSE, results);
      EffectKeeps(c.(state := to), exec, NO_RESPONSE, results);
      var flat, n := PerformAllFlattens(d, inner);
      RunAfterRemoval(d, 0, flat);
      AgainAgain(Run(d, flat), 0, 0);
    }
  }

  function FailureReturns(state: State, input: Input): int {
    if state == Terminated then -2 else if input.event.DialogCancels? then 0 else input.results.user
  }

  lemma ErrorReturns(c: Client, input: Input)
    requires c.state != Started && IsFailureEvent(input.event)
    ensures Returns(c, input) == FailureReturns(c.state, input)
  {
  }

  lemma FailureEnds(launch: Launch, calls: seq<Call>, c: Client, call: Call, d: Client)
    requires launch.manager.Valid() && c == PerformAll(launch.Client(), calls) && d == Perform(c, call)
    requires IsFailureEvent(call.input.event)
    ensures d.state == Terminated && d.log == c.log + Announcement(c, call.input.event)
    ensures Returns(c, call.input) == FailureReturns(c.state, call.input)
    ensures c.state != Terminated ==>
      (OutcomeTold(d.log) <==> !(call.input.event.DialogCancels? && c.state in {Calling, Proceeding}))
  {
    NestsAreLive(launch, calls, c);
    EndAround(c, ActionOf(c, call.input.event).value.1, call.input.results, call.inner);
    ErrorReturns(c, call.input);
    if c.state != Terminated {
      ErrorIsReported(c, call.input.event, call.input.results);
    }
    if c.state != Terminated {
      var flat :| c == launch.After(flat);
      OutcomeIsTold(launch, flat, c, call.input);
    }
  }

  lemma RetimeKeepsUnarmed(c: Client, exec: Exec, id: nat)
    requires c.timers.Valid() && id in c.timers.deadlines && !IsArmed(c.timers, id)
    ensures !IsArmed(c.Retime(exec).timers, id)
  {
  }

  lemma ActKeepsUnarmed(c: Client, action: Action, r: Response, results: Results, id: nat)
    requires c.timers.Valid() && id in c.timers.deadlines && !IsArmed(c.timers, id)
    ensures !IsArmed(c.Act(action, r, results).timers, id)
  {
    if c.state != Terminated && Transition(c.state, action).Some? {
      var (to, exec) := Transition(c.state, action).value;
      RetimeKeepsUnarmed(c.(state := to), exec, id);
      assert c.Act(action, r, results).timers == c.(state := to).Retime(exec).timers;
    }
  }

  /** What is over stays over. */
  lemma StepKeepsUnarmed(c: Client, input: Input, id: nat)
    requires c.timers.Valid() && id in c.timers.deadlines
    requires !IsArmed(c.timers, id) || (id in c.timers.queued && input.event == Manages(Dequeued(id)))
    ensures !IsArmed(Step(c, input).timers, id)
  {
    StepIsAct(c, input);
    if ActionOf(c, input.event).Some? {
      var (d, action, r) := ActionOf(c, input.event).value;
      ActKeepsUnarmed(d, action, r, input.results, id);
    }
  }

  lemma {:induction false} RunKeepsUnarmed(c: Client, inputs: seq<Input>, id: nat, t0: nat, a: nat, expiry: nat)
    requires Good(c, t0, a, expiry) && id in c.timers.deadlines && !IsArmed(c.timers, id)
    ensures !IsArmed(Run(c, inputs).timers, id)
  {
    if inputs != [] {
      var front := inputs[..|inputs| - 1];
      RunKeepsUnarmed(c, front, id, t0, a, expiry);
      RunKeepsGood(c, front, t0, a, expiry);
      RunIsLater(c, front, t0, a, expiry);
      StepKeepsUnarmed(Run(c, front), inputs[|inputs| - 1], id);
    }
  }

  /** The callback puts out what its timer stands for. */
  predicate Rings(c: Client, call: Call, d: Client)
    requires call.input.event.Manages? && call.input.event.move.Dequeued?
  {
    && c.log + Alarm(c, call.input.event.move.id) <= d.log
    && (call.inner == [] ==> d.log == c.log + Alarm(c, call.input.event.move.id))
  }

  lemma GoodRings(c: Client, call: Call, d: Client, t0: nat, a: nat, expiry: nat)
    requires Good(c, t0, a, expiry) && d == Perform(c, call)
    requires call.input.event.Manages? && call.input.event.move.Dequeued?
    requires call.input.event.move.id in c.timers.queued
    ensures Rings(c, call, d)
  {
    var first, more, n := CallFlattens(c, call);
    TimerIsServed(c, call.input.event.move.id, first);
    RunGrows(Step(c, Input(call.input.event, first)), more);
    if call.inner == [] {
      PerformWithoutInner(c, call.input);
      TimerIsServed(c, call.input.event.move.id, call.input.results);
      assert call == Call(call.input, []);
    }
  }

  lemma GoodCallback(c: Client, call: Call, d: Client, t0: nat, a: nat, expiry: nat)
    requires Good(c, t0, a, expiry) && d == Perform(c, call)
    requires call.input.event.Manages? && call.input.event.move.Dequeued?
    requires call.input.event.move.id in c.timers.queued
    ensures !IsArmed(d.timers, call.input.event.move.id)
    ensures HasEndingTimer(c.state) && call.input.event.move.id == EndingTimerOf(c) ==> d.state == Terminated
    ensures Rings(c, call, d)
    ensures c.state == Calling && call.input.event.move.id == c.timerB.id ==> c.timers.now >= expiry
  {
    var id := call.input.event.move.id;
    GoodRings(c, call, d, t0, a, expiry);
    var first, more, n := CallFlattens(c, call);
    var input := Input(call.input.event, first);
    var x := Step(c, input);
    StepKeepsUnarmed(c, input, id);
    StepKeepsGood(c, input, t0, a, expiry);
    StepIsLater(c, input);
    RunKeepsUnarmed(x, more, id, t0, a, expiry);
    if HasEndingTimer(c.state) && id == EndingTimerOf(c) {
      EndingCallback(c, first);
      assert Input(Manages(Dequeued(EndingTimerOf(c))), first) == input;
      RunAfterRemoval(x, 0, more);
    }
  }

  lemma RemovedCallback(c: Client, call: Call, d: Client)
    requires c.timers.Valid() && c.state == Terminated && d == Perform(c, call)
    requires call.input.event.Manages? && call.input.event.move.Dequeued?
    requires call.input.event.move.id in c.timers.queued
    ensures !IsArmed(d.timers, call.input.event.move.id) && Rings(c, call, d)
  {
    assert d == c.(timers := c.timers.Dequeue(call.input.event.move.id));
  }

  lemma CallbackIsOver(launch: Launch, calls: seq<Call>, c: Client, call: Call, d: Client)
    requires launch.manager.Valid() && c == PerformAll(launch.Client(), calls) && d == Perform(c, call)
    requires call.input.event.Manages? && call.input.event.move.Dequeued?
    requires call.input.event.move.id in c.timers.queued
    ensures !IsArmed(d.timers, call.input.event.move.id)
    ensures HasEndingTimer(c.state) && call.input.event.move.id == EndingTimerOf(c) ==> d.state == Terminated
    ensures Rings(c, call, d)
    ensures c.state == Calling && call.input.event.move.id == c.timerB.id ==>
      c.timers.now >= launch.manager.now + launch.intervals.b
  {
    NestsAreLive(launch, calls, c);
    if c.state != Terminated {
      var flat :| c == launch.After(flat);
      AfterIsGood(launch, flat, c);
      GoodCallback(c, call, d, launch.manager.now, launch.intervals.a, launch.manager.now + launch.intervals.b);
    } else {
      RemovedCallback(c, call, d);
    }
  }

  /** What the receipt of a response leaves behind, if the user does nothing meanwhile. */
  ghost predicate Serves(c: Client, r: Response, results: Results, d: Client) {
    var breaks := Breaks(c.state, r.code, results);
    && d.log == c.log + Delivery(c.state, r, results) + (if breaks then [Remove] else [])
    && d.state == (if breaks then Terminated else StateAfter(c.state, r.code))
    && (d.state != c.state && d.state in {Completed, Accepted} ==>
          IsDueBy(d.timers, EndingTimerOf(d), c.timers.now + WaitFor(d))
          && d.timers.deadlines[EndingTimerOf(d)] == c.timers.now + WaitFor(d))
  }

  lemma GoodServes(c: Client, r: Response, results: Results, t0: nat, a: nat, expiry: nat)
    requires Good(c, t0, a, expiry)
    ensures Serves(c, r, results, c.Receive(r, results))
  {
    var input := Input(Receives(r), results);
    ResponseIsDelivered(c, r, results);
    StepKeepsGood(c, input, t0, a, expiry);
    if Step(c, input).state != c.state && Step(c, input).state in {Completed, Accepted} {
      EntersOnTime(c, input, Step(c, input));
    }
  }

  lemma ReceiveServes(launch: Launch, calls: seq<Call>, c: Client, r: Response, results: Results, inner: seq<Call>)
    requires launch.manager.Valid() && c == PerformAll(launch.Client(), calls)
    ensures var d := Perform(c, Call(Input(Receives(r), results), inner));
      && c.log + Delivery(c.state, r, results) <= d.log
      && (inner == [] ==> Serves(c, r, results, d))
      && Returns(c, Input(Receives(r), results)) == Answer(c.state, r.code, results)
      && (Answer(c.state, r.code, results) != 0 ==> d.state == Terminated)
  {
    NestsAreLive(launch, calls, c);
    CallDelivers(c, r, results, inner);
    ResponseReturns(c, r, results);
    FailingEnds(c, Call(Input(Receives(r), results), inner));
    if inner == [] {
      PerformWithoutInner(c, Input(Receives(r), results));
      if c.state != Terminated {
        var flat :| c == launch.After(flat);
        AfterIsGood(launch, flat, c);
        GoodServes(c, r, results, launch.manager.now, launch.intervals.a, launch.manager.now + launch.intervals.b);
      } else {
        ResponseIsDelivered(c, r, results);
      }
    }
  }

  class Transaction {
    const entries: seq<Row>
    const reliable: bool
    var state: State
    var running: bool
    var timerA: Timer
    var timerB: Timer
    var timerD: Timer
    var timerM: Timer
    /** The timer manager, which the transaction shares with all others. */
    var timers: Manager
    var log: seq<Output>

    ghost const intervals: Intervals
    ghost var launch: Launch
    ghost var history: seq<Call>

    ghost function Value(): Client
      reads this`state, this`running, this`timerA, this`timerB, this`timerD, this`timerM, this`timers, this`log
    {
      Client(state, reliable, running, timerA, timerB, timerD, timerM, timers, log)
    }

    /** The object is new, or it is where its launch and its history lead. */
    ghost predicate Valid()
      reads this
    {
      && entries == Build(Table())
      && timers.Valid()
      && (!running ==> Value() == Fresh(reliable, intervals, timers))
      && (running ==>
            && launch.reliable == reliable && launch.intervals == intervals && launch.manager.Valid()
            && Value() == PerformAll(launch.Client(), history))
    }

    constructor (reliable: bool, intervals: Intervals, manager: Manager)
      requires manager.Valid()
      ensures Valid() && !running
      ensures Value() == Fresh(reliable, intervals, manager) && this.intervals == intervals
    {
      var rows := Set(Table());
      this.entries := rows;
      this.reliable := reliable;
      this.intervals := intervals;
      state := Started;
      running := false;
      timerA := Timer(INVALID_ID, intervals.a);
      timerB := Timer(INVALID_ID, intervals.b);
      timerD := Timer(INVALID_ID, if reliable then 0 else intervals.d);
      timerM := Timer(INVALID_ID, intervals.m);
      timers := manager;
      log := [];
    }

    // ----- the functions of the rows --------------------------------------

    method Schedule(timeout: nat) returns (t: Timer)
      modifies this`timers
      ensures t == Timer(old(timers).nextId, timeout) && timers == old(timers).Schedule(timeout)
    {
      t := Timer(timers.nextId, timeout);
      timers := timers.Schedule(timeout);
    }

    method CancelAB()
      modifies this`timers
      ensures Value() == old(Value()).CancelAB()
    {
      if !reliable {
        timers := timers.Cancel(timerA.id);
      }
      timers := timers.Cancel(timerB.id);
    }

    method Complete(r: Response, results: Results) returns (ret: int)
      modifies this`timers, this`timerD, this`log
      ensures Value() == old(Value()).Effect(Calling2Completed, r, results)
      ensures ret == Returned(Calling2Completed, results)
    {
      CancelAB();
      timerD := Schedule(timerD.timeout);
      log := log + [SendAck(r)];
      ret := results.ack;
      if ret != 0 {
        return;
      }
      log := log + [PassUp(r)];
      ret := results.user;
    }

    method Accept(r: Response, results: Results) returns (ret: int)
      modifies this`timers, this`timerA, this`timerB, this`timerM, this`log
      ensures Value() == old(Value()).Effect(Calling2Accepted, r, results)
      ensures ret == Returned(Calling2Accepted, results)
    {
      timerM := Schedule(timerM.timeout);
      if !reliable {
        timerA := Schedule(timerA.timeout);
      }
      timerB := Schedule(timerB.timeout);
      log := log + [PassUp(r)];
      ret := results.user;
    }

    method Execute(exec: Exec, r: Response, results: Results) returns (ret: int)
      modifies this`timers, this`timerA, this`timerB, this`timerD, this`timerM, this`log
      ensures Value() == old(Value()).Effect(exec, r, results)
      ensures ret == Returned(exec, results)
    {
      ret := 0;
      match exec
      case Started2Calling =>
        log := log + [SendInvite];
        if !reliable {
          timerA := Schedule(timerA.timeout);
        }
        timerB := Schedule(timerB.timeout);
      case Calling2CallingTimerA =>
        log := log + [SendInvite];
        timerA := Timer(timerA.id, 2 * timerA.timeout);
        timerA := Schedule(timerA.timeout);
      case Calling2TerminatedTimerB =>
        log := log + [ReportTimeout];
      case Calling2Completed =>
        ret := Complete(r, results);
      case Calling2Proceeding =>
        CancelAB();
        log := log + [PassUp(r)];
      case Calling2Accepted =>
        ret := Accept(r, results);
      case Proceeding2Proceeding =>
        log := log + [PassUp(r)];
        ret := results.user;
      case Proceeding2Completed =>
        ret := Complete(r, results);
      case Proceeding2Accepted =>
        ret := Accept(r, results);
      case Completed2Completed =>
        log := log + [SendAck(r)];
        ret := results.ack;
      case Accepted2Accepted =>
        log := log + [PassUp(r)];
      case Any2TerminatedTransportError =>
        log := log + [ReportTransportError];
        ret := results.user;
      case Any2TerminatedError =>
        log := log + [ReportError];
        ret := results.user;
      case _ =>
    }

    // ----- dispatch -------------------------------------------------------

    /** The first row of the list that applies: its state and its function. */
    method Lookup(action: Action, r: Response) returns (found: Option<(State, Exec)>)
      requires entries == Build(Table()) && state != Terminated
      ensures found == Transition(state, action)
    {
      DispatchIsTransition(state, action, r);
      var row := Find(entries, state, action, r);
      if row.None? {
        found := None;
      } else {
        found := Some((if row.value.to.None? then state else row.value.to.value, row.value.exec));
      }
    }

    /** Failing or reaching the final state is the end. */
    method Finish(ret: int)
      modifies this`state, this`log
      ensures Value() == old(Value()).Finish(ret)
    {
      if ret != 0 || state == Terminated {
        state := Terminated;
        log := log + [Remove];
      }
    }

    method Move(to: State, exec: Exec, r: Response, results: Results) returns (ret: int)
      modifies this`state, this`timers, this`timerA, this`timerB, this`timerD, this`timerM, this`log
      ensures Value() == old(Value()).(state := to).Effect(exec, r, results)
      ensures ret == Returned(exec, results)
    {
      state := to;
      ret := Execute(exec, r, results);
    }

    /** What the user does before the row function returns. */
    method Meanwhile(exec: Exec, results: Results, inner: seq<Call>)
      requires entries == Build(Table())
      modifies this`state, this`running, this`timers, this`timerA, this`timerB, this`timerD, this`timerM, this`log
      ensures Value() == if CallsUser(exec, results) then PerformAll(old(Value()), inner) else old(Value())
      decreases inner, 1
    {
      if CallsUser(exec, results) {
        DoAll(inner);
      }
    }

    /** The row's state is entered and its function executed, with what its user does meanwhile. */
    method Enter(to: State, exec: Exec, r: Response, results: Results, inner: seq<Call>) returns (ret: int)
      requires entries == Build(Table())
      modifies this`state, this`running, this`timers, this`timerA, this`timerB, this`timerD, this`timerM, this`log
      ensures Value() == Inside(old(Value()), to, exec, r, results, inner)
      ensures ret == Returned(exec, results)
      decreases inner, 2
    {
      ret := Move(to, exec, r, results);
      Meanwhile(exec, results, inner);
    }

    /** The whole of a row. */
    method Take(to: State, exec: Exec, r: Response, results: Results, inner: seq<Call>) returns (ret: int)
      requires entries == Build(Table())
      modifies this`state, this`running, this`timers, this`timerA, this`timerB, this`timerD, this`timerM, this`log
      ensures Value() == Inside(old(Value()), to, exec, r, results, inner).Finish(Returned(exec, results))
      ensures ret == Returned(exec, results)
      decreases inner, 3
    {
      ret := Enter(to, exec, r, results, inner);
      Finish(ret);
    }

    /** One action through the list. */
    method Act(action: Action, r: Response, results: Results, inner: seq<Call>) returns (ret: int)
      requires entries == Build(Table())
      modifies this`state, this`running, this`timers, this`timerA, this`timerB, this`timerD, this`timerM, this`log
      ensures Value() == ActAround(old(Value()), action, r, results, inner)
      ensures ret == old(Value()).ActReturns(action, results)
      decreases inner, 4
    {
      if state == Terminated {
        return -2;
      }
      var found := Lookup(action, r);
      if found.None? {
        return 0;
      }
      ret := Take(found.value.0, found.value.1, r, results, inner);
    }

    method OnResponse(r: Response, results: Results, inner: seq<Call>) returns (ret: int)
      requires entries == Build(Table())
      modifies this`state, this`running, this`timers, this`timerA, this`timerB, this`timerD, this`timerM, this`log
      ensures Value() == match ActionFor(r.code)
        case None => old(Value())
        case Some(action) => ActAround(old(Value()), action, r, results, inner)
      ensures ret == match ActionFor(r.code)
        case None => 0
        case Some(action) => old(Value()).ActReturns(action, results)
      decreases inner, 5
    {
      ret := 0;
      if 100 <= r.code <= 199 {
        ret := Act(Provisional, r, results, inner);
      } else if 200 <= r.code <= 299 {
        ret := Act(Success, r, results, inner);
      } else if 300 <= r.code <= 699 {
        ret := Act(Failure, r, results, inner);
      }
    }

    /** Only the latest schedule of each timer counts. */
    method OnTimer(id: nat, results: Results, inner: seq<Call>) returns (ret: int)
      requires entries == Build(Table())
      modifies this`state, this`running, this`timers, this`timerA, this`timerB, this`timerD, this`timerM, this`log
      ensures Value() == match old(Value()).TimerActionFor(id)
        case None => old(Value())
        case Some(action) => ActAround(old(Value()), action, NO_RESPONSE, results, inner)
      ensures ret == match old(Value()).TimerActionFor(id)
        case None => -1
        case Some(action) => old(Value()).ActReturns(action, results)
      decreases inner, 5
    {
      ret := -1;
      if id == timerA.id {
        ret := Act(TimerA, NO_RESPONSE, results, inner);
      } else if id == timerB.id {
        ret := Act(TimerB, NO_RESPONSE, results, inner);
      } else if id == timerD.id {
        ret := Act(TimerD, NO_RESPONSE, results, inner);
      } else if id == timerM.id {
        ret := Act(TimerM, NO_RESPONSE, results, inner);
      }
    }

    /** The request is taken once. */
    method OnStart(results: Results, inner: seq<Call>) returns (ret: int)
      requires entries == Build(Table())
      modifies this`state, this`running, this`timers, this`timerA, this`timerB, this`timerD, this`timerM, this`log
      ensures Value() == if old(running) then old(Value())
        else ActAround(old(Value()).(running := true), Send, NO_RESPONSE, results, inner)
      ensures ret == if old(running) then -1 else old(Value()).(running := true).ActReturns(Send, results)
      decreases inner, 5
    {
      ret := -1;
      if !running {
        running := true;
        ret := Act(Send, NO_RESPONSE, results, inner);
      }
    }

    /** The manager moves on; its thread takes up a callback. */
    method OnMove(move: Background, results: Results, inner: seq<Call>) returns (ret: int)
      requires entries == Build(Table())
      modifies this`state, this`running, this`timers, this`timerA, this`timerB, this`timerD, this`timerM, this`log
      ensures Value() == Perform(old(Value()), Call(Input(Manages(move), results), inner))
      ensures ret == Returns(old(Value()), Input(Manages(move), results))
      decreases inner, 6
    {
      ret := 0;
      ghost var c := Value();
      var fires := move.Dequeued? && move.id in timers.queued;
      timers := Apply(timers, move);
      StepIsAct(c, Input(Manages(move), results));
      if fires {
        ret := OnTimer(move.id, results, inner);
      }
    }

    method Do(call: Call) returns (ret: int)
      requires entries == Build(Table())
      modifies this`state, this`running, this`timers, this`timerA, this`timerB, this`timerD, this`timerM, this`log
      ensures Value() == Perform(old(Value()), call)
      ensures ret == Returns(old(Value()), call.input)
      decreases call
    {
      match call.input.event
      case Receives(r) =>
        ret := OnResponse(r, call.input.results, call.inner);
      case TransportFails =>
        ret := Act(TransportError, NO_RESPONSE, call.input.results, call.inner);
      case ErrorOccurs =>
        ret := Act(Error, NO_RESPONSE, call.input.results, call.inner);
      case DialogCancels =>
        ret := Act(Cancel, NO_RESPONSE, call.input.results, call.inner);
      case StartsAgain =>
        ret := OnStart(call.input.results, call.inner);
      case Manages(move) =>
        ret := OnMove(move, call.input.results, call.inner);
    }

    method DoAll(calls: seq<Call>)
      requires entries == Build(Table())
      modifies this`state, this`running, this`timers, this`timerA, this`timerB, this`timerD, this`timerM, this`log
      ensures Value() == PerformAll(old(Value()), calls)
      decreases calls, 0
    {
      if calls != [] {
        var _ := Do(calls[0]);
        DoAll(calls[1..]);
      }
    }

    // ----- what happens to a transaction ----------------------------------

    /** A call, for the history. */
    method Happen(call: Call) returns (ret: int)
      requires Valid() && running
      modifies this
      ensures Valid() && running && launch == old(launch) && history == old(history) + [call]
      ensures Value() == Perform(old(Value()), call)
      ensures old(log) <= log
      ensures ret == Returns(old(Value()), call.input)
    {
      ghost var c, h := Value(), history;
      history := h + [call];
      ret := Do(call);
      Continues(launch, h, c, call, Value());
    }

    /** The request is handed over; this happens once. */
    method Start(results: Results) returns (ret: int)
      requires Valid()
      modifies this
      ensures Valid() && running && KeepsWord(launch, Value())
      ensures old(running) ==> Value() == old(Value()) && launch == old(launch) && history == old(history)
      ensures !old(running) ==>
        launch == Launch(reliable, intervals, old(timers), results) && log == [SendInvite]
      ensures !old(running) ==>
        && state == Calling
        && timerB.id in timers.deadlines && timers.deadlines[timerB.id] == old(timers.now) + intervals.b
      ensures ret == if old(running) then -1 else 0
    {
      ret := -1;
      if !running {
        running := true;
        launch := Launch(reliable, intervals, timers, results);
        history := [];
        ret := Act(Send, NO_RESPONSE, results, []);
        LaunchedClient(reliable, intervals, launch.manager, results);
      }
      NestsKeepWord(launch, history, Value());
    }

    /** A response arrives from the transport. */
    method Receive(r: Response, results: Results, inner: seq<Call>) returns (ret: int)
      requires Valid() && running
      modifies this
      ensures Valid() && running && launch == old(launch)
      ensures history == old(history) + [Call(Input(Receives(r), results), inner)]
      ensures KeepsWord(launch, Value()) && old(log) <= log
      ensures ret == Answer(old(state), r.code, results) && (ret != 0 ==> state == Terminated)
      ensures old(log) + Delivery(old(state), r, results) <= log
      ensures inner == [] ==> Serves(old(Value()), r, results, Value())
    {
      ReceiveServes(launch, history, Value(), r, results, inner);
      ret := Happen(Call(Input(Receives(r), results), inner));
      NestsKeepWord(launch, history, Value());
    }

    /** The transport fails, some other error occurs, or the dialog cancels: the transaction ends. */
    method Fail(event: Event, results: Results, inner: seq<Call>) returns (ret: int)
      requires Valid() && running && IsFailureEvent(event)
      modifies this
      ensures Valid() && running && launch == old(launch)
      ensures history == old(history) + [Call(Input(event, results), inner)]
      ensures KeepsWord(launch, Value()) && old(log) <= log
      ensures state == Terminated
      ensures old(state) != Terminated ==>
        (OutcomeTold(log) <==> !(event.DialogCancels? && old(state) in {Calling, Proceeding}))
      ensures log == old(log) + Announcement(old(Value()), event)
      ensures ret == FailureReturns(old(state), Input(event, results))
    {
      ghost var c, before := Value(), history;
      var call := Call(Input(event, results), inner);
      ret := Happen(call);
      NestsKeepWord(launch, history, Value());
      FailureEnds(launch, before, c, call, Value());
    }

    /** The manager's thread takes a callback from its queue. */
    method Callback(id: nat, results: Results, inner: seq<Call>) returns (ret: int)
      requires Valid() && running && id in timers.queued
      modifies this
      ensures Valid() && running && launch == old(launch)
      ensures history == old(history) + [Call(Input(Manages(Dequeued(id)), results), inner)]
      ensures KeepsWord(launch, Value()) && old(log) <= log
      ensures !IsArmed(timers, id)
      ensures old(HasEndingTimer(state) && id == EndingTimerOf(Value())) ==> state == Terminated
      ensures old(log) + Alarm(old(Value()), id) <= log
      ensures inner == [] ==> log == old(log) + Alarm(old(Value()), id)
      ensures old(state) == Calling && id == old(timerB.id) ==> old(timers.now) >= launch.manager.now + intervals.b
    {
      ghost var c, before := Value(), history;
      var call := Call(Input(Manages(Dequeued(id)), results), inner);
      ret := Happen(call);
      NestsKeepWord(launch, history, Value());
      CallbackIsOver(launch, before, c, call, Value());
    }

    /** Time passes, a timer expires, or another transaction schedules one. */
    method Elapse(move: Background, results: Results)
      requires Valid() && running && !move.Dequeued?
      modifies this
      ensures Valid() && running && launch == old(launch)
      ensures history == old(history) + [Call(Input(Manages(move), results), [])]
      ensures KeepsWord(launch, Value()) && log == old(log) && state == old(state)
      ensures timers == Apply(old(timers), move)
    {
      var call := Call(Input(Manages(move), results), []);
      ElapsesBy(Value(), call);
      var _ := Happen(call);
      NestsKeepWord(launch, history, Value());
    }
  }
}
