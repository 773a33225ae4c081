/**
 Callbacks that call back. The dialog that a row function calls may act on the
 same transaction before it returns, as it does when a rejected call ends it:
 the lock is recursive, so the inner action runs inside the outer one. Every
 such nest of calls comes to the same as some sequence of calls, except that
 the removal may be asked for more than once.
 */
module InviteClientReentrancy {
  import opened Wrappers
  import opened Timers
  import opened InviteClient
  import opened InviteClientRuns
  import opened InviteClientTheorems
  import opened InviteClientTermination

  /** An input, and what happens to the transaction while its user is called back. */
  datatype Call = Call(input: Input, inner: seq<Call>)

  predicate IsUserCall(o: Output) {
    o.PassUp? || o.ReportTimeout? || o.ReportTransportError? || o.ReportError?
  }

  /** The row function calls the user, which is always the last thing that it does. */
  predicate CallsUser(exec: Exec, results: Results) {
    var outputs := Outputs(exec, NO_RESPONSE, results);
    outputs != [] && IsUserCall(outputs[|outputs| - 1])
  }

  /** The action that an event comes to, the response, and the transaction as the event finds it. */
  function ActionOf(c: Client, e: Event): Option<(Client, Action, Response)> {
    match e
    case Receives(r) => (match ActionFor(r.code) case None => None case Some(action) => Some((c, action, r)))
    case TransportFails => Some((c, TransportError, NO_RESPONSE))
    case ErrorOccurs => Some((c, Error, NO_RESPONSE))
    case DialogCancels => Some((c, Cancel, NO_RESPONSE))
    case StartsAgain => if c.running then None else Some((c.(running := true), Send, NO_RESPONSE))
    case Manages(move) =>
      var d := c.(timers := Apply(c.timers, move));
      if move.Dequeued? && move.id in c.timers.queued && d.TimerActionFor(move.id).Some?
      then Some((d, d.TimerActionFor(move.id).value, NO_RESPONSE))
      else None
  }

  /** `InviteClient.Act` with the inner calls in their place. */
  function ActAround(c: Client, action: Action, r: Response, results: Results, inner: seq<Call>): Client
    decreases inner, 2
  {
    if c.state == Terminated || Transition(c.state, action).None? then c
    else
      var (to, exec) := Transition(c.state, action).value;
      Inside(c, to, exec, r, results, inner).Finish(Returned(exec, results))
  }

  /** The transaction as the row function is about to return. */
  function Inside(c: Client, to: State, exec: Exec, r: Response, results: Results, inner: seq<Call>): Client
    decreases inner, 1
  {
    var d := c.(state := to).Effect(exec, r, results);
    if CallsUser(exec, results) then PerformAll(d, inner) else d
  }

  /** `InviteClientRuns.Step` with the inner calls in their place. */
  function Perform(c: Client, call: Call): Client
    decreases call
  {
    match ActionOf(c, call.input.event)
    case None => Step(c, call.input)
    case Some((d, action, r)) => ActAround(d, action, r, call.input.results, call.inner)
  }

  /** What the caller is returned. */
  function Returns(c: Client, input: Input): int {
    match ActionOf(c, input.event)
    case Some((d, action, _)) => d.ActReturns(action, input.results)
    case None =>
      var e := input.event;
      if e.Receives? || (e.Manages? && !(e.move.Dequeued? && e.move.id in c.timers.queued)) then 0 else -1
  }

  function PerformAll(c: Client, calls: seq<Call>): Client
    decreases calls, 0
  {
    if calls == [] then c else PerformAll(Perform(c, calls[0]), calls[1..])
  }

  // ----- without inner calls ----------------------------------------------

  /** A step is an action, or moves only the clock. */
  lemma StepIsAct(c: Client, input: Input)
    ensures match ActionOf(c, input.event)
      case None => Step(c, input) == c.(timers := Step(c, input).timers)
      case Some((d, action, r)) =>
        && Step(c, input) == d.Act(action, r, input.results)
        && d.state == c.state && d.log == c.log && (c.running ==> d.running)
  {
  }

  /** Callbacks that return without calling back are the steps of `InviteClientRuns`. */
  lemma PerformWithoutInner(c: Client, input: Input)
    ensures Perform(c, Call(input, [])) == Step(c, input)
  {
    StepIsAct(c, input);
  }

  /** Failing on a response ends the transaction. */
  lemma FailingEnds(c: Client, call: Call)
    requires call.input.event.Receives?
    ensures Returns(c, call.input) != 0 ==> Perform(c, call).state == Terminated
  {
  }

  // ----- repeated removal -------------------------------------------------

  function Removals(n: nat): (s: seq<Output>)
    ensures |s| == n
    ensures forall i :: 0 <= i < n ==> s[i] == Remove
  {
    seq(n, _ => Remove)
  }

  /** The same transaction, with the removal asked for `n` more times. */
  function Again(c: Client, n: nat): Client {
    c.(log := c.log + Removals(n))
  }

  lemma AgainAgain(c: Client, m: nat, n: nat)
    ensures Again(Again(c, m), n) == Again(c, m + n)
    ensures Again(c, 0) == c
  {
    assert c.log + Removals(m) + Removals(n) == c.log + Removals(m + n);
    assert c.log + Removals(0) == c.log;
  }

  /** Once more. */
  lemma AgainSnoc(c: Client, n: nat)
    ensures Again(c, n).(log := Again(c, n).log + [Remove]) == Again(c, n + 1)
  {
    assert c.log + Removals(n) + [Remove] == c.log + Removals(n + 1);
  }

  /** A removed transaction only moves with the clock. */
  lemma StepAfterRemoval(c: Client, input: Input)
    requires c.state == Terminated && c.running
    ensures Step(c, input) == c.(timers := Step(c, input).timers)
    ensures forall n :: Step(Again(c, n), input) == Again(Step(c, input), n)
  {
  }

  lemma {:induction false} RunAfterRemoval(c: Client, n: nat, inputs: seq<Input>)
    requires c.state == Terminated && c.running
    ensures var d := Run(c, inputs); d == c.(timers := d.timers)
    ensures Run(Again(c, n), inputs) == Again(Run(c, inputs), n)
  {
    if inputs != [] {
      var front, last := inputs[..|inputs| - 1], inputs[|inputs| - 1];
      RunAfterRemoval(c, n, front);
      StepAfterRemoval(Run(c, front), last);
    }
  }

  lemma {:induction false} RunOfConcat(c: Client, a: seq<Input>, b: seq<Input>)
    ensures Run(c, a + b) == Run(Run(c, a), b)
    decreases |b|
  {
    if b == [] {
      assert a + b == a;
    } else {
      assert (a + b)[..|a + b| - 1] == a + b[..|b| - 1];
      RunOfConcat(c, a, b[..|b| - 1]);
    }
  }

  lemma StepStaysStarted(c: Client, input: Input)
    requires c.running && c.state != Started
    ensures var d := Step(c, input); d.running && d.state != Started
  {
    StepIsAct(c, input);
    if ActionOf(c, input.event).Some? {
      var (d, action, r) := ActionOf(c, input.event).value;
      ActStaysStarted(d, action, r, input.results);
    }
  }

  lemma {:induction false} RunStaysStarted(c: Client, inputs: seq<Input>)
    requires c.running && c.state != Started
    ensures var d := Run(c, inputs); d.running && d.state != Started
  {
    if inputs != [] {
      RunStaysStarted(c, inputs[..|inputs| - 1]);
      StepStaysStarted(Run(c, inputs[..|inputs| - 1]), inputs[|inputs| - 1]);
    }
  }

  lemma StepGrows(c: Client, input: Input)
    ensures c.log <= Step(c, input).log && Step(c, input).reliable == c.reliable
  {
    StepIsAct(c, input);
    if ActionOf(c, input.event).Some? {
      var (d, action, r) := ActionOf(c, input.event).value;
      if d.state != Terminated && Transition(d.state, action).Some? {
        var (to, exec) := Transition(d.state, action).value;
        TakePutsOut(d, to, exec, r, input.results);
      }
    }
  }

  lemma {:induction false} RunGrows(c: Client, inputs: seq<Input>)
    ensures c.log <= Run(c, inputs).log && Run(c, inputs).reliable == c.reliable
  {
    if inputs != [] {
      RunGrows(c, inputs[..|inputs| - 1]);
      StepGrows(Run(c, inputs[..|inputs| - 1]), inputs[|inputs| - 1]);
    }
  }

  // ----- nests are sequences ----------------------------------------------

  /** `d` is where `flat` leads from `c`, but for `n` more removals. */
  ghost predicate Reaches(c: Client, flat: seq<Input>, n: nat, d: Client) {
    d == Again(Run(c, flat), n) && (n > 0 ==> Run(c, flat).state == Terminated)
  }

  lemma ReachesOn(c: Client, flat: seq<Input>, n: nat, d: Client, more: seq<Input>, m: nat, e: Client)
    requires c.running && c.state != Started
    requires Reaches(c, flat, n, d) && Reaches(d, more, m, e)
    ensures Reaches(c, flat + more, n + m, e)
  {
    var x := Run(c, flat);
    RunOfConcat(c, flat, more);
    RunStaysStarted(c, flat);
    if n > 0 {
      RunAfterRemoval(x, n, more);
      AgainAgain(Run(x, more), n, m);
    } else {
      AgainAgain(x, 0, 0);
      assert d == x;
    }
  }

  const CANCEL := Input(DialogCancels, Results(0, 0))

  /** Failing after inner calls that have not ended the transaction is what a cancellation does. */
  lemma FailingIsCancelling(c: Client, ret: int)
    requires c.state != Started && c.state != Terminated && ret != 0
    ensures c.Finish(ret) == Step(c, CANCEL)
  {
    assert Step(c, CANCEL) == c.Take(Terminated, Any2TerminatedCancel, NO_RESPONSE, CANCEL.results);
    assert c.log + [] == c.log;
  }

  /** The first of the flat steps: the row function succeeds, so that what follows takes place in its new state. */
  lemma SucceedingRow(c: Client, to: State, exec: Exec, r: Response, results: Results)
    requires to != Terminated && CallsUser(exec, results)
    ensures var first := results.(user := 0);
      c.Take(to, exec, r, first) == c.(state := to).Effect(exec, r, results)
  {
  }

  /** The end of the outer row function, after inner calls that come to `flat`. */
  lemma FinishReaches(c: Client, flat: seq<Input>, n: nat, d: Client, ret: int) returns (more: seq<Input>, m: nat)
    requires c.running && c.state != Started && c.state != Terminated && Reaches(c, flat, n, d)
    ensures Reaches(c, more, m, d.Finish(ret))
    ensures flat <= more && forall i :: |flat| <= i < |more| ==> more[i] == CANCEL
    ensures d.state == Terminated <==> m > n
  {
    var x := Run(c, flat);
    RunStaysStarted(c, flat);
    if x.state == Terminated {
      AgainSnoc(x, n);
      return flat, n + 1;
    } else if ret != 0 {
      AgainAgain(x, 0, 0);
      FailingIsCancelling(x, ret);
      RunOfConcat(c, flat, [CANCEL]);
      RunOfOne(x, CANCEL);
      AgainAgain(Step(x, CANCEL), 0, 0);
      return flat + [CANCEL], 0;
    } else {
      return flat, n;
    }
  }

  /** An event takes place somewhere in the nest of calls. */
  predicate IsIn(e: Event, calls: seq<Call>)
    decreases calls
  {
    exists k :: 0 <= k < |calls| && (e == calls[k].input.event || IsIn(e, calls[k].inner))
  }

  /** Nothing happens in the flat run but what the calls do, and cancellations. */
  ghost predicate ComesFrom(flat: seq<Input>, calls: seq<Call>) {
    forall i :: 0 <= i < |flat| ==> flat[i] == CANCEL || IsIn(flat[i].event, calls)
  }

  /** The inner calls end the transaction before the outer row function has returned. */
  predicate EndsInside(c: Client, action: Action, r: Response, results: Results, inner: seq<Call>) {
    && c.state != Terminated && Transition(c.state, action).Some?
    && var (to, exec) := Transition(c.state, action).value;
      && to != Terminated && CallsUser(exec, results)
      && Inside(c, to, exec, r, results, inner).state == Terminated
  }

  predicate CallEndsInside(c: Client, call: Call) {
    match ActionOf(c, call.input.event)
    case None => false
    case Some((d, action, r)) => EndsInside(d, action, r, call.input.results, call.inner)
  }

  lemma ComesFromCall(first: Input, more: seq<Input>, call: Call)
    requires first.event == call.input.event && ComesFrom(more, call.inner)
    ensures ComesFrom([first] + more, [call])
  {
    forall e | e == call.input.event || IsIn(e, call.inner)
      ensures IsIn(e, [call])
    {
      assert [call][0] == call;
    }
  }

  lemma ComesFromCalls(flat: seq<Input>, more: seq<Input>, calls: seq<Call>)
    requires calls != [] && ComesFrom(flat, [calls[0]]) && ComesFrom(more, calls[1..])
    ensures ComesFrom(flat + more, calls)
  {
    forall e | IsIn(e, [calls[0]]) || IsIn(e, calls[1..])
      ensures IsIn(e, calls)
    {
      if IsIn(e, [calls[0]]) {
        assert e == calls[0].input.event || IsIn(e, calls[0].inner);
      } else {
        var k :| 0 <= k < |calls[1..]| && (e == calls[1..][k].input.event || IsIn(e, calls[1..][k].inner));
        assert calls[1..][k] == calls[k + 1];
      }
    }
  }

  lemma FinishIsAgain(d: Client, ret: int)
    requires d.state == Terminated
    ensures d.Finish(ret) == Again(d, 1)
  {
    assert d.log + Removals(1) == d.log + [Remove];
  }

  /** What a row function that leads to the final state does has no more to it. */
  lemma FinalRowFlattens(d: Client, flat: seq<Input>, n: nat, e: Client, ret: int)
    requires d.state == Terminated && d.running && Reaches(d, flat, n, e)
    ensures Reaches(d.Finish(ret), flat, n, e.Finish(ret))
  {
    var x := Run(d, flat);
    RunAfterRemoval(d, 1, flat);
    FinishIsAgain(d, ret);
    AgainAgain(x, n, 1);
    AgainAgain(x, 1, n);
    FinishIsAgain(e, ret);
  }

  lemma RemovedStaysRemoved(d: Client, flat: seq<Input>)
    requires d.state == Terminated && d.running
    ensures Run(d, flat).state == Terminated
  {
    RunAfterRemoval(d, 0, flat);
  }

  lemma NotStartedAgain(state: State, action: Action)
    requires state != Started && Transition(state, action).Some?
    ensures Transition(state, action).value.0 != Started
  {
  }

  /** Neither the start nor the end is undone. */
  lemma LastsBy(c: Client, flat: seq<Input>, n: nat, d: Client)
    requires c.running && c.state != Started && Reaches(c, flat, n, d)
    ensures d.running && d.state != Started
    ensures c.state == Terminated ==> d.state == Terminated
  {
    RunStaysStarted(c, flat);
    if c.state == Terminated {
      RemovedStaysRemoved(c, flat);
    }
  }

  /** An action, with inner calls, comes to the same action and some more steps. */
  lemma ActFlattens(c: Client, action: Action, r: Response, results: Results, inner: seq<Call>)
    returns (first: Results, flat: seq<Input>, n: nat)
    requires c.running && c.state != Started
    ensures Reaches(c.Act(action, r, first), flat, n, ActAround(c, action, r, results, inner))
    ensures first.ack == results.ack
    ensures ComesFrom(flat, inner)
    ensures n > 0 <==> EndsInside(c, action, r, results, inner)
    decreases inner, 2
  {
    first, flat, n := results, [], 0;
    AgainAgain(c.Act(action, r, results), 0, 0);
    if c.state != Terminated && Transition(c.state, action).Some? {
      var (to, exec) := Transition(c.state, action).value;
      NotStartedAgain(c.state, action);
      if CallsUser(exec, results) {
        first, flat, n := RowFlattens(c, to, exec, r, results, inner);
      }
    }
  }

  lemma RowFlattens(c: Client, to: State, exec: Exec, r: Response, results: Results, inner: seq<Call>)
    returns (first: Results, flat: seq<Input>, n: nat)
    requires c.running && to != Started && CallsUser(exec, results)
    ensures var e := Inside(c, to, exec, r, results, inner);
      && Reaches(c.Take(to, exec, r, first), flat, n, e.Finish(Returned(exec, results)))
      && (n > 0 <==> to != Terminated && e.state == Terminated)
    ensures first.ack == results.ack
    ensures ComesFrom(flat, inner)
    decreases inner, 1
  {
    var d, ret := c.(state := to).Effect(exec, r, results), Returned(exec, results);
    EffectKeeps(c.(state := to), exec, r, results);
    flat, n := PerformAllFlattens(d, inner);
    if to == Terminated {
      first := results;
      FinalRowFlattens(d, flat, n, PerformAll(d, inner), ret);
    } else {
      first := results.(user := 0);
      SucceedingRow(c, to, exec, r, results);
      flat, n := FinishReaches(d, flat, n, PerformAll(d, inner), ret);
    }
  }

  lemma CallFlattens(c: Client, call: Call) returns (first: Results, more: seq<Input>, n: nat)
    requires c.running && c.state != Started
    ensures Reaches(Step(c, Input(call.input.event, first)), more, n, Perform(c, call))
    ensures first.ack == call.input.results.ack
    ensures ComesFrom(more, call.inner)
    ensures n > 0 <==> CallEndsInside(c, call)
    ensures c.state == Terminated ==> n == 0
    decreases call, 0
  {
    var results, inner := call.input.results, call.inner;
    first, more, n := results, [], 0;
    AgainAgain(Step(c, call.input), 0, 0);
    StepIsAct(c, call.input);
    match ActionOf(c, call.input.event)
    case None =>
    case Some((d, action, r)) =>
      first, more, n := ActFlattens(d, action, r, results, inner);
      StepIsAct(c, Input(call.input.event, first));
  }

  lemma PerformFlattens(c: Client, call: Call) returns (flat: seq<Input>, n: nat)
    requires c.running && c.state != Started
    ensures Reaches(c, flat, n, Perform(c, call))
    ensures flat != [] && flat[0].event == call.input.event && ComesFrom(flat, [call])
    ensures c.state == Terminated ==> n == 0
    decreases call, 1
  {
    var first, more;
    first, more, n := CallFlattens(c, call);
    var input := Input(call.input.event, first);
    flat := [input] + more;
    ComesFromCall(input, more, call);
    RunOfCons(c, input, more);
  }

  lemma PerformAllFlattens(c: Client, calls: seq<Call>) returns (flat: seq<Input>, n: nat)
    requires c.running && c.state != Started
    ensures Reaches(c, flat, n, PerformAll(c, calls))
    ensures ComesFrom(flat, calls)
    ensures c.state == Terminated ==> n == 0 && PerformAll(c, calls).state == Terminated
    decreases calls, 0
  {
    flat, n := [], 0;
    AgainAgain(c, 0, 0);
    if calls != [] {
      var d := Perform(c, calls[0]);
      flat, n := PerformFlattens(c, calls[0]);
      LastsBy(c, flat, n, d);
      var more, m := PerformAllFlattens(d, calls[1..]);
      ReachesOn(c, flat, n, d, more, m, PerformAll(c, calls));
      ComesFromCalls(flat, more, calls);
      flat, n := flat + more, n + m;
    }
  }

  // ----- all nests --------------------------------------------------------

  /** Every nest of calls after a launch comes to a run, but for repeated removals. */
  lemma NestsAreRuns(launch: Launch, calls: seq<Call>, c: Client) returns (flat: seq<Input>, n: nat)
    requires launch.manager.Valid() && c == PerformAll(launch.Client(), calls)
    ensures Reaches(launch.Client(), flat, n, c) && ComesFrom(flat, calls)
  {
    LaunchedClient(launch.reliable, launch.intervals, launch.manager, launch.results);
    flat, n := PerformAllFlattens(launch.Client(), calls);
  }

  lemma {:induction false} RemovalsAreInOrder(log: seq<Output>, n: nat)
    requires PhaseOf(log) == Some(Closed)
    ensures PhaseOf(log + Removals(n)) == Some(Closed)
  {
    if n == 0 {
      assert log + Removals(0) == log;
    } else {
      RemovalsAreInOrder(log, n - 1);
      var more := log + Removals(n);
      assert more[..|more| - 1] == log + Removals(n - 1) && more[|more| - 1] == Remove;
    }
  }

  lemma AgainKeepsWord(launch: Launch, c: Client, n: nat)
    requires KeepsWord(launch, c) && (n > 0 ==> c.state == Terminated)
    ensures KeepsWord(launch, Again(c, n))
  {
    if n == 0 {
      AgainAgain(c, 0, 0);
    } else {
      RemovalsAreInOrder(c.log, n);
      LegalIsWellBehaved(c.log + Removals(n));
      OtherOutputs(c.log, Removals(n));
    }
  }

  /** Whatever the user does from within its callbacks, the transaction keeps its word. */
  lemma NestsKeepWord(launch: Launch, calls: seq<Call>, c: Client)
    requires launch.manager.Valid() && c == PerformAll(launch.Client(), calls)
    ensures KeepsWord(launch, c)
  {
    var flat, n := NestsAreRuns(launch, calls, c);
    WordIsKept(launch, flat, launch.After(flat));
    AgainKeepsWord(launch, launch.After(flat), n);
  }

  /** The removal is not asked for again. */
  predicate RemovedOnce(log: seq<Output>) {
    forall i :: 0 <= i < |log| && log[i].Remove? ==> i == |log| - 1
  }

  predicate HasNoRemoval(log: seq<Output>) {
    forall i :: 0 <= i < |log| ==> !log[i].Remove?
  }

  /** A transaction that has ended asked for its removal, at the very end, and no other has. */
  predicate IsGone(c: Client) {
    && RemovedOnce(c.log)
    && (if c.state == Terminated then c.log != [] && c.log[|c.log| - 1] == Remove
        else HasNoRemoval(c.log))
  }

  lemma RowsDoNotRemove(exec: Exec, r: Response, results: Results)
    ensures HasNoRemoval(Outputs(exec, r, results))
  {
  }

  lemma RemovedAtTheEnd(log: seq<Output>, outputs: seq<Output>, more: seq<Output>, ends: bool)
    requires HasNoRemoval(log) && HasNoRemoval(outputs)
    requires more == log + (outputs + if ends then [Remove] else [])
    ensures RemovedOnce(more)
    ensures if ends then more != [] && more[|more| - 1] == Remove else HasNoRemoval(more)
  {
  }

  lemma ActRemovesOnce(c: Client, action: Action, r: Response, results: Results)
    requires IsGone(c) && c.state != Started
    ensures IsGone(c.Act(action, r, results))
  {
    if c.state != Terminated && Transition(c.state, action).Some? {
      var (to, exec) := Transition(c.state, action).value;
      var d := c.Take(to, exec, r, results);
      TakePutsOut(c, to, exec, r, results);
      RowsDoNotRemove(exec, r, results);
      RemovedAtTheEnd(c.log, Outputs(exec, r, results), d.log, Ends(to, exec, results));
    }
  }

  lemma StepRemovesOnce(c: Client, input: Input)
    requires IsGone(c) && c.running && c.state != Started
    ensures IsGone(Step(c, input))
  {
    StepIsAct(c, input);
    if ActionOf(c, input.event).Some? {
      var (d, action, r) := ActionOf(c, input.event).value;
      ActRemovesOnce(d, action, r, input.results);
    }
  }

  lemma {:induction false} RunRemovesOnce(c: Client, inputs: seq<Input>)
    requires IsGone(c) && c.running && c.state != Started
    ensures IsGone(Run(c, inputs))
  {
    if inputs != [] {
      RunRemovesOnce(c, inputs[..|inputs| - 1]);
      RunStaysStarted(c, inputs[..|inputs| - 1]);
      StepRemovesOnce(Run(c, inputs[..|inputs| - 1]), inputs[|inputs| - 1]);
    }
  }

  /** Without calls from within callbacks the removal is asked for exactly once. */
  lemma RunsRemoveOnce(launch: Launch, inputs: seq<Input>, c: Client)
    requires launch.manager.Valid() && c == launch.After(inputs)
    ensures IsGone(c)
  {
    LaunchedClient(launch.reliable, launch.intervals, launch.manager, launch.results);
    RunRemovesOnce(launch.Client(), inputs);
  }

  lemma AgainRemovesOnce(c: Client, n: nat)
    requires IsGone(c) && c.state == Terminated
    ensures RemovedOnce(Again(c, n).log) <==> n == 0
  {
    if n == 0 {
      AgainAgain(c, 0, 0);
    } else {
      assert Again(c, n).log[|c.log| - 1] == Remove;
    }
  }

  lemma CallRemoves(c: Client, call: Call, d: Client)
    requires IsGone(c) && c.running && c.state != Started && d == Perform(c, call) && d.state == Terminated
    ensures RemovedOnce(d.log) <==> !CallEndsInside(c, call)
  {
    var first, more, n := CallFlattens(c, call);
    var x := Step(c, Input(call.input.event, first));
    StepRemovesOnce(c, Input(call.input.event, first));
    StepStaysStarted(c, Input(call.input.event, first));
    RunRemovesOnce(x, more);
    AgainRemovesOnce(Run(x, more), n);
  }

  /** A call asks for the removal again exactly if the transaction ends inside one of the calls that it encloses. */
  lemma RemovalIsRepeated(launch: Launch, calls: seq<Call>, c: Client, call: Call, d: Client)
    requires launch.manager.Valid() && c == PerformAll(launch.Client(), calls) && d == Perform(c, call)
    requires c.state != Terminated && d.state == Terminated
    ensures RemovedOnce(d.log) <==> !CallEndsInside(c, call)
  {
    var flat, n := NestsAreRuns(launch, calls, c);
    AgainAgain(launch.After(flat), 0, 0);
    RunsRemoveOnce(launch, flat, c);
    LaunchedClient(launch.reliable, launch.intervals, launch.manager, launch.results);
    RunStaysStarted(launch.Client(), flat);
    CallRemoves(c, call, d);
  }

  lemma CancelledInside(c: Client, inner: seq<Call>)
    requires c.state != Started && c.state != Terminated && inner == [Call(CANCEL, [])]
    ensures var d := PerformAll(c, inner); d.state == Terminated && d.log == c.log + [Remove]
  {
    PerformWithoutInner(c, CANCEL);
    FailingIsCancelling(c, 1);
    assert inner[1..] == [] && PerformAll(c, inner) == PerformAll(Step(c, CANCEL), []);
  }

  lemma RejectedInside(c: Client, r: Response, results: Results, inner: seq<Call>)
    requires c.state == Calling && IsFailure(r) && results.ack == 0 && inner == [Call(CANCEL, [])]
    ensures ActAround(c, Failure, r, results, inner).log == c.log + [SendAck(r), PassUp(r), Remove, Remove]
  {
    var d := c.(state := Completed).Effect(Calling2Completed, r, results);
    EffectKeeps(c.(state := Completed), Calling2Completed, r, results);
    CancelledInside(d, inner);
  }

  /** What happens to every call that is rejected: the dialog ends inside the callback, and cancels its transactions. */
  lemma RejectionRemovesTwice(launch: Launch, r: Response, results: Results, call: Call)
    requires launch.manager.Valid() && IsFailure(r) && results.ack == 0
    requires call == Call(Input(Receives(r), results), [Call(CANCEL, [])])
    ensures Perform(launch.Client(), call).log == [SendInvite, SendAck(r), PassUp(r), Remove, Remove]
  {
    LaunchedClient(launch.reliable, launch.intervals, launch.manager, launch.results);
    RejectedInside(launch.Client(), r, results, call.inner);
  }
}
