/**
 Callbacks that call back. The dialog that a row function calls may act on the
 same transaction before it returns, as it does when it refuses a request at
 once: the lock is recursive, so the inner action runs inside the outer one.
 Every such nest of calls comes to the same as some sequence of calls, except
 that the removal may be asked for more than once.
 */
module InviteServerReentrancy {
  import opened Wrappers
  import opened Timers
  import opened InviteServer
  import opened InviteServerRuns
  import opened InviteServerTheorems
  import opened InviteServerTermination
  import C = InviteClientRuns

  /** An input, and what happens to the transaction while its user is called back. */
  datatype Call = Call(input: Input, inner: seq<Call>)

  predicate IsUserCall(o: Output) {
    o.PassUpInvite? || o.PassUpAck? || o.PassUpNothing? || o.ReportTransportError? || o.ReportError?
  }

  /** The row function calls the user, which is always the last thing that it does. */
  predicate CallsUser(exec: Exec, results: Results) {
    var outputs := Tells(exec, results);
    outputs != [] && IsUserCall(outputs[|outputs| - 1])
  }

  /** The action that an event comes to, the message, and the transaction as the event finds it. */
  function ActionOf(s: Server, e: Event): Option<(Server, Action, Message)> {
    match e
    case ReceivesInvite => Some((s.(running := true), RecvInvite, NO_MESSAGE))
    case ReceivesAck => Some((s, RecvAck, NO_MESSAGE))
    case Responds(m) =>
      (match ActionFor(m.response.code) case None => None case Some(action) => Some((s, action, m)))
    case TransportFails => Some((s, TransportError, NO_MESSAGE))
    case ErrorOccurs => Some((s, Error, NO_MESSAGE))
    case DialogCancels => Some((s, Cancel, NO_MESSAGE))
    case Manages(move) =>
      var d := s.(timers := Apply(s.timers, move));
      if move.Dequeued? && move.id in s.timers.queued && d.TimerActionFor(move.id).Some?
      then Some((d, d.TimerActionFor(move.id).value, NO_MESSAGE))
      else None
  }

  /** `InviteServer.Act` with the inner calls in their place. */
  function ActAround(s: Server, action: Action, m: Message, results: Results, inner: seq<Call>): Server
    decreases inner, 2
  {
    if s.state == Terminated || Transition(s.state, action, m).None? then s
    else
      var (to, exec) := Transition(s.state, action, m).value;
      Inside(s, to, exec, m.response, results, inner).Finish(Returned(exec, s.last, results))
  }

  /** The transaction as the row function is about to return. */
  function Inside(s: Server, to: State, exec: Exec, r: Response, results: Results, inner: seq<Call>): Server
    decreases inner, 1
  {
    var d := s.(state := to).Effect(exec, r, results);
    if CallsUser(exec, results) then PerformAll(d, inner) else d
  }

  /** `InviteServerRuns.Step` with the inner calls in their place. */
  function Perform(s: Server, call: Call): Server
    decreases call
  {
    match ActionOf(s, call.input.event)
    case None => Step(s, call.input)
    case Some((d, action, m)) => ActAround(d, action, m, call.input.results, call.inner)
  }

  /** What the caller is returned. */
  function Returns(s: Server, input: Input): int {
    match ActionOf(s, input.event)
    case Some((d, action, m)) => d.ActReturns(action, m, input.results)
    case None =>
      var e := input.event;
      if e.Manages? && !(e.move.Dequeued? && e.move.id in s.timers.queued) then 0 else -1
  }

  function PerformAll(s: Server, calls: seq<Call>): Server
    decreases calls, 0
  {
    if calls == [] then s else PerformAll(Perform(s, calls[0]), calls[1..])
  }

  // ----- without inner calls ----------------------------------------------

  /** A step is an action, or moves only the clock. */
  lemma StepIsAct(s: Server, input: Input)
    ensures match ActionOf(s, input.event)
      case None => Step(s, input) == s.(timers := Step(s, input).timers)
      case Some((d, action, m)) =>
        && Step(s, input) == d.Act(action, m, input.results)
        && d.state == s.state && d.log == s.log && d.last == s.last && (s.running ==> d.running)
  {
  }

  /** Callbacks that return without calling back are the steps of `InviteServerRuns`. */
  lemma PerformWithoutInner(s: Server, input: Input)
    ensures Perform(s, Call(input, [])) == Step(s, input)
  {
    StepIsAct(s, input);
  }

  /** Failing on a message from the network ends the transaction. */
  lemma FailingEnds(s: Server, call: Call)
    requires call.input.event.ReceivesInvite? || call.input.event.ReceivesAck?
    ensures Returns(s, call.input) != 0 ==> Perform(s, call).state == Terminated
  {
  }

  // ----- repeated removal -------------------------------------------------

  function Removals(n: nat): (s: seq<Output>)
    ensures |s| == n
    ensures forall i :: 0 <= i < n ==> s[i] == Remove
  {
    seq(n, _ => Remove)
  }

  /** The same transaction, with the removal asked for `n` more times. */
  function Again(s: Server, n: nat): Server {
    s.(log := s.log + Removals(n))
  }

  lemma AgainAgain(s: Server, m: nat, n: nat)
    ensures Again(Again(s, m), n) == Again(s, m + n)
    ensures Again(s, 0) == s
  {
    assert s.log + Removals(m) + Removals(n) == s.log + Removals(m + n);
    assert s.log + Removals(0) == s.log;
  }

  /** Once more. */
  lemma AgainSnoc(s: Server, n: nat)
    ensures Again(s, n).(log := Again(s, n).log + [Remove]) == Again(s, n + 1)
  {
    assert s.log + Removals(n) + [Remove] == s.log + Removals(n + 1);
  }

  /** A removed transaction only moves with the clock. */
  lemma StepAfterRemoval(s: Server, input: Input)
    requires s.state == Terminated && s.running
    ensures Step(s, input) == s.(timers := Step(s, input).timers)
    ensures forall n :: Step(Again(s, n), input) == Again(Step(s, input), n)
  {
  }

  lemma {:induction false} RunAfterRemoval(s: Server, n: nat, inputs: seq<Input>)
    requires s.state == Terminated && s.running
    ensures var d := Run(s, inputs); d == s.(timers := d.timers)
    ensures Run(Again(s, n), inputs) == Again(Run(s, inputs), n)
  {
    if inputs != [] {
      var front, last := inputs[..|inputs| - 1], inputs[|inputs| - 1];
      RunAfterRemoval(s, n, front);
      StepAfterRemoval(Run(s, front), last);
    }
  }

  lemma {:induction false} RunOfConcat(s: Server, a: seq<Input>, b: seq<Input>)
    ensures Run(s, a + b) == Run(Run(s, a), b)
    decreases |b|
  {
    if b == [] {
      assert a + b == a;
    } else {
      assert (a + b)[..|a + b| - 1] == a + b[..|b| - 1];
      RunOfConcat(s, a, b[..|b| - 1]);
    }
  }

  /** Only a transaction that has not been started is not running. */
  predicate IsLive(s: Server) {
    s.running || s.state == Started
  }

  lemma OnlyRequestsStart(state: State, action: Action, m: Message)
    requires Transition(state, action, m).Some?
    ensures var (to, exec) := Transition(state, action, m).value;
      && (state != Started ==> to != Started)
      && (state == Started && action != RecvInvite ==> to == Started && exec == Nothing)
  {
  }

  lemma StepStaysLive(s: Server, input: Input)
    requires IsLive(s)
    ensures var d := Step(s, input); IsLive(d) && (s.state != Started ==> d.state != Started)
  {
    StepIsAct(s, input);
    if ActionOf(s, input.event).Some? {
      var (d, action, m) := ActionOf(s, input.event).value;
      if d.state != Terminated && Transition(d.state, action, m).Some? {
        var (to, exec) := Transition(d.state, action, m).value;
        TakePutsOut(d, to, exec, m.response, input.results);
        OnlyRequestsStart(d.state, action, m);
      }
    }
  }

  lemma {:induction false} RunStaysLive(s: Server, inputs: seq<Input>)
    requires IsLive(s)
    ensures var d := Run(s, inputs); IsLive(d) && (s.state != Started ==> d.state != Started)
  {
    if inputs != [] {
      RunStaysLive(s, inputs[..|inputs| - 1]);
      StepStaysLive(Run(s, inputs[..|inputs| - 1]), inputs[|inputs| - 1]);
    }
  }

  lemma StepGrows(s: Server, input: Input)
    ensures s.log <= Step(s, input).log && (s.running ==> Step(s, input).running)
  {
    StepIsAct(s, input);
    if ActionOf(s, input.event).Some? {
      var (d, action, m) := ActionOf(s, input.event).value;
      if d.state != Terminated && Transition(d.state, action, m).Some? {
        var (to, exec) := Transition(d.state, action, m).value;
        TakePutsOut(d, to, exec, m.response, input.results);
      }
    }
  }

  lemma {:induction false} RunGrows(s: Server, inputs: seq<Input>)
    ensures s.log <= Run(s, inputs).log && (s.running ==> Run(s, inputs).running)
  {
    if inputs != [] {
      RunGrows(s, inputs[..|inputs| - 1]);
      StepGrows(Run(s, inputs[..|inputs| - 1]), inputs[|inputs| - 1]);
    }
  }

  // ----- nests are sequences ----------------------------------------------

  /** `d` is where `flat` leads from `s`, but for `n` more removals. */
  ghost predicate Reaches(s: Server, flat: seq<Input>, n: nat, d: Server) {
    d == Again(Run(s, flat), n) && (n > 0 ==> Run(s, flat).state == Terminated)
  }

  lemma ReachesOn(s: Server, flat: seq<Input>, n: nat, d: Server, more: seq<Input>, m: nat, e: Server)
    requires IsLive(s)
    requires Reaches(s, flat, n, d) && Reaches(d, more, m, e)
    ensures Reaches(s, flat + more, n + m, e)
  {
    var x := Run(s, flat);
    RunOfConcat(s, flat, more);
    RunStaysLive(s, flat);
    if n > 0 {
      RunAfterRemoval(x, n, more);
      AgainAgain(Run(x, more), n, m);
    } else {
      AgainAgain(x, 0, 0);
      assert d == x;
    }
  }

  const CANCEL := Input(DialogCancels, Results(0, 0))

  /** Failing after inner calls that have not ended the transaction is what a cancellation does. */
  lemma FailingIsCancelling(s: Server, ret: int)
    requires s.state != Started && s.state != Terminated && ret != 0
    ensures s.Finish(ret) == Step(s, CANCEL)
  {
    assert Step(s, CANCEL) == s.Take(Terminated, Any2TerminatedCancel, TRYING, CANCEL.results);
    assert s.log + [] == s.log;
  }

  /** The first of the flat steps: the row function succeeds, so that what follows takes place in its new state. */
  lemma SucceedingRow(s: Server, to: State, exec: Exec, r: Response, results: Results)
    requires to != Terminated && CallsUser(exec, results)
    ensures var first := results.(user := 0);
      s.Take(to, exec, r, first) == s.(state := to).Effect(exec, r, results)
  {
  }

  lemma RunOfOne(s: Server, i: Input)
    ensures Run(s, [i]) == Step(s, i)
  {
    assert [i][..0] == [] && Run(s, []) == s;
  }

  /** The end of the outer row function, after inner calls that come to `flat`. */
  lemma FinishReaches(s: Server, flat: seq<Input>, n: nat, d: Server, ret: int) returns (more: seq<Input>, m: nat)
    requires s.running && s.state != Started && s.state != Terminated && Reaches(s, flat, n, d)
    ensures Reaches(s, more, m, d.Finish(ret))
    ensures flat <= more && forall i :: |flat| <= i < |more| ==> more[i] == CANCEL
    ensures d.state == Terminated <==> m > n
  {
    var x := Run(s, flat);
    RunStaysLive(s, flat);
    if x.state == Terminated {
      AgainSnoc(x, n);
      return flat, n + 1;
    } else if ret != 0 {
      AgainAgain(x, 0, 0);
      FailingIsCancelling(x, ret);
      RunOfConcat(s, flat, [CANCEL]);
      RunOfOne(x, CANCEL);
      AgainAgain(Step(x, CANCEL), 0, 0);
      return flat + [CANCEL], 0;
    } else {
      return flat, n;
    }
  }

  /** An event takes place somewhere in the nest of calls. */
  predicate IsIn(e: Event, calls: seq<Call>)
    decreases calls
  {
    exists k :: 0 <= k < |calls| && (e == calls[k].input.event || IsIn(e, calls[k].inner))
  }

  /** Nothing happens in the flat run but what the calls do, and cancellations. */
  ghost predicate ComesFrom(flat: seq<Input>, calls: seq<Call>) {
    forall i :: 0 <= i < |flat| ==> flat[i] == CANCEL || IsIn(flat[i].event, calls)
  }

  /** The inner calls end the transaction before the outer row function has returned. */
  predicate EndsInside(s: Server, action: Action, m: Message, results: Results, inner: seq<Call>) {
    && s.state != Terminated && Transition(s.state, action, m).Some?
    && var (to, exec) := Transition(s.state, action, m).value;
      && to != Terminated && CallsUser(exec, results)
      && Inside(s, to, exec, m.response, results, inner).state == Terminated
  }

  predicate CallEndsInside(s: Server, call: Call) {
    match ActionOf(s, call.input.event)
    case None => false
    case Some((d, action, m)) => EndsInside(d, action, m, call.input.results, call.inner)
  }

  lemma ComesFromCall(first: Input, more: seq<Input>, call: Call)
    requires first.event == call.input.event && ComesFrom(more, call.inner)
    ensures ComesFrom([first] + more, [call])
  {
    forall e | e == call.input.event || IsIn(e, call.inner)
      ensures IsIn(e, [call])
    {
      assert [call][0] == call;
    }
  }

  lemma ComesFromCalls(flat: seq<Input>, more: seq<Input>, calls: seq<Call>)
    requires calls != [] && ComesFrom(flat, [calls[0]]) && ComesFrom(more, calls[1..])
    ensures ComesFrom(flat + more, calls)
  {
    forall e | IsIn(e, [calls[0]]) || IsIn(e, calls[1..])
      ensures IsIn(e, calls)
    {
      if IsIn(e, [calls[0]]) {
        assert e == calls[0].input.event || IsIn(e, calls[0].inner);
      } else {
        var k :| 0 <= k < |calls[1..]| && (e == calls[1..][k].input.event || IsIn(e, calls[1..][k].inner));
        assert calls[1..][k] == calls[k + 1];
      }
    }
  }

  lemma FinishIsAgain(d: Server, ret: int)
    requires d.state == Terminated
    ensures d.Finish(ret) == Again(d, 1)
  {
    assert d.log + Removals(1) == d.log + [Remove];
  }

  /** What a row function that leads to the final state does has no more to it. */
  lemma FinalRowFlattens(d: Server, flat: seq<Input>, n: nat, e: Server, ret: int)
    requires d.state == Terminated && d.running && Reaches(d, flat, n, e)
    ensures Reaches(d.Finish(ret), flat, n, e.Finish(ret))
  {
    var x := Run(d, flat);
    RunAfterRemoval(d, 1, flat);
    FinishIsAgain(d, ret);
    AgainAgain(x, n, 1);
    AgainAgain(x, 1, n);
    FinishIsAgain(e, ret);
  }

  lemma RemovedStaysRemoved(d: Server, flat: seq<Input>)
    requires d.state == Terminated && d.running
    ensures Run(d, flat).state == Terminated
  {
    RunAfterRemoval(d, 0, flat);
  }

  /** Neither the start nor the end is undone. */
  lemma LastsBy(s: Server, flat: seq<Input>, n: nat, d: Server)
    requires IsLive(s) && Reaches(s, flat, n, d)
    ensures IsLive(d)
    ensures s.state == Terminated ==> d.state == Terminated
  {
    RunStaysLive(s, flat);
    if s.state == Terminated {
      RemovedStaysRemoved(s, flat);
    }
  }

  lemma UserIsCalledAfterStart(state: State, action: Action, m: Message, results: Results)
    requires Transition(state, action, m).Some? && CallsUser(Transition(state, action, m).value.1, results)
    ensures Transition(state, action, m).value.0 != Started && (state == Started ==> action == RecvInvite)
  {
  }

  /** An action, with inner calls, comes to the same action and some more steps. */
  lemma ActFlattens(s: Server, action: Action, m: Message, results: Results, inner: seq<Call>)
    returns (first: Results, flat: seq<Input>, n: nat)
    requires IsLive(s) && (action == RecvInvite ==> s.running)
    ensures Reaches(s.Act(action, m, first), flat, n, ActAround(s, action, m, results, inner))
    ensures first.send == results.send
    ensures ComesFrom(flat, inner)
    ensures n > 0 <==> EndsInside(s, action, m, results, inner)
    decreases inner, 2
  {
    first, flat, n := results, [], 0;
    AgainAgain(s.Act(action, m, results), 0, 0);
    if s.state != Terminated && Transition(s.state, action, m).Some? {
      var (to, exec) := Transition(s.state, action, m).value;
      OnlyRequestsStart(s.state, action, m);
      if CallsUser(exec, results) {
        UserIsCalledAfterStart(s.state, action, m, results);
        first, flat, n := RowFlattens(s, to, exec, m.response, results, inner);
      }
    }
  }

  lemma RowFlattens(s: Server, to: State, exec: Exec, r: Response, results: Results, inner: seq<Call>)
    returns (first: Results, flat: seq<Input>, n: nat)
    requires s.running && to != Started && CallsUser(exec, results)
    ensures var e := Inside(s, to, exec, r, results, inner);
      && Reaches(s.Take(to, exec, r, first), flat, n, e.Finish(Returned(exec, s.last, results)))
      && (n > 0 <==> to != Terminated && e.state == Terminated)
    ensures first.send == results.send
    ensures ComesFrom(flat, inner)
    decreases inner, 1
  {
    var d, ret := s.(state := to).Effect(exec, r, results), Returned(exec, s.last, results);
    RetimeKeeps(s.(state := to), exec);
    flat, n := PerformAllFlattens(d, inner);
    if to == Terminated {
      first := results;
      FinalRowFlattens(d, flat, n, PerformAll(d, inner), ret);
    } else {
      first := results.(user := 0);
      SucceedingRow(s, to, exec, r, results);
      flat, n := FinishReaches(d, flat, n, PerformAll(d, inner), ret);
    }
  }

  lemma CallFlattens(s: Server, call: Call) returns (first: Results, more: seq<Input>, n: nat)
    requires IsLive(s)
    ensures Reaches(Step(s, Input(call.input.event, first)), more, n, Perform(s, call))
    ensures first.send == call.input.results.send
    ensures ComesFrom(more, call.inner)
    ensures n > 0 <==> CallEndsInside(s, call)
    ensures s.state == Terminated ==> n == 0
    decreases call, 0
  {
    var results, inner := call.input.results, call.inner;
    first, more, n := results, [], 0;
    AgainAgain(Step(s, call.input), 0, 0);
    StepIsAct(s, call.input);
    match ActionOf(s, call.input.event)
    case None =>
    case Some((d, action, m)) =>
      first, more, n := ActFlattens(d, action, m, results, inner);
      StepIsAct(s, Input(call.input.event, first));
  }

  lemma PerformFlattens(s: Server, call: Call) returns (flat: seq<Input>, n: nat)
    requires IsLive(s)
    ensures Reaches(s, flat, n, Perform(s, call))
    ensures flat != [] && flat[0].event == call.input.event && ComesFrom(flat, [call])
    ensures s.state == Terminated ==> n == 0
    decreases call, 1
  {
    var first, more;
    first, more, n := CallFlattens(s, call);
    var input := Input(call.input.event, first);
    flat := [input] + more;
    ComesFromCall(input, more, call);
    RunOfCons(s, input, more);
  }

  lemma PerformAllFlattens(s: Server, calls: seq<Call>) returns (flat: seq<Input>, n: nat)
    requires IsLive(s)
    ensures Reaches(s, flat, n, PerformAll(s, calls))
    ensures ComesFrom(flat, calls)
    ensures s.state == Terminated ==> n == 0 && PerformAll(s, calls).state == Terminated
    decreases calls, 0
  {
    flat, n := [], 0;
    AgainAgain(s, 0, 0);
    if calls != [] {
      var d := Perform(s, calls[0]);
      flat, n := PerformFlattens(s, calls[0]);
      LastsBy(s, flat, n, d);
      var more, m := PerformAllFlattens(d, calls[1..]);
      ReachesOn(s, flat, n, d, more, m, PerformAll(s, calls));
      ComesFromCalls(flat, more, calls);
      flat, n := flat + more, n + m;
    }
  }

  // ----- all nests --------------------------------------------------------

  /** Every nest of calls comes to a run, but for repeated removals. */
  lemma NestsAreRuns(setup: Setup, calls: seq<Call>, s: Server) returns (flat: seq<Input>, n: nat)
    requires setup.manager.Valid() && s == PerformAll(setup.Server(), calls)
    ensures Reaches(setup.Server(), flat, n, s) && ComesFrom(flat, calls)
  {
    flat, n := PerformAllFlattens(setup.Server(), calls);
  }

  lemma {:induction false} RemovalsAreInOrder(log: seq<Output>, n: nat)
    requires PhaseOf(log) == Some(Closed)
    ensures PhaseOf(log + Removals(n)) == Some(Closed)
  {
    if n == 0 {
      assert log + Removals(0) == log;
    } else {
      RemovalsAreInOrder(log, n - 1);
      var more := log + Removals(n);
      assert more[..|more| - 1] == log + Removals(n - 1) && more[|more| - 1] == Remove;
    }
  }

  lemma AgainKeepsWord(setup: Setup, s: Server, n: nat)
    requires KeepsWord(setup, s) && (n > 0 ==> s.state == Terminated)
    ensures KeepsWord(setup, Again(s, n))
  {
    if n == 0 {
      AgainAgain(s, 0, 0);
    } else {
      RemovalsAreInOrder(s.log, n);
      LegalIsWellBehaved(s.log + Removals(n));
    }
  }

  /** Whatever the user does from within its callbacks, the transaction keeps its word. */
  lemma NestsKeepWord(setup: Setup, calls: seq<Call>, s: Server)
    requires setup.manager.Valid() && s == PerformAll(setup.Server(), calls)
    ensures KeepsWord(setup, s)
  {
    var flat, n := NestsAreRuns(setup, calls, s);
    WordIsKept(setup, flat, setup.After(flat));
    AgainKeepsWord(setup, setup.After(flat), n);
  }

  /** The removal is not asked for again. */
  predicate RemovedOnce(log: seq<Output>) {
    forall i :: 0 <= i < |log| && log[i].Remove? ==> i == |log| - 1
  }

  predicate HasNoRemoval(log: seq<Output>) {
    forall i :: 0 <= i < |log| ==> !log[i].Remove?
  }

  /** A transaction that has ended asked for its removal, at the very end, and no other has. */
  predicate IsGone(s: Server) {
    && RemovedOnce(s.log)
    && (if s.state == Terminated then s.log != [] && s.log[|s.log| - 1] == Remove
        else HasNoRemoval(s.log))
  }

  lemma RowsDoNotRemove(exec: Exec, r: Response, last: Option<Response>, results: Results)
    ensures HasNoRemoval(Outputs(exec, r, last, results))
  {
  }

  lemma RemovedAtTheEnd(log: seq<Output>, outputs: seq<Output>, more: seq<Output>, ends: bool)
    requires HasNoRemoval(log) && HasNoRemoval(outputs)
    requires more == log + outputs + if ends then [Remove] else []
    ensures RemovedOnce(more)
    ensures if ends then more != [] && more[|more| - 1] == Remove else HasNoRemoval(more)
  {
  }

  lemma ActRemovesOnce(s: Server, action: Action, m: Message, results: Results)
    requires IsGone(s)
    ensures IsGone(s.Act(action, m, results))
  {
    if s.state != Terminated && Transition(s.state, action, m).Some? {
      var (to, exec) := Transition(s.state, action, m).value;
      var d := s.Take(to, exec, m.response, results);
      TakePutsOut(s, to, exec, m.response, results);
      RowsDoNotRemove(exec, m.response, s.last, results);
      RemovedAtTheEnd(s.log, Outputs(exec, m.response, s.last, results), d.log, Ends(to, exec, s.last, results));
    }
  }

  lemma StepRemovesOnce(s: Server, input: Input)
    requires IsGone(s)
    ensures IsGone(Step(s, input))
  {
    StepIsAct(s, input);
    if ActionOf(s, input.event).Some? {
      var (d, action, m) := ActionOf(s, input.event).value;
      ActRemovesOnce(d, action, m, input.results);
    }
  }

  lemma {:induction false} RunRemovesOnce(s: Server, inputs: seq<Input>)
    requires IsGone(s)
    ensures IsGone(Run(s, inputs))
  {
    if inputs != [] {
      RunRemovesOnce(s, inputs[..|inputs| - 1]);
      StepRemovesOnce(Run(s, inputs[..|inputs| - 1]), inputs[|inputs| - 1]);
    }
  }

  /** Without calls from within callbacks the removal is asked for exactly once. */
  lemma RunsRemoveOnce(setup: Setup, inputs: seq<Input>, s: Server)
    requires setup.manager.Valid() && s == setup.After(inputs)
    ensures IsGone(s)
  {
    RunRemovesOnce(setup.Server(), inputs);
  }

  lemma AgainRemovesOnce(s: Server, n: nat)
    requires IsGone(s) && s.state == Terminated
    ensures RemovedOnce(Again(s, n).log) <==> n == 0
  {
    if n == 0 {
      AgainAgain(s, 0, 0);
    } else {
      assert Again(s, n).log[|s.log| - 1] == Remove;
    }
  }

  lemma CallRemoves(s: Server, call: Call, d: Server)
    requires IsGone(s) && IsLive(s) && d == Perform(s, call) && d.state == Terminated
    ensures RemovedOnce(d.log) <==> !CallEndsInside(s, call)
  {
    var first, more, n := CallFlattens(s, call);
    var x := Step(s, Input(call.input.event, first));
    StepRemovesOnce(s, Input(call.input.event, first));
    RunRemovesOnce(x, more);
    AgainRemovesOnce(Run(x, more), n);
  }

  /** A call asks for the removal again exactly if the transaction ends inside one of the calls that it encloses. */
  lemma RemovalIsRepeated(setup: Setup, calls: seq<Call>, s: Server, call: Call, d: Server)
    requires setup.manager.Valid() && s == PerformAll(setup.Server(), calls) && d == Perform(s, call)
    requires s.state != Terminated && d.state == Terminated
    ensures RemovedOnce(d.log) <==> !CallEndsInside(s, call)
  {
    var flat, n := NestsAreRuns(setup, calls, s);
    AgainAgain(setup.After(flat), 0, 0);
    RunsRemoveOnce(setup, flat, s);
    RunStaysLive(setup.Server(), flat);
    CallRemoves(s, call, d);
  }

  lemma CancelledInside(s: Server, inner: seq<Call>)
    requires s.state != Started && s.state != Terminated && inner == [Call(CANCEL, [])]
    ensures var d := PerformAll(s, inner); d.state == Terminated && d.log == s.log + [Remove]
  {
    PerformWithoutInner(s, CANCEL);
    FailingIsCancelling(s, 1);
    assert inner[1..] == [] && PerformAll(s, inner) == PerformAll(Step(s, CANCEL), []);
  }

  /** The user answers with `r` and cancels. */
  function Refusal(r: Response): seq<Call> {
    [Call(Input(Responds(Message(r, true)), Results(0, 0)), []), Call(CANCEL, [])]
  }

  lemma Answered(s: Server, r: Response, answer: Input)
    requires s.state == Proceeding && C.IsFailure(r)
    requires answer == Input(Responds(Message(r, true)), Results(0, 0))
    ensures var x := Step(s, answer); x.state == Completed && x.log == s.log + [Send(r)]
  {
    assert Step(s, answer) == s.Take(Completed, Proceeding2Completed, r, answer.results);
    TakePutsOut(s, Completed, Proceeding2Completed, r, answer.results);
  }

  lemma RefusedInside(s: Server, r: Response)
    requires s.state == Proceeding && C.IsFailure(r)
    ensures var d := PerformAll(s, Refusal(r)); d.state == Terminated && d.log == s.log + [Send(r), Remove]
  {
    var answer := Input(Responds(Message(r, true)), Results(0, 0));
    var x := Step(s, answer);
    PerformWithoutInner(s, answer);
    Answered(s, r, answer);
    CancelledInside(x, Refusal(r)[1..]);
  }

  /** What happens when the dialog refuses a request at once: it answers, ends, and cancels its transactions. */
  lemma RefusalRemovesTwice(setup: Setup, r: Response, results: Results, call: Call)
    requires C.IsFailure(r) && results.send == 0
    requires call == Call(Input(ReceivesInvite, results), Refusal(r))
    ensures Perform(setup.Server(), call).log == [Send(TRYING), PassUpInvite, Send(r), Remove, Remove]
  {
    var s := setup.Server().(running := true);
    var d := s.(state := Proceeding).Effect(Started2Proceeding, TRYING, results);
    assert d.log == [Send(TRYING), PassUpInvite] && d.state == Proceeding;
    RefusedInside(d, r);
    assert ActionOf(setup.Server(), ReceivesInvite) == Some((s, RecvInvite, NO_MESSAGE));
    assert Perform(setup.Server(), call) == ActAround(s, RecvInvite, NO_MESSAGE, results, call.inner);
    assert Tells(Started2Proceeding, results) == [PassUpInvite];
    assert Inside(s, Proceeding, Started2Proceeding, TRYING, results, call.inner) == PerformAll(d, call.inner);
  }
}
