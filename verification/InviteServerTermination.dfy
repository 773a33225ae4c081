/**
 Which timers end an INVITE server transaction, and by when.
 */
module InviteServerTermination {
  import opened Wrappers
  import opened Timers
  import opened InviteServer
  import opened InviteServerRuns
  import opened InviteServerTheorems

  /**
   While the ACK is awaited over an unreliable transport, a retransmission of the response is due within `T2`, or
   within the initial interval where that is longer.
   */
  lemma RetransmissionIsDue(setup: Setup, inputs: seq<Input>, s: Server)
    requires setup.manager.Valid() && s == setup.After(inputs)
    requires s.state == Completed && !setup.reliable
    ensures IsDueBy(s.timers, s.timerG.id, s.timers.now + s.timerG.timeout)
    ensures s.timerG.timeout <= Max(setup.intervals.g, T2)
  {
    AfterIsGood(setup, inputs, s);
    AfterIsLater(setup, inputs, s);
  }

  /** By when the state of `s` is to end: timers H, I and L count from no later than now. */
  function Deadline(setup: Setup, s: Server): nat {
    match s.state
    case Completed => s.timers.now + setup.intervals.h
    case Confirmed => s.timers.now + setup.IntervalI()
    case Accepted => s.timers.now + setup.intervals.l
    case _ => s.timers.now
  }

  /** While its state lasts, a timer stays due at the deadline that it got when the state was entered. */
  lemma StaysDue(setup: Setup, inputs: seq<Input>, s: Server, more: seq<Input>, d: Server)
    requires setup.manager.Valid() && s == setup.After(inputs) && d == Run(s, more)
    requires HasEndingTimer(s.state) && d.state == s.state
    ensures EndingTimerOf(d) == EndingTimerOf(s)
    ensures IsDueBy(d.timers, EndingTimerOf(d).id, Deadline(setup, s))
  {
    AfterIsGood(setup, inputs, s);
    AfterIsLater(setup, inputs, s);
    RunKeepsGood(s, more, setup.intervals.g);
    RunIsLater(s, more, setup.intervals.g);
  }

  /**
   Whatever happens after `s`: whenever the timer manager has caught up and the deadline has passed, the state
   of `s` has ended.
   */
  lemma TimersEnd(setup: Setup, inputs: seq<Input>, s: Server, more: seq<Input>, d: Server)
    requires setup.manager.Valid() && s == setup.After(inputs) && d == Run(s, more)
    requires HasEndingTimer(s.state) && d.timers.IsCaughtUp()
    ensures d.state == s.state ==> d.timers.now < Deadline(setup, s)
  {
    if d.state == s.state {
      StaysDue(setup, inputs, s, more, d);
      var id := EndingTimerOf(d).id;
      assert id in d.timers.pending && id !in d.timers.Overdue();
    }
  }

  lemma EndingAction(s: Server, action: Action)
    requires Sound(s) && IsEnding(s.state, action) && EndingTimerOf(s).id != INVALID_ID
    ensures s.TimerActionFor(EndingTimerOf(s).id) == Some(action)
  {
  }

  lemma EndingCallback(s: Server, results: Results)
    requires Sound(s) && HasEndingTimer(s.state) && EndingTimerOf(s).id in s.timers.queued
    ensures Step(s, Input(Manages(Dequeued(EndingTimerOf(s).id)), results)).state == Terminated
  {
    var id := EndingTimerOf(s).id;
    var d := s.(timers := s.timers.Dequeue(id));
    var action := match s.state case Completed => TimerH case Confirmed => TimerI case _ => TimerL;
    EndingTimer(d, action, results);
    EndingAction(d, action);
    assert Step(s, Input(Manages(Dequeued(id)), results)) == d.Act(action, NO_MESSAGE, results);
  }

  /** The callback of that timer ends the transaction, however late it runs, if the state has lasted. */
  lemma {:induction false} CallbackEnds(
      setup: Setup, inputs: seq<Input>, s: Server, more: seq<Input>, d: Server, results: Results)
    requires setup.manager.Valid() && s == setup.After(inputs) && d == Run(s, more)
    requires HasEndingTimer(s.state) && d.state == s.state && EndingTimerOf(s).id in d.timers.queued
    ensures Step(d, Input(Manages(Dequeued(EndingTimerOf(s).id)), results)).state == Terminated
  {
    StaysDue(setup, inputs, s, more, d);
    AfterIsGood(setup, inputs, s);
    RunKeepsGood(s, more, setup.intervals.g);
    EndingCallback(d, results);
  }

  /** What the user and the network can rely on. */
  ghost predicate KeepsWord(setup: Setup, s: Server) {
    && WellBehaved(s.log) && InPhase(s)
    && (HasEndingTimer(s.state) ==> IsDueBy(s.timers, EndingTimerOf(s).id, Deadline(setup, s)))
    && (s.state == Completed && !setup.reliable ==>
          && IsDueBy(s.timers, s.timerG.id, s.timers.now + s.timerG.timeout)
          && s.timerG.timeout <= Max(setup.intervals.g, T2))
  }

  lemma WordIsKept(setup: Setup, inputs: seq<Input>, s: Server)
    requires setup.manager.Valid() && s == setup.After(inputs)
    ensures KeepsWord(setup, s)
  {
    LogsAreWellBehaved(setup, inputs, s);
    if HasEndingTimer(s.state) {
      StaysDue(setup, inputs, s, [], s);
    }
    if s.state == Completed && !setup.reliable {
      RetransmissionIsDue(setup, inputs, s);
    }
  }

  // ----- the manager's own runs -------------------------------------------

  /** A run of the manager's threads alone, in whatever order they work. */
  predicate IsManagerRun(s: Server, inputs: seq<Input>) {
    inputs == [] ||
    var front, e := inputs[..|inputs| - 1], inputs[|inputs| - 1].event;
    IsManagerRun(s, front) && e.Manages? && IsWork(Run(s, front).timers, e.move)
  }

  lemma ManagerRunOfSnoc(s: Server, front: seq<Input>, input: Input)
    ensures Run(s, front + [input]) == Step(Run(s, front), input)
    ensures IsManagerRun(s, front + [input]) <==>
      IsManagerRun(s, front) && input.event.Manages? && IsWork(Run(s, front).timers, input.event.move)
  {
    assert (front + [input])[..|front|] == front;
  }

  /** Timer G, if it is in use, is not zero. */
  predicate IsSlow(s: Server, g: nat) {
    s.state == Completed && !s.reliable ==> g > 0
  }

  lemma TimersDoNotSchedule(state: State, action: Action)
    requires state != Started && action in {TimerH, TimerI, TimerG, TimerL}
    requires action == TimerG ==> state != Completed
    ensures Transition(state, action, NO_MESSAGE).Some? ==>
      Transition(state, action, NO_MESSAGE).value.1 in
        {Completed2TerminatedTimerH, Confirmed2TerminatedTimerI, Accepted2TerminatedTimerL}
  {
  }

  lemma TakeKeepsTimers(s: Server, to: State, exec: Exec, results: Results)
    ensures s.Take(to, exec, TRYING, results).timers == s.Retime(exec).timers
  {
  }

  lemma TimerKeepsWork(s: Server, action: Action, results: Results, g: nat)
    requires s.timers.Valid() && GIsPaced(s, g) && s.state != Started
    requires action in {TimerH, TimerI, TimerG, TimerL}
    requires action == TimerG && s.state == Completed ==> g > 0
    ensures var d := s.Act(action, NO_MESSAGE, results);
      d.timers.Work() == s.timers.Work() && d.timers.now == s.timers.now
  {
    if s.state != Terminated && Transition(s.state, action, NO_MESSAGE).Some? {
      var (to, exec) := Transition(s.state, action, NO_MESSAGE).value;
      TakeKeepsTimers(s, to, exec, results);
      if action == TimerG && s.state == Completed {
        ScheduleKeepsWork(s.timers, s.DoubledG());
      } else {
        TimersDoNotSchedule(s.state, action);
      }
    }
  }

  lemma FiresReducesWork(s: Server, id: nat, results: Results, g: nat)
    requires Good(s, g) && IsSlow(s, g) && s.state != Started && id in s.timers.queued
    ensures var d := s.(timers := s.timers.Dequeue(id)).TimerFires(id, results);
      d.timers.Work() < s.timers.Work() && d.timers.now == s.timers.now
  {
    var d := s.(timers := s.timers.Dequeue(id));
    DequeueReducesWork(s.timers, id);
    if d.TimerActionFor(id).Some? {
      TimerKeepsWork(d, d.TimerActionFor(id).value, results, g);
    }
  }

  lemma WorkSteps(s: Server, input: Input)
    requires input.event.Manages? && IsWork(s.timers, input.event.move)
    ensures match input.event.move
      case Expired(id) => Step(s, input) == s.(timers := s.timers.Expire(id))
      case Dequeued(id) => Step(s, input) == s.(timers := s.timers.Dequeue(id)).TimerFires(id, input.results)
      case _ => true
  {
  }

  /** Whatever a thread does leaves the threads less to do. */
  lemma MoveReducesWork(s: Server, input: Input, g: nat)
    requires Good(s, g) && IsSlow(s, g) && s.state != Started
    requires input.event.Manages? && IsWork(s.timers, input.event.move)
    ensures var d := Step(s, input); d.timers.Work() < s.timers.Work() && d.timers.now == s.timers.now
  {
    match input.event.move
    case Expired(id) =>
      ExpireReducesWork(s.timers, id);
      WorkSteps(s, input);
    case Dequeued(id) =>
      FiresReducesWork(s, id, input.results, g);
      WorkSteps(s, input);
  }

  lemma TimerStaysOrEnds(s: Server, action: Action, results: Results)
    requires s.state != Started && action in {TimerH, TimerI, TimerG, TimerL}
    ensures var d := s.Act(action, NO_MESSAGE, results);
      d.state in {s.state, Terminated} && d.reliable == s.reliable && d.timers.now == s.timers.now
  {
    if s.state != Terminated && Transition(s.state, action, NO_MESSAGE).Some? {
      var (to, exec) := Transition(s.state, action, NO_MESSAGE).value;
      TakePutsOut(s, to, exec, TRYING, results);
    }
  }

  lemma TimerEventStaysOrEnds(s: Server, input: Input)
    requires s.state != Started && input.event.Manages?
    ensures var d := Step(s, input);
      && d.state in {s.state, Terminated} && d.reliable == s.reliable
      && (!input.event.move.Ticked? ==> d.timers.now == s.timers.now)
  {
    var d := s.(timers := Apply(s.timers, input.event.move));
    if input.event.move.Dequeued? && d.TimerActionFor(input.event.move.id).Some? {
      TimerStaysOrEnds(d, d.TimerActionFor(input.event.move.id).value, input.results);
    }
  }

  /** The threads move a transaction to no other state than the final one, and take no time for it. */
  lemma {:induction false} ManagerRunStaysOrEnds(s: Server, inputs: seq<Input>)
    requires s.state != Started && IsManagerRun(s, inputs)
    ensures var d := Run(s, inputs);
      d.state in {s.state, Terminated} && d.reliable == s.reliable && d.timers.now == s.timers.now
  {
    if inputs != [] {
      var front := inputs[..|inputs| - 1];
      ManagerRunStaysOrEnds(s, front);
      TimerEventStaysOrEnds(Run(s, front), inputs[|inputs| - 1]);
    }
  }

  /** Every run of the threads is bounded by the work that there is. */
  lemma {:induction false} ManagerRunsAreBounded(s: Server, inputs: seq<Input>, g: nat)
    requires Good(s, g) && IsSlow(s, g) && s.state != Started && IsManagerRun(s, inputs)
    ensures Run(s, inputs).timers.Work() + |inputs| <= s.timers.Work()
  {
    if inputs != [] {
      var front := inputs[..|inputs| - 1];
      ManagerRunsAreBounded(s, front, g);
      ManagerRunStaysOrEnds(s, front);
      RunKeepsGood(s, front, g);
      MoveReducesWork(Run(s, front), inputs[|inputs| - 1], g);
    }
  }

  const SMOOTH := Results(0, 0)

  /** Retransmitting at once, the server needs a last response to send, and must not fail in sending it. */
  predicate IsSpinning(s: Server) {
    s.state == Completed && !s.reliable && s.last.Some?
  }

  lemma TimerGSpins(s: Server)
    requires IsSpinning(s)
    ensures IsSpinning(s.Act(TimerG, NO_MESSAGE, SMOOTH))
  {
    TakePutsOut(s, Completed, Completed2CompletedTimerG, TRYING, SMOOTH);
  }

  /** With an interval of zero, timer G keeps the threads busy. */
  lemma NextSpin(s: Server) returns (input: Input)
    requires Good(s, 0) && IsSpinning(s)
    ensures input.event.Manages? && IsWork(s.timers, input.event.move)
    ensures Good(Step(s, input), 0) && IsSpinning(Step(s, input))
  {
    input := Input(Manages(if s.timerG.id in s.timers.queued then Dequeued(s.timerG.id) else Expired(s.timerG.id)),
                   SMOOTH);
    StepKeepsGood(s, input, 0);
    if input.event.move.Dequeued? {
      TimerGSpins(s.(timers := s.timers.Dequeue(s.timerG.id)));
    }
  }

  lemma Spins(s: Server, n: nat) returns (more: seq<Input>)
    requires Good(s, 0) && IsSpinning(s)
    ensures IsManagerRun(s, more) && |more| == n
  {
    more := [];
    var d := s;
    while |more| < n
      invariant |more| <= n && d == Run(s, more) && IsManagerRun(s, more)
      invariant Good(d, 0) && IsSpinning(d)
    {
      var input := NextSpin(d);
      ManagerRunOfSnoc(s, more, input);
      more := more + [input];
      d := Step(d, input);
    }
  }

  ghost predicate IsBound(s: Server, bound: nat) {
    forall inputs :: IsManagerRun(s, inputs) ==> |inputs| <= bound
  }

  ghost predicate HasBoundedRuns(s: Server) {
    exists bound :: IsBound(s, bound)
  }

  lemma WorkIsBound(s: Server, g: nat)
    requires Good(s, g) && IsSlow(s, g) && s.state != Started
    ensures IsBound(s, s.timers.Work())
  {
    forall inputs | IsManagerRun(s, inputs)
      ensures |inputs| <= s.timers.Work()
    {
      ManagerRunsAreBounded(s, inputs, g);
    }
  }

  lemma NothingIsBound(s: Server, bound: nat, g: nat)
    requires Good(s, g) && !IsSlow(s, g) && s.last.Some?
    ensures !IsBound(s, bound)
  {
    var more := Spins(s, bound + 1);
  }

  lemma SlowIsBounded(s: Server, g: nat)
    requires Good(s, g) && s.state != Started && LastFits(s.state, s.last)
    ensures HasBoundedRuns(s) <==> IsSlow(s, g)
  {
    if IsSlow(s, g) {
      WorkIsBound(s, g);
    } else {
      forall bound
        ensures !IsBound(s, bound)
      {
        NothingIsBound(s, bound, g);
      }
    }
  }

  /** After every run, the threads catch up in whatever order they work, exactly if timer G is not in use at zero. */
  lemma ManagerCatchesUp(setup: Setup, inputs: seq<Input>, s: Server)
    requires setup.manager.Valid() && s == setup.After(inputs) && s.state != Started
    ensures HasBoundedRuns(s) <==> IsSlow(s, setup.intervals.g)
  {
    AfterIsGood(setup, inputs, s);
    LogsAreWellBehaved(setup, inputs, s);
    SlowIsBounded(s, setup.intervals.g);
  }

  // ----- the end ----------------------------------------------------------

  lemma {:induction false} RunOfCons(s: Server, first: Input, rest: seq<Input>)
    ensures Run(s, [first] + rest) == Run(Step(s, first), rest)
  {
    var all := [first] + rest;
    if rest == [] {
      assert all == [first] && all[..0] == [] && Run(s, []) == s;
    } else {
      assert all[..|all| - 1] == [first] + rest[..|rest| - 1];
      RunOfCons(s, first, rest[..|rest| - 1]);
    }
  }

  /**
   In `Completed`, `Confirmed` and `Accepted` the timers alone end the transaction, with no help from the network:
   once the deadline has passed, the transaction has ended whenever the threads wait again.
   */
  lemma EveryManagerRunEnds(
      setup: Setup, inputs: seq<Input>, s: Server, results: Results, late: Server, more: seq<Input>)
    requires setup.manager.Valid() && s == setup.After(inputs) && HasEndingTimer(s.state)
    requires late == Step(s, Input(Manages(Ticked(Deadline(setup, s) - s.timers.now)), results))
    requires IsManagerRun(late, more) && Run(late, more).timers.IsIdle()
    ensures Run(late, more).state == Terminated
  {
    var wait := Input(Manages(Ticked(Deadline(setup, s) - s.timers.now)), results);
    ManagerRunStaysOrEnds(late, more);
    IdleIsCaughtUp(Run(late, more).timers);
    RunOfCons(s, wait, more);
    TimersEnd(setup, inputs, s, [wait] + more, Run(late, more));
  }

  lemma ProceedingIgnores(s: Server, input: Input)
    requires s.state == Proceeding && input.event.Manages?
    ensures Step(s, input).state == Proceeding && Step(s, input).log == s.log
  {
    var d := s.(timers := Apply(s.timers, input.event.move));
    assert forall action ::
      action in {TimerH, TimerI, TimerG, TimerL} ==> d.Act(action, NO_MESSAGE, input.results) == d;
  }

  /** Before its user has chosen a final response the server waits, however long that takes. */
  lemma {:induction false} ProceedingWaits(s: Server, inputs: seq<Input>)
    requires s.state == Proceeding
    requires forall i :: 0 <= i < |inputs| ==> inputs[i].event.Manages?
    ensures Run(s, inputs).state == Proceeding && Run(s, inputs).log == s.log
  {
    if inputs != [] {
      ProceedingWaits(s, inputs[..|inputs| - 1]);
      ProceedingIgnores(Run(s, inputs[..|inputs| - 1]), inputs[|inputs| - 1]);
    }
  }
}
