/**
 Which timers end an INVITE client transaction, and by when.
 */
module InviteClientTermination {
  import opened Wrappers
  import opened Timers
  import opened InviteClient
  import opened InviteClientRuns
  import opened InviteClientTheorems

  lemma GoodResends(c: Client, t0: nat, a: nat, expiry: nat)
    requires Good(c, t0, a, expiry) && c.state == Calling && !c.reliable
    ensures IsDueBy(c.timers, c.timerA.id, c.timers.now + c.timerA.timeout)
    ensures Invites(c.log) > 0 && c.timerA.timeout == Interval(a, Invites(c.log) - 1)
  {
  }

  /**
   While no response has come over an unreliable transport, a retransmission of the request is due within the
   current interval of timer A.
   */
  lemma RetransmissionIsDue(launch: Launch, inputs: seq<Input>, c: Client)
    requires launch.manager.Valid() && c == launch.After(inputs)
    requires c.state == Calling && !launch.reliable
    ensures IsDueBy(c.timers, c.timerA.id, c.timers.now + c.timerA.timeout)
    ensures Invites(c.log) > 0 && c.timerA.timeout == Interval(launch.intervals.a, Invites(c.log) - 1)
  {
    AfterIsGood(launch, inputs, c);
    AfterIsLater(launch, inputs, c);
    GoodResends(c, launch.manager.now, launch.intervals.a, launch.manager.now + launch.intervals.b);
  }

  /** By when the state of `c` is to end: timer B counts from the start, timers D and M from no later than now. */
  function Deadline(launch: Launch, c: Client): nat {
    match c.state
    case Calling => launch.manager.now + launch.intervals.b
    case Completed => c.timers.now + launch.IntervalD()
    case Accepted => c.timers.now + launch.intervals.m
    case _ => c.timers.now
  }

  /** While its state lasts, a timer stays due at the deadline that it got when the state was entered. */
  lemma StaysDue(launch: Launch, inputs: seq<Input>, c: Client, more: seq<Input>, d: Client)
    requires launch.manager.Valid() && c == launch.After(inputs) && d == Run(c, more)
    requires HasEndingTimer(c.state) && d.state == c.state
    ensures EndingTimerOf(d) == EndingTimerOf(c)
    ensures IsDueBy(d.timers, EndingTimerOf(d), Deadline(launch, c))
  {
    var t0 := launch.manager.now;
    AfterIsGood(launch, inputs, c);
    AfterIsLater(launch, inputs, c);
    RunKeepsGood(c, more, t0, launch.intervals.a, t0 + launch.intervals.b);
    RunIsLater(c, more, t0, launch.intervals.a, t0 + launch.intervals.b);
  }

  /**
   Whatever happens after `c`: whenever the timer manager has caught up and the deadline has passed, the state
   of `c` has ended.
   */
  lemma TimersEnd(launch: Launch, inputs: seq<Input>, c: Client, more: seq<Input>, d: Client)
    requires launch.manager.Valid() && c == launch.After(inputs) && d == Run(c, more)
    requires HasEndingTimer(c.state) && d.timers.IsCaughtUp()
    ensures d.state == c.state ==> d.timers.now < Deadline(launch, c)
  {
    if d.state == c.state {
      StaysDue(launch, inputs, c, more, d);
      var id := EndingTimerOf(d);
      assert id in d.timers.pending && id !in d.timers.Overdue();
    }
  }

  lemma EndingCallback(c: Client, results: Results)
    requires Sound(c) && HasEndingTimer(c.state) && EndingTimerOf(c) in c.timers.queued
    ensures Step(c, Input(Manages(Dequeued(EndingTimerOf(c))), results)).state == Terminated
  {
    EndingTimer(c.(timers := c.timers.Dequeue(EndingTimerOf(c))), results);
  }

  /** The callback of that timer ends the transaction, however late it runs, if the state has lasted. */
  lemma {:induction false} CallbackEnds(
      launch: Launch, inputs: seq<Input>, c: Client, more: seq<Input>, d: Client, results: Results)
    requires launch.manager.Valid() && c == launch.After(inputs) && d == Run(c, more)
    requires HasEndingTimer(c.state) && d.state == c.state && EndingTimerOf(c) in d.timers.queued
    ensures Step(d, Input(Manages(Dequeued(EndingTimerOf(c))), results)).state == Terminated
  {
    StaysDue(launch, inputs, c, more, d);
    var t0 := launch.manager.now;
    AfterIsGood(launch, inputs, c);
    RunKeepsGood(c, more, t0, launch.intervals.a, t0 + launch.intervals.b);
    EndingCallback(d, results);
  }

  /** What the user and the network can rely on at any moment after the start. */
  ghost predicate KeepsWord(launch: Launch, c: Client) {
    var n, t0, a := Invites(c.log), launch.manager.now, launch.intervals.a;
    && WellBehaved(c.log) && PhaseOf(c.log) == Some(PhaseFor(c.state))
    && n >= 1 && t0 + Interval(a, n - 1) <= c.timers.now + a && (launch.reliable ==> n == 1)
    && (HasEndingTimer(c.state) ==> IsDueBy(c.timers, EndingTimerOf(c), Deadline(launch, c)))
    && (c.state == Calling && !launch.reliable ==> IsDueBy(c.timers, c.timerA.id, c.timers.now + c.timerA.timeout))
  }

  lemma WordIsKept(launch: Launch, inputs: seq<Input>, c: Client)
    requires launch.manager.Valid() && c == launch.After(inputs)
    ensures KeepsWord(launch, c)
  {
    LogsAreWellBehaved(launch, inputs, c);
    RequestsTakeTime(launch, inputs, c);
    if HasEndingTimer(c.state) {
      StaysDue(launch, inputs, c, [], c);
    }
    if c.state == Calling && !launch.reliable {
      RetransmissionIsDue(launch, inputs, c);
    }
  }

  // ----- the manager's own runs -------------------------------------------

  /** A run of the manager's threads alone, in whatever order they work. */
  predicate IsManagerRun(c: Client, inputs: seq<Input>) {
    inputs == [] ||
    var front, e := inputs[..|inputs| - 1], inputs[|inputs| - 1].event;
    IsManagerRun(c, front) && e.Manages? && IsWork(Run(c, front).timers, e.move)
  }

  lemma ManagerRunOfSnoc(c: Client, front: seq<Input>, input: Input)
    ensures Run(c, front + [input]) == Step(Run(c, front), input)
    ensures IsManagerRun(c, front + [input]) <==>
      IsManagerRun(c, front) && input.event.Manages? && IsWork(Run(c, front).timers, input.event.move)
  {
    assert (front + [input])[..|front|] == front;
  }

  /** Timer A, if it is in use, is not zero. */
  predicate IsSlow(c: Client, a: nat) {
    c.state == Calling && !c.reliable ==> a > 0
  }

  lemma TimersDoNotSchedule(state: State, action: Action)
    requires state != Started && action in {TimerA, TimerB, TimerD, TimerM}
    requires action == TimerA ==> state != Calling
    ensures Transition(state, action).Some? ==>
      Transition(state, action).value.1 in
        {Calling2TerminatedTimerB, Completed2TerminatedTimerD, Accepted2TerminatedTimerM}
  {
  }

  lemma TakeKeepsTimers(c: Client, to: State, exec: Exec, results: Results)
    ensures c.Take(to, exec, NO_RESPONSE, results).timers == c.Retime(exec).timers
  {
  }

  lemma TimerKeepsWork(c: Client, action: Action, results: Results, t0: nat, a: nat)
    requires c.timers.Valid() && Paced(c, t0, a) && c.state != Started
    requires action in {TimerA, TimerB, TimerD, TimerM}
    requires action == TimerA && c.state == Calling ==> a > 0
    ensures var d := c.Act(action, NO_RESPONSE, results);
      d.timers.Work() == c.timers.Work() && d.timers.now == c.timers.now
  {
    if c.state != Terminated && Transition(c.state, action).Some? {
      var (to, exec) := Transition(c.state, action).value;
      TakeKeepsTimers(c, to, exec, results);
      if action == TimerA && c.state == Calling {
        IntervalAtLeast(a, Invites(c.log) - 1);
        ScheduleKeepsWork(c.timers, 2 * c.timerA.timeout);
      } else {
        TimersDoNotSchedule(c.state, action);
      }
    }
  }

  lemma FiresReducesWork(c: Client, id: nat, results: Results, t0: nat, a: nat, expiry: nat)
    requires Good(c, t0, a, expiry) && IsSlow(c, a) && id in c.timers.queued
    ensures var d := c.(timers := c.timers.Dequeue(id)).TimerFires(id, results);
      d.timers.Work() < c.timers.Work() && d.timers.now == c.timers.now
  {
    var d := c.(timers := c.timers.Dequeue(id));
    DequeueReducesWork(c.timers, id);
    if d.TimerActionFor(id).Some? {
      TimerKeepsWork(d, d.TimerActionFor(id).value, results, t0, a);
    }
  }

  lemma WorkSteps(c: Client, input: Input)
    requires input.event.Manages? && IsWork(c.timers, input.event.move)
    ensures match input.event.move
      case Expired(id) => Step(c, input) == c.(timers := c.timers.Expire(id))
      case Dequeued(id) => Step(c, input) == c.(timers := c.timers.Dequeue(id)).TimerFires(id, input.results)
      case _ => true
  {
  }

  /** Whatever a thread does leaves the threads less to do. */
  lemma MoveReducesWork(c: Client, input: Input, t0: nat, a: nat, expiry: nat)
    requires Good(c, t0, a, expiry) && IsSlow(c, a)
    requires input.event.Manages? && IsWork(c.timers, input.event.move)
    ensures var d := Step(c, input); d.timers.Work() < c.timers.Work() && d.timers.now == c.timers.now
  {
    match input.event.move
    case Expired(id) =>
      ExpireReducesWork(c.timers, id);
      WorkSteps(c, input);
    case Dequeued(id) =>
      FiresReducesWork(c, id, input.results, t0, a, expiry);
      WorkSteps(c, input);
  }

  lemma TimerStaysOrEnds(c: Client, action: Action, results: Results)
    requires c.state != Started && action in {TimerA, TimerB, TimerD, TimerM}
    ensures var d := c.Act(action, NO_RESPONSE, results);
      d.state in {c.state, Terminated} && d.reliable == c.reliable && d.timers.now == c.timers.now
  {
    if c.state != Terminated && Transition(c.state, action).Some? {
      var (to, exec) := Transition(c.state, action).value;
      TakePutsOut(c, to, exec, NO_RESPONSE, results);
    }
  }

  lemma TimerEventStaysOrEnds(c: Client, input: Input)
    requires c.state != Started && input.event.Manages?
    ensures var d := Step(c, input);
      && d.state in {c.state, Terminated} && d.reliable == c.reliable
      && (!input.event.move.Ticked? ==> d.timers.now == c.timers.now)
  {
    var d := c.(timers := Apply(c.timers, input.event.move));
    if input.event.move.Dequeued? && d.TimerActionFor(input.event.move.id).Some? {
      TimerStaysOrEnds(d, d.TimerActionFor(input.event.move.id).value, input.results);
    }
  }

  /** The threads move a transaction to no other state than the final one, and take no time for it. */
  lemma {:induction false} ManagerRunStaysOrEnds(c: Client, inputs: seq<Input>)
    requires c.state != Started && IsManagerRun(c, inputs)
    ensures var d := Run(c, inputs);
      d.state in {c.state, Terminated} && d.reliable == c.reliable && d.timers.now == c.timers.now
  {
    if inputs != [] {
      var front := inputs[..|inputs| - 1];
      ManagerRunStaysOrEnds(c, front);
      TimerEventStaysOrEnds(Run(c, front), inputs[|inputs| - 1]);
    }
  }

  /** Every run of the threads is bounded by the work that there is. */
  lemma {:induction false} ManagerRunsAreBounded(c: Client, inputs: seq<Input>, t0: nat, a: nat, expiry: nat)
    requires Good(c, t0, a, expiry) && IsSlow(c, a) && IsManagerRun(c, inputs)
    ensures Run(c, inputs).timers.Work() + |inputs| <= c.timers.Work()
  {
    if inputs != [] {
      var front := inputs[..|inputs| - 1];
      ManagerRunsAreBounded(c, front, t0, a, expiry);
      ManagerRunStaysOrEnds(c, front);
      RunKeepsGood(c, front, t0, a, expiry);
      MoveReducesWork(Run(c, front), inputs[|inputs| - 1], t0, a, expiry);
    }
  }

  lemma TimerASpins(c: Client, results: Results)
    requires c.state == Calling
    ensures var d := c.TimerFires(c.timerA.id, results); d.state == Calling && d.reliable == c.reliable
  {
  }

  lemma {:induction false} NothingDoubles(n: nat)
    ensures Interval(0, n) == 0
  {
    if n > 0 {
      NothingDoubles(n - 1);
    }
  }

  /** With an interval of zero, timer A keeps the threads busy. */
  lemma NextSpin(c: Client, results: Results, t0: nat, expiry: nat) returns (input: Input)
    requires Good(c, t0, 0, expiry) && c.state == Calling && !c.reliable
    ensures input.event.Manages? && IsWork(c.timers, input.event.move)
    ensures var d := Step(c, input); Good(d, t0, 0, expiry) && d.state == Calling && !d.reliable
  {
    NothingDoubles(Invites(c.log) - 1);
    input := Input(Manages(if c.timerA.id in c.timers.queued then Dequeued(c.timerA.id) else Expired(c.timerA.id)),
                   results);
    StepKeepsGood(c, input, t0, 0, expiry);
    if input.event.move.Dequeued? {
      TimerASpins(c.(timers := c.timers.Dequeue(c.timerA.id)), results);
    }
  }

  lemma Spins(c: Client, results: Results, n: nat, t0: nat, expiry: nat) returns (more: seq<Input>)
    requires Good(c, t0, 0, expiry) && c.state == Calling && !c.reliable
    ensures IsManagerRun(c, more) && |more| == n
  {
    more := [];
    var d := c;
    while |more| < n
      invariant |more| <= n && d == Run(c, more) && IsManagerRun(c, more)
      invariant Good(d, t0, 0, expiry) && d.state == Calling && !d.reliable
    {
      var input := NextSpin(d, results, t0, expiry);
      ManagerRunOfSnoc(c, more, input);
      more := more + [input];
      d := Step(d, input);
    }
  }

  ghost predicate IsBound(c: Client, bound: nat) {
    forall inputs :: IsManagerRun(c, inputs) ==> |inputs| <= bound
  }

  ghost predicate HasBoundedRuns(c: Client) {
    exists bound :: IsBound(c, bound)
  }

  lemma WorkIsBound(c: Client, t0: nat, a: nat, expiry: nat)
    requires Good(c, t0, a, expiry) && IsSlow(c, a)
    ensures IsBound(c, c.timers.Work())
  {
    forall inputs | IsManagerRun(c, inputs)
      ensures |inputs| <= c.timers.Work()
    {
      ManagerRunsAreBounded(c, inputs, t0, a, expiry);
    }
  }

  lemma NothingIsBound(c: Client, bound: nat, results: Results, t0: nat, a: nat, expiry: nat)
    requires Good(c, t0, a, expiry) && !IsSlow(c, a)
    ensures !IsBound(c, bound)
  {
    var more := Spins(c, results, bound + 1, t0, expiry);
  }

  lemma SlowIsBounded(c: Client, results: Results, t0: nat, a: nat, expiry: nat)
    requires Good(c, t0, a, expiry)
    ensures HasBoundedRuns(c) <==> IsSlow(c, a)
  {
    if IsSlow(c, a) {
      WorkIsBound(c, t0, a, expiry);
    } else {
      forall bound
        ensures !IsBound(c, bound)
      {
        NothingIsBound(c, bound, results, t0, a, expiry);
      }
    }
  }

  /** After every run, the threads catch up in whatever order they work, exactly if timer A is not in use at zero. */
  lemma ManagerCatchesUp(launch: Launch, inputs: seq<Input>, c: Client)
    requires launch.manager.Valid() && c == launch.After(inputs)
    ensures HasBoundedRuns(c) <==> IsSlow(c, launch.intervals.a)
  {
    var t0, a, expiry := launch.manager.now, launch.intervals.a, launch.manager.now + launch.intervals.b;
    AfterIsGood(launch, inputs, c);
    SlowIsBounded(c, launch.results, t0, a, expiry);
  }

  // ----- the end ----------------------------------------------------------

  /** The time that is left before the deadline. */
  function Remaining(launch: Launch, c: Client): nat {
    if c.timers.now < Deadline(launch, c) then Deadline(launch, c) - c.timers.now else 0
  }

  lemma {:induction false} RunOfCons(c: Client, first: Input, rest: seq<Input>)
    ensures Run(c, [first] + rest) == Run(Step(c, first), rest)
  {
    var all := [first] + rest;
    if rest == [] {
      assert all == [first] && all[..0] == [] && Run(c, []) == c;
    } else {
      assert all[..|all| - 1] == [first] + rest[..|rest| - 1];
      RunOfCons(c, first, rest[..|rest| - 1]);
    }
  }

  /**
   In `Calling`, `Completed` and `Accepted` the timers alone end the transaction, with no help from the network:
   once the deadline has passed, the transaction has ended whenever the threads wait again.
   */
  lemma EveryManagerRunEnds(
      launch: Launch, inputs: seq<Input>, c: Client, results: Results, late: Client, more: seq<Input>)
    requires launch.manager.Valid() && c == launch.After(inputs) && HasEndingTimer(c.state)
    requires late == Step(c, Input(Manages(Ticked(Remaining(launch, c))), results))
    requires IsManagerRun(late, more) && Run(late, more).timers.IsIdle()
    ensures Run(late, more).state == Terminated
  {
    var wait := Input(Manages(Ticked(Remaining(launch, c))), results);
    ManagerRunStaysOrEnds(late, more);
    IdleIsCaughtUp(Run(late, more).timers);
    RunOfCons(c, wait, more);
    TimersEnd(launch, inputs, c, [wait] + more, Run(late, more));
  }

  lemma ProceedingIgnores(c: Client, input: Input)
    requires c.state == Proceeding && input.event.Manages?
    ensures Step(c, input).state == Proceeding && Step(c, input).log == c.log
  {
    var d := c.(timers := Apply(c.timers, input.event.move));
    assert forall action ::
      action in {TimerA, TimerB, TimerD, TimerM} ==> d.Act(action, NO_RESPONSE, input.results) == d;
  }

  /** In `Proceeding` they never do: the transaction waits for the network or its user. */
  lemma {:induction false} ProceedingWaits(c: Client, inputs: seq<Input>)
    requires c.state == Proceeding
    requires forall i :: 0 <= i < |inputs| ==> inputs[i].event.Manages?
    ensures Run(c, inputs).state == Proceeding && Run(c, inputs).log == c.log
  {
    if inputs != [] {
      ProceedingWaits(c, inputs[..|inputs| - 1]);
      ProceedingIgnores(Run(c, inputs[..|inputs| - 1]), inputs[|inputs| - 1]);
    }
  }
}
