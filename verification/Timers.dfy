/**
 The timer manager that all transactions share. A scheduled timer stays on the
 pending list until it expires, which moves it to the queue of callbacks to
 run, or until it is cancelled. A timer already in the queue is beyond the
 reach of cancellation.
 */
module Timers {

  const INVALID_ID: nat := 0

  /** A transaction's timer: the identifier of its latest schedule, and its current interval in milliseconds. */
  datatype Timer = Timer(id: nat, timeout: nat)

  datatype Manager = Manager(now: nat, nextId: nat, deadlines: map<nat, nat>, pending: set<nat>, queued: set<nat>) {

    ghost predicate Valid() {
      && nextId > INVALID_ID
      && pending !! queued
      && (forall id :: id in pending || id in queued ==> id in deadlines)
      && (forall id :: id in deadlines ==> INVALID_ID < id < nextId)
      && (forall id :: id in queued ==> id in deadlines && deadlines[id] <= now)
    }

    function Schedule(timeout: nat): (m: Manager)
      ensures Valid() ==> m.Valid()
    {
      Manager(now, nextId + 1, deadlines[nextId := now + timeout], pending + {nextId}, queued)
    }

    function Cancel(id: nat): (m: Manager)
      ensures Valid() ==> m.Valid()
    {
      this.(pending := pending - {id})
    }

    /** Time passes. */
    function Tick(milliseconds: nat): (m: Manager)
      ensures Valid() ==> m.Valid()
    {
      this.(now := now + milliseconds)
    }

    /** A pending timer whose deadline has passed is queued. */
    function Expire(id: nat): (m: Manager)
      ensures Valid() ==> m.Valid()
    {
      if id in pending && id in deadlines && deadlines[id] <= now
      then this.(pending := pending - {id}, queued := queued + {id})
      else this
    }

    /** The callback of a queued timer is taken up. */
    function Dequeue(id: nat): (m: Manager)
      ensures Valid() ==> m.Valid()
    {
      this.(queued := queued - {id})
    }

    /** The pending timers whose deadline has passed. */
    function Overdue(): set<nat> {
      set id | id in pending && id in deadlines && deadlines[id] <= now
    }

    /** The manager's thread has nothing to do: no timer is overdue, and no callback is waiting. */
    ghost predicate IsCaughtUp() {
      queued == {} && Overdue() == {}
    }

    /** `id` is at the head of the pending list, which is ordered by deadline. */
    ghost predicate IsHead(id: nat) {
      && id in pending && id in deadlines
      && forall other :: other in pending && other in deadlines ==> deadlines[id] <= deadlines[other]
    }

    /** The threads wait: the queue is empty, and the timer that they look at is not due. */
    ghost predicate IsIdle() {
      queued == {} && forall id :: IsHead(id) ==> id !in Overdue()
    }

    /** How much the thread has to do before it has caught up. */
    function Work(): nat {
      2 * |Overdue()| + |queued|
    }
  }

  /** The timer has neither been cancelled nor had its callback run. */
  ghost predicate IsArmed(m: Manager, id: nat) {
    id in m.pending || id in m.queued
  }

  /** The timer will have its callback run, and its deadline is not after `deadline`. */
  ghost predicate IsDueBy(m: Manager, id: nat, deadline: nat) {
    IsArmed(m, id) && id in m.deadlines && m.deadlines[id] <= deadline
  }

  /** No deadline is changed or forgotten. */
  ghost predicate KeepsDeadlines(m: Manager, n: Manager) {
    forall id :: id in m.deadlines ==> id in n.deadlines && n.deadlines[id] == m.deadlines[id]
  }

  /** Two timers of a transaction cannot be mistaken for each other. */
  predicate Differ(t: Timer, u: Timer) {
    t.id == INVALID_ID || t.id != u.id
  }

  /** Everything that can happen to the manager, from whichever thread. */
  datatype Move =
    | Scheduled(timeout: nat)
    | Cancelled(id: nat)
    | Ticked(milliseconds: nat)
    | Expired(id: nat)          // a pending timer's deadline has passed
    | Dequeued(id: nat)         // a queued timer's callback is taken up

  function Apply(m: Manager, move: Move): Manager {
    match move
    case Scheduled(timeout) => m.Schedule(timeout)
    case Cancelled(id) => m.Cancel(id)
    case Ticked(ms) => m.Tick(ms)
    case Expired(id) => m.Expire(id)
    case Dequeued(id) => m.Dequeue(id)
  }

  /** What can happen without the owner of a timer doing it: only the owner cancels. */
  type Background = move: Move | !move.Cancelled? witness Ticked(0)

  /** What the manager's threads do, in whatever order. */
  predicate IsWork(m: Manager, move: Move) {
    match move
    case Expired(id) => id in m.Overdue()
    case Dequeued(id) => id in m.queued
    case _ => false
  }

  /** Of the timers armed, only the one whose callback is taken up is lost. */
  lemma MoveKeepsTimers(m: Manager, move: Background)
    requires m.Valid()
    ensures var n := Apply(m, move);
      && n.Valid() && n.now >= m.now && n.nextId >= m.nextId && KeepsDeadlines(m, n)
      && forall id :: IsArmed(m, id) ==> IsArmed(n, id) || move == Dequeued(id)
  {
  }

  // ----- what the manager promises ----------------------------------------

  function ApplyAll(m: Manager, moves: seq<Move>): Manager
    decreases |moves|
  {
    if moves == [] then m else ApplyAll(Apply(m, moves[0]), moves[1..])
  }

  /** Identifiers are not used twice, deadlines are not changed, and the clock does not go back. */
  lemma {:induction false} MovesKeep(m: Manager, moves: seq<Move>, id: nat)
    requires m.Valid() && id in m.deadlines
    ensures var n := ApplyAll(m, moves);
      && n.Valid() && n.now >= m.now
      && id in n.deadlines && n.deadlines[id] == m.deadlines[id]
      && (IsArmed(n, id) ==> IsArmed(m, id))
    decreases |moves|
  {
    if moves != [] {
      MovesKeep(Apply(m, moves[0]), moves[1..], id);
    }
  }

  /** The time that passes in the course of the moves. */
  function Elapsed(moves: seq<Move>): nat {
    if moves == [] then 0 else (if moves[0].Ticked? then moves[0].milliseconds else 0) + Elapsed(moves[1..])
  }

  /** The clock shows the time that has passed, no more and no less. */
  lemma {:induction false} TimeIsCounted(m: Manager, moves: seq<Move>)
    ensures ApplyAll(m, moves).now == m.now + Elapsed(moves)
    decreases |moves|
  {
    if moves != [] {
      TimeIsCounted(Apply(m, moves[0]), moves[1..]);
    }
  }

  /** A callback never runs early, whatever happens between scheduling the timer and its being queued. */
  lemma NeverEarly(m: Manager, timeout: nat, moves: seq<Move>)
    requires m.Valid()
    ensures var n := ApplyAll(m.Schedule(timeout), moves);
      m.nextId in n.queued ==> n.now >= m.now + timeout
  {
    MovesKeep(m.Schedule(timeout), moves, m.nextId);
  }

  /** The callback of a schedule runs at most once: taken up, the identifier is never queued again. */
  lemma FiresOnce(m: Manager, id: nat, moves: seq<Move>)
    requires m.Valid() && id in m.queued
    ensures !IsArmed(ApplyAll(m.Dequeue(id), moves), id)
  {
    MovesKeep(m.Dequeue(id), moves, id);
  }

  /** Cancelling a scheduled timer prevents its callback for good exactly if the callback is not queued already. */
  lemma CancelPrevents(m: Manager, id: nat)
    requires m.Valid() && id in m.deadlines
    ensures (forall moves :: !IsArmed(ApplyAll(m.Cancel(id), moves), id)) <==> id !in m.queued
  {
    if id in m.queued {
      var none: seq<Move> := [];
      assert ApplyAll(m.Cancel(id), none) == m.Cancel(id);
      assert IsArmed(ApplyAll(m.Cancel(id), none), id);
    } else {
      forall moves
        ensures !IsArmed(ApplyAll(m.Cancel(id), moves), id)
      {
        MovesKeep(m.Cancel(id), moves, id);
      }
    }
  }

  // ----- catching up ------------------------------------------------------

  lemma {:induction false} Earliest(m: Manager, ids: set<nat>, first: nat) returns (id: nat)
    requires ids <= m.deadlines.Keys && first in ids
    ensures id in ids
    ensures forall other :: other in ids ==> m.deadlines[id] <= m.deadlines[other]
  {
    id := first;
    var rest := ids - {first};
    assert ids == rest + {first};
    if rest != {} {
      var second :| second in rest;
      var least := Earliest(m, rest, second);
      id := if m.deadlines[least] < m.deadlines[first] then least else first;
    }
  }

  /** Looking at the head of the list alone, the threads miss no timer: they wait exactly when they have caught up. */
  lemma IdleIsCaughtUp(m: Manager)
    ensures m.IsIdle() <==> m.IsCaughtUp()
  {
    if m.Overdue() != {} {
      var first :| first in m.Overdue();
      var id := Earliest(m, m.Overdue(), first);
      assert m.IsHead(id);
    }
  }

  lemma ExpireReducesWork(m: Manager, id: nat)
    requires m.Valid() && id in m.Overdue()
    ensures m.Expire(id).Work() < m.Work()
  {
    assert m.Expire(id).Overdue() == m.Overdue() - {id};
  }

  lemma DequeueReducesWork(m: Manager, id: nat)
    requires id in m.queued
    ensures m.Dequeue(id).Work() < m.Work()
  {
    assert m.Dequeue(id).Overdue() == m.Overdue();
  }

  /** A schedule that is not due at once gives the thread nothing to do. */
  lemma ScheduleKeepsWork(m: Manager, timeout: nat)
    requires m.Valid() && timeout > 0
    ensures m.Schedule(timeout).Work() == m.Work()
  {
    assert m.Schedule(timeout).Overdue() == m.Overdue();
  }
}
