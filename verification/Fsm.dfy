/**
 The table-driven state machine that the SIP transactions run on: entries are
 inserted into an ordered list, and an action is dispatched to the first entry
 of the list that applies.
 */
module Fsm {
  import opened Wrappers

  /** A row of the table. `None` stands for "any"; an entry to "any" state leaves the state as it is. */
  datatype Entry<S, A, -M, X> = Entry(from: Option<S>, action: Option<A>, cond: M -> bool, to: Option<S>, exec: X)

  /**
   The comparison that orders the list, branch for branch. The last test looks at the first entry's action a
   second time, so its branch is never taken.
   */
  function Compare<S, A, M, X>(entry1: Entry<S, A, M, X>, entry2: Entry<S, A, M, X>): int {
    if entry1.from.None? then -20
    else if entry2.from.None? then 20
    else if entry1.action.None? then -10
    else if entry1.action.None? then 10
    else 0
  }

  /** `e` goes before the first entry that it compares greater than, or else to the end. */
  function Insert<S, A, M, X>(entries: seq<Entry<S, A, M, X>>, e: Entry<S, A, M, X>): seq<Entry<S, A, M, X>> {
    if entries == [] || Compare(e, entries[0]) > 0 then [e] + entries
    else [entries[0]] + Insert(entries[1..], e)
  }

  lemma InsertSkips<S, A, M, X>(entries: seq<Entry<S, A, M, X>>, e: Entry<S, A, M, X>, i: nat)
    requires i < |entries| && Compare(e, entries[i]) <= 0
    ensures entries[..i] + Insert(entries[i..], e) == entries[..i + 1] + Insert(entries[i + 1..], e)
  {
    assert entries[i..][1..] == entries[i + 1..];
    assert Insert(entries[i..], e) == [entries[i]] + Insert(entries[i + 1..], e);
    assert entries[..i + 1] == entries[..i] + [entries[i]];
  }

  method PushDescending<S, A, M, X>(entries: seq<Entry<S, A, M, X>>, e: Entry<S, A, M, X>)
    returns (r: seq<Entry<S, A, M, X>>)
    ensures r == Insert(entries, e)
  {
    var i := 0;
    while i < |entries| && Compare(e, entries[i]) <= 0
      invariant 0 <= i <= |entries|
      invariant Insert(entries, e) == entries[..i] + Insert(entries[i..], e)
    {
      InsertSkips(entries, e, i);
      i := i + 1;
    }
    r := entries[..i] + [e] + entries[i..];
    assert Insert(entries[i..], e) == [e] + entries[i..];
  }

  /** The list that declaring the rows of `table` one by one leads to. */
  function Build<S, A, M, X>(table: seq<Entry<S, A, M, X>>): seq<Entry<S, A, M, X>> {
    if table == [] then [] else Insert(Build(table[..|table| - 1]), table[|table| - 1])
  }

  method Set<S, A, M, X>(table: seq<Entry<S, A, M, X>>) returns (entries: seq<Entry<S, A, M, X>>)
    ensures entries == Build(table)
  {
    entries := [];
    for i := 0 to |table|
      invariant entries == Build(table[..i])
    {
      assert table[..i + 1][..i] == table[..i];
      entries := PushDescending(entries, table[i]);
    }
    assert table[..|table|] == table;
  }

  // ----- the order of the list --------------------------------------------

  /** The rows for one particular state, in order of declaration. */
  function Specific<S, A, M, X>(table: seq<Entry<S, A, M, X>>): (r: seq<Entry<S, A, M, X>>)
    ensures forall i :: 0 <= i < |r| ==> r[i].from.Some?
  {
    if table == [] then []
    else if table[0].from.Some? then [table[0]] + Specific(table[1..])
    else Specific(table[1..])
  }

  /** The rows for any state, in order of declaration. */
  function Wild<S, A, M, X>(table: seq<Entry<S, A, M, X>>): (r: seq<Entry<S, A, M, X>>)
    ensures forall i :: 0 <= i < |r| ==> r[i].from.None?
  {
    if table == [] then []
    else if table[0].from.None? then [table[0]] + Wild(table[1..])
    else Wild(table[1..])
  }

  lemma {:induction false} SplitSnoc<S, A, M, X>(table: seq<Entry<S, A, M, X>>, e: Entry<S, A, M, X>)
    ensures Specific(table + [e]) == if e.from.Some? then Specific(table) + [e] else Specific(table)
    ensures Wild(table + [e]) == if e.from.None? then Wild(table) + [e] else Wild(table)
  {
    if table == [] {
      assert table + [e] == [e];
    } else {
      assert (table + [e])[1..] == table[1..] + [e];
      SplitSnoc(table[1..], e);
    }
  }

  lemma {:induction false} InsertSpecific<S, A, M, X>(
      specific: seq<Entry<S, A, M, X>>, wild: seq<Entry<S, A, M, X>>, e: Entry<S, A, M, X>)
    requires e.from.Some?
    requires forall i :: 0 <= i < |specific| ==> specific[i].from.Some?
    requires forall i :: 0 <= i < |wild| ==> wild[i].from.None?
    ensures Insert(specific + wild, e) == specific + [e] + wild
  {
    if specific == [] {
      assert specific + wild == wild;
    } else {
      assert (specific + wild)[1..] == specific[1..] + wild;
      InsertSpecific(specific[1..], wild, e);
    }
  }

  lemma {:induction false} InsertWild<S, A, M, X>(entries: seq<Entry<S, A, M, X>>, e: Entry<S, A, M, X>)
    requires e.from.None?
    ensures Insert(entries, e) == entries + [e]
  {
    if entries != [] {
      InsertWild(entries[1..], e);
    }
  }

  /** The list is a stable partition of the declarations: the rows for one state stand before those for any state. */
  lemma {:induction false} BuildPartitions<S, A, M, X>(table: seq<Entry<S, A, M, X>>)
    ensures Build(table) == Specific(table) + Wild(table)
  {
    if table != [] {
      var front, e := table[..|table| - 1], table[|table| - 1];
      BuildPartitions(front);
      SplitSnoc(front, e);
      assert table == front + [e];
      if e.from.Some? {
        InsertSpecific(Specific(front), Wild(front), e);
      } else {
        InsertWild(Build(front), e);
      }
    }
  }

  /** Declarations that are already in this order are left alone. */
  lemma {:induction false} SpecificThenWild<S, A, M, X>(specific: seq<Entry<S, A, M, X>>, wild: seq<Entry<S, A, M, X>>)
    requires forall i :: 0 <= i < |specific| ==> specific[i].from.Some?
    requires forall i :: 0 <= i < |wild| ==> wild[i].from.None?
    ensures Build(specific + wild) == specific + wild
  {
    var table := specific + wild;
    if wild != [] {
      var front, e := wild[..|wild| - 1], wild[|wild| - 1];
      assert table[..|table| - 1] == specific + front;
      SpecificThenWild(specific, front);
      InsertWild(specific + front, e);
    } else if specific != [] {
      var front, e := specific[..|specific| - 1], specific[|specific| - 1];
      assert table[..|table| - 1] == front + [];
      SpecificThenWild(front, []);
      InsertSpecific(front, [], e);
    }
  }

  // ----- dispatch ---------------------------------------------------------

  predicate Applies<S(==), A(==), M, X>(e: Entry<S, A, M, X>, state: S, action: A, m: M) {
    && (e.from.None? || e.from.value == state)
    && (e.action.None? || e.action.value == action)
    && e.cond(m)
  }

  function FirstToApply<S(==), A(==), M, X>(entries: seq<Entry<S, A, M, X>>, state: S, action: A, m: M)
    : Option<Entry<S, A, M, X>>
  {
    if entries == [] then None
    else if Applies(entries[0], state, action, m) then Some(entries[0])
    else FirstToApply(entries[1..], state, action, m)
  }

  method Find<S(==), A(==), M, X>(entries: seq<Entry<S, A, M, X>>, state: S, action: A, m: M)
    returns (found: Option<Entry<S, A, M, X>>)
    ensures found == FirstToApply(entries, state, action, m)
  {
    for i := 0 to |entries|
      invariant FirstToApply(entries[i..], state, action, m) == FirstToApply(entries, state, action, m)
    {
      if Applies(entries[i], state, action, m) {
        return Some(entries[i]);
      }
      assert entries[i..][1..] == entries[i + 1..];
    }
    return None;
  }

  lemma {:induction false} FirstOfConcat<S, A, M, X>(
      a: seq<Entry<S, A, M, X>>, b: seq<Entry<S, A, M, X>>, state: S, action: A, m: M)
    ensures FirstToApply(a + b, state, action, m) ==
      if FirstToApply(a, state, action, m).Some? then FirstToApply(a, state, action, m)
      else FirstToApply(b, state, action, m)
  {
    if a == [] {
      assert a + b == b;
    } else {
      assert (a + b)[1..] == a[1..] + b;
      FirstOfConcat(a[1..], b, state, action, m);
    }
  }

  /** `FirstToApply`, by index. */
  lemma {:induction false} FirstToApplyAt<S, A, M, X>(
      entries: seq<Entry<S, A, M, X>>, state: S, action: A, m: M, i: nat)
    requires i <= |entries|
    requires forall k :: 0 <= k < i ==> !Applies(entries[k], state, action, m)
    requires i < |entries| ==> Applies(entries[i], state, action, m)
    ensures FirstToApply(entries, state, action, m) == if i < |entries| then Some(entries[i]) else None
  {
    if i > 0 {
      FirstToApplyAt(entries[1..], state, action, m, i - 1);
    }
  }

  /** A table that is declared state by state. */
  function Join<S, A, M, X>(blocks: seq<seq<Entry<S, A, M, X>>>): seq<Entry<S, A, M, X>> {
    if blocks == [] then [] else blocks[0] + Join(blocks[1..])
  }

  lemma {:induction false} JoinIsSpecific<S, A, M, X>(blocks: seq<seq<Entry<S, A, M, X>>>)
    requires forall i, j :: 0 <= i < |blocks| && 0 <= j < |blocks[i]| ==> blocks[i][j].from.Some?
    ensures forall j :: 0 <= j < |Join(blocks)| ==> Join(blocks)[j].from.Some?
  {
    if blocks != [] {
      JoinIsSpecific(blocks[1..]);
    }
  }

  lemma {:induction false} OtherBlocksDoNotApply<S, A, M, X>(
      blocks: seq<seq<Entry<S, A, M, X>>>, rest: seq<Entry<S, A, M, X>>, state: S, action: A, m: M)
    requires forall i, j :: 0 <= i < |blocks| && 0 <= j < |blocks[i]| ==> !Applies(blocks[i][j], state, action, m)
    ensures FirstToApply(Join(blocks) + rest, state, action, m) == FirstToApply(rest, state, action, m)
  {
    if blocks == [] {
      assert Join(blocks) + rest == rest;
    } else {
      var tail := Join(blocks[1..]) + rest;
      assert Join(blocks) + rest == blocks[0] + tail;
      FirstOfConcat(blocks[0], tail, state, action, m);
      FirstToApplyAt(blocks[0], state, action, m, |blocks[0]|);
      OtherBlocksDoNotApply(blocks[1..], rest, state, action, m);
    }
  }

  /** In such a table only the block of the current state, number `k`, and the rows after all blocks matter. */
  lemma {:induction false} OwnBlockDecides<S, A, M, X>(
      blocks: seq<seq<Entry<S, A, M, X>>>, k: nat, rest: seq<Entry<S, A, M, X>>, state: S, action: A, m: M)
    requires k < |blocks|
    requires forall i, j :: 0 <= i < |blocks| && i != k && 0 <= j < |blocks[i]| ==>
      !Applies(blocks[i][j], state, action, m)
    ensures FirstToApply(Join(blocks) + rest, state, action, m) ==
      if FirstToApply(blocks[k], state, action, m).Some? then FirstToApply(blocks[k], state, action, m)
      else FirstToApply(rest, state, action, m)
  {
    var tail := Join(blocks[1..]) + rest;
    assert Join(blocks) + rest == blocks[0] + tail;
    FirstOfConcat(blocks[0], tail, state, action, m);
    if k == 0 {
      OtherBlocksDoNotApply(blocks[1..], rest, state, action, m);
    } else {
      FirstToApplyAt(blocks[0], state, action, m, |blocks[0]|);
      OwnBlockDecides(blocks[1..], k - 1, rest, state, action, m);
    }
  }

  /** A row for the current state wins over every row for any state, wherever they were declared. */
  lemma SpecificWins<S, A, M, X>(table: seq<Entry<S, A, M, X>>, state: S, action: A, m: M)
    ensures FirstToApply(Build(table), state, action, m) ==
      if FirstToApply(Specific(table), state, action, m).Some? then FirstToApply(Specific(table), state, action, m)
      else FirstToApply(Wild(table), state, action, m)
  {
    BuildPartitions(table);
    FirstOfConcat(Specific(table), Wild(table), state, action, m);
  }

  /** Among the rows for one state, no row for one action stands after a row for any action. */
  ghost predicate AnyActionsLast<S, A, M, X>(entries: seq<Entry<S, A, M, X>>) {
    forall i, j :: 0 <= i < j < |entries| && entries[i].from.Some? && entries[i].action.None? && entries[j].from.Some?
      ==> entries[j].action.None?
  }

  lemma WildRowsDoNotMatter<S, A, M, X>(specific: seq<Entry<S, A, M, X>>, wild: seq<Entry<S, A, M, X>>)
    requires forall i :: 0 <= i < |wild| ==> wild[i].from.None?
    ensures AnyActionsLast(specific + wild) <==> AnyActionsLast(specific)
  {
    var all := specific + wild;
    if AnyActionsLast(all) {
      forall i, j |
        0 <= i < j < |specific| && specific[i].from.Some? && specific[i].action.None? && specific[j].from.Some?
        ensures specific[j].action.None?
      {
        assert all[i] == specific[i] && all[j] == specific[j];
      }
    }
    if AnyActionsLast(specific) {
      assert forall k :: |specific| <= k < |all| ==> all[k] == wild[k - |specific|];
      forall i, j | 0 <= i < j < |all| && all[i].from.Some? && all[i].action.None? && all[j].from.Some?
        ensures all[j].action.None?
      {
        assert all[i] == specific[i] && all[j] == specific[j];
      }
    }
  }

  /**
   The comparison means to put the rows for any action last as well. It does not: the list has that property
   exactly when the declarations already had it.
   */
  lemma AnyActionsAreNotReordered<S, A, M, X>(table: seq<Entry<S, A, M, X>>)
    ensures AnyActionsLast(Build(table)) <==> AnyActionsLast(Specific(table))
  {
    BuildPartitions(table);
    WildRowsDoNotMatter(Specific(table), Wild(table));
  }

  /** A row for any action, declared first, hides a later row of the same state for one action. */
  lemma HiddenByAnyAction<S, A, M, X>(early: Entry<S, A, M, X>, late: Entry<S, A, M, X>, a: A, m: M)
    requires early.from.Some? && late.from == early.from
    requires early.action.None? && early.cond(m)
    requires late.action == Some(a) && late.cond(m)
    ensures FirstToApply(Build([early, late]), early.from.value, a, m) == Some(early)
    ensures Applies(late, early.from.value, a, m)
  {
    SpecificWins([early, late], early.from.value, a, m);
    assert [early, late][1..] == [late];
  }
}
