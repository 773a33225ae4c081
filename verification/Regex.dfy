/**
 The fragment of regular expressions that the number patterns use: anchors,
 character classes, sequencing, alternation and counted repetition.

 `Matches` says what an expression means and `Ends` is a matcher for it; the
 two are proved to agree.
 */
module Regex {

  datatype Expr =
    | Begin
    | End
    | Class(chars: set<char>)
    | Then(first: Expr, second: Expr)
    | Or(left: Expr, right: Expr)
    | Times(body: Expr, count: nat)

  const LINE_TERMINATORS: set<string> := {"\n", "\r", "\r\n", "\U{85}", "\U{2028}", "\U{2029}"}

  /** Where '$' holds: at the end of the text, or just before a line terminator that ends it. */
  predicate AtEnd(s: string, i: nat)
    requires i <= |s|
  {
    i == |s| || s[i..] in LINE_TERMINATORS
  }

  /** `r` matches the part of `s` from index `i` up to index `j`. */
  ghost predicate Matches(r: Expr, s: string, i: nat, j: nat)
    requires i <= |s| && j <= |s|
    decreases r, 0
  {
    match r
    case Begin => i == j == 0
    case End => i == j && AtEnd(s, i)
    case Class(cs) => i < |s| && j == i + 1 && s[i] in cs
    case Then(a, b) => exists k: nat :: k <= |s| && Matches(a, s, i, k) && Matches(b, s, k, j)
    case Or(a, b) => Matches(a, s, i, j) || Matches(b, s, i, j)
    case Times(b, n) => MatchesTimes(b, n, s, i, j)
  }

  ghost predicate MatchesTimes(b: Expr, n: nat, s: string, i: nat, j: nat)
    requires i <= |s| && j <= |s|
    decreases b, n + 1
  {
    if n == 0 then i == j
    else exists k: nat :: k <= |s| && Matches(b, s, i, k) && MatchesTimes(b, n - 1, s, k, j)
  }

  /** The indices at which a match that starts at `i` may end. */
  function Ends(r: Expr, s: string, i: nat): (js: set<nat>)
    requires i <= |s|
    ensures forall j :: j in js ==> j <= |s|
    decreases r, 0
  {
    match r
    case Begin => if i == 0 then {0} else {}
    case End => if AtEnd(s, i) then {i} else {}
    case Class(cs) => if i < |s| && s[i] in cs then {i + 1} else {}
    case Then(a, b) => set k, j | k in Ends(a, s, i) && j in Ends(b, s, k) :: j
    case Or(a, b) => Ends(a, s, i) + Ends(b, s, i)
    case Times(b, n) => EndsTimes(b, n, s, i)
  }

  function EndsTimes(b: Expr, n: nat, s: string, i: nat): (js: set<nat>)
    requires i <= |s|
    ensures forall j :: j in js ==> j <= |s|
    decreases b, n + 1
  {
    if n == 0 then {i}
    else
      var m := n - 1;
      set k, j | k in Ends(b, s, i) && j in EndsTimes(b, m, s, k) :: j
  }

  lemma {:induction false} MatcherIsCorrect(r: Expr, s: string, i: nat, j: nat)
    requires i <= |s| && j <= |s|
    ensures j in Ends(r, s, i) <==> Matches(r, s, i, j)
    decreases r, 0
  {
    match r
    case Begin =>
    case End =>
    case Class(cs) =>
    case Then(a, b) =>
      forall k: nat | k <= |s|
        ensures k in Ends(a, s, i) <==> Matches(a, s, i, k)
        ensures j in Ends(b, s, k) <==> Matches(b, s, k, j)
      {
        MatcherIsCorrect(a, s, i, k);
        MatcherIsCorrect(b, s, k, j);
      }
    case Or(a, b) =>
      MatcherIsCorrect(a, s, i, j);
      MatcherIsCorrect(b, s, i, j);
    case Times(b, n) =>
      TimesMatcherIsCorrect(b, n, s, i, j);
  }

  lemma {:induction false} TimesMatcherIsCorrect(b: Expr, n: nat, s: string, i: nat, j: nat)
    requires i <= |s| && j <= |s|
    ensures j in EndsTimes(b, n, s, i) <==> MatchesTimes(b, n, s, i, j)
    decreases b, n + 1
  {
    if n > 0 {
      forall k: nat | k <= |s|
        ensures k in Ends(b, s, i) <==> Matches(b, s, i, k)
        ensures j in EndsTimes(b, n - 1, s, k) <==> MatchesTimes(b, n - 1, s, k, j)
      {
        MatcherIsCorrect(b, s, i, k);
        TimesMatcherIsCorrect(b, n - 1, s, k, j);
      }
    }
  }

  /** A match of the whole text, computed by the matcher. */
  predicate FullMatch(r: Expr, s: string) {
    |s| in Ends(r, s, 0)
  }

  function Anchored(r: Expr): Expr {
    Then(Begin, Then(r, End))
  }

  /** For a match of the whole text the anchors make no difference, in spite of what '$' says about line terminators. */
  lemma AnchorsAreRedundant(r: Expr, s: string)
    ensures FullMatch(Anchored(r), s) <==> FullMatch(r, s)
    ensures FullMatch(r, s) <==> Matches(r, s, 0, |s|)
  {
    MatcherIsCorrect(Anchored(r), s, 0, |s|);
    MatcherIsCorrect(r, s, 0, |s|);
    if Matches(r, s, 0, |s|) {
      assert Matches(End, s, |s|, |s|);
      assert Matches(Then(r, End), s, 0, |s|);
      assert Matches(Begin, s, 0, 0);
    }
    if Matches(Anchored(r), s, 0, |s|) {
      assert Matches(Then(r, End), s, 0, |s|);
    }
  }

  // ----- expressions of fixed width ---------------------------------------

  /** Every match of `r` is `w` characters long. */
  ghost predicate HasWidth(r: Expr, w: nat) {
    forall s: string, i: nat, j: nat :: i <= |s| && j <= |s| && Matches(r, s, i, j) ==> j == i + w
  }

  lemma ClassWidth(cs: set<char>)
    ensures HasWidth(Class(cs), 1)
  {
  }

  lemma ThenWidth(a: Expr, b: Expr, v: nat, w: nat)
    requires HasWidth(a, v) && HasWidth(b, w)
    ensures HasWidth(Then(a, b), v + w)
  {
  }

  lemma OrWidth(a: Expr, b: Expr, w: nat)
    requires HasWidth(a, w) && HasWidth(b, w)
    ensures HasWidth(Or(a, b), w)
  {
  }

  /** With a first part of fixed width, sequencing is a conjunction. */
  lemma ThenSplits(a: Expr, b: Expr, w: nat, s: string, i: nat, j: nat)
    requires HasWidth(a, w) && i <= |s| && j <= |s|
    ensures Matches(Then(a, b), s, i, j) <==> i + w <= |s| && Matches(a, s, i, i + w) && Matches(b, s, i + w, j)
  {
  }

  lemma {:induction false} TimesClass(cs: set<char>, n: nat, s: string, i: nat, j: nat)
    requires i <= |s| && j <= |s|
    ensures MatchesTimes(Class(cs), n, s, i, j) <==> j == i + n && forall k :: i <= k < j ==> s[k] in cs
    decreases n
  {
    if n > 0 {
      if i < |s| {
        TimesClass(cs, n - 1, s, i + 1, j);
        assert s[i] in cs <==> Matches(Class(cs), s, i, i + 1);
      }
    }
  }
}
