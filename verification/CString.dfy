/**
 NUL-terminated text in arrays, and the handful of C library routines that
 the Contact parser is written with.

 A pointer into a buffer is an index; the null pointer is NULL_PTR. Each
 routine is a loop over the array and is specified by a function of the text
 that the array holds.
 */
module CString {

  const NUL: char := '\0'

  const NULL_PTR := -1

  /** The text held by a buffer: everything before the first NUL. */
  function Text(buffer: seq<char>): (t: string)
    ensures t <= buffer
    ensures NUL !in t
    ensures |t| < |buffer| ==> buffer[|t|] == NUL
  {
    if buffer == [] || buffer[0] == NUL then [] else [buffer[0]] + Text(buffer[1..])
  }

  predicate Terminated(buffer: seq<char>) {
    NUL in buffer
  }

  /** `Text` is determined by what it promises. */
  lemma {:induction false} TextIsUnique(buffer: seq<char>, t: string)
    requires t <= buffer && NUL !in t
    requires |t| < |buffer| ==> buffer[|t|] == NUL
    ensures Text(buffer) == t
  {
    if t != "" {
      assert buffer[0] == t[0] && t[0] in t;
      TextIsUnique(buffer[1..], t[1..]);
    }
  }

  lemma TerminatedLeavesRoom(buffer: seq<char>)
    ensures Terminated(buffer) <==> |Text(buffer)| < |buffer|
  {
    var t := Text(buffer);
    if |t| == |buffer| {
      assert t == buffer;
    }
  }

  /** The text is the buffer up to its first NUL, index by index. */
  lemma TextInBuffer(buffer: seq<char>)
    ensures var t := Text(buffer);
      forall k :: 0 <= k < |t| ==> buffer[k] == t[k] && buffer[k] != NUL
    ensures Terminated(buffer) ==> |Text(buffer)| < |buffer| && buffer[|Text(buffer)|] == NUL
  {
    var t := Text(buffer);
    forall k | 0 <= k < |t|
      ensures buffer[k] == t[k] && buffer[k] != NUL
    {
      assert t[k] in t;
    }
    TerminatedLeavesRoom(buffer);
  }

  /** `s` followed by NULs up to length `n`. */
  function Padded(s: string, n: nat): (b: seq<char>)
    requires |s| <= n
    ensures |b| == n && s <= b
  {
    s + seq(n - |s|, _ => NUL)
  }

  lemma PaddedReadsBack(s: string, n: nat)
    requires |s| <= n && NUL !in s
    ensures Text(Padded(s, n)) == s
    ensures Terminated(Padded(s, n)) <==> |s| < n
  {
    var b := Padded(s, n);
    if |s| < n {
      assert b[|s|] == NUL;
    } else {
      assert b == s;
    }
    TextIsUnique(b, s);
  }

  // ----- searching --------------------------------------------------------

  /** `r` is the first index at or after `from` that holds `c`, or NULL_PTR if there is none. */
  ghost predicate IsFirstChar(s: string, c: char, from: nat, r: int) {
    if r == NULL_PTR then
      forall k :: from <= k < |s| ==> s[k] != c
    else
      from <= r < |s| && s[r] == c && forall k :: from <= k < r ==> s[k] != c
  }

  function FirstChar(s: string, c: char, from: nat): (r: int)
    requires from <= |s|
    ensures IsFirstChar(s, c, from, r)
    decreases |s| - from
  {
    if from == |s| then NULL_PTR
    else if s[from] == c then from
    else FirstChar(s, c, from + 1)
  }

  lemma FoundIffPresent(s: string, c: char, from: nat)
    requires from <= |s|
    ensures FirstChar(s, c, from) != NULL_PTR <==> c in s[from..]
  {
    var r := FirstChar(s, c, from);
    if r != NULL_PTR {
      assert s[from..][r - from] == c;
    }
  }

  /** Searching a concatenation: the left part first, then the right one. */
  lemma FirstCharOfConcat(a: string, b: string, c: char, from: nat)
    requires from <= |a|
    ensures FirstChar(a + b, c, from) ==
      if FirstChar(a, c, from) != NULL_PTR then FirstChar(a, c, from)
      else if FirstChar(b, c, 0) != NULL_PTR then |a| + FirstChar(b, c, 0)
      else NULL_PTR
  {
    var r := FirstChar(a + b, c, from);
    var left, right := FirstChar(a, c, from), FirstChar(b, c, 0);
    if left != NULL_PTR {
      assert (a + b)[left] == c;
    } else if right != NULL_PTR {
      assert (a + b)[|a| + right] == c;
      assert forall k :: |a| <= k < |a| + right ==> (a + b)[k] == b[k - |a|];
    } else {
      assert forall k :: |a| <= k < |a + b| ==> (a + b)[k] == b[k - |a|];
    }
  }

  /** `needle` stands in `s` at index `k`. */
  predicate Occurs(s: string, needle: string, k: nat) {
    k + |needle| <= |s| && forall i :: 0 <= i < |needle| ==> s[k + i] == needle[i]
  }

  ghost predicate IsFirstText(s: string, needle: string, from: nat, r: int) {
    if r == NULL_PTR then
      forall k :: from <= k <= |s| ==> !Occurs(s, needle, k)
    else
      from <= r && Occurs(s, needle, r) && forall k :: from <= k < r ==> !Occurs(s, needle, k)
  }

  function FirstText(s: string, needle: string, from: nat): (r: int)
    requires from <= |s|
    ensures IsFirstText(s, needle, from, r)
    decreases |s| - from
  {
    if Occurs(s, needle, from) then from
    else if from == |s| then NULL_PTR
    else FirstText(s, needle, from + 1)
  }

  /** Searching for a one-character string is searching for the character. */
  lemma {:induction false} FirstTextOfOneChar(s: string, c: char, from: nat)
    requires from <= |s|
    ensures FirstText(s, [c], from) == FirstChar(s, c, from)
    decreases |s| - from
  {
    if from < |s| {
      assert Occurs(s, [c], from) <==> s[from + 0] == [c][0];
      if s[from] != c {
        FirstTextOfOneChar(s, c, from + 1);
      }
    }
  }

  method StrLen(a: array<char>) returns (n: nat)
    requires Terminated(a[..])
    ensures n == |Text(a[..])|
  {
    TextInBuffer(a[..]);
    ghost var s := Text(a[..]);
    n := 0;
    while a[n] != NUL
      invariant n <= |s|
      decreases |s| - n
    {
      n := n + 1;
    }
  }

  /** First occurrence of `c`, searching from `from` up to the terminator. */
  method StrChr(a: array<char>, from: nat, c: char) returns (r: int)
    requires Terminated(a[..])
    requires from <= |Text(a[..])|
    requires c != NUL
    ensures r == FirstChar(Text(a[..]), c, from)
  {
    TextInBuffer(a[..]);
    ghost var s := Text(a[..]);
    r := from;
    while a[r] != NUL && a[r] != c
      invariant from <= r <= |s|
      invariant FirstChar(s, c, r) == FirstChar(s, c, from)
      decreases |s| - r
    {
      r := r + 1;
    }
    if a[r] == NUL {
      r := NULL_PTR;
    }
  }

  /** Whether `needle` stands at index `at`. */
  method MatchesAt(a: array<char>, at: nat, needle: string) returns (found: bool)
    requires Terminated(a[..])
    requires at <= |Text(a[..])|
    requires NUL !in needle
    ensures found <==> Occurs(Text(a[..]), needle, at)
  {
    TextInBuffer(a[..]);
    ghost var s := Text(a[..]);
    var j := 0;
    while j < |needle| && a[at + j] == needle[j]
      invariant 0 <= j <= |needle| && at + j <= |s|
      invariant forall i :: 0 <= i < j ==> s[at + i] == needle[i]
    {
      assert needle[j] in needle;
      j := j + 1;
    }
    found := j == |needle|;
  }

  /** First occurrence of `needle`, searching from `from` up to the terminator. */
  method StrStr(a: array<char>, from: nat, needle: string) returns (r: int)
    requires Terminated(a[..])
    requires from <= |Text(a[..])|
    requires NUL !in needle
    ensures r == FirstText(Text(a[..]), needle, from)
  {
    TextInBuffer(a[..]);
    ghost var s := Text(a[..]);
    r := from;
    var found := MatchesAt(a, r, needle);
    while !found && a[r] != NUL
      invariant from <= r <= |s|
      invariant found <==> Occurs(s, needle, r)
      invariant FirstText(s, needle, r) == FirstText(s, needle, from)
      decreases |s| - r
    {
      r := r + 1;
      found := MatchesAt(a, r, needle);
    }
    if !found {
      r := NULL_PTR;
    }
  }

  // ----- copying ----------------------------------------------------------

  /** What `strncpy(dst, src, n)` leaves in `dst`: the text, NUL padding up to `n`, and then the old contents. */
  function Copied(dst: seq<char>, src: string, n: nat): (b: seq<char>)
    requires n <= |dst|
    ensures |b| == |dst|
  {
    Padded(src[..if |src| < n then |src| else n], n) + dst[n..]
  }

  /** Into a cleared buffer, copying `n` characters of a longer text leaves exactly those. */
  lemma CopiedIntoCleared(size: nat, s: string, from: nat, n: nat)
    requires from + n <= |s| && n <= size
    ensures Copied(Padded("", size), s[from..], n) == Padded(s[from..from + n], size)
  {
    assert s[from..][..n] == s[from..from + n];
  }

  /** `Copied`, index by index. */
  lemma CopiedPointwise(b: seq<char>, dst: seq<char>, src: string, n: nat)
    requires n <= |dst| == |b|
    requires forall k :: 0 <= k < n ==> b[k] == if k < |src| then src[k] else NUL
    requires forall k :: n <= k < |dst| ==> b[k] == dst[k]
    ensures b == Copied(dst, src, n)
  {
  }

  method MemZero(a: array<char>)
    modifies a
    ensures a[..] == Padded("", a.Length)
  {
    for i := 0 to a.Length
      invariant forall k :: 0 <= k < i ==> a[k] == NUL
    {
      a[i] := NUL;
    }
  }

  /** Copies at most `n` characters of the text of `src` that starts at `from`. */
  method StrNCpy(dst: array<char>, src: array<char>, from: nat, n: nat)
    requires dst != src
    requires Terminated(src[..])
    requires from <= |Text(src[..])|
    requires n <= dst.Length
    modifies dst
    ensures dst[..] == Copied(old(dst[..]), Text(src[..])[from..], n)
  {
    TextInBuffer(src[..]);
    ghost var was, content := dst[..], src[..];
    ghost var s := Text(content);
    var ended := false;
    for i := 0 to n
      invariant ended <==> |s| < from + i
      invariant src[..] == content
      invariant forall k :: 0 <= k < i ==> dst[k] == if from + k < |s| then s[from + k] else NUL
      invariant forall k :: i <= k < dst.Length ==> dst[k] == was[k]
    {
      ended := ended || src[from + i] == NUL;
      dst[i] := if ended then NUL else src[from + i];
    }
    CopiedPointwise(dst[..], was, s[from..], n);
  }

  /** `strncpy` into a cleared buffer, with at least `n` characters to copy. */
  method CopySlice(dst: array<char>, src: array<char>, ghost s: string, from: nat, n: nat)
    requires dst != src
    requires Terminated(src[..]) && Text(src[..]) == s
    requires from + n <= |s| && n <= dst.Length
    requires dst[..] == Padded("", dst.Length)
    modifies dst
    ensures dst[..] == Padded(s[from..from + n], dst.Length)
  {
    StrNCpy(dst, src, from, n);
    CopiedIntoCleared(dst.Length, s, from, n);
  }

  /**
   `strncpy` of exactly the length of the text writes no terminator, so the
   destination reads back as the text only when the old contents happen to
   continue with a NUL. This is why the parser must clear its buffers first.
   */
  lemma CopyNeedsClearedBuffer(dst: seq<char>, s: string)
    requires |s| <= |dst| && NUL !in s
    ensures Text(Copied(dst, s, |s|)) == s <==> (|s| == |dst| || dst[|s|] == NUL)
  {
    var b := Copied(dst, s, |s|);
    assert s[..|s|] == s;
    if |s| < |dst| {
      assert b[|s|] == dst[|s|];
    }
    if |s| == |dst| || dst[|s|] == NUL {
      TextIsUnique(b, s);
    }
  }
}
