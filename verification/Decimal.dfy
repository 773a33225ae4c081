/**
 Decimal numerals, and the C library's `atoi` over them.
 */
module Decimal {
  import opened CString

  const INT_MIN: int := -0x8000_0000
  const INT_MAX: int := 0x7FFF_FFFF

  predicate IsDigit(c: char) {
    '0' <= c <= '9'
  }

  predicate AllDigits(s: string) {
    forall i :: 0 <= i < |s| ==> IsDigit(s[i])
  }

  /** The `isspace` of the C locale. */
  predicate IsSpace(c: char) {
    c == ' ' || '\t' <= c <= '\r'
  }

  predicate AllSpaces(s: string) {
    forall i :: 0 <= i < |s| ==> IsSpace(s[i])
  }

  predicate FitsInt(n: int) {
    INT_MIN <= n <= INT_MAX
  }

  function DigitValue(c: char): (d: nat)
    requires IsDigit(c)
    ensures d < 10
  {
    c as int - '0' as int
  }

  /** The number that a string of digits denotes; the empty string denotes 0. */
  function Value(s: string): nat
    requires AllDigits(s)
  {
    if s == "" then 0
    else Value(s[..|s| - 1]) * 10 + DigitValue(s[|s| - 1])
  }

  function DigitChar(d: nat): (c: char)
    requires d < 10
    ensures IsDigit(c) && DigitValue(c) == d
  {
    '0' + d as char
  }

  /** The decimal numeral of `n`, without leading zeros. */
  function Numeral(n: nat): (s: string)
    ensures s != "" && AllDigits(s)
  {
    if n < 10 then [DigitChar(n)] else Numeral(n / 10) + [DigitChar(n % 10)]
  }

  predicate IsCanonical(s: string) {
    AllDigits(s) && s != "" && (s[0] == '0' ==> s == "0")
  }

  lemma {:induction false} ValueOfNumeral(n: nat)
    ensures Value(Numeral(n)) == n
    ensures IsCanonical(Numeral(n))
    ensures n > 0 ==> Numeral(n)[0] != '0'
  {
    if n >= 10 {
      ValueOfNumeral(n / 10);
      var s := Numeral(n);
      assert s[..|s| - 1] == Numeral(n / 10);
    }
  }

  lemma ValueOfSnoc(s: string, c: char)
    requires AllDigits(s) && IsDigit(c)
    ensures AllDigits(s + [c]) && Value(s + [c]) == Value(s) * 10 + DigitValue(c)
  {
    assert (s + [c])[..|s|] == s;
  }

  /** A nonempty numeral without a leading zero denotes a positive number. */
  lemma {:induction false} CanonicalIsPositive(s: string)
    requires AllDigits(s) && s != "" && s[0] != '0'
    ensures Value(s) > 0
  {
    if |s| > 1 {
      CanonicalIsPositive(s[..|s| - 1]);
    }
  }

  lemma {:induction false} NumeralOfValue(s: string)
    requires IsCanonical(s)
    ensures Numeral(Value(s)) == s
  {
    var front, last := s[..|s| - 1], s[|s| - 1];
    if front == "" {
      assert s == [last];
    } else {
      CanonicalIsPositive(front);
      NumeralOfValue(front);
      assert s == front + [last];
      assert Value(s) / 10 == Value(front) && Value(s) % 10 == DigitValue(last);
    }
  }

  /** Printing inverts reading exactly on the strings without leading zeros. */
  lemma NumeralIsInverse(s: string, n: nat)
    requires AllDigits(s)
    ensures Numeral(n) == s <==> IsCanonical(s) && Value(s) == n
  {
    ValueOfNumeral(n);
    if IsCanonical(s) {
      NumeralOfValue(s);
    }
  }

  lemma {:induction false} LeadingZeros(zeros: string, s: string)
    requires forall i :: 0 <= i < |zeros| ==> zeros[i] == '0'
    requires AllDigits(s)
    ensures AllDigits(zeros + s) && Value(zeros + s) == Value(s)
    decreases |zeros| + |s|
  {
    var all := zeros + s;
    if s != "" {
      assert all[..|all| - 1] == zeros + s[..|s| - 1];
      LeadingZeros(zeros, s[..|s| - 1]);
    } else if zeros != "" {
      assert all[..|all| - 1] == zeros[..|zeros| - 1] + s;
      LeadingZeros(zeros[..|zeros| - 1], s);
    }
  }

  /** Each digit contributes at most a factor of ten. */
  lemma NumeralLength(n: nat)
    requires n < 100000
    ensures |Numeral(n)| <= 5
  {
    assert n / 10 < 10000 && n / 10 / 10 < 1000 && n / 10 / 10 / 10 < 100 && n / 10 / 10 / 10 / 10 < 10;
    assert |Numeral(n / 10 / 10 / 10)| <= 2;
    assert |Numeral(n / 10 / 10)| <= 3;
    assert |Numeral(n / 10)| <= 4;
  }

  // ----- atoi -------------------------------------------------------------

  function SkipSpaces(s: string): (r: string)
    ensures r != "" ==> !IsSpace(r[0])
  {
    if s != "" && IsSpace(s[0]) then SkipSpaces(s[1..]) else s
  }

  /** The longest prefix of `s` that consists of digits. */
  function DigitRun(s: string): (r: string)
    ensures r <= s && AllDigits(r)
    ensures |r| < |s| ==> !IsDigit(s[|r|])
  {
    if s == "" || !IsDigit(s[0]) then "" else [s[0]] + DigitRun(s[1..])
  }

  /** The number that `atoi` reads: optional white space, an optional sign, and the digits that follow. */
  function AtoiValue(s: string): int {
    var t := SkipSpaces(s);
    if t != "" && t[0] == '-' then -1 * Value(DigitRun(t[1..]))
    else if t != "" && t[0] == '+' then Value(DigitRun(t[1..]))
    else Value(DigitRun(t))
  }

  lemma {:induction false} DigitRunIsUnique(digits: string, rest: string)
    requires AllDigits(digits)
    requires rest == "" || !IsDigit(rest[0])
    ensures DigitRun(digits + rest) == digits
  {
    var s := digits + rest;
    if digits == "" {
      assert s == rest;
    } else {
      assert s[1..] == digits[1..] + rest;
      DigitRunIsUnique(digits[1..], rest);
    }
  }

  lemma DigitRunOfSlice(s: string, start: nat, end: nat)
    requires start <= end <= |s|
    requires AllDigits(s[start..end])
    requires end == |s| || !IsDigit(s[end])
    ensures DigitRun(s[start..]) == s[start..end]
  {
    DigitRunIsUnique(s[start..end], s[end..]);
    assert s[start..end] + s[end..] == s[start..];
  }

  lemma {:induction false} SkipSpacesStops(spaces: string, s: string)
    requires AllSpaces(spaces)
    requires s == "" || !IsSpace(s[0])
    ensures SkipSpaces(spaces + s) == s
  {
    if spaces == "" {
      assert spaces + s == s;
    } else {
      assert (spaces + s)[1..] == spaces[1..] + s;
      SkipSpacesStops(spaces[1..], s);
    }
  }

  /**
   What `atoi` promises for text of the shape it documents; `rest` is
   whatever stops the digits.
   */
  lemma AtoiReads(spaces: string, sign: string, digits: string, rest: string)
    requires AllSpaces(spaces)
    requires sign == "" || sign == "+" || sign == "-"
    requires AllDigits(digits)
    requires rest == "" || !IsDigit(rest[0])
    requires sign == "" && digits == "" ==> rest == "" || !(IsSpace(rest[0]) || rest[0] in "+-")
    ensures AtoiValue(spaces + (sign + (digits + rest))) == (if sign == "-" then -1 else 1) * Value(digits)
  {
    var body := digits + rest;
    DigitRunIsUnique(digits, rest);
    SkipSpacesStops(spaces, sign + body);
    if sign == "" {
      assert sign + body == body;
    } else {
      assert (sign + body)[1..] == body;
    }
  }

  lemma AtoiOfDigits(digits: string, rest: string)
    requires AllDigits(digits) && digits != ""
    requires rest == "" || !IsDigit(rest[0])
    ensures AtoiValue(digits + rest) == Value(digits)
  {
    AtoiReads("", "", digits, rest);
    assert "" + ("" + (digits + rest)) == digits + rest;
  }

  /** In figures: the six characters that are passed over, and what all but digits and signs end. */
  lemma FirstCharDecides(c: char, s: string)
    ensures c as int in {32, 9, 10, 11, 12, 13} ==> AtoiValue([c] + s) == AtoiValue(s)
    ensures c as int !in {32, 9, 10, 11, 12, 13} && c !in "+-" && !('0' <= c <= '9') ==> AtoiValue([c] + s) == 0
  {
    assert ([c] + s)[1..] == s;
  }

  method SkipSpace(a: array<char>) returns (i: nat)
    requires Terminated(a[..])
    ensures i <= |Text(a[..])| && Text(a[..])[i..] == SkipSpaces(Text(a[..]))
  {
    TextInBuffer(a[..]);
    ghost var s := Text(a[..]);
    i := 0;
    while IsSpace(a[i])
      invariant i <= |s|
      invariant SkipSpaces(s[i..]) == SkipSpaces(s)
      decreases |s| - i
    {
      i := i + 1;
    }
  }

  lemma ValueOfSlice(s: string, start: nat, i: nat)
    requires start <= i < |s| && AllDigits(s[start..i]) && IsDigit(s[i])
    ensures AllDigits(s[start..i + 1])
    ensures Value(s[start..i + 1]) == Value(s[start..i]) * 10 + DigitValue(s[i])
  {
    ValueOfSnoc(s[start..i], s[i]);
    assert s[start..i + 1] == s[start..i] + [s[i]];
  }

  method ReadDigits(a: array<char>, start: nat) returns (n: nat)
    requires Terminated(a[..])
    requires start <= |Text(a[..])|
    ensures n == Value(DigitRun(Text(a[..])[start..]))
  {
    TextInBuffer(a[..]);
    ghost var s := Text(a[..]);
    var i := start;
    n := 0;
    while IsDigit(a[i])
      invariant start <= i <= |s|
      invariant AllDigits(s[start..i]) && n == Value(s[start..i])
      decreases |s| - i
    {
      ValueOfSlice(s, start, i);
      n := n * 10 + DigitValue(a[i]);
      i := i + 1;
    }
    DigitRunOfSlice(s, start, i);
  }

  /** The C library routine on a terminated buffer whose number fits an `int`. */
  method Atoi(a: array<char>) returns (n: int)
    requires Terminated(a[..])
    requires FitsInt(AtoiValue(Text(a[..])))
    ensures n == AtoiValue(Text(a[..]))
  {
    TextInBuffer(a[..]);
    var i := SkipSpace(a);
    ghost var t := Text(a[..])[i..];
    var negative := a[i] == '-';
    if a[i] == '-' || a[i] == '+' {
      i := i + 1;
      assert Text(a[..])[i..] == t[1..];
    }
    n := ReadDigits(a, i);
    if negative {
      n := -n;
    }
  }
}
