/**
 The mobile-number test: four anchored patterns, one general and one for each
 carrier, and a disjunction of them.

 `digits` is the set of characters that `\d` stands for. The ten ASCII digits
 are among them, but a Unicode-aware engine knows more.
 */
module MobileNumber {
  import opened Decimal
  import opened Regex

  const ASCII_DIGITS: set<char> := {'0', '1', '2', '3', '4', '5', '6', '7', '8', '9'}

  /** A range of ASCII digits, as in `[5-9]`. */
  function Range(lo: char, hi: char): (cs: set<char>)
    requires '0' <= lo && hi <= '9'
    ensures forall c :: c in cs <==> lo <= c <= hi
  {
    set c | c in ASCII_DIGITS && lo <= c <= hi
  }

  function Char(c: char): Expr {
    Class({c})
  }

  /** One given character and then one of a class, as in `5[256]`. */
  function Pair(c: char, cs: set<char>): Expr {
    Then(Char(c), Class(cs))
  }

  /** `^1(...)\d{n}$` */
  function Pattern(prefix: Expr, digits: set<char>, n: nat): Expr {
    Anchored(Then(Char('1'), Then(prefix, Times(Class(digits), n))))
  }

  /** `3[0-9]|5[0-35-9]|8[025-9]` */
  function MobilePrefix(): Expr {
    Or(Or(Pair('3', Range('0', '9')), Pair('5', Range('0', '3') + Range('5', '9'))),
       Pair('8', {'0', '2'} + Range('5', '9')))
  }

  /** `34[0-8]` */
  function ChinaMobileOldPrefix(): Expr {
    Then(Char('3'), Pair('4', Range('0', '8')))
  }

  /** `3[5-9]|5[017-9]|8[2378]` */
  function ChinaMobileNewPrefix(): Expr {
    Or(Or(Pair('3', Range('5', '9')), Pair('5', {'0', '1'} + Range('7', '9'))), Pair('8', {'2', '3', '7', '8'}))
  }

  /** `34[0-8]|(3[5-9]|5[017-9]|8[2378])\d` */
  function ChinaMobilePrefix(digits: set<char>): Expr {
    Or(ChinaMobileOldPrefix(), Then(ChinaMobileNewPrefix(), Class(digits)))
  }

  /** `3[0-2]|45|5[256]|8[56]` */
  function ChinaUnicomPrefix(): Expr {
    Or(Or(Or(Pair('3', Range('0', '2')), Pair('4', {'5'})), Pair('5', {'2', '5', '6'})), Pair('8', {'5', '6'}))
  }

  /** `33|34|53|8[09]` */
  function ChinaTelecomPrefix(): Expr {
    Or(Or(Or(Pair('3', {'3'}), Pair('3', {'4'})), Pair('5', {'3'})), Pair('8', {'0', '9'}))
  }

  function MOBILE(digits: set<char>): Expr {
    Pattern(MobilePrefix(), digits, 8)
  }

  function CM(digits: set<char>): Expr {
    Pattern(ChinaMobilePrefix(digits), digits, 7)
  }

  function CU(digits: set<char>): Expr {
    Pattern(ChinaUnicomPrefix(), digits, 8)
  }

  function CT(digits: set<char>): Expr {
    Pattern(Then(ChinaTelecomPrefix(), Class(Range('0', '9'))), digits, 7)
  }

  predicate IsMobileNumber(s: string, digits: set<char>) {
    || FullMatch(MOBILE(digits), s)
    || FullMatch(CM(digits), s)
    || FullMatch(CT(digits), s)
    || FullMatch(CU(digits), s)
  }

  // ----- the languages, by number prefix ----------------------------------

  // The prefixes that the code's comments list for each carrier; China Mobile also has 1340 to 1348.
  const CM_PREFIXES: set<nat> := {135, 136, 137, 138, 139, 150, 151, 157, 158, 159, 182, 183, 187, 188}
  const CU_PREFIXES: set<nat> := {130, 131, 132, 145, 152, 155, 156, 185, 186}
  const CT_PREFIXES: set<nat> := {133, 134, 153, 180, 189}

  /** Eleven characters: three ASCII digits and eight characters that `\d` matches. */
  predicate IsNumber(s: string, digits: set<char>) {
    && |s| == 11
    && IsDigit(s[0]) && IsDigit(s[1]) && IsDigit(s[2])
    && forall k :: 3 <= k < 11 ==> s[k] in digits
  }

  /** The number that the first three characters form. */
  function Prefix(s: string): nat
    requires |s| == 11 && IsDigit(s[0]) && IsDigit(s[1]) && IsDigit(s[2])
  {
    100 * DigitValue(s[0]) + 10 * DigitValue(s[1]) + DigitValue(s[2])
  }

  lemma DigitsAreAscii(c: char)
    ensures c in ASCII_DIGITS <==> IsDigit(c)
  {
  }

  lemma PairMatches(c: char, cs: set<char>, s: string, i: nat, j: nat)
    requires i <= |s| && j <= |s|
    ensures Matches(Pair(c, cs), s, i, j) <==> j == i + 2 && s[i] == c && s[i + 1] in cs
  {
    ClassWidth({c});
    ThenSplits(Char(c), Class(cs), 1, s, i, j);
  }

  lemma PairWidth(c: char, cs: set<char>)
    ensures HasWidth(Pair(c, cs), 2)
  {
    ClassWidth({c});
    ClassWidth(cs);
    ThenWidth(Char(c), Class(cs), 1, 1);
  }

  /** A pattern of this shape, for a prefix of fixed width. */
  lemma PatternLanguage(prefix: Expr, digits: set<char>, n: nat, s: string)
    requires n <= 10 && HasWidth(prefix, 10 - n)
    ensures FullMatch(Pattern(prefix, digits, n), s) <==>
      && |s| == 11 && s[0] == '1'
      && Matches(prefix, s, 1, 11 - n)
      && forall k :: 11 - n <= k < 11 ==> s[k] in digits
  {
    var rest := Then(prefix, Times(Class(digits), n));
    var body := Then(Char('1'), rest);
    AnchorsAreRedundant(body, s);
    ClassWidth({'1'});
    ThenSplits(Char('1'), rest, 1, s, 0, |s|);
    if 1 <= |s| {
      ThenSplits(prefix, Times(Class(digits), n), 10 - n, s, 1, |s|);
      if 11 - n <= |s| {
        TimesClass(digits, n, s, 11 - n, |s|);
      }
    }
  }

  lemma MobileLanguage(s: string, digits: set<char>)
    ensures FullMatch(MOBILE(digits), s) <==>
      && IsNumber(s, digits)
      && var p := Prefix(s);
         130 <= p <= 139 || (150 <= p <= 159 && p != 154) || (180 <= p <= 189 && p !in {181, 183, 184})
  {
    var three, five, eight := Range('0', '9'), Range('0', '3') + Range('5', '9'), {'0', '2'} + Range('5', '9');
    PairWidth('3', three);
    PairWidth('5', five);
    PairWidth('8', eight);
    OrWidth(Pair('3', three), Pair('5', five), 2);
    OrWidth(Or(Pair('3', three), Pair('5', five)), Pair('8', eight), 2);
    PatternLanguage(MobilePrefix(), digits, 8, s);
    if |s| == 11 {
      PairMatches('3', three, s, 1, 3);
      PairMatches('5', five, s, 1, 3);
      PairMatches('8', eight, s, 1, 3);
    }
  }

  lemma ChinaMobilePrefixWidths(digits: set<char>)
    ensures HasWidth(ChinaMobileOldPrefix(), 3) && HasWidth(ChinaMobileNewPrefix(), 2)
    ensures HasWidth(ChinaMobilePrefix(digits), 3)
  {
    var three, five, eight := Range('5', '9'), {'0', '1'} + Range('7', '9'), {'2', '3', '7', '8'};
    PairWidth('3', three);
    PairWidth('5', five);
    PairWidth('8', eight);
    OrWidth(Pair('3', three), Pair('5', five), 2);
    OrWidth(Or(Pair('3', three), Pair('5', five)), Pair('8', eight), 2);
    ClassWidth(digits);
    ThenWidth(ChinaMobileNewPrefix(), Class(digits), 2, 1);
    ClassWidth({'3'});
    PairWidth('4', Range('0', '8'));
    ThenWidth(Char('3'), Pair('4', Range('0', '8')), 1, 2);
    OrWidth(ChinaMobileOldPrefix(), Then(ChinaMobileNewPrefix(), Class(digits)), 3);
  }

  lemma ChinaMobileNewPrefixMatches(s: string)
    requires |s| == 11
    ensures Matches(ChinaMobileNewPrefix(), s, 1, 3) <==>
      || (s[1] == '3' && '5' <= s[2] <= '9')
      || (s[1] == '5' && s[2] in {'0', '1', '7', '8', '9'})
      || (s[1] == '8' && s[2] in {'2', '3', '7', '8'})
  {
    PairMatches('3', Range('5', '9'), s, 1, 3);
    PairMatches('5', {'0', '1'} + Range('7', '9'), s, 1, 3);
    PairMatches('8', {'2', '3', '7', '8'}, s, 1, 3);
  }

  lemma ChinaMobileOldPrefixMatches(s: string)
    requires |s| == 11
    ensures Matches(ChinaMobileOldPrefix(), s, 1, 4) <==> s[1] == '3' && s[2] == '4' && '0' <= s[3] <= '8'
  {
    ClassWidth({'3'});
    ThenSplits(Char('3'), Pair('4', Range('0', '8')), 1, s, 1, 4);
    PairMatches('4', Range('0', '8'), s, 2, 4);
  }

  lemma ChinaMobileSplits(s: string, digits: set<char>)
    ensures FullMatch(CM(digits), s) <==>
      && |s| == 11 && s[0] == '1'
      && (|| Matches(ChinaMobileOldPrefix(), s, 1, 4)
          || (Matches(ChinaMobileNewPrefix(), s, 1, 3) && s[3] in digits))
      && forall k :: 4 <= k < 11 ==> s[k] in digits
  {
    ChinaMobilePrefixWidths(digits);
    PatternLanguage(ChinaMobilePrefix(digits), digits, 7, s);
    if |s| == 11 {
      ThenSplits(ChinaMobileNewPrefix(), Class(digits), 2, s, 1, 4);
    }
  }

  lemma ChinaMobileLanguage(s: string, digits: set<char>)
    requires ASCII_DIGITS <= digits
    ensures FullMatch(CM(digits), s) <==>
      && IsNumber(s, digits)
      && (Prefix(s) in CM_PREFIXES || (Prefix(s) == 134 && '0' <= s[3] <= '8'))
  {
    ChinaMobileSplits(s, digits);
    if |s| == 11 {
      ChinaMobileOldPrefixMatches(s);
      ChinaMobileNewPrefixMatches(s);
      DigitsAreAscii(s[3]);
    }
  }

  lemma ChinaUnicomLanguage(s: string, digits: set<char>)
    ensures FullMatch(CU(digits), s) <==> IsNumber(s, digits) && Prefix(s) in CU_PREFIXES
  {
    var three, four, five, eight := Range('0', '2'), {'5'}, {'2', '5', '6'}, {'5', '6'};
    PairWidth('3', three);
    PairWidth('4', four);
    PairWidth('5', five);
    PairWidth('8', eight);
    var two := Or(Pair('3', three), Pair('4', four));
    OrWidth(Pair('3', three), Pair('4', four), 2);
    OrWidth(two, Pair('5', five), 2);
    OrWidth(Or(two, Pair('5', five)), Pair('8', eight), 2);
    PatternLanguage(ChinaUnicomPrefix(), digits, 8, s);
    if |s| == 11 {
      PairMatches('3', three, s, 1, 3);
      PairMatches('4', four, s, 1, 3);
      PairMatches('5', five, s, 1, 3);
      PairMatches('8', eight, s, 1, 3);
    }
  }

  lemma ChinaTelecomPrefixWidth()
    ensures HasWidth(ChinaTelecomPrefix(), 2)
  {
    PairWidth('3', {'3'});
    PairWidth('3', {'4'});
    PairWidth('5', {'3'});
    PairWidth('8', {'0', '9'});
    var two := Or(Pair('3', {'3'}), Pair('3', {'4'}));
    OrWidth(Pair('3', {'3'}), Pair('3', {'4'}), 2);
    OrWidth(two, Pair('5', {'3'}), 2);
    OrWidth(Or(two, Pair('5', {'3'})), Pair('8', {'0', '9'}), 2);
  }

  lemma ChinaTelecomPrefixMatches(s: string)
    requires |s| == 11
    ensures Matches(ChinaTelecomPrefix(), s, 1, 3) <==>
      || (s[1] == '3' && s[2] in {'3', '4'}) || (s[1] == '5' && s[2] == '3') || (s[1] == '8' && s[2] in {'0', '9'})
  {
    PairMatches('3', {'3'}, s, 1, 3);
    PairMatches('3', {'4'}, s, 1, 3);
    PairMatches('5', {'3'}, s, 1, 3);
    PairMatches('8', {'0', '9'}, s, 1, 3);
  }

  lemma ChinaTelecomSplits(s: string, digits: set<char>)
    ensures FullMatch(CT(digits), s) <==>
      && |s| == 11 && s[0] == '1'
      && Matches(ChinaTelecomPrefix(), s, 1, 3) && IsDigit(s[3])
      && forall k :: 4 <= k < 11 ==> s[k] in digits
  {
    var prefix, digit := ChinaTelecomPrefix(), Class(Range('0', '9'));
    ChinaTelecomPrefixWidth();
    ClassWidth(Range('0', '9'));
    ThenWidth(prefix, digit, 2, 1);
    PatternLanguage(Then(prefix, digit), digits, 7, s);
    if |s| == 11 {
      ThenSplits(prefix, digit, 2, s, 1, 4);
    }
  }

  /** The fourth character must be an ASCII digit here: the pattern has `[0-9]` in its place. */
  lemma ChinaTelecomLanguage(s: string, digits: set<char>)
    requires ASCII_DIGITS <= digits
    ensures FullMatch(CT(digits), s) <==>
      IsNumber(s, digits) && Prefix(s) in CT_PREFIXES && IsDigit(s[3])
  {
    ChinaTelecomSplits(s, digits);
    if |s| == 11 {
      ChinaTelecomPrefixMatches(s);
      DigitsAreAscii(s[3]);
    }
  }

  // ----- the test as a whole ----------------------------------------------

  /** One left-to-right scan decides the disjunction of the four patterns. */
  lemma OneScanDecides(s: string, digits: set<char>)
    requires ASCII_DIGITS <= digits
    ensures IsMobileNumber(s, digits) <==>
      && IsNumber(s, digits)
      && var p := Prefix(s);
         130 <= p <= 139 || p == 145 || (150 <= p <= 159 && p != 154) || (180 <= p <= 189 && p != 181 && p != 184)
  {
    MobileLanguage(s, digits);
    ChinaMobileLanguage(s, digits);
    ChinaUnicomLanguage(s, digits);
    ChinaTelecomLanguage(s, digits);
  }

  predicate MatchesSomeCarrier(s: string, digits: set<char>) {
    FullMatch(CM(digits), s) || FullMatch(CU(digits), s) || FullMatch(CT(digits), s)
  }

  ghost predicate CarriersCover(digits: set<char>) {
    forall s: string :: FullMatch(MOBILE(digits), s) ==> MatchesSomeCarrier(s, digits)
  }

  /** What the general pattern matches beyond the carriers' patterns. */
  lemma Uncovered(s: string, digits: set<char>)
    requires ASCII_DIGITS <= digits
    ensures FullMatch(MOBILE(digits), s) && !MatchesSomeCarrier(s, digits) <==>
      IsNumber(s, digits) && Prefix(s) in CT_PREFIXES && !IsDigit(s[3])
  {
    MobileLanguage(s, digits);
    ChinaMobileLanguage(s, digits);
    ChinaUnicomLanguage(s, digits);
    ChinaTelecomLanguage(s, digits);
  }

  /** A foreign digit after "134" gives such a number. */
  lemma UncoveredNumber(d: char, digits: set<char>) returns (s: string)
    requires ASCII_DIGITS <= digits && d in digits && d !in ASCII_DIGITS
    ensures FullMatch(MOBILE(digits), s) && !MatchesSomeCarrier(s, digits)
  {
    s := "134" + seq(8, _ => d);
    DigitsAreAscii(d);
    assert Prefix(s) == 134 && s[3] == d;
    Uncovered(s, digits);
  }

  /** The carrier patterns cover the general one exactly when `\d` matches nothing but the ASCII digits. */
  lemma CarriersCoverExactly(digits: set<char>)
    requires ASCII_DIGITS <= digits
    ensures CarriersCover(digits) <==> digits == ASCII_DIGITS
  {
    if digits == ASCII_DIGITS {
      forall s: string | FullMatch(MOBILE(digits), s)
        ensures MatchesSomeCarrier(s, digits)
      {
        Uncovered(s, digits);
        if IsNumber(s, digits) {
          DigitsAreAscii(s[3]);
        }
      }
    } else {
      var d :| d in digits && d !in ASCII_DIGITS;
      var s := UncoveredNumber(d, digits);
    }
  }

  /** With ASCII digits the general pattern adds nothing. */
  lemma SomeCarrierDecides(s: string)
    ensures IsMobileNumber(s, ASCII_DIGITS) <==> MatchesSomeCarrier(s, ASCII_DIGITS)
  {
    CarriersCoverExactly(ASCII_DIGITS);
  }

  /** How each carrier's pattern relates to the general one. */
  lemma DifferencesFromGeneral(s: string, digits: set<char>)
    requires ASCII_DIGITS <= digits
    ensures FullMatch(CT(digits), s) ==> FullMatch(MOBILE(digits), s)
    ensures FullMatch(CM(digits), s) && !FullMatch(MOBILE(digits), s) <==> IsNumber(s, digits) && Prefix(s) == 183
    ensures FullMatch(CU(digits), s) && !FullMatch(MOBILE(digits), s) <==> IsNumber(s, digits) && Prefix(s) == 145
  {
    MobileLanguage(s, digits);
    ChinaMobileLanguage(s, digits);
    ChinaUnicomLanguage(s, digits);
    ChinaTelecomLanguage(s, digits);
  }

  /** How the carriers' patterns overlap. */
  lemma CarrierOverlaps(s: string, digits: set<char>)
    requires ASCII_DIGITS <= digits
    ensures !(FullMatch(CM(digits), s) && FullMatch(CU(digits), s))
    ensures !(FullMatch(CU(digits), s) && FullMatch(CT(digits), s))
    ensures FullMatch(CM(digits), s) && FullMatch(CT(digits), s) <==>
      IsNumber(s, digits) && Prefix(s) == 134 && '0' <= s[3] <= '8'
  {
    ChinaMobileLanguage(s, digits);
    ChinaUnicomLanguage(s, digits);
    ChinaTelecomLanguage(s, digits);
  }
}
