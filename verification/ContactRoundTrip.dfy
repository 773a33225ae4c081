/**
 Printing a contact and parsing it again.

 `Print` is the name-addr form with an opening '<' and no display name. The
 theorems say exactly for which contacts the parser gives the printed parts
 back.
 */
module ContactRoundTrip {
  import opened CString
  import opened Decimal
  import opened ContactHeader

  datatype Port = NoPort | Port(digits: string)

  /** `tail` is everything after the host and the port: the closing '>' and the parameters. */
  datatype Contact = Contact(user: string, host: string, port: Port, tail: string)

  const OPENING := "<sip:"

  function PrintPort(p: Port): string {
    if p.NoPort? then "" else ":" + p.digits
  }

  function AfterAt(c: Contact): string {
    c.host + (PrintPort(c.port) + c.tail)
  }

  function Print(c: Contact): string {
    (OPENING + c.user) + ("@" + AfterAt(c))
  }

  /** The port is a number, and the tail does not run on into the port or the host. */
  predicate Printable(c: Contact) {
    && (c.port.Port? ==> c.port.digits != "" && AllDigits(c.port.digits))
    && (c.tail != "" ==> !IsDigit(c.tail[0]) && c.tail[0] != ':')
  }

  /** What the parser should make of the printed contact. */
  function Expected(c: Contact): Outcome
    requires Printable(c)
  {
    Accepted(c.user, c.host, if c.port.NoPort? then 0 else Value(c.port.digits) % 65536)
  }

  predicate Lacks(c: Contact, x: char) {
    x !in c.user && x !in c.host
  }

  // ----- the user ---------------------------------------------------------

  lemma FindsScheme(user: string, rest: string)
    ensures var h := (OPENING + user) + ("@" + rest); FirstText(h, "sip:", 0) == 1
  {
    var h := (OPENING + user) + ("@" + rest);
    assert !Occurs(h, "sip:", 0) by {
      assert h[0 + 0] != "sip:"[0];
    }
    assert h[1] == 's' && h[2] == 'i' && h[3] == 'p' && h[4] == ':';
    assert Occurs(h, "sip:", 1);
  }

  lemma FindsAt(user: string, rest: string)
    ensures var h := (OPENING + user) + ("@" + rest);
      var at := FirstText(h, "@", 0);
      && USER_START <= at <= USER_START + |user|
      && (at == USER_START + |user| <==> '@' !in user)
      && h[USER_START..at] == user[..at - USER_START]
  {
    var front, back := OPENING + user, "@" + rest;
    var h := front + back;
    FirstTextOfOneChar(h, '@', 0);
    FirstCharOfConcat(front, back, '@', 0);
    FirstCharOfConcat(OPENING, user, '@', 0);
    FoundIffPresent(user, '@', 0);
    assert back[0] == '@';
  }

  // ----- searching a printed contact --------------------------------------

  /** First of three places in which `c` may turn up. */
  function Earliest(p: int, q: int, r: int): int {
    if p != NULL_PTR then p else if q != NULL_PTR then q else r
  }

  function Shifted(offset: nat, r: int): int {
    if r == NULL_PTR then NULL_PTR else offset + r
  }

  lemma {:induction false} SearchFromAt(front: string, host: string, rest: string, c: char)
    requires c != '@'
    ensures FirstChar(front + ("@" + (host + rest)), c, |front|) ==
      Earliest(Shifted(|front| + 1, FirstChar(host, c, 0)),
               Shifted(|front| + 1 + |host|, FirstChar(rest, c, 0)), NULL_PTR)
  {
    FirstCharOfConcat(front, "@" + (host + rest), c, |front|);
    FirstCharOfConcat("@", host + rest, c, 0);
    FirstCharOfConcat(host, rest, c, 0);
  }

  lemma {:induction false} SearchFromStart(user: string, host: string, rest: string, c: char)
    requires c != '@' && c !in OPENING
    ensures var front := OPENING + user;
      FirstChar(front + ("@" + (host + rest)), c, 0) ==
      Earliest(Shifted(USER_START, FirstChar(user, c, 0)), Shifted(|front| + 1, FirstChar(host, c, 0)),
               Shifted(|front| + 1 + |host|, FirstChar(rest, c, 0)))
  {
    var front := OPENING + user;
    FirstCharOfConcat(front, "@" + (host + rest), c, 0);
    FirstCharOfConcat(OPENING, user, c, 0);
    FirstCharOfConcat("@", host + rest, c, 0);
    FirstCharOfConcat(host, rest, c, 0);
  }

  // ----- with a port ------------------------------------------------------

  /**
   How far the text copied for the port reaches into the tail: to the first ';', or else to the first
   '>', provided no '>' stands earlier in the header.
   */
  function PortTextEnd(c: Contact): int {
    if ';' in c.tail then FirstChar(c.tail, ';', 0)
    else if '>' in c.user || '>' in c.host then NULL_PTR
    else FirstChar(c.tail, '>', 0)
  }

  /** The port text is delimited, fits its buffer, and its number fits an `int`. */
  predicate PortIsRead(c: Contact)
    requires Printable(c) && c.port.Port?
  {
    && PortTextEnd(c) != NULL_PTR
    && |c.port.digits| + PortTextEnd(c) < 20
    && Value(c.port.digits) <= 2147483647
  }

  /** No ';' in the tail and no '>' anywhere: nothing ends the port. */
  predicate NothingEndsPort(c: Contact) {
    ';' !in c.tail && '>' !in c.tail && Lacks(c, '>')
  }

  predicate SurvivesWithPort(c: Contact)
    requires Printable(c) && c.port.Port?
  {
    && '@' !in c.user && |c.user| <= 50
    && ':' !in c.host && |c.host| <= 50
    && PortIsRead(c)
  }

  lemma SearchPastDigits(digits: string, tail: string, c: char)
    requires AllDigits(digits) && !IsDigit(c) && c != ':'
    ensures FirstChar(":" + (digits + tail), c, 0) == Shifted(1 + |digits|, FirstChar(tail, c, 0))
  {
    FirstCharOfConcat(":", digits + tail, c, 0);
    FirstCharOfConcat(digits, tail, c, 0);
  }

  lemma PortEndOfPrinted(c: Contact, h: string, colon: nat)
    requires Printable(c) && c.port.Port?
    requires h == Print(c) && colon == |OPENING| + |c.user| + 1 + |c.host|
    ensures colon < |h| && h[colon..] == ":" + (c.port.digits + c.tail)
    ensures PortTextEnd(c) != NULL_PTR ==> PortEnd(h, colon) == colon + 1 + |c.port.digits| + PortTextEnd(c)
    ensures PortTextEnd(c) == NULL_PTR ==> PortEnd(h, colon) < colon
    ensures PortEnd(h, colon) == NULL_PTR <==> NothingEndsPort(c)
  {
    var digits, tail := c.port.digits, c.tail;
    var front, rest := OPENING + c.user + "@" + c.host, ":" + (digits + tail);
    assert PrintPort(c.port) + tail == rest;
    assert h == front + rest;
    FirstCharOfConcat(front, rest, ';', |front|);
    SearchPastDigits(digits, tail, ';');
    SearchFromStart(c.user, c.host, rest, '>');
    SearchPastDigits(digits, tail, '>');
    FoundIffPresent(tail, ';', 0);
    FoundIffPresent(tail, '>', 0);
    FoundIffPresent(c.user, '>', 0);
    FoundIffPresent(c.host, '>', 0);
  }

  /** The port text reads as the digits, whatever part of the tail was copied along. */
  lemma {:induction false} PortTextReads(h: string, colon: nat, digits: string, tail: string, k: nat)
    requires colon < |h| && h[colon..] == ":" + (digits + tail)
    requires AllDigits(digits) && digits != ""
    requires tail != "" ==> !IsDigit(tail[0])
    requires k <= |tail|
    ensures colon + 1 + |digits| + k <= |h|
    ensures AtoiValue(h[colon + 1..colon + 1 + |digits| + k]) == Value(digits)
  {
    var text := h[colon..];
    assert |text| == 1 + |digits| + |tail|;
    assert h[colon + 1..colon + 1 + |digits| + k] == text[1..1 + |digits| + k] == digits + tail[..k];
    AtoiOfDigits(digits, tail[..k]);
  }

  lemma CutPortReads(h: string, colon: nat, user: string, host: string, end: nat, number: int)
    requires colon < |h| && colon < end <= |h| && PortEnd(h, colon) == end
    requires AtoiValue(h[colon + 1..end]) == number
    ensures CutPort(h, colon, user, host) ==
      if end < colon + 21 && FitsInt(number) then Accepted(user, host, number % 65536) else Undefined
  {
  }

  lemma {:induction false} CutPortOfDigits(
      h: string, colon: nat, user: string, host: string, digits: string, tail: string, k: nat)
    requires colon < |h| && h[colon..] == ":" + (digits + tail)
    requires AllDigits(digits) && digits != ""
    requires tail != "" ==> !IsDigit(tail[0])
    requires k <= |tail| && PortEnd(h, colon) == colon + 1 + |digits| + k
    ensures CutPort(h, colon, user, host) ==
      if |digits| + k < 20 && Value(digits) <= 2147483647
      then Accepted(user, host, Value(digits) % 65536)
      else Undefined
  {
    PortTextReads(h, colon, digits, tail, k);
    CutPortReads(h, colon, user, host, colon + 1 + |digits| + k, Value(digits));
  }

  /** What becomes of the port, once user and host have been cut. */
  function PortOutcome(c: Contact): Outcome
    requires Printable(c) && c.port.Port?
  {
    if PortIsRead(c) then Expected(c)
    else if NothingEndsPort(c) then Rejected(c.user, c.host)
    else Undefined
  }

  lemma CutPortOfPrinted(c: Contact, h: string, colon: nat)
    requires Printable(c) && c.port.Port?
    requires h == Print(c) && colon == |OPENING| + |c.user| + 1 + |c.host|
    ensures colon < |h|
    ensures CutPort(h, colon, c.user, c.host) == PortOutcome(c)
  {
    PortEndOfPrinted(c, h, colon);
    if PortTextEnd(c) != NULL_PTR {
      CutPortOfDigits(h, colon, c.user, c.host, c.port.digits, c.tail, PortTextEnd(c));
    }
  }

  lemma HostEndWithPort(c: Contact, h: string, at: nat)
    requires c.port.Port?
    requires h == Print(c) && at == |OPENING| + |c.user|
    ensures at < |h| && FirstText(h, ":", at) != NULL_PTR
    ensures at < HostEnd(h, at) <= at + 1 + |c.host|
    ensures HostEnd(h, at) == at + 1 + |c.host| <==> ':' !in c.host
  {
    var front, rest := OPENING + c.user, PrintPort(c.port) + c.tail;
    FirstTextOfOneChar(h, ':', at);
    SearchFromAt(front, c.host, rest, ':');
    FoundIffPresent(c.host, ':', 0);
    assert rest[0] == ':';
  }

  lemma HostSlice(c: Contact, h: string, at: nat)
    requires h == Print(c) && at == |OPENING| + |c.user|
    ensures |h| >= at + 1 + |c.host|
    ensures h[5..at] == c.user && h[at + 1..at + 1 + |c.host|] == c.host
  {
    assert h[at..] == "@" + AfterAt(c);
    assert h[at + 1..at + 1 + |c.host|] == AfterAt(c)[..|c.host|];
  }

  lemma CutHostWithPort(c: Contact, h: string, at: nat)
    requires Printable(c) && c.port.Port?
    requires h == Print(c) && at == |OPENING| + |c.user|
    requires ':' !in c.host
    ensures at < |h|
    ensures CutHost(h, at) == if |c.host| <= 50 then PortOutcome(c) else Undefined
  {
    HostEndWithPort(c, h, at);
    HostSlice(c, h, at);
    CutPortOfPrinted(c, h, HostEnd(h, at));
  }

  /** A ':' inside the host ends it early. */
  lemma CutHostAtEarlyColon(c: Contact, h: string, at: nat)
    requires Printable(c) && c.port.Port?
    requires h == Print(c) && at == |OPENING| + |c.user|
    requires ':' in c.host
    ensures at < |h|
    ensures !CutHost(h, at).Undefined? ==> CutHost(h, at).host != c.host
  {
    HostEndWithPort(c, h, at);
    assert |h[at + 1..HostEnd(h, at)]| < |c.host|;
  }

  // ----- without a port ---------------------------------------------------

  /** The first ';' of the whole header, or the first '>' if there is no ';' at all, must be the one after the host. */
  predicate EndsAtTail(c: Contact) {
    && c.tail != ""
    && (|| (c.tail[0] == ';' && Lacks(c, ';'))
        || (c.tail[0] == '>' && Lacks(c, ';') && ';' !in c.tail && Lacks(c, '>')))
  }

  predicate SurvivesWithoutPort(c: Contact)
    requires c.port.NoPort?
  {
    && '@' !in c.user && |c.user| <= 50
    && ':' !in c.host && |c.host| <= 50
    && ':' !in c.tail
    && EndsAtTail(c)
  }

  lemma FirstInTail(c: Contact, h: string, at: nat, x: char)
    requires c.port.NoPort?
    requires h == Print(c) && at == |OPENING| + |c.user|
    requires x == ';' || x == '>'
    ensures FirstChar(h, x, 0) == NULL_PTR <==> Lacks(c, x) && x !in c.tail
    ensures FirstChar(h, x, 0) == at + 1 + |c.host| <==> Lacks(c, x) && c.tail != "" && c.tail[0] == x
  {
    SearchFromStart(c.user, c.host, PrintPort(c.port) + c.tail, x);
    assert PrintPort(c.port) + c.tail == c.tail;
    FoundIffPresent(c.user, x, 0);
    FoundIffPresent(c.host, x, 0);
    FoundIffPresent(c.tail, x, 0);
  }

  lemma ColonWithoutPort(c: Contact, h: string, at: nat)
    requires Printable(c) && c.port.NoPort?
    requires h == Print(c) && at == |OPENING| + |c.user|
    ensures at < |h|
    ensures var colon := FirstText(h, ":", at);
      && (colon == NULL_PTR <==> ':' !in c.host && ':' !in c.tail)
      && (colon != NULL_PTR ==> at < colon < |h| && colon != at + 1 + |c.host|)
  {
    FirstTextOfOneChar(h, ':', at);
    SearchFromAt(OPENING + c.user, c.host, PrintPort(c.port) + c.tail, ':');
    assert PrintPort(c.port) + c.tail == c.tail;
    FoundIffPresent(c.host, ':', 0);
    FoundIffPresent(c.tail, ':', 0);
  }

  lemma HostEndWithoutPort(c: Contact, h: string, at: nat)
    requires Printable(c) && c.port.NoPort?
    requires h == Print(c) && at == |OPENING| + |c.user|
    ensures at < |h|
    ensures HostEnd(h, at) == at + 1 + |c.host| <==> ':' !in c.host && ':' !in c.tail && EndsAtTail(c)
    ensures HostEnd(h, at) == at + 1 + |c.host| ==> FirstText(h, ":", at) == NULL_PTR
  {
    ColonWithoutPort(c, h, at);
    FirstInTail(c, h, at, ';');
    FirstInTail(c, h, at, '>');
  }

  lemma CutHostWithoutPort(c: Contact, h: string, at: nat)
    requires Printable(c) && c.port.NoPort?
    requires h == Print(c) && at == |OPENING| + |c.user|
    ensures at < |h|
    ensures CutHost(h, at) == Expected(c) <==>
      ':' !in c.host && |c.host| <= 50 && ':' !in c.tail && EndsAtTail(c)
  {
    HostEndWithoutPort(c, h, at);
    HostSlice(c, h, at);
    var end := HostEnd(h, at);
    if at < end && end != at + 1 + |c.host| {
      assert |h[at + 1..end]| != |c.host|;
    }
  }

  // ----- the round trip ---------------------------------------------------

  predicate Survives(c: Contact)
    requires Printable(c)
  {
    if c.port.Port? then SurvivesWithPort(c) else SurvivesWithoutPort(c)
  }

  /** Parsing a printed contact gives its parts back exactly for the contacts that `Survives` describes. */
  lemma RoundTrip(c: Contact, h: string)
    requires Printable(c)
    requires h == Print(c)
    ensures Cut(h) == Expected(c) <==> Survives(c)
  {
    FindsScheme(c.user, AfterAt(c));
    FindsAt(c.user, AfterAt(c));
    var at := FirstText(h, "@", 0);
    if '@' in c.user {
      assert |h[USER_START..at]| != |c.user|;
    } else if c.port.Port? && ':' in c.host {
      CutHostAtEarlyColon(c, h, at);
    } else if c.port.Port? {
      CutHostWithPort(c, h, at);
    } else {
      CutHostWithoutPort(c, h, at);
    }
  }

  /** With a port, the complete outcome for every header whose user ends at its '@' and whose host ends at its ':'. */
  lemma OutcomeWithPort(c: Contact, h: string)
    requires Printable(c) && c.port.Port?
    requires h == Print(c)
    requires '@' !in c.user && ':' !in c.host
    ensures Cut(h) == if |c.user| <= 50 && |c.host| <= 50 then PortOutcome(c) else Undefined
  {
    FindsScheme(c.user, AfterAt(c));
    FindsAt(c.user, AfterAt(c));
    CutHostWithPort(c, h, |OPENING| + |c.user|);
  }

  /** A contact that survives is accepted with the parts that it was printed from. */
  lemma {:induction false} SurvivorsAreExpected(c: Contact, h: string)
    requires Printable(c) && Survives(c) && h == Print(c)
    ensures Cut(h) == Expected(c)
  {
    RoundTrip(c, h);
  }

  /** `port` is what a 16-bit field keeps of `n`: all of it, if it is below 65536. */
  predicate IsLow16(port: nat, n: nat) {
    port < 65536 && (n - port) % 65536 == 0 && (n < 65536 ==> port == n)
  }

  lemma {:induction false} ExpectedIsLow16(c: Contact, port: nat, n: nat)
    requires Printable(c) && c.port.Port? && n == Value(c.port.digits) && port == Expected(c).port
    ensures IsLow16(port, n)
  {
  }

  /** The port of a contact that survives. */
  lemma {:induction false} PortSurvives(c: Contact, h: string, port: nat, n: nat)
    requires Printable(c) && c.port.Port? && Survives(c) && n == Value(c.port.digits)
    requires h == Print(c) && Cut(h).Accepted? && port == Cut(h).port
    ensures IsLow16(port, n)
  {
    SurvivorsAreExpected(c, h);
    ExpectedIsLow16(c, port, n);
  }

  /** What is expected of a 16-bit port printed in decimal is the port itself. */
  lemma NumericPortIsExpected(c: Contact, port: nat)
    requires Printable(c) && c.port == Port(Numeral(port)) && port < 65536
    ensures Expected(c) == Accepted(c.user, c.host, port)
    ensures Value(c.port.digits) <= 2147483647 && |c.port.digits| <= 5
  {
    ValueOfNumeral(port);
    NumeralLength(port);
    assert Value(c.port.digits) == port && port % 65536 == port;
  }

  /** The port expected, printed in decimal, is the text that was parsed exactly for canonical 16-bit numerals. */
  lemma PortPrintsBack(c: Contact)
    requires Printable(c) && c.port.Port?
    ensures Numeral(Expected(c).port) == c.port.digits <==>
      IsCanonical(c.port.digits) && Value(c.port.digits) < 65536
  {
    NumeralIsInverse(c.port.digits, Expected(c).port);
  }

  /**
   With a port present, parameters may stand inside or outside the closing '>'. The one exception is a port
   text of 19 digits, which only just fits its buffer without the '>'.
   */
  lemma ParametersMayMove(inside: Contact, outside: Contact, params: string)
    requires inside.port.Port? && AllDigits(inside.port.digits) && inside.port.digits != ""
    requires '@' !in inside.user && ':' !in inside.host
    requires inside.tail == ";" + params + ">" && outside == inside.(tail := ">;" + params)
    ensures Cut(Print(inside)) == Cut(Print(outside)) <==>
      !(&& |inside.port.digits| == 19 && Value(inside.port.digits) <= 2147483647
        && |inside.user| <= 50 && |inside.host| <= 50)
  {
    assert inside.tail[0] == ';' && outside.tail[0] == '>' && outside.tail[1] == ';';
    OutcomeWithPort(inside, Print(inside));
    OutcomeWithPort(outside, Print(outside));
    assert PortTextEnd(inside) == 0 && PortTextEnd(outside) == 1;
    assert Expected(inside) == Expected(outside);
    assert !PortOutcome(inside).Rejected? && !PortOutcome(outside).Rejected?;
  }

  /** Such a text: nineteen zeros are port 0 inside the '>', and overrun the buffer outside. */
  lemma NineteenDigitsMayNotMove(inside: Contact, outside: Contact)
    requires inside == Contact("bob", "h", Port("0000000000000000000"), ";p>")
    requires outside == inside.(tail := ">;p")
    ensures Cut(Print(inside)) == Accepted("bob", "h", 0)
    ensures Cut(Print(outside)) == Undefined
  {
    var zeros := inside.port.digits;
    assert |zeros| == 19 && forall i :: 0 <= i < |zeros| ==> zeros[i] == '0';
    LeadingZeros(zeros, "");
    assert zeros + "" == zeros && Value(zeros) == 0;
    assert inside.tail[0] == ';' && outside.tail[0] == '>' && outside.tail[1] == ';';
    OutcomeWithPort(inside, Print(inside));
    OutcomeWithPort(outside, Print(outside));
    assert PortTextEnd(inside) == 0 && PortTextEnd(outside) == 1;
  }

  /**
   Without a port, a parameter after the closing '>' makes that '>' part of the host, for every user, host and
   parameters that would otherwise parse.
   */
  lemma ClosingAngleLeaksIntoHost(user: string, host: string, params: string)
    requires '@' !in user && ';' !in user && |user| <= 50
    requires ':' !in host && ';' !in host && |host| < 50
    requires ':' !in params
    ensures Cut(Print(Contact(user, host, NoPort, ">;" + params))) == Accepted(user, host + ">", 0)
  {
    var read := Contact(user, host + ">", NoPort, ";" + params);
    assert Print(Contact(user, host, NoPort, ">;" + params)) == Print(read);
    RoundTrip(read, Print(read));
  }
}
