/**
 What the Contact header parser computes, as a function of the header text:
 where it cuts the header, when it accepts, and on which headers the C++ code
 has no defined behaviour at all.
 */
module ContactHeader {
  import opened CString
  import opened Decimal

  const SCHEME := "sip:"

  /** The user is always taken from this offset: the length of "sip:" plus one for an opening '<'. */
  const USER_START := 5

  const NAME_SIZE := 50
  const PORT_SIZE := 20
  const PORT_MODULUS := 0x1_0000

  /**
   `Undefined` stands for the headers on which the code reads or writes outside its
   buffers, copies a negative length, dereferences null, or overflows in `atoi`.
   */
  datatype Outcome =
    | Undefined
    | Rejected(user: string, host: string)
    | Accepted(user: string, host: string, port: nat)

  /** Where the host ends: at the first ':' after the '@', or else at the first ';' or else '>' of the whole header. */
  function HostEnd(h: string, at: nat): (end: int)
    requires at < |h|
    ensures end == NULL_PTR || 0 <= end < |h|
  {
    var colon := FirstText(h, ":", at);
    var semicolon := FirstChar(h, ';', 0);
    if colon != NULL_PTR then colon
    else if semicolon != NULL_PTR then semicolon
    else FirstChar(h, '>', 0)
  }

  /** Where the port text ends: at the first ';' after the ':' at `colon`, or else at the first '>' of the header. */
  function PortEnd(h: string, colon: nat): int
    requires colon < |h|
  {
    var semicolon := FirstChar(h, ';', colon);
    if semicolon != NULL_PTR then semicolon else FirstChar(h, '>', 0)
  }

  /** The rest of the parse, once the ':' at index `colon` has ended the host. */
  function CutPort(h: string, colon: nat, user: string, host: string): (r: Outcome)
    requires colon < |h|
    ensures !r.Undefined? ==> r.user == user && r.host == host
  {
    var end := PortEnd(h, colon);
    if end == NULL_PTR then Rejected(user, host)
    else if !(colon < end < colon + 1 + PORT_SIZE) then Undefined
    else
      var number := AtoiValue(h[colon + 1..end]);
      if FitsInt(number) then Accepted(user, host, number % PORT_MODULUS) else Undefined
  }

  /** The rest of the parse, once the user has been delimited by the '@' at index `at`. */
  function CutHost(h: string, at: nat): Outcome
    requires USER_START <= at < |h|
  {
    var user, end := h[USER_START..at], HostEnd(h, at);
    if !(at < end <= at + 1 + NAME_SIZE) then Undefined
    else if FirstText(h, ":", at) == NULL_PTR then Accepted(user, h[at + 1..end], 0)
    else CutPort(h, end, user, h[at + 1..end])
  }

  function Cut(h: string): Outcome {
    if h == "" || FirstText(h, SCHEME, 0) == NULL_PTR then Rejected("", "")
    else
      var at := FirstText(h, "@", 0);
      if at == NULL_PTR then Rejected("", "")
      else if !(USER_START <= at <= USER_START + NAME_SIZE) then Undefined
      else CutHost(h, at)
  }

  // ----- acceptance -------------------------------------------------------

  /** Which headers are accepted, by the characters they contain. */
  ghost predicate Acceptable(h: string) {
    && (exists k :: Occurs(h, "sip:", k))
    && '@' in h
    && var at := FirstChar(h, '@', 0);
       if ':' in h[at..] then ';' in h[FirstChar(h, ':', at)..] || '>' in h
       else ';' in h || '>' in h
  }

  lemma AcceptsExactly(h: string)
    requires !Cut(h).Undefined?
    ensures Cut(h).Accepted? <==> Acceptable(h)
  {
    FirstTextOfOneChar(h, '@', 0);
    FoundIffPresent(h, '@', 0);
    var at := FirstChar(h, '@', 0);
    if at != NULL_PTR {
      FirstTextOfOneChar(h, ':', at);
      FoundIffPresent(h, ':', at);
      FoundIffPresent(h, ';', 0);
      FoundIffPresent(h, '>', 0);
      var colon := FirstChar(h, ':', at);
      if colon != NULL_PTR {
        FoundIffPresent(h, ';', colon);
      }
    }
  }

  // ----- the port ---------------------------------------------------------

  /** What is left of an `int` in 16 bits without a sign. */
  predicate IsLowHalf(port: nat, number: int) {
    -2147483648 <= number <= 2147483647 && port < 65536 && (number - port) % 65536 == 0
  }

  /**
   What is stored for an accepted header: 0 without a ':' after the first '@', or else the 16-bit number that differs
   from the one read by a multiple of 65536.
   */
  ghost predicate IsPortOf(h: string, port: nat) {
    && '@' in h && port < 65536
    && var at := FirstChar(h, '@', 0);
       if ':' !in h[at..] then port == 0
       else
         var colon := FirstChar(h, ':', at);
         var end := PortEnd(h, colon);
         colon < end < |h| && IsLowHalf(port, AtoiValue(h[colon + 1..end]))
  }

  lemma CutPortStores(h: string, colon: nat, user: string, host: string)
    requires colon < |h| && CutPort(h, colon, user, host).Accepted?
    ensures var end := PortEnd(h, colon);
      colon < end < |h| && IsLowHalf(CutPort(h, colon, user, host).port, AtoiValue(h[colon + 1..end]))
  {
  }

  lemma StoredPort(h: string)
    requires Cut(h).Accepted?
    ensures IsPortOf(h, Cut(h).port)
  {
    FirstTextOfOneChar(h, '@', 0);
    FoundIffPresent(h, '@', 0);
    var at := FirstChar(h, '@', 0);
    FirstTextOfOneChar(h, ':', at);
    FoundIffPresent(h, ':', at);
    assert Cut(h) == CutHost(h, at);
    if ':' in h[at..] {
      CutPortStores(h, FirstChar(h, ':', at), h[5..at], h[at + 1..HostEnd(h, at)]);
    }
  }

  // ----- definedness ------------------------------------------------------

  /** The user, taken from offset 5, and the host do not fit their 50 characters, or end before they start. */
  predicate NamesOverrun(h: string, at: nat)
    requires at < |h|
  {
    !(5 <= at <= 55) || !(at + 1 <= HostEnd(h, at) <= at + 51)
  }

  /** The port text ends before it starts, leaves no room for a terminator in 20 characters, or is no `int`. */
  predicate PortOverruns(h: string, colon: nat)
    requires colon < |h|
  {
    var end := PortEnd(h, colon);
    end != NULL_PTR &&
    (!(colon + 1 <= end <= colon + 20) || !(-2147483648 <= AtoiValue(h[colon + 1..end]) <= 2147483647))
  }

  /** On exactly which headers the code has no defined behaviour. */
  lemma UndefinedExactly(h: string)
    ensures Cut(h).Undefined? <==>
      && (exists k :: Occurs(h, "sip:", k)) && '@' in h
      && var at := FirstChar(h, '@', 0);
         NamesOverrun(h, at) || (':' in h[at..] && PortOverruns(h, FirstChar(h, ':', at)))
  {
    FirstTextOfOneChar(h, '@', 0);
    FoundIffPresent(h, '@', 0);
    var at := FirstChar(h, '@', 0);
    if at != NULL_PTR {
      FirstTextOfOneChar(h, ':', at);
      FoundIffPresent(h, ':', at);
    }
  }

  // ----- rejection --------------------------------------------------------

  /** There is a ':' after the first '@', but nothing ends the port. */
  ghost predicate StopsAtPort(h: string) {
    && '@' in h
    && var at := FirstChar(h, '@', 0);
       && ':' in h[at..]
       && ';' !in h[FirstChar(h, ':', at)..] && '>' !in h
  }

  /**
   A rejected header leaves both names empty, except when the port is what is missing: then both are
   filled with their slices.
   */
  lemma {:induction false} RejectionStates(h: string)
    requires Cut(h).Rejected?
    ensures
      if (exists k :: Occurs(h, "sip:", k)) && StopsAtPort(h) then
        var at := FirstChar(h, '@', 0);
        var colon := FirstChar(h, ':', at);
        && 5 <= at < colon < |h|
        && Cut(h).user == h[5..at]
        && Cut(h).host == h[at + 1..colon]
      else
        Cut(h).user == "" && Cut(h).host == ""
  {
    FirstTextOfOneChar(h, '@', 0);
    FoundIffPresent(h, '@', 0);
    var at := FirstChar(h, '@', 0);
    if at != NULL_PTR {
      FirstTextOfOneChar(h, ':', at);
      FoundIffPresent(h, ':', at);
      FoundIffPresent(h, '>', 0);
      var colon := FirstChar(h, ':', at);
      if colon != NULL_PTR {
        FoundIffPresent(h, ';', colon);
      }
    }
  }

  // ----- accuracy ---------------------------------------------------------

  /**
   The user returned is the text between the first "sip:" and the first '@' exactly when "sip:" stands
   at offset 1: a display name or a missing '<' makes the code return something else.
   */
  lemma UserIsExact(h: string)
    requires Cut(h).Accepted?
    ensures var scheme, at := FirstText(h, "sip:", 0), FirstText(h, "@", 0);
      && 0 <= scheme && 0 <= at <= |h|
      && (scheme == 1 <==> scheme + 4 <= at && Cut(h).user == h[scheme + 4..at])
  {
    var scheme, at := FirstText(h, "sip:", 0), FirstText(h, "@", 0);
    if scheme + 4 <= at && scheme != 1 {
      assert |h[scheme + 4..at]| != |h[5..at]|;
    }
  }

  /** A search that fails up to `r` and succeeds there. */
  lemma FoundAt(h: string, r: nat, needle: string)
    requires needle != "" && Occurs(h, needle, r)
    requires forall k :: 0 <= k < r ==> h[k] != needle[0]
    ensures FirstText(h, needle, 0) == r
  {
    forall k | 0 <= k < r
      ensures !Occurs(h, needle, k)
    {
      assert h[k + 0] != needle[0];
    }
  }

  /** With a display name an accepted header gives the wrong user. */
  lemma DisplayNameShiftsUser(h: string)
    requires h == "Bo <sip:b@h>"
    ensures FirstText(h, "sip:", 0) == 4
    ensures Cut(h) == Accepted("ip:b", "h", 0)
  {
    FoundAt(h, 4, "sip:");
    FoundAt(h, 9, "@");
    FirstTextOfOneChar(h, ':', 9);
    assert FirstChar(h, ':', 9) == NULL_PTR;
    assert FirstChar(h, ';', 0) == NULL_PTR;
    assert h[11] == '>' && FirstChar(h, '>', 0) == 11;
    assert HostEnd(h, 9) == 11;
    assert h[5..9] == "ip:b" && h[10..11] == "h";
  }

  predicate Before(p: int, q: int) {
    p != NULL_PTR && (q == NULL_PTR || p < q)
  }

  predicate EndsHost(c: char) {
    c == ':' || c == ';' || c == '>'
  }

  /** `t` is the text of `h` from index `from` up to the first ':', ';' or '>'. */
  ghost predicate IsHostText(h: string, from: nat, t: string) {
    && from + |t| < |h| && h[from..from + |t|] == t
    && EndsHost(h[from + |t|])
    && forall i :: 0 <= i < |t| ==> !EndsHost(t[i])
  }

  lemma HostTextOfSlice(h: string, from: nat, end: nat)
    requires from <= end < |h| && EndsHost(h[end])
    ensures IsHostText(h, from, h[from..end]) <==> forall i :: from <= i < end ==> !EndsHost(h[i])
  {
    var t := h[from..end];
    assert forall i :: 0 <= i < |t| ==> t[i] == h[from + i];
    assert forall i :: from <= i < end ==> h[i] == t[i - from];
  }

  /** Whether the character that ends the host is the first of its kind after the '@'. */
  predicate EndsAtFirst(h: string, at: nat)
    requires at <= |h|
  {
    var colon, semicolon, angle := FirstChar(h, ':', at), FirstChar(h, ';', at), FirstChar(h, '>', at);
    if colon != NULL_PTR then Before(colon, semicolon) && Before(colon, angle)
    else semicolon == NULL_PTR || Before(semicolon, angle)
  }

  lemma EndsAtFirstMeans(h: string, at: nat)
    requires at < |h| && h[at] == '@' && at < HostEnd(h, at)
    ensures EndsAtFirst(h, at) <==> forall i :: at < i < HostEnd(h, at) ==> !EndsHost(h[i])
  {
    FirstTextOfOneChar(h, ':', at);
  }

  /** The two names of an accepted header, as slices. */
  lemma AcceptedNames(h: string)
    requires Cut(h).Accepted?
    ensures '@' in h
    ensures var at := FirstChar(h, '@', 0);
      && at == FirstText(h, "@", 0)
      && 5 <= at < HostEnd(h, at) < |h|
      && Cut(h).user == h[5..at]
      && Cut(h).host == h[at + 1..HostEnd(h, at)]
      && EndsHost(h[HostEnd(h, at)])
  {
    FirstTextOfOneChar(h, '@', 0);
    FoundIffPresent(h, '@', 0);
    FirstTextOfOneChar(h, ':', FirstChar(h, '@', 0));
  }

  /**
   The host returned ends at the first ':', ';' or '>' after the '@' exactly when that character is the one
   the code looks for first: any ':', however late, takes precedence over ';' and any ';' over '>'.
   */
  lemma {:induction false} HostIsExact(h: string)
    requires Cut(h).Accepted?
    ensures '@' in h
    ensures var at := FirstChar(h, '@', 0);
      at <= |h| && (IsHostText(h, at + 1, Cut(h).host) <==> EndsAtFirst(h, at))
  {
    AcceptedNames(h);
    var at := FirstChar(h, '@', 0);
    EndsAtFirstMeans(h, at);
    HostTextOfSlice(h, at + 1, HostEnd(h, at));
  }
}
