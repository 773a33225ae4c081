/**
 The reusable parser object: two fixed character buffers and a 16-bit port
 that every call to `Parse` overwrites in place.
 */
module ContactUri {
  import opened CString
  import opened Decimal
  import opened ContactHeader

  class Uri {
    const user: array<char>
    const host: array<char>
    var port: nat

    ghost predicate Valid()
      reads this
    {
      user != host && user.Length == host.Length == 50 && port < 65536
    }

    /** The complete contents of the object: both buffers are NUL-padded to their full size. */
    ghost predicate Holds(u: string, h: string, p: nat)
      reads this, user, host
    {
      && |u| <= 50 && user[..] == Padded(u, 50)
      && |h| <= 50 && host[..] == Padded(h, 50)
      && port == p
    }

    /** The contents that an outcome leaves behind. */
    ghost predicate Shows(outcome: Outcome)
      reads this, user, host
    {
      match outcome
      case Undefined => false
      case Rejected(u, h) => Holds(u, h, 0)
      case Accepted(u, h, p) => Holds(u, h, p)
    }

    constructor ()
      ensures Valid() && fresh(user) && fresh(host)
      ensures Holds("", "", 0)
    {
      user := new char[NAME_SIZE];
      host := new char[NAME_SIZE];
      port := 0;
      new;
      Clear();
    }

    method Clear()
      requires user != host && user.Length == host.Length == NAME_SIZE
      modifies this, user, host
      ensures Valid() && Holds("", "", 0)
    {
      MemZero(user);
      MemZero(host);
      port := 0;
    }

    /**
     The header text that `Parse` works on. Clearing comes first, so a header that is
     one of the object's own buffers is empty by the time it is read.
     */
    ghost function HeaderText(contactHeader: array?<char>): string
      reads this, contactHeader
    {
      if contactHeader == null || contactHeader == user || contactHeader == host then ""
      else Text(contactHeader[..])
    }

    /** What the code asks of its caller. */
    ghost predicate Parseable(contactHeader: array?<char>)
      reads this, contactHeader
    {
      && (contactHeader != null && contactHeader != user && contactHeader != host ==> Terminated(contactHeader[..]))
      && !Cut(HeaderText(contactHeader)).Undefined?
    }

    method Parse(contactHeader: array?<char>) returns (ok: bool)
      requires Valid()
      requires Parseable(contactHeader)
      modifies this, user, host
      ensures Valid()
      ensures ok == Cut(old(HeaderText(contactHeader))).Accepted?
      ensures Shows(Cut(old(HeaderText(contactHeader))))
      ensures ok ==> IsPortOf(old(HeaderText(contactHeader)), port)
    {
      ghost var h := HeaderText(contactHeader);
      Clear();
      if contactHeader == null {
        return false;
      }
      var header: array<char> := contactHeader;
      assert Terminated(header[..]) && Text(header[..]) == h by {
        if header == user || header == host {
          PaddedReadsBack("", NAME_SIZE);
        } else {
          assert header[..] == old(header[..]);
        }
      }
      ok := ParseHeader(header, h);
      if ok {
        StoredPort(h);
      }
    }

    /** The C++ `parse` after the clearing, for the header text `h`. */
    method ParseHeader(header: array<char>, ghost h: string) returns (ok: bool)
      requires Valid() && (h == "" || (header != user && header != host))
      requires Terminated(header[..]) && Text(header[..]) == h
      requires !Cut(h).Undefined? && Holds("", "", 0)
      modifies this`port, user, host
      ensures Valid()
      ensures ok == Cut(h).Accepted? && Shows(Cut(h))
    {
      var length := StrLen(header);
      if length == 0 {
        return false;
      }
      var strStart := StrStr(header, 0, SCHEME);
      if strStart == NULL_PTR {
        return false;
      }
      strStart := |SCHEME| + 1;
      var strEnd := StrStr(header, 0, "@");
      if strEnd == NULL_PTR {
        return false;
      }
      CopySlice(user, header, h, strStart, strEnd - strStart);
      ok := ParseHost(header, h, strEnd, Cut(h));
    }

    /** The second half of the C++ `parse`: the host, after the '@' at index `at` of the header text `h`. */
    method ParseHost(header: array<char>, ghost h: string, at: nat, ghost outcome: Outcome) returns (ok: bool)
      requires Valid() && header != user && header != host
      requires Terminated(header[..]) && Text(header[..]) == h
      requires USER_START <= at < |h| && at <= USER_START + NAME_SIZE
      requires outcome == CutHost(h, at) && !outcome.Undefined?
      requires Holds(h[USER_START..at], "", 0)
      modifies this`port, host
      ensures Valid()
      ensures ok == outcome.Accepted? && Shows(outcome)
    {
      var strStart := at + 1;
      var strEnd, done := FindHostEnd(header, h, at);
      CopyHost(header, h, strStart, strEnd, h[USER_START..at]);
      if done {
        return true;
      }
      ok := ParsePort(header, h, strEnd, h[USER_START..at], h[at + 1..strEnd], outcome);
    }

    method CopyHost(header: array<char>, ghost h: string, strStart: nat, strEnd: nat, ghost u: string)
      requires Valid() && header != user && header != host
      requires Terminated(header[..]) && Text(header[..]) == h
      requires strStart <= strEnd <= |h| && strEnd <= strStart + NAME_SIZE
      requires Holds(u, "", 0)
      modifies host
      ensures Holds(u, h[strStart..strEnd], 0)
    {
      CopySlice(host, header, h, strStart, strEnd - strStart);
    }

    /** Where the host ends, and whether that also ends the parse. */
    static method FindHostEnd(header: array<char>, ghost h: string, at: nat) returns (strEnd: int, done: bool)
      requires Terminated(header[..]) && Text(header[..]) == h
      requires at < |h|
      ensures strEnd == ContactHeader.HostEnd(h, at)
      ensures done <==> FirstText(h, ":", at) == NULL_PTR && strEnd != NULL_PTR
    {
      done := false;
      strEnd := StrStr(header, at, ":");
      if strEnd == NULL_PTR {
        strEnd := StrChr(header, 0, ';');
        if strEnd != NULL_PTR {
          done := true;
        } else {
          strEnd := StrChr(header, 0, '>');
          if strEnd != NULL_PTR {
            done := true;
          }
        }
      }
    }

    /** The last part of the C++ `parse`: the port, after the ':' at index `colon`. */
    method ParsePort(
        header: array<char>, ghost h: string, colon: nat, ghost u: string, ghost n: string, ghost outcome: Outcome)
      returns (ok: bool)
      requires Valid() && header != user && header != host
      requires Terminated(header[..]) && Text(header[..]) == h
      requires colon < |h| && outcome == CutPort(h, colon, u, n) && !outcome.Undefined?
      requires Holds(u, n, 0)
      modifies this`port
      ensures Valid()
      ensures ok == outcome.Accepted? && Shows(outcome)
      ensures ok ==> colon < PortEnd(h, colon) < |h|
      ensures ok ==> IsLowHalf(port, AtoiValue(h[colon + 1..PortEnd(h, colon)]))
    {
      var strStart := colon + 1;
      var strEnd := StrChr(header, colon, ';');
      if strEnd == NULL_PTR {
        strEnd := StrChr(header, 0, '>');
      }
      if strEnd == NULL_PTR {
        return false;
      }
      var number := ReadPort(header, h, strStart, strEnd);
      port := number % PORT_MODULUS;
      return true;
    }

    /** `atoi` of the slice, by way of a zeroed local buffer. */
    static method ReadPort(header: array<char>, ghost h: string, strStart: nat, strEnd: nat) returns (number: int)
      requires Terminated(header[..]) && Text(header[..]) == h
      requires strStart <= strEnd <= |h| && strEnd < strStart + PORT_SIZE
      requires FitsInt(AtoiValue(h[strStart..strEnd]))
      ensures number == AtoiValue(h[strStart..strEnd])
    {
      ghost var t := h[strStart..strEnd];
      var strport := new char[PORT_SIZE];
      MemZero(strport);
      CopySlice(strport, header, h, strStart, strEnd - strStart);
      PaddedReadsBack(t, PORT_SIZE);
      assert strport[..] == Padded(t, PORT_SIZE);
      assert Text(strport[..]) == t && Terminated(strport[..]);
      number := Atoi(strport);
    }
  }

  /**
   Nothing of earlier calls is left. The first object may be in any valid state, and `Valid` is all that the
   constructor and every earlier call of `Parse` establish; parsing a header with it and with a new object
   gives the same result and the same contents, byte for byte.
   */
  method ReusedLikeNew(uri: Uri, header: array?<char>) returns (reused: bool, once: bool, another: Uri)
    requires uri.Valid() && uri.Parseable(header)
    requires header != uri.user && header != uri.host
    modifies uri, uri.user, uri.host
    ensures uri.Valid() && another.Valid()
    ensures reused == once
    ensures uri.user[..] == another.user[..] && uri.host[..] == another.host[..] && uri.port == another.port
  {
    ghost var text := uri.HeaderText(header);
    reused := uri.Parse(header);
    another := new Uri();
    assert another.HeaderText(header) == text;
    once := another.Parse(header);
  }
}
