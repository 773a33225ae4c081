/**
 Pinyin lookup over packed tables.

 Each character has a list of readings, every one an index into a table of
 syllable names. An index is packed into two bytes whose sum it is, the first
 byte saturating at 0xFF. One routine decodes all readings of a character and
 a shortcut decodes only the first.
 */
module Pinyin {
  import opened Wrappers

  /** A `char` of the tables, which the compiler may treat as signed. */
  type SignedChar = b: int | -128 <= b < 128

  /** The code points of the tables start at 0x4E00. */
  const BASE: int := 19968
  const TABLE_SIZE: nat := 20903

  datatype Tables = Tables(names: seq<string>, counts: seq<SignedChar>, indexes: seq<seq<SignedChar>>)

  predicate IsChinese(uni: int) {
    0x4E00 <= uni <= 0x9FA5
  }

  /** The cast to `unsigned char`. */
  function Unsigned(b: SignedChar): (u: nat)
    ensures u < 256 && (u == b || u == b + 256)
  {
    if b < 0 then b + 256 else b
  }

  function Signed(u: nat): (b: SignedChar)
    requires u < 256
    ensures Unsigned(b) == u
  {
    if u < 128 then u else u - 256
  }

  /** The index packed in the byte pair number `k`. */
  function IndexAt(packed: seq<SignedChar>, k: nat): nat
    requires 2 * k + 1 < |packed|
  {
    Unsigned(packed[2 * k]) + Unsigned(packed[2 * k + 1])
  }

  predicate RowIsWellFormed(t: Tables, i: nat)
    requires i < |t.counts| == |t.indexes|
  {
    && 0 <= t.counts[i] && |t.indexes[i]| == 2 * (t.counts[i] as int)
    && forall k :: 0 <= k < t.counts[i] ==> IndexAt(t.indexes[i], k) < |t.names|
  }

  /** What the tables must satisfy for every access of the lookups to be in bounds. */
  predicate WellFormed(t: Tables) {
    && |t.counts| == |t.indexes| == TABLE_SIZE
    && forall i :: 0 <= i < TABLE_SIZE ==> RowIsWellFormed(t, i)
  }

  // ----- packing ----------------------------------------------------------

  function Decode(packed: seq<SignedChar>): (indexes: seq<nat>)
    requires |packed| % 2 == 0
    ensures |indexes| == |packed| / 2
    ensures forall k :: 0 <= k < |indexes| ==> indexes[k] == IndexAt(packed, k)
  {
    seq(|packed| / 2, k requires 0 <= k < |packed| / 2 => IndexAt(packed, k))
  }

  predicate Packable(indexes: seq<nat>) {
    forall k :: 0 <= k < |indexes| ==> indexes[k] <= 510
  }

  /** The layout of the table data: the first byte takes as much of the index as it can. */
  function Pack(indexes: seq<nat>): (packed: seq<SignedChar>)
    requires Packable(indexes)
    ensures |packed| == 2 * |indexes|
  {
    if indexes == [] then []
    else
      var first := if indexes[0] < 255 then indexes[0] else 255;
      [Signed(first), Signed(indexes[0] - first)] + Pack(indexes[1..])
  }

  /** A second byte is used only after a saturated first one. */
  predicate IsCanonical(packed: seq<SignedChar>) {
    && |packed| % 2 == 0
    && forall k :: 0 <= k < |packed| / 2 && Unsigned(packed[2 * k + 1]) != 0 ==> Unsigned(packed[2 * k]) == 255
  }

  lemma {:induction false} PackAt(indexes: seq<nat>, k: nat)
    requires Packable(indexes) && k < |indexes|
    ensures Unsigned(Pack(indexes)[2 * k]) == if indexes[k] < 255 then indexes[k] else 255
    ensures IndexAt(Pack(indexes), k) == indexes[k]
  {
    if k > 0 {
      PackAt(indexes[1..], k - 1);
      assert Pack(indexes)[2..] == Pack(indexes[1..]);
    }
  }

  /** Decoding inverts packing, and packing uses the second byte only where it must. */
  lemma DecodeOfPack(indexes: seq<nat>)
    requires Packable(indexes)
    ensures Decode(Pack(indexes)) == indexes
    ensures IsCanonical(Pack(indexes))
  {
    forall k | 0 <= k < |indexes|
      ensures IndexAt(Pack(indexes), k) == indexes[k]
      ensures Unsigned(Pack(indexes)[2 * k + 1]) != 0 ==> Unsigned(Pack(indexes)[2 * k]) == 255
    {
      PackAt(indexes, k);
    }
  }

  /** Decoding loses nothing exactly on the layout that the table data uses. */
  lemma PackOfDecode(packed: seq<SignedChar>)
    requires |packed| % 2 == 0
    ensures Packable(Decode(packed))
    ensures Pack(Decode(packed)) == packed <==> IsCanonical(packed)
  {
    var indexes := Decode(packed);
    DecodeOfPack(indexes);
    if IsCanonical(packed) {
      forall i | 0 <= i < |packed|
        ensures Pack(indexes)[i] == packed[i]
      {
        var k := i / 2;
        PackAt(indexes, k);
        assert Unsigned(Pack(indexes)[2 * k]) == Unsigned(packed[2 * k]);
        assert Unsigned(Pack(indexes)[2 * k + 1]) == Unsigned(packed[2 * k + 1]);
      }
    }
  }

  lemma DecodeIsInjective(p: seq<SignedChar>, q: seq<SignedChar>)
    requires IsCanonical(p) && IsCanonical(q)
    ensures Decode(p) == Decode(q) ==> p == q
  {
    PackOfDecode(p);
    PackOfDecode(q);
  }

  // ----- the lookups ------------------------------------------------------

  function NamesOf(names: seq<string>, indexes: seq<nat>): (r: seq<string>)
    requires forall k :: 0 <= k < |indexes| ==> indexes[k] < |names|
    ensures |r| == |indexes|
    ensures forall k :: 0 <= k < |r| ==> r[k] == names[indexes[k]]
  {
    seq(|indexes|, k requires 0 <= k < |indexes| => names[indexes[k]])
  }

  /** All readings of a character; none for a code point outside the range or without readings. */
  function Readings(t: Tables, uni: int): (names: seq<string>)
    requires WellFormed(t)
    ensures IsChinese(uni) ==> |names| == t.counts[uni - BASE]
  {
    if !IsChinese(uni) then []
    else
      assert RowIsWellFormed(t, uni - BASE);
      NamesOf(t.names, Decode(t.indexes[uni - BASE]))
  }

  /** `r` holds the names at the sums of the byte pairs of row `k`. */
  ghost predicate IsRowOf(t: Tables, k: nat, r: seq<string>) {
    && k < |t.counts| == |t.indexes| && |r| == t.counts[k]
    && forall i :: 0 <= i < |r| ==>
      && 2 * i + 1 < |t.indexes[k]|
      && Unsigned(t.indexes[k][2 * i]) + Unsigned(t.indexes[k][2 * i + 1]) < |t.names|
      && r[i] == t.names[Unsigned(t.indexes[k][2 * i]) + Unsigned(t.indexes[k][2 * i + 1])]
  }

  /** In figures: the rows from 0 on are those of the code points from 0x4E00 on, and no others have any. */
  lemma RowsInOrder(t: Tables, uni: int)
    requires WellFormed(t)
    ensures 0x4E00 <= uni <= 0x9FA5 ==> IsRowOf(t, uni - 0x4E00, Readings(t, uni))
    ensures uni < 0x4E00 || uni > 0x9FA5 ==> Readings(t, uni) == []
  {
    if IsChinese(uni) {
      var k := uni - 0x4E00;
      assert RowIsWellFormed(t, k);
      forall i | 0 <= i < t.counts[k]
        ensures 2 * i + 1 < |t.indexes[k]| && IndexAt(t.indexes[k], i) < |t.names|
        ensures Readings(t, uni)[i] == t.names[IndexAt(t.indexes[k], i)]
      {
        assert Decode(t.indexes[k])[i] == IndexAt(t.indexes[k], i);
      }
    }
  }

  /** The full lookup: the number of readings and a new array of them, or 0 and null. */
  method AllPinyinsByUnicode(t: Tables, uni: int) returns (count: int, pinyinsOut: array?<string>)
    requires WellFormed(t)
    ensures count == |Readings(t, uni)|
    ensures count == 0 <==> pinyinsOut == null
    ensures pinyinsOut != null ==> fresh(pinyinsOut) && pinyinsOut[..] == Readings(t, uni)
    ensures pinyinsOut != null ==> 0x4E00 <= uni <= 0x9FA5 && IsRowOf(t, uni - 0x4E00, pinyinsOut[..])
    ensures pinyinsOut == null ==> uni < 0x4E00 || uni > 0x9FA5 || t.counts[uni - 0x4E00] == 0
  {
    RowsInOrder(t, uni);
    if !IsChinese(uni) {
      return 0, null;
    }
    assert RowIsWellFormed(t, uni - BASE);
    count := t.counts[uni - BASE];
    if count == 0 {
      return 0, null;
    }
    var indexs := t.indexes[uni - BASE];
    var pinyins := new string[count];
    for i := 0 to count
      invariant forall k :: 0 <= k < i ==> pinyins[k] == t.names[IndexAt(indexs, k)]
    {
      var start := i * 2;
      assert IndexAt(indexs, i) < |t.names|;
      pinyins[i] := t.names[Unsigned(indexs[start]) + Unsigned(indexs[start + 1])];
    }
    return count, pinyins;
  }

  /** The shortcut: the first reading only. */
  function GetPinyinsByUnicode(t: Tables, uni: int): Option<string>
    requires WellFormed(t)
  {
    if !IsChinese(uni) then None
    else
      assert RowIsWellFormed(t, uni - BASE);
      if t.counts[uni - BASE] == 0 then None
      else
        var indexs := t.indexes[uni - BASE];
        assert IndexAt(indexs, 0) < |t.names|;
        Some(t.names[Unsigned(indexs[0]) + Unsigned(indexs[0 + 1])])
  }

  lemma ShortcutRefinesFull(t: Tables, uni: int)
    requires WellFormed(t)
    ensures GetPinyinsByUnicode(t, uni) == if Readings(t, uni) == [] then None else Some(Readings(t, uni)[0])
  {
    if IsChinese(uni) {
      assert RowIsWellFormed(t, uni - BASE);
    }
  }

  // ----- packed tables ----------------------------------------------------

  /** A row has at most as many readings as its one-byte count can say. */
  predicate IsRow(names: seq<string>, indexes: seq<nat>) {
    && |indexes| < 128
    && forall k :: 0 <= k < |indexes| ==> indexes[k] < |names|
  }

  /** One list of name indexes for each table row. */
  predicate IsLexicon(names: seq<string>, lists: seq<seq<nat>>) {
    && |names| <= 511
    && |lists| == TABLE_SIZE
    && forall i :: 0 <= i < TABLE_SIZE ==> IsRow(names, lists[i])
  }

  function PackTables(names: seq<string>, lists: seq<seq<nat>>): Tables
    requires IsLexicon(names, lists)
  {
    Tables(names,
           seq(TABLE_SIZE, i requires 0 <= i < TABLE_SIZE => assert IsRow(names, lists[i]); |lists[i]|),
           seq(TABLE_SIZE, i requires 0 <= i < TABLE_SIZE => assert IsRow(names, lists[i]); Pack(lists[i])))
  }

  /** Looking a character up in packed tables finds exactly its list of readings. */
  lemma LookupInPackedTables(names: seq<string>, lists: seq<seq<nat>>, uni: int)
    requires IsLexicon(names, lists)
    ensures WellFormed(PackTables(names, lists))
    ensures IsChinese(uni) ==> IsRow(names, lists[uni - BASE])
    ensures Readings(PackTables(names, lists), uni) ==
      if IsChinese(uni) then NamesOf(names, lists[uni - BASE]) else []
  {
    var t := PackTables(names, lists);
    forall i | 0 <= i < TABLE_SIZE
      ensures RowIsWellFormed(t, i) && Decode(t.indexes[i]) == lists[i]
    {
      assert IsRow(names, lists[i]);
      DecodeOfPack(lists[i]);
      assert forall k :: 0 <= k < |lists[i]| ==> IndexAt(t.indexes[i], k) == Decode(t.indexes[i])[k];
    }
    if IsChinese(uni) {
      assert IsRow(names, lists[uni - BASE]);
    }
  }

  lemma NothingOutside(t: Tables, uni: int)
    requires WellFormed(t) && (uni < 0x4E00 || uni > 0x9FA5)
    ensures Readings(t, uni) == [] && GetPinyinsByUnicode(t, uni) == None
  {
  }

  /** The list packed for row `k` is found under code point 0x4E00 + k, by the full lookup and by the shortcut. */
  lemma PackedRowIsFound(names: seq<string>, lists: seq<seq<nat>>, k: nat)
    requires IsLexicon(names, lists) && k <= 20901
    ensures IsRow(names, lists[k]) && WellFormed(PackTables(names, lists))
    ensures Readings(PackTables(names, lists), 0x4E00 + k) == NamesOf(names, lists[k])
    ensures GetPinyinsByUnicode(PackTables(names, lists), 0x4E00 + k) ==
      if lists[k] == [] then None else Some(names[lists[k][0]])
  {
    assert IsRow(names, lists[k]);
    LookupInPackedTables(names, lists, 0x4E00 + k);
    ShortcutRefinesFull(PackTables(names, lists), 0x4E00 + k);
  }
}
