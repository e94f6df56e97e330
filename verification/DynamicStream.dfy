/** A stream with a block of codes of its own, decoded by hand. */
module DynamicStreams {
  import opened Bits
  import opened Huffman
  import opened Adler
  import opened FixedTables
  import opened StoredStreams
  import opened StepLenLensMode
  import opened Agreements
  import opened FixedStreams
  import Rfc = Rfc1951

  /** The zlib stream of "aaa" in a block with dynamic codes.  The code length code has the codes 0 for 18, 10 for 0
      and 11 for 1; by it, 97 and 256 have codes of one bit, and there is no distance code. */
  const DYNAMIC: seq<byte> := [0x78, 0x01, 0x05, 0xc0, 0x81, 0x08, 0x00, 0x00, 0x00, 0x00, 0x20, 0xd6, 0xfd, 0x25, 0x0e,
                               0x01, 0x02, 0x49, 0x01, 0x24]

  predicate IsDynamic(b: seq<byte>) {
    && |b| == 20 && b[0] == 0x78 && b[1] == 0x01 && b[2] == 0x05 && b[3] == 0xc0 && b[4] == 0x81 && b[5] == 0x08
    && b[6] == 0x00 && b[7] == 0x00 && b[8] == 0x00 && b[9] == 0x00 && b[10] == 0x20 && b[11] == 0xd6 && b[12] == 0xfd
    && b[13] == 0x25 && b[14] == 0x0e && b[15] == 0x01 && b[16] == 0x02 && b[17] == 0x49 && b[18] == 0x01
    && b[19] == 0x24
  }

  lemma {:induction false} CountFields(b: seq<byte>)
    requires IsDynamic(b)
    ensures Reads(b, 16, 1, 1) && Reads(b, 17, 2, 2) && Reads(b, 19, 5, 0) && Reads(b, 24, 5, 0)
    ensures Reads(b, 29, 4, 14)
  {
    hide Reads;
    Pow2Values();
    ReadAt(b, 2, 0, 1, 1);
    ReadAt(b, 2, 1, 2, 2);
    ReadAt(b, 2, 3, 5, 0);
    ReadAt(b, 3, 0, 5, 0);
    ReadAt(b, 3, 5, 4, 14);
  }

  lemma {:induction false} LengthFields(b: seq<byte>)
    requires IsDynamic(b)
    ensures Reads(b, 33, 3, 0) && Reads(b, 36, 3, 0) && Reads(b, 39, 3, 1) && Reads(b, 42, 3, 2)
    ensures Reads(b, 45, 3, 0) && Reads(b, 48, 3, 0)
  {
    hide Reads;
    Pow2Values();
    ReadAt(b, 4, 1, 3, 0);
    ReadAt(b, 4, 4, 3, 0);
    ReadAt(b, 4, 7, 3, 1);
    ReadAt(b, 5, 2, 3, 2);
    ReadAt(b, 5, 5, 3, 0);
    ReadAt(b, 6, 0, 3, 0);
  }

  lemma {:induction false} MoreLengthFields(b: seq<byte>)
    requires IsDynamic(b)
    ensures Reads(b, 51, 3, 0) && Reads(b, 54, 3, 0) && Reads(b, 57, 3, 0) && Reads(b, 60, 3, 0)
    ensures Reads(b, 63, 3, 0) && Reads(b, 66, 3, 0)
  {
    hide Reads;
    Pow2Values();
    ReadAt(b, 6, 3, 3, 0);
    ReadAt(b, 6, 6, 3, 0);
    ReadAt(b, 7, 1, 3, 0);
    ReadAt(b, 7, 4, 3, 0);
    ReadAt(b, 7, 7, 3, 0);
    ReadAt(b, 8, 2, 3, 0);
  }

  lemma {:induction false} LastLengthFields(b: seq<byte>)
    requires IsDynamic(b)
    ensures Reads(b, 69, 3, 0) && Reads(b, 72, 3, 0) && Reads(b, 75, 3, 0) && Reads(b, 78, 3, 0)
    ensures Reads(b, 81, 3, 0) && Reads(b, 84, 3, 2)
  {
    hide Reads;
    Pow2Values();
    ReadAt(b, 8, 5, 3, 0);
    ReadAt(b, 9, 0, 3, 0);
    ReadAt(b, 9, 3, 3, 0);
    ReadAt(b, 9, 6, 3, 0);
    ReadAt(b, 10, 1, 3, 0);
    ReadAt(b, 10, 4, 3, 2);
  }

  lemma {:induction false} ListFields(b: seq<byte>)
    requires IsDynamic(b)
    ensures Reads(b, 87, 1, 0) && Reads(b, 88, 7, 86) && Reads(b, 95, 2, 3) && Reads(b, 97, 1, 0)
    ensures Reads(b, 98, 7, 127) && Reads(b, 105, 1, 0) && Reads(b, 106, 7, 9) && Reads(b, 113, 2, 3)
    ensures Reads(b, 115, 2, 1)
  {
    hide Reads;
    Pow2Values();
    ReadAt(b, 10, 7, 1, 0);
    ReadAt(b, 11, 0, 7, 86);
    ReadAt(b, 11, 7, 2, 3);
    ReadAt(b, 12, 1, 1, 0);
    ReadAt(b, 12, 2, 7, 127);
    ReadAt(b, 13, 1, 1, 0);
    ReadAt(b, 13, 2, 7, 9);
    ReadAt(b, 14, 1, 2, 3);
    ReadAt(b, 14, 3, 2, 1);
  }

  lemma {:induction false} DataFields(b: seq<byte>)
    requires IsDynamic(b)
    ensures Reads(b, 117, 1, 0) && Reads(b, 118, 1, 0) && Reads(b, 119, 1, 0) && Reads(b, 120, 1, 1)
  {
    hide Reads;
    Pow2Values();
    ReadAt(b, 14, 5, 1, 0);
    ReadAt(b, 14, 6, 1, 0);
    ReadAt(b, 14, 7, 1, 0);
    ReadAt(b, 15, 0, 1, 1);
  }

  // ----- its code length code -----

  /** The next lengths of three bits each. */
  ghost predicate Gives(s: seq<bool>, p: nat, v: seq<nat>) {
    p + 3 * |v| <= |s| && forall i :: 0 <= i < |v| ==> Rfc.Field(s, p + 3 * i, 3) == v[i]
  }

  lemma {:induction false} LensGiven(rules: Rfc.Rules, ncode: nat, acc: seq<nat>, v: seq<nat>, s: seq<bool>, p: nat)
    requires |acc| + |v| <= ncode <= 19 && Gives(s, p, v)
    ensures Rfc.LenLens(rules, 257, 1, ncode, acc, true, 32768, [], s, p)
         == Rfc.LenLens(rules, 257, 1, ncode, acc + v, true, 32768, [], s, p + 3 * |v|)
    decreases |v|
  {
    hide Rfc.Field, Rfc.CodeLens, Rfc.PlaceLens;
    if v == [] {
      assert acc + v == acc;
    } else {
      assert Rfc.Field(s, p + 3 * 0, 3) == v[0];
      assert acc + [v[0]] + v[1..] == acc + v;
      GivesOn(s, p, v);
      LensGiven(rules, ncode, acc + [v[0]], v[1..], s, p + 3);
    }
  }

  lemma {:induction false} GivesOn(s: seq<bool>, p: nat, v: seq<nat>)
    requires v != [] && Gives(s, p, v)
    ensures Gives(s, p + 3, v[1..])
  {
    hide Rfc.Field;
    forall i | 0 <= i < |v[1..]| ensures Rfc.Field(s, p + 3 + 3 * i, 3) == v[1..][i] {
      assert Rfc.Field(s, p + 3 * (i + 1), 3) == v[i + 1];
    }
  }

  /** The lengths as they are given, and as they belong to the symbols. */
  function GivenLens(): seq<nat> {
    [0, 0, 1, 2] + Rfc.Repeat(0, 13) + [2]
  }

  function CodeLensLens(): seq<nat> {
    Rfc.Repeat(2, 2) + Rfc.Repeat(0, 16) + Rfc.Repeat(1, 1)
  }

  lemma {:induction false} DynamicLensGiven(b: seq<byte>)
    requires IsDynamic(b)
    ensures Gives(BytesBits(b), 33, GivenLens()) && |GivenLens()| == 18
  {
    hide Rfc.Field, BytesBits, IsDynamic;
    LengthFields(b);
    MoreLengthFields(b);
    LastLengthFields(b);
    var s, v := BytesBits(b), GivenLens();
    forall i | 0 <= i < |v| ensures Rfc.Field(s, 33 + 3 * i, 3) == v[i] {
      if i < 6 {
        assert i == 0 || i == 1 || i == 2 || i == 3 || i == 4 || i == 5;
      } else if i < 12 {
        assert i == 6 || i == 7 || i == 8 || i == 9 || i == 10 || i == 11;
      } else {
        assert i == 12 || i == 13 || i == 14 || i == 15 || i == 16 || i == 17;
      }
    }
  }

  lemma {:induction false} LensPlaced()
    ensures |GivenLens()| == 18 && Rfc.PlaceLens(GivenLens()) == CodeLensLens()
  {
    hide Rfc.PlaceLens;
    var v := GivenLens();
    LenPlaced(v);
    forall j: nat | j < 19 ensures Rfc.PlaceLens(v)[j] == CodeLensLens()[j] {
      PlacedLens(v, j);
    }
  }

  /** Codes of one and two bits only. */
  lemma {:induction false} ShortCodes(l: seq<nat>)
    requires forall n :: n > 2 ==> Count(l, n) == 0
    ensures Kraft(l) == 16384 * Count(l, 1) + 8192 * Count(l, 2)
    ensures FirstCode(l, 1) == 0 && FirstCode(l, 2) == 2 * Count(l, 1)
  {
    hide Count, Base, Pow2;
    Pow2Values();
    FirstBase(l);
    Widen(l, 1, Count(l, 1), 16384);
    Widen(l, 2, Count(l, 2), 8192);
    FlatBase(l, 3, 16);
  }

  lemma {:induction false} CodeLensCount(n: nat)
    ensures Count(CodeLensLens(), n) == if n == 0 then 16 else if n == 1 then 1 else if n == 2 then 2 else 0
  {
    hide Count, Rfc.Repeat;
    CountRepeat(2, 2, n);
    CountRepeat(0, 16, n);
    CountRepeat(1, 1, n);
    CountConcat(Rfc.Repeat(2, 2), Rfc.Repeat(0, 16), n);
    CountConcat(Rfc.Repeat(2, 2) + Rfc.Repeat(0, 16), Rfc.Repeat(1, 1), n);
  }

  lemma {:induction false} CodeLensPrefixes()
    ensures var l := CodeLensLens();
            && |l| == 19 && l[0] == 2 && l[1] == 2 && l[18] == 1 && LensOK(l)
            && Count(l[..0], 2) == 0 && Count(l[..1], 2) == 1 && Count(l[..18], 1) == 0
  {
    hide Count;
    var l := CodeLensLens();
    CountRepeat(2, 0, 2);
    CountRepeat(2, 1, 2);
    CountRepeat(2, 2, 1);
    CountRepeat(0, 16, 1);
    CountConcat(Rfc.Repeat(2, 2), Rfc.Repeat(0, 16), 1);
    assert l[..0] == Rfc.Repeat(2, 0) && l[..1] == Rfc.Repeat(2, 1) && l[..18] == Rfc.Repeat(2, 2) + Rfc.Repeat(0, 16);
  }

  lemma {:induction false} CodeLensFacts()
    ensures var l := CodeLensLens();
            && |l| == 19 && l[0] == 2 && l[1] == 2 && l[18] == 1 && LensOK(l) && Kraft(l) == FULL
            && CodeOf(l, 18) == 0 && CodeOf(l, 0) == 2 && CodeOf(l, 1) == 3
  {
    hide Count, CodeLensLens, FirstCode, Kraft;
    var l := CodeLensLens();
    forall n: nat ensures Count(l, n) == if n == 0 then 16 else if n == 1 then 1 else if n == 2 then 2 else 0 {
      CodeLensCount(n);
    }
    CodeLensPrefixes();
    ShortCodes(l);
  }

  // ----- its list of lengths -----

  /** A repeated zero, by symbol 18. */
  lemma {:induction false} EighteenStep(rules: Rfc.Rules, acc: seq<nat>, s: seq<bool>, p: nat, x: nat)
    requires p + 8 <= |s| && Rfc.Field(s, p, 1) == 0 && Rfc.Field(s, p + 1, 7) == x && |acc| + 11 + x <= 258
    ensures Rfc.CodeLens(rules, CodeLensLens(), 257, 1, acc, true, 32768, [], s, p)
         == Rfc.CodeLens(rules, CodeLensLens(), 257, 1, acc + Rfc.Repeat(0, 11 + x), true, 32768, [], s, p + 8)
  {
    hide Kraft, Lookup, CodeOf, LensOK, Rfc.Field, Mirror, Rfc.CodesUsable, Rfc.Repeat, CodeLensLens, Rfc.Symbols;
    CodeLensFacts();
    ShortMirrors();
    CodeAt(CodeLensLens(), 18, s, p);
  }

  lemma {:induction false} ShortMirrors()
    ensures Mirror(0, 1) == 0 && Mirror(1, 1) == 1 && Mirror(3, 2) == 3 && Mirror(1, 2) == 2
  {
  }

  /** A length that is given as it is. */
  lemma {:induction false} LengthStep(rules: Rfc.Rules, acc: seq<nat>, s: seq<bool>, p: nat, v: nat)
    requires v <= 1 && p + 2 <= |s| && Rfc.Field(s, p, 2) == (if v == 0 then 1 else 3) && |acc| < 258
    ensures Rfc.CodeLens(rules, CodeLensLens(), 257, 1, acc, true, 32768, [], s, p)
         == Rfc.CodeLens(rules, CodeLensLens(), 257, 1, acc + [v], true, 32768, [], s, p + 2)
  {
    hide Kraft, Lookup, CodeOf, LensOK, Rfc.Field, Mirror, Rfc.CodesUsable, Rfc.Repeat, CodeLensLens, Rfc.Symbols;
    CodeLensFacts();
    ShortMirrors();
    CodeAt(CodeLensLens(), v, s, p);
  }

  /** The literal/length code. */
  function LitLens(): seq<nat> {
    Rfc.Repeat(0, 97) + Rfc.Repeat(1, 1) + Rfc.Repeat(0, 158) + Rfc.Repeat(1, 1)
  }

  lemma {:induction false} LitLensCount(n: nat)
    ensures Count(LitLens(), n) == if n == 0 then 255 else if n == 1 then 2 else 0
  {
    hide Count, Rfc.Repeat;
    var a, z := Rfc.Repeat(0, 97), Rfc.Repeat(0, 158);
    CountRepeat(0, 97, n);
    CountRepeat(0, 158, n);
    CountRepeat(1, 1, n);
    CountConcat(a, Rfc.Repeat(1, 1), n);
    CountConcat(a + Rfc.Repeat(1, 1), z, n);
    CountConcat(a + Rfc.Repeat(1, 1) + z, Rfc.Repeat(1, 1), n);
  }

  lemma {:induction false} LitLensPrefixes()
    ensures var l := LitLens();
            && |l| == 257 && l[97] == 1 && l[256] == 1 && LensOK(l) && Count(l[..97], 1) == 0 && Count(l[..256], 1) == 1
  {
    hide Count;
    var l := LitLens();
    var a, z := Rfc.Repeat(0, 97), Rfc.Repeat(0, 158);
    CountRepeat(0, 97, 1);
    CountRepeat(0, 158, 1);
    CountRepeat(1, 1, 1);
    CountConcat(a, Rfc.Repeat(1, 1), 1);
    CountConcat(a + Rfc.Repeat(1, 1), z, 1);
    assert l[..97] == a && l[..256] == a + Rfc.Repeat(1, 1) + z;
  }

  lemma {:induction false} LitLensFacts()
    ensures var l := LitLens();
            && |l| == 257 && l[97] == 1 && l[256] == 1 && LensOK(l) && Kraft(l) == FULL
            && CodeOf(l, 97) == 0 && CodeOf(l, 256) == 1
  {
    hide Count, LitLens, FirstCode, Kraft;
    var l := LitLens();
    forall n: nat ensures Count(l, n) == if n == 0 then 255 else if n == 1 then 2 else 0 {
      LitLensCount(n);
    }
    LitLensPrefixes();
    ShortCodes(l);
  }

  /** The list in the order in which it is read. */
  lemma {:induction false} ListIs()
    ensures var r := Rfc.Repeat(0, 97) + [1] + Rfc.Repeat(0, 138) + Rfc.Repeat(0, 20) + [1] + [0];
            |r| == 258 && r == LitLens() + [0] && r[..257] == LitLens() && r[257..] == [0]
  {
    assert Rfc.Repeat(0, 138) + Rfc.Repeat(0, 20) == Rfc.Repeat(0, 158);
    assert [1] == Rfc.Repeat(1, 1);
    var r := Rfc.Repeat(0, 97) + [1] + Rfc.Repeat(0, 138) + Rfc.Repeat(0, 20) + [1] + [0];
    assert r == LitLens() + [0];
  }

  lemma {:induction false} ReadList(rules: Rfc.Rules, b: seq<byte>)
    requires IsDynamic(b)
    ensures Rfc.CodeLens(rules, CodeLensLens(), 257, 1, [], true, 32768, [], BytesBits(b), 87)
         == Rfc.CodeLens(rules, CodeLensLens(), 257, 1, LitLens() + [0], true, 32768, [], BytesBits(b), 117)
  {
    hide Rfc.CodeLens, Rfc.Field, Rfc.Repeat, CodeLensLens, LitLens, BytesBits, IsDynamic;
    var s := BytesBits(b);
    ListFields(b);
    ListLengths();
    var a := Rfc.Repeat(0, 97);
    EighteenStep(rules, [], s, 87, 86);
    assert [] + a == a;
    LengthStep(rules, a, s, 95, 1);
    EighteenStep(rules, a + [1], s, 97, 127);
    EighteenStep(rules, a + [1] + Rfc.Repeat(0, 138), s, 105, 9);
    var c := a + [1] + Rfc.Repeat(0, 138) + Rfc.Repeat(0, 20);
    LengthStep(rules, c, s, 113, 1);
    LengthStep(rules, c + [1], s, 115, 0);
    ListIs();
  }

  lemma {:induction false} ListLengths()
    ensures |CodeLensLens()| == 19
    ensures |Rfc.Repeat(0, 97)| == 97 && |Rfc.Repeat(0, 138)| == 138 && |Rfc.Repeat(0, 20)| == 20
  {
  }

  // ----- its data -----

  lemma {:induction false} DynamicLetter(rules: Rfc.Rules, out: seq<byte>, s: seq<bool>, p: nat)
    requires p + 1 <= |s| && Rfc.Field(s, p, 1) == 0
    ensures Rfc.Symbols(rules, LitLens(), [0], true, 32768, out, s, p)
         == Rfc.Symbols(rules, LitLens(), [0], true, 32768, out + [0x61], s, p + 1)
  {
    hide Kraft, Lookup, CodeOf, LensOK, Rfc.Field, Mirror, LitLens;
    LitLensFacts();
    ShortMirrors();
    CodeAt(LitLens(), 97, s, p);
  }

  lemma {:induction false} DynamicEnd(rules: Rfc.Rules, out: seq<byte>, s: seq<bool>, p: nat)
    requires p + 1 <= |s| && Rfc.Field(s, p, 1) == 1
    ensures Rfc.Symbols(rules, LitLens(), [0], true, 32768, out, s, p) == Rfc.Trailer(out, s, Rfc.Aligned(p + 1))
  {
    hide Kraft, Lookup, CodeOf, LensOK, Rfc.Field, Mirror, LitLens, Rfc.Trailer, Rfc.Aligned;
    LitLensFacts();
    ShortMirrors();
    CodeAt(LitLens(), 256, s, p);
  }

  lemma {:induction false} DynamicData(rules: Rfc.Rules, b: seq<byte>)
    requires IsDynamic(b)
    ensures Rfc.Symbols(rules, LitLens(), [0], true, 32768, [], BytesBits(b), 117)
         == Rfc.Trailer([0x61, 0x61, 0x61], BytesBits(b), 128)
  {
    hide Rfc.Symbols, Rfc.Field, LitLens, BytesBits, IsDynamic, Rfc.Trailer;
    var s := BytesBits(b);
    DataFields(b);
    DynamicLetters(rules, s);
    LitLensSize();
    DynamicEnd(rules, [0x61, 0x61, 0x61], s, 120);
  }

  lemma {:induction false} LitLensSize()
    ensures |LitLens()| == 257
  {
  }

  lemma {:induction false} DynamicLetters(rules: Rfc.Rules, s: seq<bool>)
    requires 120 <= |s| && Rfc.Field(s, 117, 1) == 0 && Rfc.Field(s, 118, 1) == 0 && Rfc.Field(s, 119, 1) == 0
    ensures |LitLens()| == 257
    ensures Rfc.Symbols(rules, LitLens(), [0], true, 32768, [], s, 117)
         == Rfc.Symbols(rules, LitLens(), [0], true, 32768, [0x61, 0x61, 0x61], s, 120)
  {
    hide Rfc.Symbols, Rfc.Field, LitLens;
    LitLensSize();
    var one, two, three: seq<byte> := [0x61], [0x61, 0x61], [0x61, 0x61, 0x61];
    assert [] + one == one && one + one == two && two + one == three;
    DynamicLetter(rules, [], s, 117);
    DynamicLetter(rules, one, s, 118);
    DynamicLetter(rules, two, s, 119);
  }

  lemma {:induction false} ThreeLetters()
    ensures Checksum([0x61, 0x61, 0x61]) == 0x0249_0124
  {
    hide SumA, SumB;
    ChecksumClosed([0x61, 0x61, 0x61]);
  }

  lemma {:induction false} DynamicTrailer(b: seq<byte>)
    requires IsDynamic(b)
    ensures Rfc.Trailer([0x61, 0x61, 0x61], BytesBits(b), 128) == Rfc.Outcome(Rfc.Done, [0x61, 0x61, 0x61], 160)
  {
    hide Rfc.Field, BytesBits, Checksum;
    ThreeLetters();
    BitCount(b);
    ByteField(b, 16);
    ByteField(b, 17);
    ByteField(b, 18);
    ByteField(b, 19);
  }

  lemma {:induction false} ListUsed(rules: Rfc.Rules, s: seq<bool>)
    requires 117 <= |s|
    ensures Rfc.CodeLens(rules, CodeLensLens(), 257, 1, LitLens() + [0], true, 32768, [], s, 117)
         == Rfc.Symbols(rules, LitLens(), [0], true, 32768, [], s, 117)
  {
    hide Kraft, CodeOf, LensOK, LitLens, CodeLensLens, Rfc.Symbols, Lookup;
    CodeLensFacts();
    LitLensFacts();
    var acc := LitLens() + [0];
    assert acc[..257] == LitLens() && acc[257..] == [0];
  }

  lemma {:induction false} LensUsed(rules: Rfc.Rules, s: seq<bool>)
    requires 87 <= |s|
    ensures |GivenLens()| == 18 && |CodeLensLens()| == 19
    ensures Rfc.LenLens(rules, 257, 1, 18, GivenLens(), true, 32768, [], s, 87)
         == Rfc.CodeLens(rules, CodeLensLens(), 257, 1, [], true, 32768, [], s, 87)
  {
    hide Kraft, CodeOf, LensOK, GivenLens, CodeLensLens, Rfc.CodeLens, Rfc.PlaceLens, Rfc.Field;
    LensPlaced();
    CodeLensFacts();
  }

  lemma {:induction false} DynamicStart(rules: Rfc.Rules, b: seq<byte>)
    requires IsDynamic(b)
    ensures Rfc.Decode(rules, b) == Rfc.LenLens(rules, 257, 1, 18, [], true, 32768, [], BytesBits(b), 33)
  {
    hide Rfc.Decode, Rfc.Field, BytesBits, Rfc.LenLens;
    DynamicHeader(rules, b);
    CountFields(b);
  }

  /** The stream decodes to three letters, under all rules, and all of it is used. */
  lemma {:induction false} DynamicExample(rules: Rfc.Rules)
    ensures Rfc.Decode(rules, DYNAMIC) == Rfc.Outcome(Rfc.Done, [0x61, 0x61, 0x61], 160)
  {
    hide Rfc.Decode, Rfc.Symbols, Rfc.LenLens, Rfc.CodeLens, GivenLens, CodeLensLens, LitLens, BytesBits, Rfc.Trailer,
      Rfc.Field;
    var b := DYNAMIC;
    var s := BytesBits(b);
    assert IsDynamic(b);
    BitCount(b);
    DynamicStart(rules, b);
    DynamicLensGiven(b);
    LensGiven(rules, 18, [], GivenLens(), s, 33);
    assert [] + GivenLens() == GivenLens();
    LensUsed(rules, s);
    ReadList(rules, b);
    ListUsed(rules, s);
    DynamicData(rules, b);
    DynamicTrailer(b);
  }
}
