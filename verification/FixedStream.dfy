/** A stream with a block of fixed codes, decoded by hand, and the header of a stream byte by byte. */
module FixedStreams {
  import opened Bits
  import opened Huffman
  import opened CodeTables
  import opened Adler
  import opened FixedTables
  import opened StoredStreams
  import opened Agreements
  import Rfc = Rfc1951

  // ----- fields that cross bytes -----

  /** Three bytes as a number. */
  function Three(b: seq<byte>, k: nat): nat
    requires k + 2 < |b|
  {
    b[k] as nat + b[k + 1] as nat * 0x100 + b[k + 2] as nat * 0x1_0000
  }

  lemma {:induction false} ThreeField(b: seq<byte>, k: nat)
    requires k + 2 < |b|
    ensures Eight(k) + 24 <= |BytesBits(b)| && Rfc.Field(BytesBits(b), Eight(k), 24) == Three(b, k)
  {
    hide Rfc.Field, BytesBits, Scale, Pow2, Low, Shr;
    WordField(b, k);
    ByteField(b, k + 2);
    assert Eight(k + 2) == Eight(k) + 16;
    FieldSplit(BytesBits(b), Eight(k), 16, 8);
    ScaleIsMul(b[k + 2], 16);
    Pow2Values();
  }

  /** A field that begins i bits behind the start of a byte. */
  lemma {:induction false} FieldAt(b: seq<byte>, k: nat, i: nat, n: nat)
    requires k + 2 < |b| && i + n <= 24
    ensures Eight(k) + 24 <= |BytesBits(b)|
    ensures Rfc.Field(BytesBits(b), Eight(k) + i, n) == Three(b, k) / Pow2(i) % Pow2(n)
  {
    hide Rfc.Field, BytesBits, Low, Shr, Eight, Three;
    ThreeField(b, k);
    FieldSplit(BytesBits(b), Eight(k), i, 24 - i);
    FieldSplit(BytesBits(b), Eight(k) + i, n, 24 - i - n);
    LowShrDivMod(Three(b, k), i);
    LowShrDivMod(Three(b, k) / Pow2(i), n);
  }

  /** The number with the n binary digits of x in reverse order. */
  function Mirror(x: nat, n: nat): nat {
    if n == 0 then 0 else (if x % 2 == 1 then Pow2(n - 1) else 0) + Mirror(x / 2, n - 1)
  }

  lemma {:induction false} MirrorBits(x: nat, n: nat)
    ensures LBits(x, n) == MBits(Mirror(x, n), n)
  {
    MirrorVal(x, n);
    MBitsMVal(LBits(x, n));
  }

  lemma {:induction false} MirrorVal(x: nat, n: nat)
    ensures MVal(LBits(x, n)) == Mirror(x, n)
  {
    if n > 0 {
      MirrorVal(x / 2, n - 1);
      MValConcat([x % 2 == 1], LBits(x / 2, n - 1));
      OneBit(x % 2 == 1);
      ScaleOne(n - 1);
      ScaleZero(n - 1);
    }
  }

  lemma {:induction false} OneBit(b: bool)
    ensures MVal([b]) == BitVal(b)
  {
  }

  /** One more digit. */
  lemma {:induction false} MirrorOn(d: bool, x: nat, n: nat)
    ensures Mirror(BitVal(d) + 2 * x, n + 1) == (if d then Pow2(n) else 0) + Mirror(x, n)
  {
  }

  /** Five and eight digits, least significant digit first. */
  lemma {:induction false} MirrorFive(a: bool, b: bool, c: bool, d: bool, e: bool)
    ensures Mirror(BitVal(a) + 2 * BitVal(b) + 4 * BitVal(c) + 8 * BitVal(d) + 16 * BitVal(e), 5)
         == 16 * BitVal(a) + 8 * BitVal(b) + 4 * BitVal(c) + 2 * BitVal(d) + BitVal(e)
  {
    hide Mirror, Pow2;
    Pow2Values();
    var v := BitVal(e);
    var w := BitVal(d) + 2 * v;
    var x := BitVal(c) + 2 * w;
    var y := BitVal(b) + 2 * x;
    MirrorOn(e, 0, 0);
    MirrorOn(d, v, 1);
    MirrorOn(c, w, 2);
    MirrorOn(b, x, 3);
    MirrorOn(a, y, 4);
    NoDigits();
  }

  lemma {:induction false} NoDigits()
    ensures Mirror(0, 0) == 0
  {
  }

  lemma {:induction false} MirrorEight(a: bool, b: bool, c: bool, d: bool, e: bool, f: bool, g: bool, h: bool)
    ensures var x := BitVal(d) + 2 * BitVal(e) + 4 * BitVal(f) + 8 * BitVal(g) + 16 * BitVal(h);
            var m := 16 * BitVal(d) + 8 * BitVal(e) + 4 * BitVal(f) + 2 * BitVal(g) + BitVal(h);
            && Mirror(BitVal(b) + 2 * BitVal(c) + 4 * x, 7) == 64 * BitVal(b) + 32 * BitVal(c) + m
            && Mirror(BitVal(a) + 2 * BitVal(b) + 4 * BitVal(c) + 8 * x, 8)
               == 128 * BitVal(a) + 64 * BitVal(b) + 32 * BitVal(c) + m
  {
    hide Mirror, Pow2;
    Pow2Values();
    MirrorFive(d, e, f, g, h);
    var x := BitVal(d) + 2 * BitVal(e) + 4 * BitVal(f) + 8 * BitVal(g) + 16 * BitVal(h);
    var y := BitVal(c) + 2 * x;
    var z := BitVal(b) + 2 * y;
    MirrorOn(c, x, 5);
    MirrorOn(b, y, 6);
    MirrorOn(a, z, 7);
  }

  /** A code, most significant bit first, read as a field, least significant bit first. */
  lemma {:induction false} CodeAt(lens: seq<nat>, v: nat, s: seq<bool>, p: nat)
    requires v < |lens| && 1 <= lens[v] && p + lens[v] <= |s| && LensOK(lens) && Kraft(lens) <= FULL
    requires Mirror(Rfc.Field(s, p, lens[v]), lens[v]) == CodeOf(lens, v)
    ensures Lookup(lens, s[p..]) == Found(v)
  {
    hide Kraft, Lookup, CodeOf;
    MirrorBits(Rfc.Field(s, p, lens[v]), lens[v]);
    LBitsLVal(s[p..p + lens[v]]);
    assert s[p..][..lens[v]] == s[p..p + lens[v]];
    LookupIs(lens, v, s[p..]);
  }

  // ----- the header -----

  lemma {:induction false} ByteParts(b: seq<byte>, k: nat)
    requires k < |b|
    ensures var s := BytesBits(b);
            && Eight(k) + 8 <= |s| && Rfc.Field(s, Eight(k), 8) == b[k]
            && Rfc.Field(s, Eight(k), 4) == b[k] % 16 && Rfc.Field(s, Eight(k) + 4, 4) == b[k] / 16
            && (s[Eight(k) + 5] <==> b[k] / 32 % 2 == 1)
  {
    hide Rfc.Field, BytesBits, Low, Shr, Eight, Pow2;
    Pow2Values();
    ByteField(b, k);
    FieldOfByte(b, k, 0, 4);
    FieldOfByte(b, k, 4, 4);
    FieldOfByte(b, k, 5, 1);
    BitField(BytesBits(b), Eight(k) + 5);
    LowShrDivMod(b[k], 0);
    LowShrDivMod(b[k], 4);
    LowShrDivMod(b[k], 5);
    LowShrDivMod(b[k] / 16, 4);
    LowShrDivMod(b[k] / 32, 1);
  }

  lemma {:induction false} HeaderOfFields(rules: Rfc.Rules, s: seq<bool>, cmf: nat, flg: nat)
    requires |s| >= 16 && cmf < 256 && Rfc.Field(s, 0, 8) == cmf && Rfc.Field(s, 8, 8) == flg
    requires Rfc.Field(s, 0, 4) == cmf % 16 && Rfc.Field(s, 4, 4) == cmf / 16
    ensures Rfc.Header(rules, s, 0) ==
            if (cmf * 256 + flg) % 31 != 0 || cmf % 16 != 8 || cmf / 16 > 7 then Rfc.Fails([])
            else if s[13] then Rfc.DictId(s, 16)
            else Rfc.Type(rules, false, Pow2(cmf / 16 + 8), [], s, 16)
  {
    hide Rfc.Field, Pow2, Rfc.Type, Rfc.DictId;
  }

  /** Section 2.2 of RFC 1950 in terms of the two header bytes. */
  lemma {:induction false} HeaderOfBytes(rules: Rfc.Rules, b: seq<byte>)
    requires |b| >= 2
    ensures var s, cmf: nat, flg: nat := BytesBits(b), b[0], b[1];
            && |s| == 8 * |b|
            && Rfc.Decode(rules, b) ==
               if (cmf * 256 + flg) % 31 != 0 || cmf % 16 != 8 || cmf / 16 > 7 then Rfc.Fails([])
               else if flg / 32 % 2 == 1 then Rfc.DictId(s, 16)
               else Rfc.Type(rules, false, Pow2(cmf / 16 + 8), [], s, 16)
  {
    hide Rfc.Field, BytesBits, Pow2, Rfc.Type, Rfc.DictId, Rfc.Header;
    BitCount(b);
    ByteParts(b, 0);
    ByteParts(b, 1);
    HeaderOfFields(rules, BytesBits(b), b[0], b[1]);
  }

  // ----- the fixed codes -----

  lemma {:induction false} FixedLiteral(rules: Rfc.Rules, out: seq<byte>, s: seq<bool>, p: nat, v: byte)
    requires v <= 143 && p + 8 <= |s| && Mirror(Rfc.Field(s, p, 8), 8) == 0x30 + v
    ensures Rfc.Symbols(rules, Rfc.FixedLens(), Rfc.FixedDists(), true, 32768, out, s, p)
         == Rfc.Symbols(rules, Rfc.FixedLens(), Rfc.FixedDists(), true, 32768, out + [v], s, p + 8)
  {
    hide Kraft, Lookup, CodeOf, Rfc.FixedLens, LensOK, Rfc.Field, Mirror, Rfc.LengthBits;
    FixedLensFacts();
    FixedLensAt(v);
    FixedCodes(v);
    CodeAt(Rfc.FixedLens(), v, s, p);
  }

  lemma {:induction false} FixedEnd(rules: Rfc.Rules, out: seq<byte>, s: seq<bool>, p: nat)
    requires p + 7 <= |s| && Mirror(Rfc.Field(s, p, 7), 7) == 0
    ensures Rfc.Symbols(rules, Rfc.FixedLens(), Rfc.FixedDists(), true, 32768, out, s, p)
         == Rfc.Trailer(out, s, Rfc.Aligned(p + 7))
  {
    hide Kraft, Lookup, CodeOf, Rfc.FixedLens, LensOK, Rfc.Field, Mirror, Rfc.LengthBits, Rfc.Trailer, Rfc.Aligned;
    FixedLensFacts();
    FixedLensAt(256);
    FixedCodes(256);
    CodeAt(Rfc.FixedLens(), 256, s, p);
  }

  lemma {:induction false} FixedDistance(rules: Rfc.Rules, len: nat, out: seq<byte>, s: seq<bool>, p: nat, v: nat,
                                         dist: nat)
    requires v < 30 && p + 5 + DistExtra(v) <= |s| && Mirror(Rfc.Field(s, p, 5), 5) == v
    requires dist == DistBase(v) + Rfc.Field(s, p + 5, DistExtra(v)) && 1 <= dist <= |out| && dist <= 32768
    ensures Rfc.Distance(rules, len, Rfc.FixedLens(), Rfc.FixedDists(), true, 32768, out, s, p)
         == Rfc.Symbols(rules, Rfc.FixedLens(), Rfc.FixedDists(), true, 32768, Rfc.CopyMatch(out, dist, len), s,
                        p + 5 + DistExtra(v))
  {
    hide Kraft, Lookup, CodeOf, Rfc.FixedLens, Rfc.FixedDists, LensOK, Rfc.Field, Mirror, Rfc.Symbols,
      Rfc.CopyMatch, DistBase, DistExtra;
    FixedDistsFacts();
    FixedLensAt(v);
    FixedDistCodes(v);
    FixedSizes();
    CodeAt(Rfc.FixedDists(), v, s, p);
    var L, D := Rfc.FixedLens(), Rfc.FixedDists();
    assert Lookup(D, s[p..]) == Found(v) && D[v] == 5;
    assert Rfc.Distance(rules, len, L, D, true, 32768, out, s, p)
      == Rfc.DistanceBits(rules, len, DistBase(v), DistExtra(v), L, D, true, 32768, out, s, p + 5);
    assert Rfc.DistanceBits(rules, len, DistBase(v), DistExtra(v), L, D, true, 32768, out, s, p + 5)
      == Rfc.Match(rules, len, dist, L, D, true, 32768, out, s, p + 5 + DistExtra(v));
  }

  lemma {:induction false} FixedSizes()
    ensures |Rfc.FixedLens()| == 288 && |Rfc.FixedDists()| == 32
  {
  }

  lemma {:induction false} FixedLength(rules: Rfc.Rules, out: seq<byte>, s: seq<bool>, p: nat, v: nat)
    requires 257 <= v <= 279 && p + 7 + LengthExtra(v) <= |s| && Mirror(Rfc.Field(s, p, 7), 7) == v - 256
    ensures Rfc.Symbols(rules, Rfc.FixedLens(), Rfc.FixedDists(), true, 32768, out, s, p)
         == Rfc.Distance(rules, LengthBase(v) + Rfc.Field(s, p + 7, LengthExtra(v)), Rfc.FixedLens(), Rfc.FixedDists(),
                         true, 32768, out, s, p + 7 + LengthExtra(v))
  {
    hide Kraft, Lookup, CodeOf, Rfc.FixedLens, Rfc.FixedDists, LensOK, Rfc.Field, Mirror, Rfc.Distance,
      LengthBase, LengthExtra;
    FixedLensFacts();
    FixedLensAt(v);
    FixedCodes(v);
    FixedSizes();
    CodeAt(Rfc.FixedLens(), v, s, p);
    var L, D := Rfc.FixedLens(), Rfc.FixedDists();
    assert Lookup(L, s[p..]) == Found(v) && L[v] == 7;
    assert Rfc.Symbols(rules, L, D, true, 32768, out, s, p)
      == Rfc.LengthBits(rules, LengthBase(v), LengthExtra(v), L, D, true, 32768, out, s, p + 7);
  }

  /** The six letters from 0x61 on, over and over. */
  function Letters(n: nat): (r: seq<byte>)
    ensures |r| == n
  {
    seq(n, i requires 0 <= i < n => 0x61 + i % 6)
  }

  /** Copying from six letters back goes on with them. */
  lemma {:induction false} LettersOn(n: nat, len: nat)
    requires n >= 6
    ensures Rfc.CopyMatch(Letters(n), 6, len) == Letters(n + len)
    decreases len
  {
    if len > 0 {
      assert Letters(n) + [Letters(n)[n - 6]] == Letters(n + 1);
      LettersOn(n + 1, len - 1);
    }
  }

  /** The zlib stream of "abcdefabcdefabcdef": six literals, a match of twelve bytes six bytes back, the end of the
      block, and the checksum. */
  const FIXED: seq<byte> := [0x78, 0x01, 0x4b, 0x4c, 0x4a, 0x4e, 0x49, 0x4d, 0x43, 0x26, 0x01, 0x42, 0x54, 0x07, 0x00]

  /** The same, byte by byte. */
  predicate IsFixed(b: seq<byte>) {
    && |b| == 15 && b[0] == 0x78 && b[1] == 0x01 && b[2] == 0x4b && b[3] == 0x4c && b[4] == 0x4a && b[5] == 0x4e
    && b[6] == 0x49 && b[7] == 0x4d && b[8] == 0x43 && b[9] == 0x26 && b[10] == 0x01 && b[11] == 0x42 && b[12] == 0x54
    && b[13] == 0x07 && b[14] == 0x00
  }

  /** The n bits at position p are the number v. */
  predicate Reads(b: seq<byte>, p: nat, n: nat, v: nat) {
    p + n <= |BytesBits(b)| && Rfc.Field(BytesBits(b), p, n) == v
  }

  lemma {:induction false} ReadAt(b: seq<byte>, k: nat, i: nat, n: nat, v: nat)
    requires k + 2 < |b| && i + n <= 24 && v == Three(b, k) / Pow2(i) % Pow2(n)
    ensures Reads(b, Eight(k) + i, n, v)
  {
    hide Rfc.Field, BytesBits, Three, Pow2;
    FieldAt(b, k, i, n);
  }

  lemma {:induction false} FixedHeader(b: seq<byte>)
    requires IsFixed(b)
    ensures Reads(b, 16, 1, 1) && Reads(b, 17, 2, 1)
  {
    hide Reads;
    Pow2Values();
    ReadAt(b, 2, 0, 1, 1);
    ReadAt(b, 2, 1, 2, 1);
  }

  lemma {:induction false} FixedLetters(b: seq<byte>)
    requires IsFixed(b)
    ensures Reads(b, 19, 8, 137) && Reads(b, 27, 8, 73) && Reads(b, 35, 8, 201)
    ensures Reads(b, 43, 8, 41) && Reads(b, 51, 8, 169) && Reads(b, 59, 8, 105)
  {
    hide Reads;
    Pow2Values();
    ReadAt(b, 2, 3, 8, 137);
    ReadAt(b, 3, 3, 8, 73);
    ReadAt(b, 4, 3, 8, 201);
    ReadAt(b, 5, 3, 8, 41);
    ReadAt(b, 6, 3, 8, 169);
    ReadAt(b, 7, 3, 8, 105);
  }

  lemma {:induction false} FixedRest(b: seq<byte>)
    requires IsFixed(b)
    ensures Reads(b, 67, 7, 72) && Reads(b, 74, 1, 1) && Reads(b, 75, 5, 4)
    ensures Reads(b, 80, 1, 1) && Reads(b, 81, 7, 0)
  {
    hide Reads;
    Pow2Values();
    ReadAt(b, 8, 3, 7, 72);
    ReadAt(b, 9, 2, 1, 1);
    ReadAt(b, 9, 3, 5, 4);
    ReadAt(b, 10, 0, 1, 1);
    ReadAt(b, 10, 1, 7, 0);
  }

  lemma {:induction false} LetterCodes()
    ensures Mirror(137, 8) == 0x30 + 0x61 && Mirror(73, 8) == 0x30 + 0x62 && Mirror(201, 8) == 0x30 + 0x63
    ensures Mirror(41, 8) == 0x30 + 0x64 && Mirror(169, 8) == 0x30 + 0x65 && Mirror(105, 8) == 0x30 + 0x66
    ensures Mirror(72, 7) == 9 && Mirror(4, 5) == 4 && Mirror(0, 7) == 0
  {
    hide Mirror;
    MirrorEight(true, false, false, true, false, false, false, true);
    MirrorEight(true, false, false, true, false, false, true, false);
    MirrorEight(true, false, false, true, false, false, true, true);
    MirrorEight(true, false, false, true, false, true, false, false);
    MirrorEight(true, false, false, true, false, true, false, true);
    MirrorEight(true, false, false, true, false, true, true, false);
    MirrorEight(false, false, false, false, true, false, false, true);
    MirrorEight(false, false, false, false, false, false, false, false);
    MirrorFive(false, false, true, false, false);
  }

  // ----- its decoding -----

  lemma {:induction false} FixedStart(rules: Rfc.Rules, b: seq<byte>)
    requires IsFixed(b)
    ensures Rfc.Decode(rules, b)
         == Rfc.Symbols(rules, Rfc.FixedLens(), Rfc.FixedDists(), true, 32768, [], BytesBits(b), 19)
  {
    hide Rfc.Field, BytesBits, Rfc.Symbols, Rfc.Stored, Rfc.Table, Pow2, Rfc.FixedLens, Rfc.FixedDists, Eight;
    BitCount(b);
    HeaderBits(b);
    FixedHeader(b);
    BitField(BytesBits(b), 16);
    Pow2Values();
    FixedBitCount(b);
  }

  lemma {:induction false} FixedBitCount(b: seq<byte>)
    requires IsFixed(b)
    ensures |BytesBits(b)| == 120
  {
    hide BytesBits;
    BitCount(b);
  }

  lemma {:induction false} FixedLetter(rules: Rfc.Rules, s: seq<bool>, k: nat)
    requires k < 6 && 27 + 8 * k <= |s| && Mirror(Rfc.Field(s, 19 + 8 * k, 8), 8) == 0x30 + 0x61 + k
    ensures Rfc.Symbols(rules, Rfc.FixedLens(), Rfc.FixedDists(), true, 32768, Letters(k), s, 19 + 8 * k)
         == Rfc.Symbols(rules, Rfc.FixedLens(), Rfc.FixedDists(), true, 32768, Letters(k + 1), s, 27 + 8 * k)
  {
    hide Rfc.Symbols, Rfc.Field, Mirror, Rfc.FixedLens, Rfc.FixedDists;
    FixedSizes();
    FixedLiteral(rules, Letters(k), s, 19 + 8 * k, 0x61 + k);
    assert Letters(k) + [0x61 + k] == Letters(k + 1);
  }

  lemma {:induction false} SixLetters(rules: Rfc.Rules, b: seq<byte>)
    requires IsFixed(b)
    ensures Rfc.Symbols(rules, Rfc.FixedLens(), Rfc.FixedDists(), true, 32768, [], BytesBits(b), 19)
         == Rfc.Symbols(rules, Rfc.FixedLens(), Rfc.FixedDists(), true, 32768, Letters(6), BytesBits(b), 67)
  {
    hide Rfc.Symbols, Rfc.Field, Mirror, Rfc.FixedLens, Rfc.FixedDists, BytesBits, IsFixed;
    var s := BytesBits(b);
    FixedSizes();
    FixedLetters(b);
    LetterCodes();
    assert Letters(0) == [];
    FixedLetter(rules, s, 0);
    FixedLetter(rules, s, 1);
    FixedLetter(rules, s, 2);
    FixedLetter(rules, s, 3);
    FixedLetter(rules, s, 4);
    FixedLetter(rules, s, 5);
  }

  lemma {:induction false} FixedFormulas()
    ensures LengthBase(265) == 11 && LengthExtra(265) == 1 && DistBase(4) == 5 && DistExtra(4) == 1
  {
  }

  lemma {:induction false} FixedMatch(rules: Rfc.Rules, b: seq<byte>)
    requires IsFixed(b)
    ensures Rfc.Symbols(rules, Rfc.FixedLens(), Rfc.FixedDists(), true, 32768, Letters(6), BytesBits(b), 67)
         == Rfc.Trailer(Letters(18), BytesBits(b), 88)
  {
    hide Rfc.Symbols, Rfc.Distance, Rfc.Field, Mirror, Rfc.FixedLens, Rfc.FixedDists, BytesBits, IsFixed, Rfc.Trailer,
      Rfc.CopyMatch, LengthBase, LengthExtra, DistBase, DistExtra;
    var s := BytesBits(b);
    FixedSizes();
    FixedRest(b);
    LetterCodes();
    FixedFormulas();
    FixedLength(rules, Letters(6), s, 67, 265);
    FixedDistance(rules, 12, Letters(6), s, 75, 4, 6);
    LettersOn(6, 12);
    FixedEnd(rules, Letters(18), s, 81);
  }

  // ----- its checksum -----

  /** The running sums. */
  function LetterA(n: nat): nat {
    if n == 0 then 1 else LetterA(n - 1) + 0x61 + (n - 1) % 6
  }

  function LetterB(n: nat): nat {
    if n == 0 then 0 else LetterB(n - 1) + LetterA(n)
  }

  lemma {:induction false} LetterSums(n: nat)
    requires LetterA(n) < 65521 && LetterB(n) < 65521
    ensures SumA(1, Letters(n)) == LetterA(n) && SumB(1, 0, Letters(n)) == LetterB(n)
  {
    hide Letters, SumA, SumB;
    if n == 0 {
      NoLetters();
    } else {
      LetterSums(n - 1);
      NextSums(n - 1);
    }
  }

  lemma {:induction false} NextSums(n: nat)
    ensures SumA(1, Letters(n + 1)) == (SumA(1, Letters(n)) + 0x61 + n % 6) % 65521
    ensures SumB(1, 0, Letters(n + 1)) == (SumB(1, 0, Letters(n)) + SumA(1, Letters(n + 1))) % 65521
  {
    hide Letters;
    LettersNext(n);
  }

  lemma {:induction false} NoLetters()
    ensures SumA(1, Letters(0)) == 1 && SumB(1, 0, Letters(0)) == 0
  {
  }

  lemma {:induction false} LettersNext(n: nat)
    ensures |Letters(n + 1)| == n + 1 && Letters(n + 1)[..n] == Letters(n) && Letters(n + 1)[n] == 0x61 + n % 6
  {
  }

  lemma {:induction false} LetterValues()
    ensures LetterA(18) == 1792 && LetterB(18) == 16980
  {
    assert LetterA(3) == 295 && LetterB(3) == 589;
    assert LetterA(6) == 598 && LetterB(6) == 2078;
    assert LetterA(9) == 892 && LetterB(9) == 4458;
    assert LetterA(12) == 1195 && LetterB(12) == 7738;
    assert LetterA(15) == 1489 && LetterB(15) == 11909;
  }

  lemma {:induction false} LettersChecksum()
    ensures Checksum(Letters(18)) == 0x4254_0700
  {
    hide SumA, SumB, Letters, LetterA, LetterB;
    LetterValues();
    LetterSums(18);
  }

  lemma {:induction false} FixedTrailer(b: seq<byte>)
    requires IsFixed(b)
    ensures Rfc.Trailer(Letters(18), BytesBits(b), 88) == Rfc.Outcome(Rfc.Done, Letters(18), 120)
  {
    hide Rfc.Field, BytesBits, Letters, Checksum;
    LettersChecksum();
    FixedBitCount(b);
    ByteField(b, 11);
    ByteField(b, 12);
    ByteField(b, 13);
    ByteField(b, 14);
  }

  /** The stream decodes to the letters, under all rules, and all of it is used. */
  lemma {:induction false} FixedExample(rules: Rfc.Rules)
    ensures Rfc.Decode(rules, FIXED) == Rfc.Outcome(Rfc.Done, Letters(18), 120)
  {
    hide Rfc.Decode, Rfc.Symbols, Rfc.FixedLens, Rfc.FixedDists, BytesBits, Rfc.Trailer;
    var b := FIXED;
    assert IsFixed(b);
    FixedSizes();
    FixedStart(rules, b);
    SixLetters(rules, b);
    FixedMatch(rules, b);
    FixedTrailer(b);
  }
}
