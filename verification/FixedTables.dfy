/** The tables that inflate() asks for: they fit, and the fixed ones decode the fixed codes. */
module FixedTables {
  import opened Bits
  import opened Huffman
  import opened CodeTables
  import opened SortedSymbols
  import opened CodeLengths
  import opened Enough
  import opened InflateTable
  import opened Streams
  import Rfc = Rfc1951

  /** Without codes longer than the root index, the root table is all there is. */
  lemma {:induction false} RootSize(lens: seq<nat>, root: nat)
    requires LensOK(lens) && MaxLen(lens) <= root <= 15
    ensures TableSize(lens, root) == Pow2(root)
  {
    hide Pow2, Space, Count;
    MaxFromIs(lens, 15);
    if root < 15 && Kraft(lens) >= FULL {
      OffFlat(lens, MaxLen(lens) + 1, root + 1);
      BaseGap(lens, MaxLen(lens) + 1, root + 1);
      MaxFacts(lens);
      assert Base(lens, root + 1) == Kraft(lens);
      NoSpace(lens, root, Base(lens, root + 1));
    }
  }

  lemma {:induction false} NoSpace(lens: seq<nat>, root: nat, p: nat)
    requires root < 15 && p >= FULL
    ensures Space(lens, root, p) == 0
  {
  }

  /** The table for literals and lengths never exceeds its space, so that `Build` does not refuse it. */
  lemma {:induction false} LensFit(lens: seq<nat>)
    requires LensOK(lens) && |lens| <= 286 && Acceptable(Lens, lens)
    ensures !TooBig(Lens, TableSize(lens, RootBits(lens, 9)))
  {
    hide TableSize, Kraft;
    if Kraft(lens) == FULL {
      EnoughForLens(lens);
    } else {
      MaxFacts(lens);
      RootSize(lens, 1);
      Pow2Values();
    }
  }

  lemma {:induction false} DistsFit(lens: seq<nat>)
    requires LensOK(lens) && |lens| <= 30 && Acceptable(Dists, lens)
    ensures !TooBig(Dists, TableSize(lens, RootBits(lens, 6)))
  {
    hide TableSize, Kraft;
    if Kraft(lens) == FULL {
      EnoughForDists(lens);
    } else {
      MaxFacts(lens);
      RootSize(lens, 1);
      Pow2Values();
    }
  }

  /** A table for code lengths takes at most 128 entries, whatever the lengths below eight. */
  lemma {:induction false} CodesFit(lens: seq<nat>)
    requires |lens| == 19 && forall i :: 0 <= i < 19 ==> lens[i] <= 7
    ensures RootBits(lens, 7) <= 7 && TableSize(lens, RootBits(lens, 7)) <= Room(Codes)
  {
    hide TableSize, Kraft, Count;
    var max := MaxLen(lens);
    if max > 0 {
      MaxFromIs(lens, 15);
      var s := CountPositive(lens, max);
    }
    RootSize(lens, RootBits(lens, 7));
    Pow2Values();
    Pow2Mono(RootBits(lens, 7), 7);
  }

  // ----- the fixed codes -----

  lemma {:induction false} CountConcat(a: seq<nat>, b: seq<nat>, l: nat)
    ensures Count(a + b, l) == Count(a, l) + Count(b, l)
  {
    if b == [] {
      assert a + b == a;
    } else {
      CountConcat(a, b[..|b| - 1], l);
      assert (a + b)[..|a + b| - 1] == a + b[..|b| - 1];
    }
  }

  lemma {:induction false} CountRepeat(v: nat, n: nat, l: nat)
    ensures Count(Rfc.Repeat(v, n), l) == if v == l then n else 0
  {
    if n > 0 {
      CountRepeat(v, n - 1, l);
      assert Rfc.Repeat(v, n)[..n - 1] == Rfc.Repeat(v, n - 1);
    }
  }

  /** Section 3.2.6 of RFC 1951: where the fixed lengths change. */
  lemma {:induction false} FixedLensAt(v: nat)
    requires v < 288
    ensures v <= 143 ==> Rfc.FixedLens()[v] == 8
    ensures 144 <= v <= 255 ==> Rfc.FixedLens()[v] == 9
    ensures 256 <= v <= 279 ==> Rfc.FixedLens()[v] == 7
    ensures 280 <= v <= 287 ==> Rfc.FixedLens()[v] == 8
    ensures v < 32 ==> Rfc.FixedDists()[v] == 5
  {
    hide Rfc.Repeat;
    RepeatIs(8, 144);
    RepeatIs(9, 112);
    RepeatIs(7, 24);
    RepeatIs(8, 8);
    RepeatIs(5, 32);
  }

  lemma {:induction false} RepeatIs(v: nat, n: nat)
    ensures |Rfc.Repeat(v, n)| == n && forall i :: 0 <= i < n ==> Rfc.Repeat(v, n)[i] == v
  {
  }

  /** Runs of lengths like those of the fixed code. */
  function FixedRuns(a: nat, b: nat, c: nat, d: nat): seq<nat> {
    Rfc.Repeat(8, a) + Rfc.Repeat(9, b) + Rfc.Repeat(7, c) + Rfc.Repeat(8, d)
  }

  lemma {:induction false} CountRuns(a: nat, b: nat, c: nat, d: nat, l: nat)
    ensures Count(FixedRuns(a, b, c, d), l) == if l == 7 then c else if l == 8 then a + d else if l == 9 then b else 0
  {
    hide Count, Rfc.Repeat;
    CountRepeat(8, a, l);
    CountRepeat(9, b, l);
    CountRepeat(7, c, l);
    CountRepeat(8, d, l);
    CountConcat(Rfc.Repeat(8, a), Rfc.Repeat(9, b), l);
    CountConcat(Rfc.Repeat(8, a) + Rfc.Repeat(9, b), Rfc.Repeat(7, c), l);
    CountConcat(Rfc.Repeat(8, a) + Rfc.Repeat(9, b) + Rfc.Repeat(7, c), Rfc.Repeat(8, d), l);
  }

  lemma {:induction false} FixedLensCount(l: nat)
    ensures Count(Rfc.FixedLens(), l) == if l == 7 then 24 else if l == 8 then 152 else if l == 9 then 112 else 0
  {
    hide Count, Rfc.Repeat;
    CountRuns(144, 112, 24, 8, l);
  }

  /** At most k of n. */
  function Upto(n: int, k: nat): nat {
    if n < 0 then 0 else if n < k then n else k
  }

  lemma {:induction false} FixedPrefix(v: nat)
    requires v < 288
    ensures Rfc.FixedLens()[..v] == FixedRuns(Upto(v, 144), Upto(v - 144, 112), Upto(v - 256, 24), Upto(v - 280, 8))
  {
    RepeatPrefix(8, 144, Upto(v, 144));
    RepeatPrefix(9, 112, Upto(v - 144, 112));
    RepeatPrefix(7, 24, Upto(v - 256, 24));
    RepeatPrefix(8, 8, Upto(v - 280, 8));
  }

  lemma {:induction false} RepeatPrefix(v: nat, n: nat, k: nat)
    requires k <= n
    ensures Rfc.Repeat(v, n)[..k] == Rfc.Repeat(v, k)
  {
  }

  /** The first codes of seven, eight and nine bits. */
  lemma {:induction false} FixedFirst()
    ensures var L := Rfc.FixedLens(); FirstCode(L, 7) == 0 && FirstCode(L, 8) == 48 && FirstCode(L, 9) == 400
  {
    hide Count, Rfc.FixedLens;
    var L := Rfc.FixedLens();
    forall l: nat ensures Count(L, l) == if l == 7 then 24 else if l == 8 then 152 else if l == 9 then 112 else 0 {
      FixedLensCount(l);
    }
    assert FirstCode(L, 4) == 0 by { assert FirstCode(L, 2) == 0; }
    assert FirstCode(L, 7) == 0 by { assert FirstCode(L, 5) == 0; }
  }

  /** The codes of section 3.2.6 of RFC 1951. */
  lemma {:induction false} FixedCodes(v: nat)
    requires v < 288
    ensures v <= 143 ==> CodeOf(Rfc.FixedLens(), v) == 0x30 + v
    ensures 144 <= v <= 255 ==> CodeOf(Rfc.FixedLens(), v) == 0x190 + (v - 144)
    ensures 256 <= v <= 279 ==> CodeOf(Rfc.FixedLens(), v) == v - 256
    ensures 280 <= v <= 287 ==> CodeOf(Rfc.FixedLens(), v) == 0xc0 + (v - 280)
  {
    hide Count, FirstCode, Rfc.FixedLens, FixedRuns;
    FixedFirst();
    FixedLensAt(v);
    FixedPrefix(v);
    CountRuns(Upto(v, 144), Upto(v - 144, 112), Upto(v - 256, 24), Upto(v - 280, 8), Rfc.FixedLens()[v]);
  }

  lemma {:induction false} FixedDistCodes(v: nat)
    requires v < 32
    ensures CodeOf(Rfc.FixedDists(), v) == v
  {
    hide Count, Rfc.Repeat;
    var L := Rfc.FixedDists();
    forall l: nat ensures Count(L, l) == if l == 5 then 32 else 0 {
      CountRepeat(5, 32, l);
    }
    FixedLensAt(v);
    RepeatPrefix(5, 32, v);
    CountRepeat(5, v, 5);
    assert FirstCode(L, 5) == 0 by { assert FirstCode(L, 3) == 0; }
  }

  lemma {:induction false} BaseStep(lens: seq<nat>, l: nat)
    requires 1 <= l < 16
    ensures Base(lens, l + 1) == Base(lens, l) + Count(lens, l) * Pow2(15 - l)
  {
    ScaleIsMul(Count(lens, l), 15 - l);
  }

  lemma {:induction false} FlatBase(lens: seq<nat>, a: nat, b: nat)
    requires 1 <= a <= b <= 16 && forall j :: a <= j < b ==> Count(lens, j) == 0
    ensures Base(lens, a) == Base(lens, b)
  {
    OffFlat(lens, a, b);
    BaseGap(lens, a, b);
  }

  /** MaxLen is the last length that occurs. */
  lemma {:induction false} MaxLenIs(lens: seq<nat>, l: nat, max: nat)
    requires l >= max && Count(lens, max) != 0 && forall j :: max < j <= l ==> Count(lens, j) == 0
    ensures MaxFrom(lens, l) == max
  {
    if l > max {
      MaxLenIs(lens, l - 1, max);
    }
  }

  /** The fixed codes are complete, with lengths up to 9 and 5. */
  lemma {:induction false} FixedLensFacts()
    ensures var L := Rfc.FixedLens(); LensOK(L) && Kraft(L) == FULL && MaxLen(L) == 9
  {
    hide Count, Base, Rfc.FixedLens, LensOK, Pow2;
    var L := Rfc.FixedLens();
    forall l: nat ensures Count(L, l) == if l == 7 then 24 else if l == 8 then 152 else if l == 9 then 112 else 0 {
      FixedLensCount(l);
    }
    assert Base(L, 7) == 0 by { FlatBase(L, 1, 7); FirstBase(L); }
    assert Base(L, 8) == 6144 by { Pow2Values(); Widen(L, 7, 24, 256); }
    assert Base(L, 9) == 25600 by { Pow2Values(); Widen(L, 8, 152, 128); }
    assert Base(L, 10) == FULL by { Pow2Values(); Widen(L, 9, 112, 64); }
    assert Kraft(L) == FULL by { FlatBase(L, 10, 16); }
    MaxLenIs(L, 15, 9);
    assert LensOK(L) by { FixedLensOK(); }
  }

  lemma {:induction false} Widen(lens: seq<nat>, l: nat, n: nat, w: nat)
    requires 1 <= l < 16 && Count(lens, l) == n && w == Pow2(15 - l)
    ensures Base(lens, l + 1) == Base(lens, l) + n * w
  {
    hide Count, Base;
    BaseStep(lens, l);
  }

  lemma {:induction false} FirstBase(lens: seq<nat>)
    ensures Base(lens, 1) == 0
  {
  }

  lemma {:induction false} FixedLensOK()
    ensures LensOK(Rfc.FixedLens())
  {
  }

  lemma {:induction false} FixedDistsOK()
    ensures LensOK(Rfc.FixedDists())
  {
  }

  lemma {:induction false} FixedDistsFacts()
    ensures var L := Rfc.FixedDists(); LensOK(L) && Kraft(L) == FULL && MaxLen(L) == 5
  {
    hide Count, Base, LensOK, Pow2, Rfc.Repeat;
    var L := Rfc.FixedDists();
    forall l: nat ensures Count(L, l) == if l == 5 then 32 else 0 {
      CountRepeat(5, 32, l);
    }
    assert Base(L, 5) == 0 by { FlatBase(L, 1, 5); FirstBase(L); }
    assert Base(L, 6) == FULL by { Pow2Values(); Widen(L, 5, 32, 1024); }
    assert Kraft(L) == FULL by { FlatBase(L, 6, 16); }
    MaxLenIs(L, 15, 5);
    assert LensOK(L) by { FixedDistsOK(); }
  }

  /** A built table for a complete code decodes it. */
  lemma {:induction false} BuiltDecodes(kind: Kind, t: seq<Entry>, root: nat, lens: seq<nat>)
    requires TableOK(t, root, Senses(kind), lens) && Acceptable(kind, lens)
    ensures Decodes(t, root, Senses(kind), lens)
  {
    hide Kraft, WordOK;
    SensesNoLinks(kind);
    if AllZero(lens) {
      MaxFacts(lens);
      NoCodeFacts(lens);
    }
  }

  lemma {:induction false} FixedLensBuild()
    ensures var L := Rfc.FixedLens();
            && LensOK(L) && |L| == 288 && RootBits(L, 9) == 9 && HasRoom(Lens, 512, L, 9)
            && Acceptable(Lens, L) && !TooBig(Lens, TableSize(L, 9))
  {
    hide Kraft, TableSize;
    FixedLensFacts();
    Pow2Values();
    RootSize(Rfc.FixedLens(), 9);
  }

  lemma {:induction false} FixedDistsBuild()
    ensures var L := Rfc.FixedDists();
            && LensOK(L) && |L| == 32 && RootBits(L, 5) == 5 && HasRoom(Dists, 32, L, 5)
            && Acceptable(Dists, L) && !TooBig(Dists, TableSize(L, 5))
  {
    hide Kraft, TableSize;
    FixedDistsFacts();
    Pow2Values();
    RootSize(Rfc.FixedDists(), 5);
  }

  /** A run of equal lengths. */
  method FillLens(lens: array<nat>, from: nat, to: nat, v: nat)
    requires from <= to <= lens.Length
    modifies lens
    ensures lens[..] == old(lens[..from]) + Rfc.Repeat(v, to - from) + old(lens[to..])
  {
    var sym := from;
    while sym < to
      invariant from <= sym <= to
      invariant forall i :: 0 <= i < lens.Length ==> lens[i] == if from <= i < sym then v else old(lens[i])
    {
      lens[sym] := v;
      sym := sym + 1;
    }
  }

  method BuildLenFix(lens: array<nat>, work: array<nat>, lenfix: array<Entry>)
    requires lens.Length == 320 && work.Length == 288 && lens != work && lenfix.Length == 512
    modifies lens, work, lenfix
    ensures Decodes(lenfix[..], 9, Senses(Lens), Rfc.FixedLens())
  {
    hide Decodes, TableOK, Acceptable, LensOK, Rfc.Repeat, TableSize, Kraft, HasRoom, RootBits;
    FillLens(lens, 0, 144, 8);
    FillLens(lens, 144, 256, 9);
    FillLens(lens, 256, 280, 7);
    FillLens(lens, 280, 288, 8);
    assert lens[0..0 + 288] == Rfc.FixedLens();
    FixedLensBuild();
    var ret, root := Build(Lens, lens, 0, 288, lenfix, work, 9);
    BuiltDecodes(Lens, lenfix[..], 9, Rfc.FixedLens());
  }

  method BuildDistFix(lens: array<nat>, work: array<nat>, distfix: array<Entry>)
    requires lens.Length == 320 && work.Length == 288 && lens != work && distfix.Length == 32
    modifies lens, work, distfix
    ensures Decodes(distfix[..], 5, Senses(Dists), Rfc.FixedDists())
  {
    hide Decodes, TableOK, Acceptable, LensOK, Rfc.Repeat, TableSize, Kraft, HasRoom, RootBits;
    FillLens(lens, 0, 32, 5);
    assert lens[0..0 + 32] == Rfc.FixedDists();
    FixedDistsBuild();
    var ret, root := Build(Dists, lens, 0, 32, distfix, work, 5);
    BuiltDecodes(Dists, distfix[..], 5, Rfc.FixedDists());
  }

  /** `fixedtables`: builds the tables of the fixed codes when they are needed for the first time. */
  method UseFixed(s: Stream)
    requires s.ArraysOK() && FixedOK(s.F())
    modifies s`virgin, s`lencode, s`lenbits, s`distcode, s`distbits, s`litLens, s`distLens, s.lens, s.work, s.lenfix,
        s.distfix
    ensures s.ArraysOK() && FixedOK(s.F()) && s.lens.Length == 320
    ensures s.litLens == Rfc.FixedLens() && Decodes(s.lencode[..], s.lenbits, Senses(Lens), s.litLens)
    ensures s.distLens == Rfc.FixedDists() && Decodes(s.distcode[..], s.distbits, Senses(Dists), s.distLens)
  {
    hide Decodes, Rfc.FixedLens, Rfc.FixedDists, Senses;
    if s.virgin {
      BuildLenFix(s.lens, s.work, s.lenfix);
      BuildDistFix(s.lens, s.work, s.distfix);
      s.virgin := false;
    }
    s.lencode := s.lenfix;
    s.lenbits := 9;
    s.distcode := s.distfix;
    s.distbits := 5;
    s.litLens, s.distLens := Rfc.FixedLens(), Rfc.FixedDists();
  }
}
