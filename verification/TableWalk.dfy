/** The walk of `inflate_table` along the code space: where codes, slots and sub-tables begin.

    A slot is the stretch of positions that share one root index.
 */
module TableWalk {
  import opened Bits
  import opened Huffman
  import opened CodeTables

  lemma {:induction false} ScaleInjective(a: nat, b: nat, k: nat)
    requires Scale(a, k) == Scale(b, k)
    ensures a == b
  {
    if a < b {
      ScaleStrict(a, b, k);
    } else if b < a {
      ScaleStrict(b, a, k);
    }
  }

  function PosOf(c: seq<bool>): nat
    requires |c| <= 15
  {
    Scale(MVal(c), 15 - |c|)
  }

  function SlotStart(c: seq<bool>, root: nat): nat
    requires root <= |c| && root <= 15
  {
    Scale(MVal(c[..root]), 15 - root)
  }

  function SlotEnd(c: seq<bool>, root: nat): nat
    requires root <= |c| && root <= 15
  {
    SlotStart(c, root) + Width(root)
  }

  lemma {:induction false} StartIsPos(lens: seq<nat>, s: nat)
    requires LensOK(lens) && s < |lens| && lens[s] >= 1 && Kraft(lens) <= FULL
    ensures Start(lens, s) == PosOf(Codeword(lens, s))
  {
    CodeFits(lens, s);
    CodeIsStart(lens, s);
  }

  lemma {:induction false} PosNext(c: seq<bool>)
    requires |c| <= 15
    ensures Scale(MVal(c) + 1, 15 - |c|) == PosOf(c) + Width(|c|)
  {
    hide Scale, Pow2, MVal;
    ScaleAdd(MVal(c), 1, 15 - |c|);
    ScaleOne(15 - |c|);
  }

  lemma {:induction false} ZerosAfterVal(d: seq<bool>, k: nat)
    ensures MVal(d + Zeros(k)) == Scale(MVal(d), k)
    ensures LVal(d + Zeros(k)) == LVal(d)
  {
    var z := Zeros(k);
    ZerosVal(k);
    MValConcat(d, z);
    LValConcat(d, z);
    ScaleZero(|d|);
  }

  /** Two codes at one position differ only in trailing zeros. */
  lemma {:induction false} SamePos(d: seq<bool>, e: seq<bool>)
    requires |d| <= |e| <= 15 && PosOf(d) == PosOf(e)
    ensures LVal(e) == LVal(d)
  {
    hide Scale, MVal, LVal, Pow2;
    var k := |e| - |d|;
    ScaleScale(MVal(d), k, 15 - |e|);
    ScaleInjective(MVal(e), Scale(MVal(d), k), 15 - |e|);
    ZerosAfterVal(d, k);
    MValInjective(e, d + Zeros(k));
  }

  /** The next code, on as many or more bits, is the successor followed by zeros. */
  lemma {:induction false} NextCodeword(lens: seq<nat>, s: nat, t: nat, d: seq<bool>)
    requires LensOK(lens) && s < |lens| && t < |lens| && Kraft(lens) <= FULL
    requires 1 <= lens[s] <= lens[t] && Start(lens, t) == Start(lens, s) + Width(lens[s])
    requires |d| == lens[s] && MVal(d) == MVal(Codeword(lens, s)) + 1
    ensures LVal(Codeword(lens, t)) == LVal(d)
  {
    hide Scale, MVal, LVal, Start, Codeword, Pow2;
    StartIsPos(lens, s);
    StartIsPos(lens, t);
    PosNext(Codeword(lens, s));
    SamePos(d, Codeword(lens, t));
  }

  lemma {:induction false} SuccessorExists(lens: seq<nat>, s: nat)
    requires LensOK(lens) && s < |lens| && lens[s] >= 1 && Kraft(lens) <= FULL
    ensures Start(lens, s) + Width(lens[s]) < FULL ==> MVal(Codeword(lens, s)) + 1 < Pow2(lens[s])
    ensures Start(lens, s) + Width(lens[s]) == FULL ==> MVal(Codeword(lens, s)) + 1 == Pow2(lens[s])
  {
    hide Scale, MVal, Start, Codeword, Kraft, Pow2;
    StartIsPos(lens, s);
    CodewordBits(lens, s);
    LastPlace(MVal(Codeword(lens, s)), lens[s]);
  }

  lemma {:induction false} CodewordBits(lens: seq<nat>, s: nat)
    requires s < |lens|
    ensures |Codeword(lens, s)| == lens[s] && MVal(Codeword(lens, s)) < Pow2(lens[s])
  {
  }

  /** A number of l bits that fills the space is the last one. */
  lemma {:induction false} LastPlace(v: nat, l: nat)
    requires 1 <= l <= 15 && v < Pow2(l)
    ensures Scale(v, 15 - l) + Pow2(15 - l) < FULL ==> v + 1 < Pow2(l)
    ensures Scale(v, 15 - l) + Pow2(15 - l) == FULL ==> v + 1 == Pow2(l)
  {
    hide Scale, Pow2;
    var k := 15 - l;
    ScaleAdd(v, 1, k);
    ScaleOne(k);
    Pow2Add(l, k);
    Pow2Values();
    if v + 1 < Pow2(l) {
      ScaleStrict(v + 1, Pow2(l), k);
    }
  }

  lemma {:induction false} InSlot(c: seq<bool>, root: nat)
    requires root <= |c| <= 15
    ensures SlotStart(c, root) <= PosOf(c) && PosOf(c) + Width(|c|) <= SlotEnd(c, root)
  {
    var h, r := c[..root], c[root..];
    assert c == h + r;
    MValConcat(h, r);
    var k := 15 - |c|;
    ScaleScale(MVal(h), |r|, k);
    ScaleAdd(Scale(MVal(h), |r|), MVal(r), k);
    ScaleStrict(MVal(r), Pow2(|r|), k);
    Pow2Add(|r|, k);
  }

  /** A multiple of the slot width that lies in a slot is where the slot starts. */
  lemma {:induction false} AlignedInSlot(u: nat, h: nat, k: nat)
    requires Scale(h, k) <= Scale(u, k) < Scale(h, k) + Pow2(k)
    ensures u == h
  {
    if u < h {
      ScaleStrict(u, h, k);
    } else if h < u {
      ScaleStrict(h, u, k);
    }
  }

  /** A code that follows one of at most `root` bits opens its slot. */
  lemma {:induction false} SlotAfterShort(c: seq<bool>, d: seq<bool>, root: nat)
    requires |c| <= root <= |d| <= 15 && PosOf(d) == PosOf(c) + Width(|c|)
    ensures PosOf(d) == SlotStart(d, root)
  {
    hide Scale, MVal, Pow2;
    var u := Scale(MVal(c) + 1, root - |c|);
    assert PosOf(d) == Scale(u, 15 - root) by {
      PosNext(c);
      ScaleScale(MVal(c) + 1, root - |c|, 15 - root);
    }
    InSlot(d, root);
    AlignedInSlot(u, MVal(d[..root]), 15 - root);
  }

  /** A code that follows one of another slot opens its slot. */
  lemma {:induction false} SlotAfterSlot(c: seq<bool>, d: seq<bool>, root: nat)
    requires root <= |c| <= |d| <= 15 && PosOf(d) == PosOf(c) + Width(|c|)
    requires c[..root] != d[..root]
    ensures PosOf(d) == SlotStart(d, root) == SlotEnd(c, root)
  {
    hide Scale, MVal, Pow2;
    InSlot(c, root);
    InSlot(d, root);
    var hc, hd, k := MVal(c[..root]), MVal(d[..root]), 15 - root;
    if hd < hc {
      ScaleStrict(hd, hc, k);
    } else if hd == hc {
      MValInjective(d[..root], c[..root]);
    } else {
      ScaleStrict(hc, hd, k);
    }
  }

  /** Codes in a slot are no longer than the sub-table of the slot allows. */
  lemma {:induction false} SlotFits(lens: seq<nat>, s: nat, e: nat, l: nat)
    requires LensOK(lens) && s < |lens| && lens[s] >= 1 && 1 <= l <= 15
    requires Start(lens, s) < e
    ensures lens[s] <= SubLen(lens, e, l) || lens[s] < l
  {
    SubLenIs(lens, e, l);
    var r := SubLen(lens, e, l);
    if lens[s] > r {
      BaseMono(lens, r + 1, lens[s]);
    }
  }

  lemma {:induction false} SubLenIs(lens: seq<nat>, e: nat, l: nat)
    requires l <= 15
    ensures var r := SubLen(lens, e, l); r == 15 || e <= Base(lens, r + 1)
    decreases 15 - l
  {
    if l < 15 && Base(lens, l + 1) < e {
      SubLenIs(lens, e, l + 1);
    }
  }

  lemma {:induction false} SubLenReached(lens: seq<nat>, e: nat, l: nat, r: nat)
    requires l <= r <= 15
    requires l < r ==> Base(lens, r) < e
    requires r == 15 || e <= Base(lens, r + 1)
    ensures SubLen(lens, e, l) == r
    decreases r - l
  {
    if l < r {
      BaseMono(lens, l + 1, r);
      SubLenReached(lens, e, l + 1, r);
    }
  }
}
