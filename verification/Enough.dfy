/** Why the fixed table sizes are enough: 852 entries for any complete code of at most 286 symbols
    with 9 root bits, 592 for 30 symbols with 6 root bits.

    A sub-table of 2^b entries holds at least b + 1 codes.  Since code lengths never decrease along
    the walk, the entries that sub-tables hold beyond one per code add up to less than `Waste(15)`.
 */
module Enough {
  import opened Bits
  import opened Huffman
  import opened CodeTables
  import opened SortedSymbols
  import opened CodeLengths
  import opened TableWalk
  import opened InflateTable

  // ----- a sorted list of symbols exists -----

  lemma {:induction false} RankedPrefix(lens: seq<nat>, n: nat) returns (w: seq<nat>)
    requires LensOK(lens) && n <= Total(lens)
    ensures |w| == n
    ensures forall k :: 0 <= k < n ==> w[k] < |lens| && lens[w[k]] >= 1 && Rank(lens, w[k]) == k
  {
    if n == 0 {
      w := [];
    } else {
      w := RankedPrefix(lens, n - 1);
      var l := LengthAt(lens, n - 1, 16);
      var s := NthOf(lens, l, n - 1 - Off(lens, l));
      w := w + [s];
    }
  }

  lemma {:induction false} SortedExists(lens: seq<nat>) returns (work: seq<nat>)
    requires LensOK(lens)
    ensures IsSorted(lens, work)
  {
    work := RankedPrefix(lens, Total(lens));
    forall s | 0 <= s < |lens| && lens[s] >= 1
      ensures Rank(lens, s) < Total(lens) && work[Rank(lens, s)] == s
    {
      RankBound(lens, s);
      var t := work[Rank(lens, s)];
      if t < s {
        RankInjective(lens, t, s);
      } else if s < t {
        RankInjective(lens, s, t);
      }
    }
  }

  // ----- positions along the walk -----

  /** A complete code, with its symbols in order. */
  ghost predicate Complete(lens: seq<nat>, work: seq<nat>) {
    LensOK(lens) && IsSorted(lens, work) && Kraft(lens) == FULL && Total(lens) > 0
  }

  /** Where the k-th code starts; the end of the code space after the last one. */
  function Pos(lens: seq<nat>, work: seq<nat>, k: nat): nat
    requires LensOK(lens) && IsSorted(lens, work) && k <= Total(lens)
  {
    if k < Total(lens) then Start(lens, work[k]) else FULL
  }

  function LenAt(lens: seq<nat>, work: seq<nat>, k: nat): nat
    requires IsSorted(lens, work) && k < Total(lens)
  {
    lens[work[k]]
  }

  lemma {:induction false} PosStep(lens: seq<nat>, work: seq<nat>, k: nat)
    requires Complete(lens, work) && k < Total(lens)
    ensures 1 <= LenAt(lens, work, k) <= 15
    ensures Pos(lens, work, k + 1) == Pos(lens, work, k) + Width(LenAt(lens, work, k))
    ensures k + 1 < Total(lens) ==> LenAt(lens, work, k) <= LenAt(lens, work, k + 1)
  {
    hide Start, Width, Rank, Total;
    if k + 1 < Total(lens) {
      NextStart(lens, work, k);
    } else {
      LastStart(lens, work);
    }
  }

  /** 2^b - b: the entries that a sub-table can hold beyond its codes, plus one. */
  function Waste(root: nat, l: nat): nat
    requires root <= l
  {
    ExpBound(l - root);
    Pow2(l - root) - (l - root)
  }

  lemma {:induction false} ExpBound(d: nat)
    ensures d + 1 <= Pow2(d)
  {
    if d > 0 {
      ExpBound(d - 1);
    }
  }

  lemma {:induction false} WasteMono(root: nat, a: nat, b: nat)
    requires root <= a <= b
    ensures Waste(root, a) <= Waste(root, b)
  {
    if a < b {
      WasteMono(root, a, b - 1);
      Pow2Mono(0, b - 1 - root);
    }
  }

  lemma {:induction false} ScaleGrows(y: nat, d: nat)
    requires y >= 1
    ensures y + d <= Scale(y, d)
  {
    if d > 0 {
      ScaleGrows(y, d - 1);
    }
  }

  /** Counting the codes of a slot: from the k-th code, of length a, at least y + (l - a) codes remain
      before e, where y is the room up to e in codes of length a and l the length the slot needs. */
  lemma {:induction false} CodesInSlot(lens: seq<nat>, work: seq<nat>, root: nat, k: nat, e: nat, y: nat)
    returns (k': nat)
    requires Complete(lens, work) && k < Total(lens) && 1 <= root < LenAt(lens, work, k)
    requires y >= 1 && Pos(lens, work, k) + Scale(y, 15 - LenAt(lens, work, k)) == e <= FULL
    ensures k < k' <= Total(lens) && Pos(lens, work, k') == e
    ensures var a := LenAt(lens, work, k); var l := SubLen(lens, e, root + 1);
            a <= l && y + (l - a) <= k' - k
    decreases Total(lens) - k
  {
    hide Start, Base, SubLen, Kraft, Total, Rank, Pow2, Scale, Codeword;
    var a, l := LenAt(lens, work, k), SubLen(lens, e, root + 1);
    ScaleOne(15 - a);
    ScaleAdd(y - 1, 1, 15 - a);
    PosStep(lens, work, k);
    assert a <= l by {
      ScaleStrict(0, y, 15 - a);
      SlotFits(lens, work[k], e, root + 1);
    }
    if y == 1 {
      ScaleZero(15 - a);
      k' := k + 1;
      StartBound(lens, work[k]);
      ShortEnough(lens, e, root + 1, a);
    } else {
      ScaleStrict(0, y - 1, 15 - a);
      var a' := LenAt(lens, work, k + 1);
      var y' := Scale(y - 1, a' - a);
      ScaleScale(y - 1, a' - a, 15 - a');
      ScaleGrows(y - 1, a' - a);
      k' := CodesInSlot(lens, work, root, k + 1, e, y');
    }
  }

  lemma {:induction false} ShortEnough(lens: seq<nat>, e: nat, l: nat, a: nat)
    requires l <= a <= 15 && e <= Base(lens, a + 1)
    ensures SubLen(lens, e, l) <= a
    decreases 15 - l
  {
    if l < a && Base(lens, l + 1) < e {
      ShortEnough(lens, e, l + 1, a);
    }
  }

  lemma {:induction false} LongerAfter(lens: seq<nat>, e: nat, l: nat, s: nat)
    requires LensOK(lens) && s < |lens| && 1 <= l <= lens[s] && Start(lens, s) == e
    ensures SubLen(lens, e, l) <= lens[s]
  {
    StartBound(lens, s);
    ShortEnough(lens, e, l, lens[s]);
  }

  lemma {:induction false} LenMono(lens: seq<nat>, work: seq<nat>, j: nat, k: nat)
    requires Complete(lens, work) && j <= k < Total(lens)
    ensures LenAt(lens, work, j) <= LenAt(lens, work, k)
    decreases k - j
  {
    if j < k {
      PosStep(lens, work, j);
      LenMono(lens, work, j + 1, k);
    }
  }

  lemma {:induction false} SlotInRange(root: nat, q: nat)
    requires root <= 15
    ensures Scale(q, 15 - root) + Width(root) == Scale(q + 1, 15 - root)
    ensures q < Pow2(root) <==> Scale(q + 1, 15 - root) <= FULL
    ensures q < Pow2(root) <==> Scale(q, 15 - root) < FULL
  {
    hide Scale, Pow2;
    ScaleAdd(q, 1, 15 - root);
    ScaleOne(15 - root);
    Pow2Add(root, 15 - root);
    Pow2Values();
    if q < Pow2(root) {
      ScaleMono(q + 1, Pow2(root), 15 - root);
    } else {
      ScaleMono(Pow2(root), q, 15 - root);
    }
  }

  /** One slot: its sub-table has at most one entry per code, plus what the waste grows by. */
  lemma {:induction false} SlotBound(lens: seq<nat>, work: seq<nat>, root: nat, k: nat) returns (k': nat)
    requires Complete(lens, work) && k < Total(lens) && 1 <= root < LenAt(lens, work, k) <= 15
    requires Pos(lens, work, k) + Width(root) <= FULL
    ensures var e := Pos(lens, work, k) + Width(root);
            && k < k' <= Total(lens) && Pos(lens, work, k') == e
            && var l := SubLen(lens, e, root + 1);
               Pow2(l - root) + Waste(root, LenAt(lens, work, k)) <= k' - k + Waste(root, l)
  {
    hide Pos, Start, Base, SubLen, Kraft, Total, Rank;
    var a := LenAt(lens, work, k);
    Pow2Add(a - root, 15 - a);
    k' := CodesInSlot(lens, work, root, k, Pos(lens, work, k) + Width(root), Pow2(a - root));
  }

  /** The sub-tables from the k-th code on take no more than one entry per code plus the waste. */
  lemma {:induction false} SpaceBound(lens: seq<nat>, work: seq<nat>, root: nat, k: nat, q: nat)
    requires Complete(lens, work) && k < Total(lens) && 1 <= root < LenAt(lens, work, k) <= 15
    requires Pos(lens, work, k) == Scale(q, 15 - root) && q < Pow2(root)
    ensures Space(lens, root, Pos(lens, work, k)) + Waste(root, LenAt(lens, work, k))
            <= Total(lens) - k + Waste(root, 15)
    decreases Total(lens) - k
  {
    hide Start, Base, SubLen, Kraft, Total, Rank, Waste, Scale, Pow2;
    SlotInRange(root, q);
    var k' := SlotBound(lens, work, root, k);
    var e := Pos(lens, work, k');
    var l := SubLen(lens, e, root + 1);
    WasteMono(root, l, 15);
    SlotInRange(root, q + 1);
    if k' < Total(lens) {
      PosStep(lens, work, k');
      LenMono(lens, work, k, k');
      StartBound(lens, work[k']);
      LongerAfter(lens, e, root + 1, work[k']);
      SpaceBound(lens, work, root, k', q + 1);
      WasteMono(root, l, LenAt(lens, work, k'));
    }
  }

  // ----- the bounds -----

  /** Every sub-table has an even number of entries. */
  lemma {:induction false} SpaceEven(lens: seq<nat>, root: nat, p: nat)
    requires root < 15
    ensures Space(lens, root, p) % 2 == 0
    decreases FULL - p
  {
    if p + Width(root) <= FULL {
      SpaceEven(lens, root, p + Width(root));
      var b := SubLen(lens, p + Width(root), root + 1) - root;
      assert Pow2(b) == Twice(Pow2(b - 1));
    }
  }

  /** From the k-th code on, all codes together are no wider than as many codes of its length. */
  lemma {:induction false} RestBound(lens: seq<nat>, work: seq<nat>, k: nat)
    requires Complete(lens, work) && k < Total(lens) && LenAt(lens, work, k) <= 15
    ensures FULL - Pos(lens, work, k) <= (Total(lens) - k) * Width(LenAt(lens, work, k))
    decreases Total(lens) - k
  {
    hide Start, Base, Kraft, Total, Rank, Width;
    PosStep(lens, work, k);
    var w := Width(LenAt(lens, work, k));
    if k + 1 < Total(lens) {
      PosStep(lens, work, k + 1);
      RestBound(lens, work, k + 1);
      WidthMono(LenAt(lens, work, k), LenAt(lens, work, k + 1));
      MulMonoR(Total(lens) - k - 1, Width(LenAt(lens, work, k + 1)), w);
    }
    MulNext(Total(lens) - k - 1, w);
  }

  lemma {:induction false} WidthMono(a: nat, b: nat)
    requires a <= b <= 15
    ensures Width(b) <= Width(a)
  {
    Pow2Mono(15 - b, 15 - a);
  }

  lemma {:induction false} MulMonoR(n: nat, a: nat, b: nat)
    requires a <= b
    ensures n * a <= n * b
  {
  }

  lemma {:induction false} MulNext(n: nat, w: nat)
    ensures (n + 1) * w == n * w + w
  {
  }

  /** The first code that is longer than the root index, if there is one. */
  lemma {:induction false} FirstLongCode(lens: seq<nat>, work: seq<nat>, root: nat, k: nat) returns (k0: nat)
    requires Complete(lens, work) && k <= Total(lens)
    requires forall j :: 0 <= j < k ==> LenAt(lens, work, j) <= root
    ensures k <= k0 <= Total(lens)
    ensures forall j :: 0 <= j < k0 ==> LenAt(lens, work, j) <= root
    ensures k0 < Total(lens) ==> root < LenAt(lens, work, k0)
    decreases Total(lens) - k
  {
    if k == Total(lens) || root < LenAt(lens, work, k) {
      k0 := k;
    } else {
      k0 := FirstLongCode(lens, work, root, k + 1);
    }
  }

  /** Without long codes the root table is all there is. */
  lemma {:induction false} RootOnly(lens: seq<nat>, work: seq<nat>, root: nat)
    requires Complete(lens, work) && root <= 15
    requires forall j :: 0 <= j < Total(lens) ==> LenAt(lens, work, j) <= root
    ensures TableSize(lens, root) == Pow2(root)
  {
    hide Start, Base, Total, Rank, Pow2;
    if root < 15 {
      var s := work[Total(lens) - 1];
      PosStep(lens, work, Total(lens) - 1);
      StartBound(lens, s);
      BaseMono(lens, lens[s] + 1, root + 1);
      BaseMono(lens, root + 1, 16);
    }
  }

  /** With long codes from the k0-th on: one entry per long code, plus the waste. */
  lemma {:induction false} SizeBound(lens: seq<nat>, work: seq<nat>, root: nat, k0: nat)
    requires Complete(lens, work) && 1 <= root && 1 <= k0 < Total(lens)
    requires LenAt(lens, work, k0 - 1) <= root < LenAt(lens, work, k0)
    ensures root < 15 && TableSize(lens, root) + 1 <= Pow2(root) + Total(lens) - k0 + Waste(root, 15)
    ensures TableSize(lens, root) % 2 == 0
  {
    hide Start, Base, Total, Rank, SubLen, Scale, Space, Kraft, Waste, Codeword;
    var s, s' := work[k0 - 1], work[k0];
    PosStep(lens, work, k0 - 1);
    PosStep(lens, work, k0);
    FirstLong(root, lens, s, s');
    SlotBits(lens, work, root, k0);
    var q := MVal(Codeword(lens, s')[..root]);
    SpaceBound(lens, work, root, k0, q);
    WasteAtLeast(root, LenAt(lens, work, k0));
    SpaceEven(lens, root, Pos(lens, work, k0));
    assert Pow2(root) == Twice(Pow2(root - 1));
  }

  lemma {:induction false} SlotBits(lens: seq<nat>, work: seq<nat>, root: nat, k: nat)
    requires Complete(lens, work) && k < Total(lens) && root < LenAt(lens, work, k)
    ensures MVal(Codeword(lens, work[k])[..root]) < Pow2(root)
  {
    var c := Codeword(lens, work[k]);
    assert |c[..root]| == root;
  }

  lemma {:induction false} WasteAtLeast(root: nat, l: nat)
    requires root <= l
    ensures Waste(root, l) >= 1
  {
    ExpBound(l - root);
  }

  /** The code space that the first k codes leave, against what the others can cover. */
  lemma {:induction false} Cover(lens: seq<nat>, work: seq<nat>, k: nat, root: nat)
    requires Complete(lens, work) && k < Total(lens) && root < LenAt(lens, work, k) <= 15
    ensures FULL - Pos(lens, work, k) <= (Total(lens) - k) * Width(root + 1)
  {
    hide Start, Base, Kraft, Total, Rank, Width, Pos;
    RestBound(lens, work, k);
    WidthMono(root + 1, LenAt(lens, work, k));
    MulMonoR(Total(lens) - k, Width(LenAt(lens, work, k)), Width(root + 1));
  }

  /** How much of the code space the first codes can take. */
  lemma {:induction false} FirstWidths(lens: seq<nat>, work: seq<nat>)
    requires Complete(lens, work)
    ensures Pos(lens, work, 0) == 0
    ensures Pos(lens, work, 1) <= 16384
    ensures Total(lens) >= 3 ==> Pos(lens, work, 2) <= 24576
  {
    hide Start, Base, Kraft, Rank, Total;
    FirstStart(lens, work);
    PosStep(lens, work, 0);
    Pow2Values();
    WidthMono(1, LenAt(lens, work, 0));
    if Total(lens) >= 3 {
      PosStep(lens, work, 1);
      StartBound(lens, work[2]);
      if LenAt(lens, work, 1) >= 2 {
        WidthMono(2, LenAt(lens, work, 1));
      }
    }
  }

  lemma {:induction false} RootChoice(lens: seq<nat>, work: seq<nat>, bits: nat)
    requires Complete(lens, work) && 1 <= bits
    ensures var root := RootBits(lens, bits);
            && 1 <= root <= 15 && LenAt(lens, work, 0) <= root
            && (root <= bits || root == LenAt(lens, work, 0))
            && (root < bits ==> forall j :: 0 <= j < Total(lens) ==> LenAt(lens, work, j) <= root)
  {
    MaxFacts(lens);
    LenBounds(lens, work[0]);
    FirstIsShortest(lens, work, bits);
    forall j | 0 <= j < Total(lens) ensures 1 <= LenAt(lens, work, j) <= MaxLen(lens) {
      LenBounds(lens, work[j]);
    }
  }

  /** 852 entries are enough for a complete literal/length code of at most 286 symbols. */
  lemma {:induction false} EnoughForLens(lens: seq<nat>)
    requires LensOK(lens) && Kraft(lens) == FULL && |lens| <= 286
    ensures TableSize(lens, RootBits(lens, 9)) <= 852 == ENOUGH_LENS
  {
    hide Start, Base, Rank, SubLen, Scale, Space, Count, RootBits, Kraft;
    var work, root, k0 := Arrange(lens, 9);
    Pow2Values();
    if root > 9 {
      Pow2Mono(15 - root, 5);
      RestBound(lens, work, 0);
      FirstWidths(lens, work);
      MulMonoR(Total(lens), Width(LenAt(lens, work, 0)), 32);
    } else if k0 == Total(lens) {
      RootOnly(lens, work, root);
      Pow2Mono(root, 9);
    } else {
      SizeBound(lens, work, 9, k0);
      Cover(lens, work, k0, 9);
      FirstWidths(lens, work);
    }
  }

  /** The symbols in order, the root index, and where the long codes start. */
  lemma {:induction false} Arrange(lens: seq<nat>, bits: nat) returns (work: seq<nat>, root: nat, k0: nat)
    requires LensOK(lens) && Kraft(lens) == FULL && 1 <= bits <= 15
    ensures Complete(lens, work) && Total(lens) <= |lens| && root == RootBits(lens, bits)
    ensures 1 <= root <= 15 && k0 <= Total(lens)
    ensures root > bits ==> LenAt(lens, work, 0) == root
    ensures root <= bits && k0 < Total(lens) ==>
              root == bits && k0 >= 1 && LenAt(lens, work, k0 - 1) <= root < LenAt(lens, work, k0) <= 15
    ensures root <= bits && k0 == Total(lens) ==> forall j :: 0 <= j < Total(lens) ==> LenAt(lens, work, j) <= root
  {
    work := SortedExists(lens);
    TotalBound(lens);
    MaxFacts(lens);
    if MaxLen(lens) == 0 {
      NoCodeFacts(lens);
    }
    RootChoice(lens, work, bits);
    root := RootBits(lens, bits);
    k0 := FirstLongCode(lens, work, root, 0);
    if k0 < Total(lens) {
      PosStep(lens, work, k0);
    }
  }

  /** 592 entries are enough for a complete distance code of at most 30 symbols. */
  lemma {:induction false} EnoughForDists(lens: seq<nat>)
    requires LensOK(lens) && Kraft(lens) == FULL && |lens| <= 30
    ensures TableSize(lens, RootBits(lens, 6)) <= 592 == ENOUGH_DISTS
  {
    hide Start, Base, Rank, SubLen, Scale, Space, Count, RootBits, Kraft;
    var work, root, k0 := Arrange(lens, 6);
    Pow2Values();
    if root > 6 {
      Pow2Mono(15 - root, 8);
      RestBound(lens, work, 0);
      FirstWidths(lens, work);
      MulMonoR(Total(lens), Width(LenAt(lens, work, 0)), 256);
    } else if k0 == Total(lens) {
      RootOnly(lens, work, root);
      Pow2Mono(root, 6);
    } else {
      SizeBound(lens, work, 6, k0);
      Cover(lens, work, k0, 6);
      FirstWidths(lens, work);
    }
  }
}
