/** The first half of `inflate_table`: counting code lengths, checking them, sorting the symbols. */
module CodeLengths {
  import opened Bits
  import opened Huffman
  import opened CodeTables
  import opened SortedSymbols

  // ----- lengths -----

  function MaxFrom(lens: seq<nat>, l: nat): (r: nat)
    ensures r <= l
  {
    if l == 0 || Count(lens, l) != 0 then l else MaxFrom(lens, l - 1)
  }

  /** The longest code length in use, or 0. */
  function MaxLen(lens: seq<nat>): nat {
    MaxFrom(lens, 15)
  }

  function MinFrom(lens: seq<nat>, l: nat, max: nat): (r: nat)
    requires l <= max
    ensures l <= r <= max
    decreases max - l
  {
    if l == max || Count(lens, l) != 0 then l else MinFrom(lens, l + 1, max)
  }

  /** The number of index bits of the root table: as requested, but within the code lengths. */
  function RootBits(lens: seq<nat>, bits: nat): (r: nat)
    requires 1 <= bits
    ensures 1 <= r
  {
    var max := MaxLen(lens);
    if max == 0 then 1
    else
      var r := if bits > max then max else bits;
      var min := MinFrom(lens, 1, max);
      if r < min then min else r
  }

  lemma {:induction false} MaxFromIs(lens: seq<nat>, l: nat)
    ensures var r := MaxFrom(lens, l);
            (forall j :: r < j <= l ==> Count(lens, j) == 0) && (r > 0 ==> Count(lens, r) != 0)
  {
    if l > 0 && Count(lens, l) == 0 {
      MaxFromIs(lens, l - 1);
    }
  }

  lemma {:induction false} MinFromIs(lens: seq<nat>, l: nat, max: nat)
    requires l <= max
    ensures var r := MinFrom(lens, l, max);
            (forall j :: l <= j < r ==> Count(lens, j) == 0) && (r < max ==> Count(lens, r) != 0)
    decreases max - l
  {
    if l < max && Count(lens, l) == 0 {
      MinFromIs(lens, l + 1, max);
    }
  }

  lemma {:induction false} LenBounds(lens: seq<nat>, s: nat)
    requires LensOK(lens) && s < |lens| && lens[s] >= 1
    ensures 1 <= lens[s] <= MaxLen(lens) && MinFrom(lens, 1, MaxLen(lens)) <= lens[s]
  {
    CountRest(lens, s, lens[s]);
    MaxFromIs(lens, 15);
    MinFromIs(lens, 1, MaxLen(lens));
  }

  lemma {:induction false} OffFlat(lens: seq<nat>, a: nat, b: nat)
    requires 1 <= a <= b
    requires forall j :: a <= j < b ==> Count(lens, j) == 0
    ensures Off(lens, a) == Off(lens, b)
  {
    if a < b {
      OffFlat(lens, a, b - 1);
    }
  }

  lemma {:induction false} CountPositive(lens: seq<nat>, l: nat) returns (s: nat)
    requires Count(lens, l) > 0
    ensures s < |lens| && lens[s] == l
  {
    if lens[|lens| - 1] == l {
      s := |lens| - 1;
    } else {
      s := CountPositive(lens[..|lens| - 1], l);
    }
  }

  lemma {:induction false} MaxFacts(lens: seq<nat>)
    requires LensOK(lens)
    ensures AllZero(lens) <==> MaxLen(lens) == 0
    ensures AtMostOneBit(lens) <==> MaxLen(lens) <= 1
    ensures Total(lens) == Off(lens, MaxLen(lens) + 1)
    ensures MaxLen(lens) > 0 ==> Total(lens) > 0
    ensures Kraft(lens) == Base(lens, MaxLen(lens) + 1)
  {
    var max := MaxLen(lens);
    MaxFromIs(lens, 15);
    OffFlat(lens, max + 1, 16);
    BaseGap(lens, max + 1, 16);
    if max > 0 {
      var s := CountPositive(lens, max);
      RankBound(lens, s);
    }
    forall s | 0 <= s < |lens| && lens[s] >= 1 ensures lens[s] <= max {
      LenBounds(lens, s);
    }
  }

  method CountLengths(lens: array<nat>, lensIndex: nat, codes: nat) returns (count: array<nat>)
    requires lensIndex + codes <= lens.Length && LensOK(lens[lensIndex..lensIndex + codes])
    ensures fresh(count) && count.Length == 16
    ensures forall l :: 0 <= l <= 15 ==> count[l] == Count(lens[lensIndex..lensIndex + codes], l)
  {
    ghost var L := lens[lensIndex..lensIndex + codes];
    count := new nat[16](_ => 0);
    for sym := 0 to codes
      invariant forall l :: 0 <= l <= 15 ==> count[l] == Count(L[..sym], l)
    {
      forall l: nat | l <= 15 ensures Count(L[..sym + 1], l) == Count(L[..sym], l) + (if L[sym] == l then 1 else 0) {
        CountStep(L, sym, l);
      }
      assert lens[lensIndex + sym] == L[sym];
      count[lens[lensIndex + sym]] := count[lens[lensIndex + sym]] + 1;
    }
    assert L[..codes] == L;
  }

  /** How many codes are left over; negative as soon as the set is over-subscribed. */
  method CheckLengths(count: array<nat>, ghost lens: seq<nat>) returns (left: int)
    requires count.Length == 16 && LensOK(lens)
    requires forall l :: 0 <= l <= 15 ==> count[l] == Count(lens, l)
    ensures left < 0 <==> Kraft(lens) > FULL
    ensures left >= 0 ==> left + Kraft(lens) == FULL
  {
    left := 1;
    Pow2Values();
    ScaleOne(15);
    for len := 1 to 16
      invariant left >= 0 && Scale(left, 16 - len) + Base(lens, len) == FULL
    {
      ScaleDouble(left, 15 - len);
      left := Twice(left);
      if left < count[len] {
        ScaleStrict(left, count[len], 15 - len);
        BaseMono(lens, len + 1, 16);
        return left - count[len];
      }
      ScaleAdd(left - count[len], count[len], 15 - len);
      left := left - count[len];
    }
  }

  predicate Placed(lens: seq<nat>, n: nat, work: seq<nat>) {
    && n <= |lens| && Total(lens) <= |work|
    && forall s :: 0 <= s < n && lens[s] >= 1 ==> Rank(lens, s) < Total(lens) && work[Rank(lens, s)] == s
  }

  lemma {:induction false} PlaceStep(lens: seq<nat>, n: nat, work: seq<nat>)
    requires LensOK(lens) && n < |lens| && Placed(lens, n, work)
    ensures lens[n] == 0 ==> Placed(lens, n + 1, work)
    ensures lens[n] >= 1 ==> Rank(lens, n) < |work| && Placed(lens, n + 1, work[Rank(lens, n) := n])
  {
    if lens[n] >= 1 {
      RankBound(lens, n);
      forall s | 0 <= s < n && lens[s] >= 1 ensures Rank(lens, s) != Rank(lens, n) {
        RankInjective(lens, s, n);
      }
    }
  }

  predicate OffsAt(lens: seq<nat>, n: nat, offs: seq<nat>) {
    |offs| == 16 && n <= |lens| && forall l :: 1 <= l <= 15 ==> offs[l] == Off(lens, l) + Count(lens[..n], l)
  }

  lemma {:induction false} OffsStep(lens: seq<nat>, n: nat, offs: seq<nat>)
    requires LensOK(lens) && n < |lens| && OffsAt(lens, n, offs)
    ensures lens[n] == 0 ==> OffsAt(lens, n + 1, offs)
    ensures lens[n] >= 1 ==> OffsAt(lens, n + 1, offs[lens[n] := offs[lens[n]] + 1])
  {
    forall l: nat | l <= 15 ensures Count(lens[..n + 1], l) == Count(lens[..n], l) + (if lens[n] == l then 1 else 0) {
      CountStep(lens, n, l);
    }
  }

  method Offsets(count: array<nat>, ghost lens: seq<nat>) returns (offs: array<nat>)
    requires count.Length == 16 && forall l :: 0 <= l <= 15 ==> count[l] == Count(lens, l)
    ensures fresh(offs) && OffsAt(lens, 0, offs[..])
  {
    offs := new nat[16](_ => 0);
    offs[1] := 0;
    for len := 1 to 15
      invariant forall l :: 1 <= l <= len ==> offs[l] == Off(lens, l)
    {
      offs[len + 1] := offs[len] + count[len];
    }
    assert lens[..0] == [];
  }

  method SortSymbols(lens: array<nat>, lensIndex: nat, codes: nat, offs: array<nat>, work: array<nat>)
    requires lensIndex + codes <= lens.Length && LensOK(lens[lensIndex..lensIndex + codes])
    requires codes <= work.Length && work != lens && offs != work && offs != lens
    requires OffsAt(lens[lensIndex..lensIndex + codes], 0, offs[..])
    modifies work, offs
    ensures IsSorted(lens[lensIndex..lensIndex + codes], work[..])
  {
    ghost var L := lens[lensIndex..lensIndex + codes];
    TotalBound(L);
    for sym := 0 to codes
      invariant L == lens[lensIndex..lensIndex + codes]
      invariant OffsAt(L, sym, offs[..]) && Placed(L, sym, work[..])
    {
      assert lens[lensIndex + sym] == L[sym];
      PlaceStep(L, sym, work[..]);
      OffsStep(L, sym, offs[..]);
      var l := lens[lensIndex + sym];
      if l != 0 {
        ghost var w, o := work[..], offs[..];
        assert o[l] == Rank(L, sym);
        work[offs[l]] := sym;
        offs[l] := offs[l] + 1;
        assert work[..] == w[Rank(L, sym) := sym];
        assert offs[..] == o[l := o[l] + 1];
      }
    }
    SortedFromRanks(L, work[..]);
  }

  lemma {:induction false} NthOf(lens: seq<nat>, l: nat, q: nat) returns (s: nat)
    requires q < Count(lens, l)
    ensures s < |lens| && lens[s] == l && Count(lens[..s], l) == q
  {
    var n := |lens| - 1;
    if lens[n] == l && Count(lens[..n], l) == q {
      s := n;
    } else {
      s := NthOf(lens[..n], l, q);
      assert lens[..n][..s] == lens[..s];
    }
  }

  lemma {:induction false} SortedFromRanks(lens: seq<nat>, work: seq<nat>)
    requires LensOK(lens) && Total(lens) <= |work|
    requires forall s :: 0 <= s < |lens| && lens[s] >= 1 ==> Rank(lens, s) < Total(lens) && work[Rank(lens, s)] == s
    ensures IsSorted(lens, work)
  {
    forall k | 0 <= k < Total(lens)
      ensures work[k] < |lens| && lens[work[k]] >= 1 && Rank(lens, work[k]) == k
    {
      var l := LengthAt(lens, k, 16);
      var s := NthOf(lens, l, k - Off(lens, l));
      assert Rank(lens, s) == k;
    }
  }

  lemma {:induction false} RankInjective(lens: seq<nat>, s: nat, t: nat)
    requires LensOK(lens) && s < |lens| && t < |lens| && lens[s] >= 1 && lens[t] >= 1 && s < t
    ensures Rank(lens, s) != Rank(lens, t)
  {
    RankBound(lens, s);
    RankBound(lens, t);
    if lens[s] == lens[t] {
      CountStep(lens, s, lens[s]);
      CountMono(lens, s + 1, t, lens[s]);
    } else if lens[s] < lens[t] {
      OffMono(lens, lens[s] + 1, lens[t]);
    } else {
      OffMono(lens, lens[t] + 1, lens[s]);
    }
  }

  lemma {:induction false} LengthAt(lens: seq<nat>, k: nat, l: nat) returns (r: nat)
    requires 1 <= l <= 16 && k < Off(lens, l)
    ensures 1 <= r < l && Off(lens, r) <= k < Off(lens, r) + Count(lens, r)
  {
    if Off(lens, l - 1) <= k {
      r := l - 1;
    } else {
      r := LengthAt(lens, k, l - 1);
    }
  }

  lemma {:induction false} OffStep(lens: seq<nat>, n: nat, l: nat)
    requires n < |lens|
    ensures Off(lens[..n + 1], l) == Off(lens[..n], l) + (if 1 <= lens[n] < l then 1 else 0)
  {
    if l > 1 {
      OffStep(lens, n, l - 1);
      CountStep(lens, n, l - 1);
    }
  }

  lemma {:induction false} TotalPrefix(lens: seq<nat>, n: nat)
    requires n <= |lens|
    ensures Total(lens[..n]) <= n
  {
    if n == 0 {
      assert forall l :: Count(lens[..0], l) == 0;
      OffFlat(lens[..0], 1, 16);
    } else {
      TotalPrefix(lens, n - 1);
      OffStep(lens, n - 1, 16);
    }
  }

  lemma {:induction false} TotalBound(lens: seq<nat>)
    ensures Total(lens) <= |lens|
  {
    TotalPrefix(lens, |lens|);
    assert lens[..|lens|] == lens;
  }
}
