/** The order in which `inflate_table` visits the symbols: by code length, then by symbol.  In this
    order the codes own consecutive intervals, so the whole construction is a walk along [0, 2^15).
 */
module SortedSymbols {
  import opened Bits
  import opened Huffman

  function Off(lens: seq<nat>, l: nat): nat {
    if l <= 1 then 0 else Off(lens, l - 1) + Count(lens, l - 1)
  }

  /** How many symbols have a code. */
  function Total(lens: seq<nat>): nat {
    Off(lens, 16)
  }

  function Rank(lens: seq<nat>, s: nat): nat
    requires s < |lens|
  {
    Off(lens, lens[s]) + Count(lens[..s], lens[s])
  }

  predicate IsSorted(lens: seq<nat>, work: seq<nat>) {
    && Total(lens) <= |work|
    && (forall s :: 0 <= s < |lens| && lens[s] >= 1 ==>
          Rank(lens, s) < Total(lens) && work[Rank(lens, s)] == s)
    && (forall k :: 0 <= k < Total(lens) ==>
          work[k] < |lens| && lens[work[k]] >= 1 && Rank(lens, work[k]) == k)
  }

  lemma {:induction false} OffMono(lens: seq<nat>, a: nat, b: nat)
    requires a <= b
    ensures Off(lens, a) <= Off(lens, b)
  {
    if a < b {
      OffMono(lens, a, b - 1);
    }
  }

  lemma {:induction false} RankBound(lens: seq<nat>, s: nat)
    requires LensOK(lens) && s < |lens| && lens[s] >= 1
    ensures Off(lens, lens[s]) <= Rank(lens, s) < Off(lens, lens[s] + 1) <= Total(lens)
  {
    CountRest(lens, s, lens[s]);
    OffMono(lens, lens[s] + 1, 16);
  }

  /** If no symbol has a length from a up to b, nothing lies between them. */
  lemma {:induction false} BaseGap(lens: seq<nat>, a: nat, b: nat)
    requires 1 <= a <= b <= 16 && Off(lens, a) == Off(lens, b)
    ensures Base(lens, a) == Base(lens, b)
  {
    if a < b {
      OffMono(lens, a, b - 1);
      BaseGap(lens, a, b - 1);
      ScaleZero(16 - b);
    }
  }

  /** Consecutive symbols own consecutive intervals. */
  lemma {:induction false} NextStart(lens: seq<nat>, work: seq<nat>, k: nat)
    requires LensOK(lens) && IsSorted(lens, work) && k + 1 < Total(lens)
    ensures var s, t := work[k], work[k + 1];
            lens[s] <= lens[t] && Start(lens, t) == Start(lens, s) + Width(lens[s])
  {
    var s, t := work[k], work[k + 1];
    var ls, lt := lens[s], lens[t];
    RankBound(lens, s);
    RankBound(lens, t);
    if lt < ls {
      OffMono(lens, lt + 1, ls);
    }
    if lt == ls {
      NextInLength(lens, s, t);
    } else {
      OffMono(lens, ls + 1, lt);
      BaseGap(lens, ls + 1, lt);
      NextInLength(lens, s, s);
      ScaleZero(15 - lt);
    }
  }

  /** Within one length the start grows by the width per symbol. */
  lemma {:induction false} NextInLength(lens: seq<nat>, s: nat, t: nat)
    requires LensOK(lens) && s < |lens| && t < |lens| && 1 <= lens[s] == lens[t]
    ensures Count(lens[..t], lens[s]) == Count(lens[..s], lens[s]) + 1 ==>
              Start(lens, t) == Start(lens, s) + Width(lens[s])
    ensures Count(lens[..s], lens[s]) + 1 == Count(lens, lens[s]) ==>
              Base(lens, lens[s] + 1) == Start(lens, s) + Width(lens[s])
  {
    var l := lens[s];
    ScaleAdd(Count(lens[..s], l), 1, 15 - l);
    ScaleOne(15 - l);
  }

  lemma {:induction false} FirstStart(lens: seq<nat>, work: seq<nat>)
    requires LensOK(lens) && IsSorted(lens, work) && Total(lens) > 0
    ensures Start(lens, work[0]) == 0 && Codeword(lens, work[0]) == Zeros(lens[work[0]])
  {
    var s := work[0];
    RankBound(lens, s);
    OffMono(lens, 1, lens[s]);
    BaseGap(lens, 1, lens[s]);
    ScaleZero(15 - lens[s]);
    CodeIsStart(lens, s);
    if CodeOf(lens, s) > 0 {
      ScaleStrict(0, CodeOf(lens, s), 15 - lens[s]);
    }
    MBitsMVal(Zeros(lens[s]));
    ZerosVal(lens[s]);
  }

  /** The last symbol ends where the whole code ends. */
  lemma {:induction false} LastStart(lens: seq<nat>, work: seq<nat>)
    requires LensOK(lens) && IsSorted(lens, work) && Total(lens) > 0
    ensures var s := work[Total(lens) - 1]; Start(lens, s) + Width(lens[s]) == Kraft(lens)
  {
    var s := work[Total(lens) - 1];
    RankBound(lens, s);
    OffMono(lens, lens[s] + 1, 16);
    BaseGap(lens, lens[s] + 1, 16);
    NextInLength(lens, s, s);
  }
}
