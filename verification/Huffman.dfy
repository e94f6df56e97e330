/** Canonical Huffman codes, as section 3.2.2 of RFC 1951 defines them from code lengths.

    The second half places every code in the interval [0, 2^15): a code of length n owns the
    2^(15-n) words of 15 bits that start with it, and canonical codes own consecutive intervals.
 */
module Huffman {
  import opened Bits

  const MAXBITS: nat := 15
  const FULL: nat := 32768

  predicate LensOK(lens: seq<nat>) {
    forall i :: 0 <= i < |lens| ==> lens[i] <= MAXBITS
  }

  /** bl_count[l]: how many symbols have code length l. */
  function Count(lens: seq<nat>, l: nat): (n: nat)
    ensures n <= |lens|
  {
    if lens == [] then 0
    else Count(lens[..|lens| - 1], l) + (if lens[|lens| - 1] == l then 1 else 0)
  }

  /** next_code[l], the smallest code of length l (step 2 of section 3.2.2). */
  function FirstCode(lens: seq<nat>, l: nat): nat {
    if l <= 1 then 0 else Twice(FirstCode(lens, l - 1) + Count(lens, l - 1))
  }

  /** Step 3: symbols of one length take consecutive values in symbol order. */
  function CodeOf(lens: seq<nat>, s: nat): nat
    requires s < |lens|
  {
    FirstCode(lens, lens[s]) + Count(lens[..s], lens[s])
  }

  /** The code of symbol s as it appears in the stream, most significant bit first. */
  function Codeword(lens: seq<nat>, s: nat): (c: seq<bool>)
    requires s < |lens|
    ensures |c| == lens[s]
  {
    MBits(CodeOf(lens, s), lens[s])
  }

  predicate Matches(lens: seq<nat>, s: nat, b: seq<bool>) {
    s < |lens| && 1 <= lens[s] <= |b| && b[..lens[s]] == Codeword(lens, s)
  }

  predicate Extends(lens: seq<nat>, s: nat, b: seq<bool>) {
    s < |lens| && |b| < lens[s] && b == Codeword(lens, s)[..|b|]
  }

  datatype Symbol = Found(sym: nat) | NeedMore | NoCode

  /** What the stream `b` starts with: a symbol, a proper prefix of one, or no code at all. */
  ghost function Lookup(lens: seq<nat>, b: seq<bool>): (r: Symbol)
    ensures r.Found? ==> Matches(lens, r.sym, b)
  {
    if exists s: nat :: Matches(lens, s, b) then
      var s: nat :| Matches(lens, s, b); Found(s)
    else if b == [] || exists s: nat :: Extends(lens, s, b) then NeedMore
    else NoCode
  }

  // ----- positions -----

  /** The total width of the codes shorter than l. */
  function Base(lens: seq<nat>, l: nat): nat
    requires l <= 16
  {
    if l <= 1 then 0 else Base(lens, l - 1) + Scale(Count(lens, l - 1), 16 - l)
  }

  /** The Kraft sum, in units of 2^-15. */
  function Kraft(lens: seq<nat>): nat {
    Base(lens, 16)
  }

  /** The Kraft sum, symbol by symbol. */
  function SumOfWidths(lens: seq<nat>): nat {
    if lens == [] then 0
    else (if 1 <= lens[0] <= 15 then Pow2(15 - lens[0]) else 0) + SumOfWidths(lens[1..])
  }

  lemma {:induction false} BaseOn(x: nat, lens: seq<nat>, l: nat)
    requires l <= 16
    ensures Base([x] + lens, l) == Base(lens, l) + (if 1 <= x < l then Pow2(15 - x) else 0)
  {
    if l > 1 {
      BaseOn(x, lens, l - 1);
      CountOn(x, lens, l - 1);
      ScaleAdd(Count(lens, l - 1), if x == l - 1 then 1 else 0, 16 - l);
      ScaleOne(16 - l);
      ScaleZero(16 - l);
    }
  }

  lemma {:induction false} CountOn(x: nat, lens: seq<nat>, l: nat)
    ensures Count([x] + lens, l) == Count(lens, l) + (if x == l then 1 else 0)
  {
    if lens == [] {
      assert [x][..0] == [];
    } else {
      CountOn(x, lens[..|lens| - 1], l);
      assert ([x] + lens)[..|lens|] == [x] + lens[..|lens| - 1];
    }
  }

  /** Counting by length gives the sum over all symbols. */
  lemma {:induction false} KraftIsSum(lens: seq<nat>)
    ensures Kraft(lens) == SumOfWidths(lens)
  {
    hide Count;
    if lens == [] {
      EmptyBase(16);
    } else {
      KraftIsSum(lens[1..]);
      BaseOn(lens[0], lens[1..], 16);
      assert [lens[0]] + lens[1..] == lens;
    }
  }

  lemma {:induction false} EmptyBase(l: nat)
    requires l <= 16
    ensures Base([], l) == 0
  {
    if l > 1 {
      EmptyBase(l - 1);
      ScaleZero(16 - l);
    }
  }

  function Width(l: nat): (w: nat)
    requires l <= 15
    ensures w > 0
  {
    Pow2(15 - l)
  }

  function Start(lens: seq<nat>, s: nat): nat
    requires LensOK(lens) && s < |lens|
  {
    Base(lens, lens[s]) + Scale(Count(lens[..s], lens[s]), 15 - lens[s])
  }

  lemma {:induction false} BaseMono(lens: seq<nat>, a: nat, b: nat)
    requires a <= b <= 16
    ensures Base(lens, a) <= Base(lens, b)
  {
    if a < b {
      BaseMono(lens, a, b - 1);
    }
  }

  lemma {:induction false} CountMono(lens: seq<nat>, a: nat, b: nat, l: nat)
    requires a <= b <= |lens|
    ensures Count(lens[..a], l) <= Count(lens[..b], l)
  {
    if a < b {
      CountMono(lens, a, b - 1, l);
      CountStep(lens, b - 1, l);
    }
  }

  lemma {:induction false} CountStep(lens: seq<nat>, i: nat, l: nat)
    requires i < |lens|
    ensures Count(lens[..i + 1], l) == Count(lens[..i], l) + (if lens[i] == l then 1 else 0)
  {
    assert lens[..i + 1][..i] == lens[..i];
  }

  lemma {:induction false} CountRest(lens: seq<nat>, s: nat, l: nat)
    requires s < |lens| && lens[s] == l
    ensures Count(lens[..s], l) + 1 <= Count(lens, l)
  {
    CountStep(lens, s, l);
    CountMono(lens, s + 1, |lens|, l);
    assert lens[..|lens|] == lens;
  }

  lemma {:induction false} FirstCodeIsBase(lens: seq<nat>, l: nat)
    requires 1 <= l <= 15
    ensures Scale(FirstCode(lens, l), 15 - l) == Base(lens, l)
  {
    if l == 1 {
      ScaleZero(14);
    } else {
      FirstCodeIsBase(lens, l - 1);
      var f, c := FirstCode(lens, l - 1), Count(lens, l - 1);
      ScaleDouble(f + c, 15 - l);
      ScaleAdd(f, c, 16 - l);
    }
  }

  /** The RFC's code value, scaled to 15 bits, is the position computed from the counts. */
  lemma {:induction false} CodeIsStart(lens: seq<nat>, s: nat)
    requires LensOK(lens) && s < |lens| && lens[s] >= 1
    ensures Scale(CodeOf(lens, s), 15 - lens[s]) == Start(lens, s)
  {
    FirstCodeIsBase(lens, lens[s]);
    ScaleAdd(FirstCode(lens, lens[s]), Count(lens[..s], lens[s]), 15 - lens[s]);
  }

  /** The interval of a symbol ends inside the space of codes of its length or shorter. */
  lemma {:induction false} StartBound(lens: seq<nat>, s: nat)
    requires LensOK(lens) && s < |lens| && lens[s] >= 1
    ensures Start(lens, s) + Width(lens[s]) <= Base(lens, lens[s] + 1) <= Kraft(lens)
  {
    var l := lens[s];
    CountRest(lens, s, l);
    ScaleStrict(Count(lens[..s], l), Count(lens, l), 15 - l);
    BaseMono(lens, l + 1, 16);
  }

  lemma {:induction false} CodeFits(lens: seq<nat>, s: nat)
    requires LensOK(lens) && s < |lens| && lens[s] >= 1 && Kraft(lens) <= FULL
    ensures CodeOf(lens, s) < Pow2(lens[s])
    ensures MVal(Codeword(lens, s)) == CodeOf(lens, s)
  {
    CodeIsStart(lens, s);
    StartBound(lens, s);
    var c, l := CodeOf(lens, s), lens[s];
    Pow2Add(l, 15 - l);
    Pow2Values();
    if c >= Pow2(l) {
      ScaleMono(Pow2(l), c, 15 - l);
    }
    MValMBits(c, l);
  }

  /** A word starts with a code exactly when its value lies in the interval of the code. */
  lemma {:induction false} PrefixInterval(c: seq<bool>, w: seq<bool>)
    requires |c| <= |w|
    ensures var k := |w| - |c|;
            w[..|c|] == c <==> Scale(MVal(c), k) <= MVal(w) < Scale(MVal(c), k) + Pow2(k)
  {
    var h, t := w[..|c|], w[|c|..];
    assert w == h + t;
    MValConcat(h, t);
    var k := |w| - |c|;
    if MVal(h) == MVal(c) {
      MValInjective(h, c);
    } else if MVal(h) < MVal(c) {
      ScaleStrict(MVal(h), MVal(c), k);
    } else {
      ScaleStrict(MVal(c), MVal(h), k);
    }
  }

  lemma {:induction false} MatchesInterval(lens: seq<nat>, s: nat, w: seq<bool>)
    requires LensOK(lens) && s < |lens| && lens[s] >= 1 && Kraft(lens) <= FULL && |w| == 15
    ensures Matches(lens, s, w) <==> Start(lens, s) <= MVal(w) < Start(lens, s) + Width(lens[s])
  {
    CodeFits(lens, s);
    CodeIsStart(lens, s);
    PrefixInterval(Codeword(lens, s), w);
  }

  predicate Before(lens: seq<nat>, s: nat, t: nat)
    requires s < |lens| && t < |lens|
  {
    lens[s] < lens[t] || (lens[s] == lens[t] && s < t)
  }

  lemma {:induction false} StartOrder(lens: seq<nat>, s: nat, t: nat)
    requires LensOK(lens) && s < |lens| && t < |lens| && lens[s] >= 1 && Before(lens, s, t)
    ensures Start(lens, s) + Width(lens[s]) <= Start(lens, t)
  {
    var l := lens[s];
    if l < lens[t] {
      StartBound(lens, s);
      BaseMono(lens, l + 1, lens[t]);
    } else {
      CountStep(lens, s, l);
      CountMono(lens, s + 1, t, l);
      ScaleStrict(Count(lens[..s], l), Count(lens[..t], l), 15 - l);
    }
  }

  function Pad(b: seq<bool>): (w: seq<bool>)
    ensures |w| == 15
  {
    if |b| >= 15 then b[..15] else b + Zeros(15 - |b|)
  }

  lemma {:induction false} MatchesPad(lens: seq<nat>, s: nat, b: seq<bool>)
    requires LensOK(lens) && Matches(lens, s, b)
    ensures Matches(lens, s, Pad(b))
  {
    assert Pad(b)[..lens[s]] == b[..lens[s]];
  }

  /** Unless the lengths are over-subscribed, no code is a prefix of another one. */
  lemma {:induction false} PrefixFree(lens: seq<nat>, s: nat, t: nat, b: seq<bool>)
    requires LensOK(lens) && Kraft(lens) <= FULL
    requires Matches(lens, s, b) && Matches(lens, t, b)
    ensures s == t
  {
    MatchesPad(lens, s, b);
    MatchesPad(lens, t, b);
    MatchesInterval(lens, s, Pad(b));
    MatchesInterval(lens, t, Pad(b));
    if Before(lens, s, t) {
      StartOrder(lens, s, t);
    } else if Before(lens, t, s) {
      StartOrder(lens, t, s);
    }
  }

  lemma {:induction false} LookupIs(lens: seq<nat>, s: nat, b: seq<bool>)
    requires LensOK(lens) && Kraft(lens) <= FULL && Matches(lens, s, b)
    ensures Lookup(lens, b) == Found(s)
  {
    PrefixFree(lens, s, Lookup(lens, b).sym, b);
  }

  /** A lookup that found its symbol in the held bits finds it in any continuation of them. */
  lemma {:induction false} LookupMonotone(lens: seq<nat>, b: seq<bool>, c: seq<bool>)
    requires LensOK(lens) && Kraft(lens) <= FULL && Lookup(lens, b).Found?
    ensures Lookup(lens, b + c) == Lookup(lens, b)
  {
    var s := Lookup(lens, b).sym;
    assert (b + c)[..lens[s]] == b[..lens[s]];
    LookupIs(lens, s, b + c);
  }

  predicate AtMostOneBit(lens: seq<nat>) {
    forall i :: 0 <= i < |lens| ==> lens[i] <= 1
  }

  /** Looking up bits that are padded with zeros never mis-decodes: the answer is right when its
      length is covered by the real bits, and otherwise the real bits hold no complete code. */
  lemma {:induction false} LookupPad(lens: seq<nat>, b: seq<bool>)
    requires LensOK(lens) && Kraft(lens) <= FULL
    ensures var r := Lookup(lens, Pad(b));
            match r
            case Found(s) => Lookup(lens, b) == (if lens[s] <= |b| then r else NeedMore)
            case NeedMore => true
            case NoCode => |b| >= 1 && AtMostOneBit(lens) ==> Lookup(lens, b) == NoCode
  {
    match Lookup(lens, Pad(b))
    case Found(s) =>
      if lens[s] <= |b| {
        assert b[..lens[s]] == Pad(b)[..lens[s]];
        LookupIs(lens, s, b);
      } else {
        forall t: nat | Matches(lens, t, b) ensures false {
          MatchesPad(lens, t, b);
          PrefixFree(lens, s, t, Pad(b));
        }
        assert Pad(b)[..lens[s]][..|b|] == b;
        assert Extends(lens, s, b);
      }
    case NeedMore =>
    case NoCode =>
      forall t: nat | Matches(lens, t, b) ensures false {
        MatchesPad(lens, t, b);
      }
  }
}
