/** What a decoding table must contain: entries, the meaning of each symbol, and the size of a
    two-level table, all stated without the algorithm that builds it.
 */
module CodeTables {
  import opened Bits
  import opened Huffman

  /** One table entry; the program packs the three numbers into one. */
  datatype Entry = Entry(bits: nat, op: nat, val: nat)

  datatype Kind = Codes | Lens | Dists

  /** How many symbols a table of this kind may code. */
  function MaxSymbols(kind: Kind): nat {
    match kind case Codes => 19 case Lens => 288 case Dists => 32
  }

  /** What a symbol means: the operation and value that its table entries carry.  The operation is 0
      for a literal, 16 plus the number of extra bits for a length or distance base, 96 for the end
      of a block, and another number from 64 for a symbol that may not occur. */
  datatype Sense = Sense(op: nat, val: nat)

  /** Section 3.2.5 of RFC 1951, by formula: from symbol 265 on, four length symbols share each number
      of extra bits; from symbol 4 on, two distance symbols do. */
  function LengthExtra(s: nat): nat
    requires 257 <= s <= 285
  {
    if s < 265 || s == 285 then 0 else (s - 261) / 4
  }

  function LengthBase(s: nat): nat
    requires 257 <= s <= 285
  {
    if s < 265 then s - 254 else if s == 285 then 258 else Scale(4 + (s - 265) % 4, (s - 261) / 4) + 3
  }

  function DistExtra(s: nat): nat
    requires s < 30
  {
    if s < 4 then 0 else (s - 2) / 2
  }

  function DistBase(s: nat): nat
    requires s < 30
  {
    if s < 4 then s + 1 else Scale(2 + s % 2, (s - 2) / 2) + 1
  }

  /** The symbols leave no gap: where the lengths of one end, those of the next begin. */
  lemma {:induction false} LengthsTile(s: nat)
    requires 257 <= s < 284
    ensures LengthBase(s) + Pow2(LengthExtra(s)) == LengthBase(s + 1)
    ensures LengthBase(257) == 3 && LengthBase(284) == 227 && LengthExtra(284) == 5 && LengthBase(285) == 258
  {
    hide Scale, Pow2;
    Rows(s - 261);
    if s >= 264 {
      var e, r := (s - 261) / 4, (s - 261) % 4;
      ScaleAdd(4 + r, 1, e);
      ScaleOne(e);
      ScaleDouble(4, e);
    }
    TopLengths();
  }

  lemma {:induction false} TopLengths()
    ensures Scale(4, 0) == 4 && Scale(4, 1) == 8 && Scale(7, 5) == 224 && Pow2(0) == 1 && LengthBase(284) == 227
  {
  }

  lemma {:induction false} Rows(n: int)
    requires n >= -4
    ensures n >= 0 ==> (n - 4) % 4 == n % 4
    ensures (n + 1) / 4 == (if n % 4 == 3 then n / 4 + 1 else n / 4)
    ensures (n + 1) % 4 == (if n % 4 == 3 then 0 else n % 4 + 1)
  {
  }

  lemma {:induction false} DistancesTile(d: nat)
    requires d < 29
    ensures DistBase(d) + Pow2(DistExtra(d)) == DistBase(d + 1)
    ensures DistBase(0) == 1 && DistBase(29) + Pow2(DistExtra(29)) == 32769
  {
    hide Scale, Pow2;
    if d >= 3 {
      var e, r := (d - 2) / 2, d % 2;
      ScaleAdd(2 + r, 1, e);
      ScaleOne(e);
      ScaleDouble(2, e);
    }
    TopDistances();
  }

  lemma {:induction false} TopDistances()
    ensures Scale(2, 0) == 2 && Scale(2, 1) == 4 && Scale(3, 13) == 24576 && Pow2(13) == 8192 && Pow2(0) == 1
  {
    Pow2Values();
  }

  /** Every length from 3 to 258 can be coded, from symbol s on. */
  lemma {:induction false} EveryLength(s: nat, len: nat) returns (v: nat, x: nat)
    requires 257 <= s <= 284 && LengthBase(s) <= len <= 258
    ensures 257 <= v <= 285 && x < Pow2(LengthExtra(v)) && len == LengthBase(v) + x
    decreases 284 - s
  {
    hide LengthBase, LengthExtra;
    Pow2Values();
    LengthsTile(283);
    v, x := s, len - LengthBase(s);
    if x >= Pow2(LengthExtra(s)) {
      LengthsTile(s);
      v, x := EveryLength(s + 1, len);
    }
  }

  /** Every distance from 1 to 32768 can be coded, from symbol d on. */
  lemma {:induction false} EveryDistance(d: nat, dist: nat) returns (v: nat, x: nat)
    requires d <= 29 && DistBase(d) <= dist <= 32768
    ensures v <= 29 && x < Pow2(DistExtra(v)) && dist == DistBase(v) + x
    decreases 29 - d
  {
    hide DistBase, DistExtra, Pow2;
    DistancesTile(0);
    v, x := d, dist - DistBase(d);
    if x >= Pow2(DistExtra(d)) {
      DistancesTile(d);
      v, x := EveryDistance(d + 1, dist);
    }
  }

  function SenseOf(kind: Kind, s: nat): Sense
    requires s < MaxSymbols(kind)
  {
    match kind
    case Codes => Sense(0, s)
    case Lens =>
      if s < 256 then Sense(0, s)
      else if s == 256 then Sense(96, 0)
      else if s <= 285 then Sense(16 + LengthExtra(s), LengthBase(s))
      else if s == 286 then Sense(72, 0)
      else Sense(78, 0)
    case Dists =>
      if s < 30 then Sense(16 + DistExtra(s), DistBase(s)) else Sense(64, 0)
  }

  function Senses(kind: Kind): (m: seq<Sense>)
    ensures |m| == MaxSymbols(kind)
    ensures forall s :: 0 <= s < |m| ==> m[s] == SenseOf(kind, s)
  {
    seq(MaxSymbols(kind), s requires 0 <= s < MaxSymbols(kind) => SenseOf(kind, s))
  }

  predicate IsLinkOp(op: nat) {
    1 <= op < 16
  }

  predicate IsLink(e: Entry) {
    IsLinkOp(e.op)
  }

  /** No symbol means what a link to a sub-table looks like. */
  predicate NoLinks(m: seq<Sense>) {
    forall s :: 0 <= s < |m| ==> !IsLinkOp(m[s].op)
  }

  lemma {:induction false} SensesNoLinks(kind: Kind)
    ensures NoLinks(Senses(kind))
  {
  }

  predicate AllZero(lens: seq<nat>) {
    forall i :: 0 <= i < |lens| ==> lens[i] == 0
  }

  /** The sets of code lengths that the decoder accepts: complete codes, codes without any symbol,
      and (not for code length codes) codes whose only lengths are 0 and 1. */
  predicate Acceptable(kind: Kind, lens: seq<nat>) {
    || AllZero(lens)
    || Kraft(lens) == FULL
    || (kind != Codes && Kraft(lens) < FULL && AtMostOneBit(lens))
  }

  /** Following the table from the root on the word `w` ends at this symbol: `len` bits in all. */
  predicate Resolves(t: seq<Entry>, root: nat, w: seq<bool>, len: nat, op: nat, val: nat)
    requires |w| == 15 && root <= 15
  {
    var i := LVal(w[..root]);
    i < |t| &&
    if IsLink(t[i]) then
      && t[i].bits == root
      && root + t[i].op <= 15
      && t[i].val + Pow2(t[i].op) <= |t|
      && var e := t[t[i].val + LVal(w[root..root + t[i].op])];
         len > root && e == Entry(len - root, op, val) && !IsLink(e)
    else
      t[i] == Entry(len, op, val)
  }

  /** The table decodes the word `w` as the code does. */
  ghost predicate WordOK(t: seq<Entry>, root: nat, m: seq<Sense>, lens: seq<nat>, w: seq<bool>)
    requires |w| == 15 && root <= 15 && |lens| <= |m|
  {
    match Lookup(lens, w)
    case Found(s) => Resolves(t, root, w, lens[s], m[s].op, m[s].val)
    case NeedMore => false
    case NoCode => Resolves(t, root, w, 1, 64, 0)
  }

  ghost predicate TableOK(t: seq<Entry>, root: nat, m: seq<Sense>, lens: seq<nat>) {
    && LensOK(lens) && |lens| <= |m|
    && 1 <= root <= 15 && Pow2(root) <= |t|
    && forall w: seq<bool> :: |w| == 15 ==> WordOK(t, root, m, lens, w)
  }

  // ----- table size -----

  /** The longest code, from length l up, that is needed to fill the positions below e. */
  function SubLen(lens: seq<nat>, e: nat, l: nat): (r: nat)
    requires l <= 15
    ensures l <= r <= 15
    decreases 15 - l
  {
    if l == 15 || e <= Base(lens, l + 1) then l else SubLen(lens, e, l + 1)
  }

  /** The entries of all sub-tables for the root slots from position p on. */
  function Space(lens: seq<nat>, root: nat, p: nat): nat
    requires root < 15
    decreases FULL - p
  {
    if p + Width(root) > FULL then 0
    else
      Pow2(SubLen(lens, p + Width(root), root + 1) - root) + Space(lens, root, p + Width(root))
  }

  function TableSize(lens: seq<nat>, root: nat): nat
    requires root <= 15
  {
    Pow2(root) + (if root == 15 || Kraft(lens) < FULL then 0 else Space(lens, root, Base(lens, root + 1)))
  }

  const ENOUGH_LENS: nat := 852
  const ENOUGH_DISTS: nat := 592

  /** The check for table space; code length tables are not checked. */
  predicate TooBig(kind: Kind, used: nat) {
    (kind == Lens && used > ENOUGH_LENS) || (kind == Dists && used > ENOUGH_DISTS)
  }

  function Room(kind: Kind): nat {
    match kind case Codes => 128 case Lens => ENOUGH_LENS case Dists => ENOUGH_DISTS
  }
}
