/** What the modes LEN and DIST make of a table entry. */
module EntryOps {
  import opened Bits
  import opened Huffman
  import opened CodeTables
  import opened Streams
  import opened ReadCodes

  /** Bits of the operation: end of block, invalid, and the number of extra bits. */
  predicate And32(op: nat) {
    op / 32 % 2 == 1
  }

  predicate And64(op: nat) {
    op / 64 % 2 == 1
  }

  function And15(op: nat): nat {
    op % 16
  }

  /** What LEN does with the entry of the symbol. */
  function AfterLen(c: Control, here: Entry): Control {
    if here.op == 0 then c.(mode := AtLit, length := here.val)
    else if And32(here.op) then c.(mode := AtType, length := here.val)
    else if And64(here.op) then c.(mode := AtBad, length := here.val)
    else c.(mode := AtLenExt, length := here.val, extra := And15(here.op))
  }

  lemma {:induction false} LenSense(lens: seq<nat>, l: Symbol, p: nat, q: nat, here: Entry)
    requires Took(Senses(Lens), lens, l, p, q, here)
    ensures q > p
    ensures l.NoCode? ==> here.op != 0 && !And32(here.op) && And64(here.op)
    ensures l.Found? && l.sym < 256 ==> here.op == 0 && here.val == l.sym
    ensures l.Found? && l.sym == 256 ==> here.op != 0 && And32(here.op)
    ensures l.Found? && l.sym > 285 ==> here.op != 0 && !And32(here.op) && And64(here.op)
    ensures l.Found? && 257 <= l.sym <= 285 ==>
      && here.op != 0 && !And32(here.op) && !And64(here.op) && And15(here.op) == LengthExtra(l.sym) <= 5
      && here.val == LengthBase(l.sym) && 3 <= here.val <= 258
  {
    if l.Found? && 257 <= l.sym <= 285 {
      LengthBaseRange(l.sym);
    }
  }

  lemma {:induction false} LengthBaseRange(s: nat)
    requires 257 <= s <= 285
    ensures LengthExtra(s) <= 5 && 3 <= LengthBase(s) <= 258
  {
    hide Scale, Pow2;
    if 265 <= s < 285 {
      var k := (s - 261) / 4;
      ScaleMono(4 + (s - 265) % 4, 7, k);
      ScaleIsMul(7, k);
      Pow2Values();
      Pow2Mono(k, 5);
    }
  }

  /** What DIST does with the entry of the symbol. */
  function AfterDist(c: Control, here: Entry): Control {
    if And64(here.op) then c.(mode := AtBad)
    else c.(mode := AtDistExt, offset := here.val, extra := And15(here.op))
  }

  lemma {:induction false} DistSense(lens: seq<nat>, l: Symbol, p: nat, q: nat, here: Entry)
    requires Took(Senses(Dists), lens, l, p, q, here)
    ensures q > p
    ensures l.NoCode? ==> And64(here.op)
    ensures l.Found? && l.sym > 29 ==> And64(here.op)
    ensures l.Found? && l.sym <= 29 ==>
      && !And64(here.op) && And15(here.op) == DistExtra(l.sym) <= 13 && here.val == DistBase(l.sym) && 1 <= here.val
  {
    hide Scale;
  }
}
