/** Decoding one symbol in `inflate_fast`: with fifteen bits held, no test for input is needed. */
module FastCodes {
  import opened Bits
  import opened Huffman
  import opened CodeTables
  import opened Streams
  import opened Coding
  import opened ReadCodes
  import opened EntryOps

  predicate And16(op: nat) {
    op / 16 % 2 == 1
  }

  /** What `inflate_fast` takes for a link to a sub-table: bits 16 and 64 clear; for literal/length codes
      an operation of zero is a literal. */
  predicate FastLink(op: nat, zeroLinks: bool) {
    (zeroLinks || op != 0) && !And16(op) && !And64(op)
  }

  /** No symbol is taken for a link. */
  predicate NoFastLinks(m: seq<Sense>, zeroLinks: bool) {
    forall v :: 0 <= v < |m| ==> !FastLink(m[v].op, zeroLinks)
  }

  lemma {:induction false} SensesNoFastLinks()
    ensures NoFastLinks(Senses(Lens), false) && NoFastLinks(Senses(Dists), true)
  {
  }

  /** The index into a sub-table, before and after the root bits are dropped. */
  lemma {:induction false} SubIndex(b: seq<bool>, root: nat, op: nat)
    requires root + op <= |b|
    ensures Low(Shr(LVal(b), root), op) == Shr(Low(LVal(b), root + op), root)
  {
    hide LVal, Low, Shr;
    LValSplit(b, root);
    LValSplit(b[root..], op);
    LValSplit(b, root + op);
    LValSplit(b[..root + op], root);
    assert b[root..][..op] == b[..root + op][root..];
  }

  lemma {:induction false} NoLinkAnswer(m: seq<Sense>, lens: seq<nat>, l: Symbol, len: nat, e: Entry, zeroLinks: bool)
    requires Answers(m, lens, l, len, e) && NoFastLinks(m, zeroLinks)
    ensures !FastLink(e.op, zeroLinks)
  {
  }

  lemma {:induction false} LinkOp(e: Entry, zeroLinks: bool)
    requires IsLink(e)
    ensures FastLink(e.op, zeroLinks)
  {
  }

  /** The root entry, with fifteen bits held. */
  lemma {:induction false} FastRoot(t: seq<Entry>, root: nat, m: seq<Sense>, lens: seq<nat>, r: Reader, zeroLinks: bool)
    requires BitsOK(r) && r.bits >= 15 && Decodes(t, root, m, lens) && NoFastLinks(m, zeroLinks)
    ensures Low(r.hold, root) < |t|
    ensures var e := t[Low(r.hold, root)];
            && 1 <= e.bits <= r.bits && (IsLink(e) <==> FastLink(e.op, zeroLinks))
            && (!IsLink(e) ==> Answers(m, lens, Lookup(lens, Held(r)), e.bits, e))
            && (IsLink(e) ==> e.bits == root && root + e.op <= 15)
  {
    hide Lookup, Low, LVal, TableOK, Kraft, Answers, BytesBits, FastLink, Eight, NoLinks, NoFastLinks;
    DecodesParts(t, root, m, lens);
    RootEntry(t, root, m, lens, Held(r));
    var e := t[Low(r.hold, root)];
    if e.bits > r.bits {
      RoomToPull(r, lens);
    }
    if IsLink(e) {
      LinkOp(e, zeroLinks);
    } else {
      NoLinkAnswer(m, lens, Lookup(lens, Held(r)), e.bits, e, zeroLinks);
    }
  }

  lemma {:induction false} DecodesParts(t: seq<Entry>, root: nat, m: seq<Sense>, lens: seq<nat>)
    requires Decodes(t, root, m, lens)
    ensures LensOK(lens) && TableOK(t, root, m, lens) && Kraft(lens) <= FULL && Sound(lens) && NoLinks(m) && root <= 15
  {
  }

  /** The sub-table entry, once the root bits are dropped. */
  lemma {:induction false} FastSub(t: seq<Entry>, root: nat, m: seq<Sense>, lens: seq<nat>, r: Reader, zeroLinks: bool)
    requires BitsOK(r) && r.bits >= 15 && Decodes(t, root, m, lens) && NoFastLinks(m, zeroLinks)
    requires Low(r.hold, root) < |t| && IsLink(t[Low(r.hold, root)])
    ensures var e := t[Low(r.hold, root)];
            var i := e.val + Low(Shr(r.hold, root), e.op);
            && i < |t|
            && t[i].bits >= 1 && root + t[i].bits <= r.bits && !FastLink(t[i].op, zeroLinks)
            && Answers(m, lens, Lookup(lens, Held(r)), root + t[i].bits, t[i])
  {
    hide Lookup, Low, Shr, LVal, TableOK, Kraft, Answers, BytesBits, FastLink, Eight, NoLinks, NoFastLinks, IsLink;
    DecodesParts(t, root, m, lens);
    RootEntry(t, root, m, lens, Held(r));
    SubEntry(t, root, m, lens, Held(r));
    var e := t[Low(r.hold, root)];
    SubIndex(Held(r), root, e.op);
    var e' := t[e.val + Low(Shr(r.hold, root), e.op)];
    if root + e'.bits > r.bits {
      RoomToPull(r, lens);
    }
    NoLinkAnswer(m, lens, Lookup(lens, Held(r)), root + e'.bits, e', zeroLinks);
  }

  /** One symbol, through at most one link. */
  method FastCode(r0: Reader, code: array<Entry>, root: nat, zeroLinks: bool, ghost m: seq<Sense>, ghost lens: seq<nat>)
    returns (r: Reader, here: Entry)
    requires BitsOK(r0) && 15 <= r0.bits && Decodes(code[..], root, m, lens) && NoFastLinks(m, zeroLinks)
    ensures BitsOK(r) && Consumed(r0, r) && r.have == r0.have && r.pos + r.bits == r0.pos + r0.bits
    ensures r.pos <= r0.pos + 15
    ensures r0.pos < |r0.stream| && Took(m, lens, Lookup(lens, r0.stream[r0.pos..]), r0.pos, r.pos, here)
    ensures !FastLink(here.op, zeroLinks)
  {
    hide Lookup, Low, Shr, LVal, Kraft, Answers, BytesBits, FastLink, Eight, NoFastLinks, IsLink, BitsOK, Decodes, Took,
      Sound, LensOK;
    FastRoot(code[..], root, m, lens, r0, zeroLinks);
    here := code[Low(r0.hold, root)];
    r := DropBits(r0, here.bits);
    ghost var len := here.bits;
    if FastLink(here.op, zeroLinks) {
      FastSub(code[..], root, m, lens, r0, zeroLinks);
      DropHold(r0, root);
      here := code[here.val + Low(r.hold, here.op)];
      r := DropBits(r, here.bits);
      len := root + here.bits;
    }
    FastTook(r0, m, lens, code[..], root, len, here);
  }

  lemma {:induction false} DropHold(r: Reader, n: nat)
    requires BitsOK(r) && n <= r.bits
    ensures DropBits(r, n).hold == Shr(r.hold, n)
  {
  }

  lemma {:induction false} FastTook(r: Reader, m: seq<Sense>, lens: seq<nat>, t: seq<Entry>, root: nat, len: nat,
                                    e: Entry)
    requires BitsOK(r) && Decodes(t, root, m, lens) && 1 <= len <= r.bits && e.bits >= 1
    requires Answers(m, lens, Lookup(lens, Held(r)), len, e)
    ensures r.pos < |r.stream| && Took(m, lens, Lookup(lens, r.stream[r.pos..]), r.pos, r.pos + len, e) && len <= 15
  {
    hide Lookup, LVal, Kraft, BytesBits, Eight, Took, TableOK;
    Taken(m, lens, r.stream, r.pos, r.bits, len, e);
  }
}
