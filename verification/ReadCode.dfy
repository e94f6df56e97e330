/** Decoding one symbol, byte by byte: the lookup loops of the LEN, DIST and CODELENS modes. */
module ReadCodes {
  import opened Bits
  import opened Huffman
  import opened CodeTables
  import opened Streams
  import opened Coding

  /** The symbol at position p has been read: the entry says what the code says, and q is behind it. */
  ghost predicate Took(m: seq<Sense>, lens: seq<nat>, r: Symbol, p: nat, q: nat, here: Entry) {
    match r
    case Found(v) =>
      v < |lens| && v < |m| && 1 <= lens[v] && q == p + lens[v] && here.op == m[v].op && here.val == m[v].val
    case NeedMore => false
    case NoCode => q == p + 1 && here.op == 64 && here.val == 0
  }

  /** The last byte was pulled because the bits before it were not enough for a symbol. */
  ghost predicate Needed(r: Reader, lens: seq<nat>) {
    8 <= r.bits && r.pos + r.bits <= |r.stream| && Lookup(lens, r.stream[r.pos..r.pos + r.bits - 8]) == NeedMore
  }

  /** Less than a byte is left once the symbol is dropped. */
  lemma {:induction false} LessThanByte(r: Reader, m: seq<Sense>, lens: seq<nat>, len: nat, e: Entry)
    requires BitsOK(r) && (Tight(r, lens) || Needed(r, lens)) && LensOK(lens) && Kraft(lens) <= FULL && Sound(lens)
    requires len <= r.bits && Answers(m, lens, Lookup(lens, Held(r)), len, e)
    ensures r.bits - len < 8
  {
    hide BytesBits, LVal, Kraft;
    if r.bits >= 8 && len <= r.bits - 8 {
      var b, c := r.stream[r.pos..r.pos + r.bits - 8], r.stream[r.pos + r.bits - 8..r.pos + r.bits];
      assert Held(r) == b + c;
      match Lookup(lens, b + c)
      case Found(v) =>
        assert (b + c)[..lens[v]] == b[..lens[v]];
        LookupIs(lens, v, b);
      case NoCode =>
        NoCodeAtOnce(lens, b, c);
    }
  }

  /** What is known while bytes are pulled: the stream is untouched, and so far there was no symbol. */
  ghost predicate Pulling(r: Reader, r': Reader, lens: seq<nat>) {
    BitsOK(r') && Consumed(r, r') && r'.pos == r.pos && r'.bits >= r.bits && (r'.bits == r.bits || Needed(r', lens))
  }

  /** Waiting for input: the bits held, which may be all that is left, hold no symbol. */
  ghost predicate Waits(r: Reader, lens: seq<nat>) {
    && r.have == 0 && r.pos + r.bits <= |r.stream| && Lookup(lens, Held(r)) == NeedMore
    && (r.taken == |r.bytes| ==> Lookup(lens, r.stream[r.pos..]) == NeedMore)
  }

  lemma {:induction false} StartsToWait(r: Reader, lens: seq<nat>)
    requires BitsOK(r) && r.have == 0 && Lookup(lens, Held(r)) == NeedMore
    ensures Waits(r, lens)
  {
    hide BytesBits, LVal, Lookup;
    if r.taken == |r.bytes| {
      assert Held(r) == r.stream[r.pos..];
    }
  }

  /** An answer from held bits is the answer of the stream. */
  lemma {:induction false} Taken(m: seq<Sense>, lens: seq<nat>, s: seq<bool>, p: nat, bits: nat, len: nat, e: Entry)
    requires LensOK(lens) && Kraft(lens) <= FULL && p + bits <= |s| && len <= bits
    requires Answers(m, lens, Lookup(lens, s[p..p + bits]), len, e)
    ensures Took(m, lens, Lookup(lens, s[p..]), p, p + len, e)
  {
    hide Kraft, Lookup;
    assert s[p..] == s[p..p + bits] + s[p + bits..];
    LookupStable(lens, s[p..p + bits], s[p + bits..]);
  }

  /** One more byte is needed: no code is longer than 15 bits, so there is room for it. */
  lemma {:induction false} RoomToPull(r: Reader, lens: seq<nat>)
    requires BitsOK(r) && LensOK(lens) && Lookup(lens, Held(r)) == NeedMore
    ensures r.bits <= 14
  {
    hide BytesBits, LVal;
    var b := Held(r);
    if b != [] {
      var v: nat :| Extends(lens, v, b);
    }
  }

  /** More held bits do not change the root index. */
  lemma {:induction false} SameIndex(s: seq<bool>, p: nat, n: nat, n': nat, root: nat)
    requires root <= n <= n' && p + n' <= |s|
    ensures Low(LVal(s[p..p + n]), root) == Low(LVal(s[p..p + n']), root)
  {
    hide LVal, Low;
    LValSplit(s[p..p + n], root);
    LValSplit(s[p..p + n'], root);
    assert s[p..p + n][..root] == s[p..p + n'][..root];
  }

  /** The first loop: until the root entry is covered by the held bits. */
  method ReadRoot(r0: Reader, code: array<Entry>, root: nat, ghost m: seq<Sense>, ghost lens: seq<nat>)
    returns (ok: bool, r: Reader, here: Entry)
    requires BitsOK(r0) && Decodes(code[..], root, m, lens)
    ensures Pulling(r0, r, lens)
    ensures ok ==> Low(r.hold, root) < code.Length && here == code[Low(r.hold, root)] && here.bits <= r.bits
    ensures ok && IsLink(here) ==>
              here.bits == root && root + here.op <= 15 && exists v :: 0 <= v < |lens| && lens[v] > root
    ensures ok && !IsLink(here) ==> here.bits >= 1 && Answers(m, lens, Lookup(lens, Held(r)), here.bits, here)
    ensures !ok ==> Waits(r, lens)
  {
    hide Lookup, Low, LVal, TableOK, Kraft, Answers, IsLink, BytesBits, PullByte;
    r := r0;
    while true
      invariant Pulling(r0, r, lens)
      decreases r.have
    {
      RootEntry(code[..], root, m, lens, Held(r));
      here := code[Low(r.hold, root)];
      if here.bits <= r.bits {
        return true, r, here;
      }
      RoomToPull(r, lens);
      if r.have == 0 {
        StartsToWait(r, lens);
        return false, r, here;
      }
      PullKeeps(r);
      r := PullByte(r);
    }
  }

  /** What was held is still held after a pull. */
  lemma {:induction false} PullKeeps(r: Reader)
    requires BitsOK(r) && r.have > 0 && r.bits <= 24
    ensures var r' := PullByte(r); r'.stream[r'.pos..r'.pos + r'.bits - 8] == Held(r)
  {
  }

  /** The second loop: until the sub-table entry is covered too. */
  method ReadSub(r0: Reader, code: array<Entry>, root: nat, last: Entry, ghost m: seq<Sense>, ghost lens: seq<nat>)
    returns (ok: bool, r: Reader, here: Entry)
    requires BitsOK(r0) && Decodes(code[..], root, m, lens)
    requires Low(r0.hold, root) < code.Length && last == code[Low(r0.hold, root)]
    requires IsLink(last) && last.bits == root <= r0.bits
    ensures Pulling(r0, r, lens)
    ensures ok ==> here.bits >= 1 && root + here.bits <= r.bits
    ensures ok ==> Answers(m, lens, Lookup(lens, Held(r)), root + here.bits, here)
    ensures !ok ==> Waits(r, lens)
  {
    hide Lookup, Low, Shr, LVal, TableOK, Kraft, Answers, IsLink, BytesBits, PullByte;
    r := r0;
    while true
      invariant Pulling(r0, r, lens) && root <= r.bits
      invariant Low(r.hold, root) < code.Length && last == code[Low(r.hold, root)]
      decreases r.have
    {
      SubEntry(code[..], root, m, lens, Held(r));
      here := code[last.val + Shr(Low(r.hold, last.bits + last.op), last.bits)];
      if last.bits + here.bits <= r.bits {
        return true, r, here;
      }
      RoomToPull(r, lens);
      if r.have == 0 {
        StartsToWait(r, lens);
        return false, r, here;
      }
      PullKeeps(r);
      ghost var n := r.bits;
      r := PullByte(r);
      SameIndex(r.stream, r.pos, n, r.bits, root);
    }
  }

  lemma {:induction false} PullingOn(a: Reader, b: Reader, c: Reader, lens: seq<nat>)
    requires Pulling(a, b, lens) && Pulling(b, c, lens)
    ensures Pulling(a, c, lens)
  {
    hide BitsOK, Lookup;
  }

  /** The symbol that the entry names is off the stream. */
  lemma {:induction false} SymbolTaken(r0: Reader, r: Reader, m: seq<Sense>, lens: seq<nat>, len: nat, e: Entry,
                                       r': Reader)
    requires BitsOK(r0) && Tight(r0, lens) && Pulling(r0, r, lens) && len <= r.bits
    requires LensOK(lens) && Kraft(lens) <= FULL && Sound(lens) && Answers(m, lens, Lookup(lens, Held(r)), len, e)
    requires r'.pos == r.pos + len && r'.bits == r.bits - len && e.bits >= 1 && len >= 1
    ensures r'.bits < 8 && r0.pos < |r0.stream|
    ensures Took(m, lens, Lookup(lens, r0.stream[r0.pos..]), r0.pos, r'.pos, e)
  {
    hide Lookup, LVal, Kraft, Took, BytesBits;
    LessThanByte(r, m, lens, len, e);
    Taken(m, lens, r.stream, r.pos, r.bits, len, e);
  }

  /** Reads one symbol through the table `code`, pulling bytes only as they are needed; the two DROPBITS,
      for the root table and for the sub-table, take it off the stream. */
  method ReadCode(r0: Reader, code: array<Entry>, root: nat, opZeroLinks: bool, ghost m: seq<Sense>,
                  ghost lens: seq<nat>)
    returns (ok: bool, r: Reader, here: Entry)
    requires BitsOK(r0) && Tight(r0, lens) && Decodes(code[..], root, m, lens)
    requires opZeroLinks ==> forall v :: 0 <= v < |m| ==> m[v].op != 0
    ensures BitsOK(r) && Consumed(r0, r)
    ensures ok ==> r.bits < 8 && r0.pos < |r0.stream|
    ensures ok ==> Took(m, lens, Lookup(lens, r0.stream[r0.pos..]), r0.pos, r.pos, here)
    ensures !ok ==> r.pos == r0.pos && Waits(r, lens)
  {
    hide Lookup, Low, Shr, LVal, TableOK, Kraft, Took, BytesBits, BitsOK, Tight, Needed, Waits, Eight, Pow2;
    ok, r, here := ReadRoot(r0, code, root, m, lens);
    if !ok {
      return;
    }
    var dropped := 0;
    if (opZeroLinks || here.op != 0) && here.op < 16 {
      dropped := here.bits;
      ghost var r1 := r;
      ok, r, here := ReadSub(r, code, root, here, m, lens);
      PullingOn(r0, r1, r, lens);
      if !ok {
        return;
      }
    }
    ghost var r1 := r;
    r := DropBits(r, dropped);
    r := DropBits(r, here.bits);
    SymbolTaken(r0, r1, m, lens, dropped + here.bits, here, r);
  }
}
