/** One iteration of the loop of `inflate_fast`: a literal, a match, the end of a block or an error. */
module FastSteps {
  import opened Bits
  import opened Huffman
  import opened CodeTables
  import opened Outputs
  import opened Streams
  import opened ReadCodes
  import opened Coding
  import opened StepLenLensMode
  import opened EntryOps
  import opened SymbolEnds
  import opened StepCodes
  import opened FastCodes
  import opened FastCopies
  import opened Steps
  import Rfc = Rfc1951

  // ----- how many bytes an iteration reads -----

  /** Every byte taken from the input is either held or used. */
  lemma {:induction false} BytesTaken(a: Reader, r: Reader)
    requires BitsOK(a) && BitsOK(r) && Consumed(a, r)
    ensures r.have <= a.have && Eight(a.have - r.have) + a.pos + a.bits == r.pos + r.bits
  {
    hide BytesBits, LVal;
  }

  /** Before a pull: at most five bytes have been read since the start of the iteration. */
  lemma {:induction false} RoomForOne(a: Reader, r: Reader)
    requires BitsOK(a) && BitsOK(r) && Consumed(a, r) && (r.pos - a.pos) + r.bits <= 47
    ensures a.have - r.have <= 5
  {
    hide BitsOK;
    BytesTaken(a, r);
  }

  lemma {:induction false} RoomForTwo(a: Reader, r: Reader)
    requires BitsOK(a) && BitsOK(r) && Consumed(a, r) && (r.pos - a.pos) + r.bits <= 39
    ensures a.have - r.have <= 4
  {
    hide BitsOK;
    BytesTaken(a, r);
  }

  /** What holds within an iteration that began at `a`: six bytes of input suffice, thirty bits are the most. */
  ghost predicate Within(a: Reader, r: Reader, used: nat) {
    && BitsOK(a) && a.have >= 6
    && BitsOK(r) && Consumed(a, r) && a.have - r.have <= 6 && r.bits <= 30 && r.pos <= a.pos + used
  }

  /** Two bytes more unless fifteen bits are held. */
  method Fill(ghost a: Reader, r0: Reader, ghost used: nat) returns (r: Reader)
    requires Within(a, r0, used) && used <= 20
    ensures Within(a, r, used) && r.pos == r0.pos && r.bits >= 15 && r.stream == r0.stream
  {
    hide BitsOK, PullByte;
    r := r0;
    if r.bits < 15 {
      RoomForTwo(a, r);
      r := PullByte(r);
      r := PullByte(r);
    }
  }

  /** One byte more unless enough bits are held. */
  method PullIf(ghost a: Reader, r0: Reader, op: nat, ghost used: nat) returns (r: Reader)
    requires Within(a, r0, used) && op <= 13 && used <= 35
    ensures Within(a, r, used) && r.pos == r0.pos && r.stream == r0.stream
    ensures r.bits == if r0.bits < op then r0.bits + 8 else r0.bits
  {
    hide BitsOK, PullByte;
    r := r0;
    if r.bits < op {
      RoomForOne(a, r);
      r := PullByte(r);
    }
  }

  lemma {:induction false} WithinOn(a: Reader, r: Reader, r': Reader, used: nat, n: nat)
    requires Within(a, r, used) && BitsOK(r') && Consumed(r, r') && r'.have == r.have && r'.bits <= r.bits
    requires r'.pos <= r.pos + n
    ensures Within(a, r', used + n)
  {
    hide BitsOK;
  }

  // ----- what the parts of a match mean -----

  lemma {:induction false} LenExtGoes(c: Control, past: seq<byte>, s: seq<bool>, p: nat)
    requires Shape(c) && c.mode == AtLenExt && p + c.extra <= |s|
    ensures var c' := c.(mode := AtDist, length := c.length + Rfc.Field(s, p, c.extra));
            Shape(c') && Go(c', past, s, p + c.extra) == Go(c, past, s, p)
  {
    hide Rfc.Distance, Rfc.Field;
  }

  lemma {:induction false} DistExtGoes(c: Control, past: seq<byte>, s: seq<bool>, p: nat)
    requires Shape(c) && c.mode == AtDistExt && p + c.extra <= |s|
    ensures var offset := c.offset + Rfc.Field(s, p, c.extra);
            var c' := c.(mode := AtMatch, offset := offset);
            if offset > c.dmax then Go(c, past, s, p) == Rfc.Fails(past)
            else Shape(c') && Go(c', past, s, p + c.extra) == Go(c, past, s, p)
  {
    hide Rfc.Match, Rfc.Field;
  }

  lemma {:induction false} MatchGoes(c: Control, past: seq<byte>, s: seq<bool>, p: nat)
    requires Shape(c) && c.mode == AtMatch && 1 <= c.offset
    ensures if c.offset > |past| then Go(c, past, s, p) == Rfc.Fails(past)
            else Go(c, past, s, p) == Rfc.Symbols(Rfc.Program, c.litLens, c.distLens, c.last, c.dmax,
                                                  Rfc.CopyMatch(past, c.offset, c.length), s, p)
  {
    hide Rfc.Symbols, Rfc.CopyMatch;
  }

  /** No match is longer than 258. */
  lemma {:induction false} LengthLimit(v: nat, more: nat)
    requires 257 <= v <= 285 && more < Pow2(LengthExtra(v))
    ensures 3 <= LengthBase(v) + more <= 258
  {
    hide Scale, Pow2;
    Pow2Values();
    if 265 <= v < 285 {
      var k := (v - 261) / 4;
      ScaleMono(4 + (v - 265) % 4, 7, k);
      ScaleIsMul(7, k);
      Pow2Mono(k, 5);
    }
  }

  /** The length of a match, from its symbol's entry and the extra bits. */
  method FastLength(ghost a: Reader, r0: Reader, op: nat, base: nat) returns (len: nat, r: Reader)
    requires Within(a, r0, 15) && op <= 5
    ensures Within(a, r, 20) && r0.pos + op <= |r0.stream| && r.pos == r0.pos + op && r.stream == r0.stream
    ensures len == base + Rfc.Field(r0.stream, r0.pos, op)
  {
    hide BitsOK, Rfc.Field, PullByte, Low, LVal;
    len, r := base, r0;
    if op != 0 {
      r := PullIf(a, r, op, 15);
      ghost var r1 := r;
      var more;
      more, r := TakeField(r, op);
      len := len + more;
      WithinOn(a, r1, r, 15, op);
    } else {
      NoField(r0);
    }
  }

  /** The extra bits of a distance; they are dropped only if the distance is within the window size. */
  method FastDistance(ghost a: Reader, r0: Reader, op: nat, base: nat, dmax: nat)
    returns (bad: bool, dist: nat, r: Reader)
    requires Within(a, r0, 35) && op <= 13
    ensures Within(a, r, 48) && r0.pos + op <= |r0.stream| && r.stream == r0.stream
    ensures dist == base + Rfc.Field(r0.stream, r0.pos, op) && (bad <==> dist > dmax)
    ensures r.pos == if bad then r0.pos else r0.pos + op
  {
    hide BitsOK, Rfc.Field, PullByte, Low, LVal;
    r := PullIf(a, r0, op, 35);
    r := PullIf(a, r, op, 35);
    HeldLow(r, op);
    dist := base + Low(r.hold, op);
    bad := dist > dmax;
    ghost var r1 := r;
    if !bad {
      r := DropBits(r, op);
    }
    WithinOn(a, r1, r, 35, 13);
  }

  // ----- a match -----

  lemma {:induction false} DistFast(lens: seq<nat>, l: Symbol, p: nat, q: nat, here: Entry)
    requires Took(Senses(Dists), lens, l, p, q, here)
    ensures And16(here.op) <==> !And64(here.op)
    ensures And16(here.op) ==> And15(here.op) <= 13 && 1 <= here.val
  {
    hide Scale;
  }

  lemma {:induction false} LenFast(lens: seq<nat>, l: Symbol, p: nat, q: nat, here: Entry, more: nat)
    requires Took(Senses(Lens), lens, l, p, q, here)
    ensures here.op == 0 ==> here.val < 256
    ensures And16(here.op) ==>
      && here.op != 0 && !And32(here.op) && !And64(here.op) && And15(here.op) <= 5
      && (more < Pow2(And15(here.op)) ==> 3 <= here.val + more <= 258)
    ensures here.op != 0 && !And16(here.op) && !And32(here.op) ==> And64(here.op)
  {
    hide Scale, Pow2, LengthBase, Senses;
    LenSense(lens, l, p, q, here);
    if l.Found? && 257 <= l.sym <= 285 && more < Pow2(LengthExtra(l.sym)) {
      LengthLimit(l.sym, more);
    }
  }

  /** The parts of the state that the fast path reads and does not change. */
  ghost predicate FastReady(c: Control, t: Tables, w: Window, before: seq<byte>) {
    && c.mode == AtLen && Shape(c) && 256 <= c.dmax <= WSIZE
    && Decodes(t.lencode, t.lenbits, Senses(Lens), c.litLens)
    && Decodes(t.distcode, t.distbits, Senses(Dists), c.distLens)
    && WindowOK(w) && w.ringed == before
  }

  /** The outcome is kept while one or more symbols are decoded; `m` is the mode that follows. */
  ghost predicate FastKept(c: Control, o: Writer, s: seq<bool>, p: nat, m: Mode, o': Writer, p': nat) {
    && Shape(c) && c.mode == AtLen && (m == AtLen || m == AtType || m == AtBad)
    && Go(c.(mode := m), o'.past, s, p') == Go(c, o.past, s, p)
  }

  /** Exactly one symbol: it ends in this mode, with this output and, unless it is an error, at this position. */
  ghost predicate EndsAt(c: Control, past: seq<byte>, s: seq<bool>, p: nat, m: Mode, past': seq<byte>, p': nat) {
    && Shape(c) && c.mode == AtLen
    && Pending(c, past, s, p) == At(m, past', if m == AtBad then 0 else p')
  }

  /** The slow modes, one after the other until the symbol is done, and one iteration of the fast path end in the
      same mode with the same output and, unless that is an error, at the same position. */
  lemma {:induction false} FastIsSlow(c: Control, past: seq<byte>, s: seq<bool>, p: nat, m: Mode, past1: seq<byte>,
                                      p1: nat, c2: Control, past2: seq<byte>, p2: nat)
    requires EndsAt(c, past, s, p, m, past1, p1)
    requires SameEnd(c, past, p, c2, past2, p2, s) && !InSymbol(c2.mode)
    ensures c2.mode == m && past2 == past1 && (m != AtBad ==> p2 == p1)
  {
    hide Pending;
  }

  /** Steps within a symbol compose. */
  lemma {:induction false} SameEndOn(c: Control, past: seq<byte>, p: nat, c1: Control, past1: seq<byte>, p1: nat,
                                     c2: Control, past2: seq<byte>, p2: nat, s: seq<bool>)
    requires SameEnd(c, past, p, c1, past1, p1, s) && InSymbol(c1.mode) && SameEnd(c1, past1, p1, c2, past2, p2, s)
    ensures SameEnd(c, past, p, c2, past2, p2, s)
  {
    hide Pending;
  }

  /** n symbols. */
  ghost predicate EndsAfter(n: nat, c: Control, past: seq<byte>, s: seq<bool>, p: nat, m: Mode, past': seq<byte>,
                            p': nat) {
    && Shape(c) && c.mode == AtLen
    && SymbolsFrom(n, c.litLens, c.distLens, c.dmax, past, s, p) == At(m, past', if m == AtBad then 0 else p')
  }

  lemma {:induction false} EndsOneMore(n: nat, c: Control, past: seq<byte>, s: seq<bool>, p: nat, past1: seq<byte>,
                                       p1: nat, m: Mode, past2: seq<byte>, p2: nat)
    requires EndsAfter(n, c, past, s, p, AtLen, past1, p1) && EndsAt(c, past1, s, p1, m, past2, p2)
    ensures EndsAfter(n + 1, c, past, s, p, m, past2, p2)
  {
    hide SymbolFrom;
  }

  lemma {:induction false} FastBad(c: Control, o: Writer, s: seq<bool>, p: nat, p': nat)
    requires Shape(c) && c.mode == AtLen && Go(c, o.past, s, p) == Rfc.Fails(o.past)
    requires Pending(c, o.past, s, p) == Error(o.past)
    ensures FastKept(c, o, s, p, AtBad, o, p') && EndsAt(c, o.past, s, p, AtBad, o.past, p')
  {
  }

  /** The length symbol and its extra bits. */
  lemma {:induction false} AtDistance(c: Control, past: seq<byte>, s: seq<bool>, p: nat, here: Entry, q: nat, len: nat,
                                      q': nat) returns (c': Control)
    requires Shape(c) && c.mode == AtLen && p < |s|
    requires Took(Senses(Lens), c.litLens, Lookup(c.litLens, s[p..]), p, q, here) && And16(here.op)
    requires q' == q + And15(here.op) <= |s| && len == here.val + Rfc.Field(s, q, And15(here.op))
    ensures 3 <= len <= 258
    ensures c' == c.(mode := AtDist, length := len, extra := And15(here.op)) && Shape(c')
    ensures Go(c', past, s, q') == Go(c, past, s, p) && Pending(c', past, s, q') == Pending(c, past, s, p)
  {
    hide Go, Shape, Lookup, Took, Rfc.Field, And15, And16, And32, And64, Pow2, Pending;
    LenGoes(c, past, s, p, q, here);
    LenEnds(c, past, s, p, q, here);
    LenFast(c.litLens, Lookup(c.litLens, s[p..]), p, q, here, Rfc.Field(s, q, And15(here.op)));
    FieldBound(s, q, And15(here.op));
    var c1 := AfterLen(c, here);
    LenExtGoes(c1, past, s, q);
    LenExtEnds(c1, past, s, q);
    c' := c1.(mode := AtDist, length := len);
  }

  /** The distance symbol and its extra bits. */
  lemma {:induction false} AtCopying(c: Control, past: seq<byte>, s: seq<bool>, p: nat, here: Entry, q: nat, dist: nat,
                                     q': nat)
    requires Shape(c) && c.mode == AtDist && p < |s|
    requires Took(Senses(Dists), c.distLens, Lookup(c.distLens, s[p..]), p, q, here) && And16(here.op)
    requires q' == q + And15(here.op) <= |s| && dist == here.val + Rfc.Field(s, q, And15(here.op))
    ensures 1 <= dist
    ensures dist > c.dmax || dist > |past| ==>
              Go(c, past, s, p) == Rfc.Fails(past) && Pending(c, past, s, p) == Error(past)
    ensures dist <= c.dmax && dist <= |past| ==>
      && Pending(c, past, s, p) == At(AtLen, Rfc.CopyMatch(past, dist, c.length), q')
      && Go(c, past, s, p) == Rfc.Symbols(Rfc.Program, c.litLens, c.distLens, c.last, c.dmax,
                                          Rfc.CopyMatch(past, dist, c.length), s, q')
  {
    hide Go, Shape, Lookup, Took, Rfc.Field, And15, And16, And32, And64, Rfc.CopyMatch, Rfc.Symbols, Rfc.Fails, Pending;
    DistGoes(c, past, s, p, q, here);
    DistEnds(c, past, s, p, q, here);
    DistFast(c.distLens, Lookup(c.distLens, s[p..]), p, q, here);
    var c1 := AfterDist(c, here);
    DistExtGoes(c1, past, s, q);
    DistExtEnds(c1, past, s, q);
    if dist <= c.dmax {
      var c2 := c1.(mode := AtMatch, offset := dist);
      MatchGoes(c2, past, s, q');
      MatchPending(c2, past, s, q');
    }
  }

  lemma {:induction false} MatchPending(c: Control, past: seq<byte>, s: seq<bool>, p: nat)
    requires Shape(c) && c.mode == AtMatch && 1 <= c.offset
    ensures Pending(c, past, s, p) ==
              if c.offset > |past| then Error(past) else At(AtLen, Rfc.CopyMatch(past, c.offset, c.length), p)
  {
  }

  lemma {:induction false} NoDistance(c: Control, past: seq<byte>, s: seq<bool>, p: nat, here: Entry, q: nat)
    requires Shape(c) && c.mode == AtDist && p < |s|
    requires Took(Senses(Dists), c.distLens, Lookup(c.distLens, s[p..]), p, q, here) && !And16(here.op)
    ensures Go(c, past, s, p) == Rfc.Fails(past) && Pending(c, past, s, p) == Error(past)
  {
    hide Go, Shape, Lookup, Took, And15, And16, And32, And64, Rfc.Fails, Pending;
    DistGoes(c, past, s, p, q, here);
    DistEnds(c, past, s, p, q, here);
    DistFast(c.distLens, Lookup(c.distLens, s[p..]), p, q, here);
    GoBad(AfterDist(c, here), past, s, q);
  }

  /** A copied match leads back to LEN. */
  lemma {:induction false} MatchDone(c: Control, o: Writer, s: seq<bool>, p: nat, dist: nat, len: nat, o': Writer,
                                     q: nat)
    requires Shape(c) && c.mode == AtLen && Copied(o, dist, len, o')
    requires Go(c, o.past, s, p) == Rfc.Symbols(Rfc.Program, c.litLens, c.distLens, c.last, c.dmax,
                                                Rfc.CopyMatch(o.past, dist, len), s, q)
    requires Pending(c, o.past, s, p) == At(AtLen, Rfc.CopyMatch(o.past, dist, len), q)
    ensures FastKept(c, o, s, p, AtLen, o', q) && EndsAt(c, o.past, s, p, AtLen, o'.past, q) && o'.left == o.left - len
  {
    hide Rfc.Symbols, Rfc.CopyMatch;
  }

  /** The distance, and the mode BAD if there is none or it is too large. */
  method FastDist(s: Stream, ghost a: Reader, r0: Reader, ghost c: Control, ghost past: seq<byte>)
    returns (bad: bool, dist: nat, r: Reader)
    requires Decodes(s.distcode[..], s.distbits, Senses(Dists), c.distLens) && Within(a, r0, 20)
    requires Shape(c) && c.mode == AtDist && c.dmax == s.dmax
    ensures Within(a, r, 48) && r.stream == r0.stream && r0.pos < r.pos
    ensures bad || dist > |past| ==>
      Go(c, past, r0.stream, r0.pos) == Rfc.Fails(past) && Pending(c, past, r0.stream, r0.pos) == Error(past)
    ensures !bad ==> 1 <= dist <= s.dmax
    ensures !bad && dist <= |past| ==>
      && Pending(c, past, r0.stream, r0.pos) == At(AtLen, Rfc.CopyMatch(past, dist, c.length), r.pos)
      && Go(c, past, r0.stream, r0.pos)
      == Rfc.Symbols(Rfc.Program, c.litLens, c.distLens, c.last, c.dmax, Rfc.CopyMatch(past, dist, c.length), r.stream,
                     r.pos)
  {
    hide Go, Shape, Lookup, Took, Rfc.Field, And15, And16, And32, And64, Rfc.CopyMatch, Rfc.Symbols, Rfc.Fails, Decodes,
      BitsOK, Pending, LVal, Low, FastLink, NoFastLinks, BytesBits, Senses, Eight;
    SensesNoFastLinks();
    r := Fill(a, r0, 20);
    ghost var r1 := r;
    var here;
    r, here := FastCode(r, s.distcode, s.distbits, true, Senses(Dists), c.distLens);
    WithinOn(a, r1, r, 20, 15);
    TookMoves(Senses(Dists), c.distLens, Lookup(c.distLens, r1.stream[r1.pos..]), r1.pos, r.pos, here);
    bad, dist := true, 0;
    if And16(here.op) {
      DistFast(c.distLens, Lookup(c.distLens, r1.stream[r1.pos..]), r1.pos, r.pos, here);
      ghost var q := r.pos;
      bad, dist, r := FastDistance(a, r, And15(here.op), here.val, s.dmax);
      AtCopying(c, past, r.stream, r1.pos, here, q, dist, q + And15(here.op));
    } else {
      NoDistance(c, past, r.stream, r1.pos, here, r.pos);
      WithinOn(a, r, r, 35, 13);
    }
  }

  lemma {:induction false} TookMoves(m: seq<Sense>, lens: seq<nat>, l: Symbol, p: nat, q: nat, here: Entry)
    requires Took(m, lens, l, p, q, here)
    ensures q > p
  {
  }

  lemma {:induction false} FastParts(c: Control, t: Tables, w: Window, before: seq<byte>)
    requires FastReady(c, t, w, before)
    ensures c.mode == AtLen && Shape(c) && 256 <= c.dmax <= WSIZE && WindowOK(w) && w.ringed == before
    ensures Decodes(t.lencode, t.lenbits, Senses(Lens), c.litLens)
    ensures Decodes(t.distcode, t.distbits, Senses(Dists), c.distLens)
  {
  }

  /** A length/distance pair, from the entry of the length symbol on; `p` is where the iteration began. */
  method FastMatch(s: Stream, ghost a: Reader, ghost p: nat, r0: Reader, here: Entry, o: Writer, start: nat,
                   ghost o0: Writer, ghost b0: seq<byte>)
    returns (mode: Mode, r: Reader, o': Writer)
    requires FastReady(s.C(), s.T(), s.W(), o0.past) && Within(a, r0, 15) && p < |r0.stream|
    requires Took(Senses(Lens), s.litLens, Lookup(s.litLens, r0.stream[p..]), p, r0.pos, here) && And16(here.op)
    requires Wrote(o0, b0, o, s.output[..]) && start == o0.left && o.left >= 258 && s.window != s.output
    modifies s.output
    ensures Within(a, r, 48) && r0.pos <= r.pos && r.stream == r0.stream
    ensures Wrote(o0, b0, o', s.output[..]) && o'.left <= o.left <= o'.left + 258
    ensures FastKept(old(s.C()), o, r.stream, p, mode, o', r.pos)
    ensures EndsAt(old(s.C()), o.past, r.stream, p, mode, o'.past, r.pos)
  {
    hide Go, Shape, Lookup, Took, Rfc.Field, And15, And16, And32, And64, Rfc.CopyMatch, Rfc.Symbols, Rfc.Fails, Decodes,
      BitsOK, Pending, LVal, Low, Wrote, FastReady, FastKept, EndsAt, WindowOK, Copied, Senses, Eight,
      Within, BytesBits;
    ghost var c := s.C();
    FastParts(c, s.T(), s.W(), o0.past);
    LenFast(c.litLens, Lookup(c.litLens, r0.stream[p..]), p, r0.pos, here, 0);
    mode, o' := AtBad, o;
    var len, dist, bad;
    len, r := FastLength(a, r0, And15(here.op), here.val);
    ghost var c1 := AtDistance(c, o.past, r.stream, p, here, r0.pos, len, r.pos);
    ghost var q := r.pos;
    bad, dist, r := FastDist(s, a, r, c1, o.past);
    if bad {
      FastBad(c, o, r.stream, p, r.pos);
      return;
    }
    var tooFar;
    tooFar, o' := FastCopy(s, o, len, dist, start, o0, b0);
    if tooFar {
      FastBad(c, o, r.stream, p, r.pos);
      return;
    }
    mode := AtLen;
    MatchDone(c, o, r.stream, p, dist, len, o', r.pos);
  }

  /** A literal. */
  lemma {:induction false} FastLiteral(c: Control, o: Writer, s: seq<bool>, p: nat, here: Entry, q: nat)
    requires Shape(c) && c.mode == AtLen && p < |s| && o.left >= 1
    requires Took(Senses(Lens), c.litLens, Lookup(c.litLens, s[p..]), p, q, here) && here.op == 0
    ensures here.val < 256 && FastKept(c, o, s, p, AtLen, Put(o, [here.val]), q)
    ensures EndsAt(c, o.past, s, p, AtLen, o.past + [here.val], q)
  {
    hide Lookup, Took, Rfc.Symbols, Senses;
    LenGoes(c, o.past, s, p, q, here);
    LenEnds(c, o.past, s, p, q, here);
    LenFast(c.litLens, Lookup(c.litLens, s[p..]), p, q, here, 0);
  }

  /** The end of a block, or no valid symbol. */
  lemma {:induction false} FastEnd(c: Control, o: Writer, s: seq<bool>, p: nat, here: Entry, q: nat)
    requires Shape(c) && c.mode == AtLen && p < |s| && here.op != 0 && !And16(here.op)
    requires Took(Senses(Lens), c.litLens, Lookup(c.litLens, s[p..]), p, q, here)
    ensures var m := if And32(here.op) then AtType else AtBad;
            FastKept(c, o, s, p, m, o, q) && EndsAt(c, o.past, s, p, m, o.past, q)
  {
    hide Lookup, Took, Rfc.Symbols, Senses, And15, And16, And32, And64, Rfc.Type;
    LenGoes(c, o.past, s, p, q, here);
    LenEnds(c, o.past, s, p, q, here);
    LenFast(c.litLens, Lookup(c.litLens, s[p..]), p, q, here, 0);
  }

  /** Where the first symbol ends: beyond what was held, if that held no symbol. */
  lemma {:induction false} FirstSymbol(a: Reader, lens: seq<nat>, m: seq<Sense>, q: nat, here: Entry)
    requires BitsOK(a) && a.pos < |a.stream| && Tight(a, lens) && LensOK(lens) && Kraft(lens) <= FULL && Sound(lens)
    requires Took(m, lens, Lookup(lens, a.stream[a.pos..]), a.pos, q, here)
    ensures q + 8 > a.pos + a.bits
  {
    hide BytesBits, LVal, Kraft;
    if a.bits >= 8 {
      var b, d := Held(a), a.stream[a.pos + a.bits..];
      assert a.stream[a.pos..] == b + d;
      match Lookup(lens, b + d)
      case Found(v) =>
        if lens[v] <= |b| {
          assert (b + d)[..lens[v]] == b[..lens[v]];
          LookupIs(lens, v, b);
        }
      case NoCode =>
        NoCodeAtOnce(lens, b, d);
    }
  }

  /** One iteration: it needs no test for input or room. */
  method FastStep(s: Stream, r0: Reader, o: Writer, start: nat, ghost o0: Writer, ghost b0: seq<byte>)
    returns (mode: Mode, r: Reader, o': Writer)
    requires FastReady(s.C(), s.T(), s.W(), o0.past) && BitsOK(r0) && r0.bits <= 30 && r0.have >= 6
    requires Wrote(o0, b0, o, s.output[..]) && start == o0.left && o.left >= 258 && s.window != s.output
    modifies s.output
    ensures Within(r0, r, 48) && r0.pos < r.pos && r.stream == r0.stream
    ensures Tight(r0, s.litLens) ==> r.pos + 8 > r0.pos + r0.bits
    ensures Wrote(o0, b0, o', s.output[..]) && o'.left <= o.left <= o'.left + 258
    ensures FastKept(old(s.C()), o, r.stream, r0.pos, mode, o', r.pos)
    ensures EndsAt(old(s.C()), o.past, r.stream, r0.pos, mode, o'.past, r.pos)
  {
    hide Go, Shape, Lookup, Took, And15, And16, And32, And64, Decodes, BitsOK, LVal, Low, Wrote, FastReady, FastKept,
      EndsAt, WindowOK, Senses, Eight, FastLink, NoFastLinks, Tight, BytesBits;
    ghost var c := s.C();
    FastParts(c, s.T(), s.W(), o0.past);
    SensesNoFastLinks();
    var here;
    r := Fill(r0, r0, 0);
    ghost var r1 := r;
    r, here := FastCode(r, s.lencode, s.lenbits, false, Senses(Lens), s.litLens);
    WithinOn(r0, r1, r, 0, 15);
    TookMoves(Senses(Lens), c.litLens, Lookup(c.litLens, r1.stream[r1.pos..]), r1.pos, r.pos, here);
    FirstMoves(r0, s.lencode[..], s.lenbits, c.litLens, r.pos, here);
    ghost var p := r0.pos;
    if here.op == 0 {
      FastLiteral(c, o, r.stream, p, here, r.pos);
      WroteRoom(o0, b0, o, s.output[..]);
      ghost var b := s.output[..];
      s.output[o.put] := here.val;
      WroteMore(o0, b0, o, b, [here.val], s.output[..]);
      mode, o' := AtLen, Writer(o.put + 1, o.left - 1, o.past + [here.val]);
      WithinOn(r0, r, r, 15, 33);
    } else if And16(here.op) {
      mode, r, o' := FastMatch(s, r0, p, r, here, o, start, o0, b0);
    } else {
      FastEnd(c, o, r.stream, p, here, r.pos);
      mode, o' := if And32(here.op) then AtType else AtBad, o;
      WithinOn(r0, r, r, 15, 33);
    }
  }

  lemma {:induction false} FirstMoves(a: Reader, t: seq<Entry>, root: nat, lens: seq<nat>, q: nat, here: Entry)
    requires BitsOK(a) && a.pos < |a.stream| && Decodes(t, root, Senses(Lens), lens)
    requires Took(Senses(Lens), lens, Lookup(lens, a.stream[a.pos..]), a.pos, q, here)
    ensures Tight(a, lens) ==> q + 8 > a.pos + a.bits
  {
    hide BitsOK, Kraft, Lookup, Took, LVal, TableOK, Tight;
    if Tight(a, lens) {
      FirstSymbol(a, lens, Senses(Lens), q, here);
    }
  }
}
