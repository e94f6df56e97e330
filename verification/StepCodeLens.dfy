/** The code lengths of a block: the CODELENS mode. */
module StepCodeLensMode {
  import opened Bits
  import opened Huffman
  import opened CodeTables
  import opened Adler
  import opened Outputs
  import opened Streams
  import opened Coding
  import opened ReadCodes
  import opened Steps
  import opened StepLenLensMode
  import Rfc = Rfc1951

  // ----- what a symbol of the code length code says -----

  /** A code length symbol stands for itself; only a bit that is no code reads as zero. */
  lemma {:induction false} LengthSymbol(lens: seq<nat>, r: Symbol, len: nat, here: Entry)
    requires |lens| == 19 && Answers(Senses(Codes), lens, r, len, here)
    ensures here.val <= 18
    ensures here.val >= 16 ==> r == Found(here.val) && len == lens[here.val]
    ensures here.val < 16 && r.Found? ==> r == Found(here.val) && len == lens[here.val]
    ensures r.NoCode? ==> here.val == 0 && len == 1
  {
  }

  /** Codes of at most seven bits: fewer bits are held while waiting for one. */
  lemma {:induction false} FewWhileWaiting(lens: seq<nat>, b: seq<bool>)
    requires (forall v :: 0 <= v < |lens| ==> lens[v] <= 7) && LensOK(lens) && Lookup(lens, b) == NeedMore
    ensures |b| < 7
  {
    if b != [] {
      var v: nat :| Extends(lens, v, b);
    }
  }

  /** What is known of the reader before a symbol is read, and of the table. */
  lemma {:induction false} ReadyCodeLens(r: Reader, past: seq<byte>, c: Control, t: Tables, before: seq<byte>)
    requires Ready(r, past, c, t, before) && c.mode == AtCodeLens
    ensures BitsOK(r) && (r.bits < 8 || (c.have < c.nlen + c.ndist && MidRepeat(r, c.codeLens))) && Shape(c)
    ensures c.have == |c.acc| <= c.nlen + c.ndist <= 316 && |t.lens| == 320 && t.lens[..c.have] == c.acc
    ensures t.dynamic && t.lenbits <= 7 && |c.codeLens| == 19 && forall v :: 0 <= v < 19 ==> c.codeLens[v] <= t.lenbits
    ensures Decodes(t.lencode, t.lenbits, Senses(Codes), c.codeLens) && LensOK(c.codeLens) && Kraft(c.codeLens) <= FULL
    ensures Sound(c.codeLens)
  {
    hide BitsOK, Kraft, TableOK, MidRepeat;
  }

  // ----- a length -----

  predicate LengthPut(c: Control, c': Control, t: Tables, t': Tables, v: nat) {
    && c.have < |t.lens|
    && c' == c.(have := c.have + 1, acc := c.acc + [v]) && t' == t.(lens := t.lens[c.have := v])
  }

  method PutLength(s: Stream, v: nat)
    requires s.have < s.lens.Length
    modifies s`have, s`acc, s.lens
    ensures LengthPut(old(s.C()), s.C(), old(s.T()), s.T(), v)
  {
    s.lens[s.have] := v;
    s.have := s.have + 1;
    s.acc := s.acc + [v];
  }

  lemma {:induction false} TablesPut(c: Control, t: Tables, c': Control, t': Tables, x: seq<nat>)
    requires TablesOK(c, t) && c.mode == AtCodeLens && c.have + |x| <= 320 && LensOK(x)
    requires c' == c.(have := c.have + |x|, acc := c.acc + x)
    requires t' == t.(lens := t.lens[..c.have] + x + t.lens[c.have + |x|..])
    ensures TablesOK(c', t')
  {
    hide Decodes;
  }

  /** The bits left after a length. */
  lemma {:induction false} LeftAfterLength(r0: Reader, r1: Reader, c: Control, here: Entry)
    requires BitsOK(r0) && Pulling(r0, r1, c.codeLens) && |c.codeLens| == 19
    requires r0.bits < 8 || MidRepeat(r0, c.codeLens)
    requires LensOK(c.codeLens) && Kraft(c.codeLens) <= FULL && Sound(c.codeLens)
    requires here.bits <= r1.bits && Answers(Senses(Codes), c.codeLens, Lookup(c.codeLens, Held(r1)), here.bits, here)
    ensures here.val < 16 ==> r1.bits - here.bits < 8
    ensures here.val >= 16 ==> r1.bits - here.bits < 8 || r1.bits < here.bits + Rfc.RepeatBits(here.val)
  {
    hide BytesBits, LVal, Kraft, Lookup;
    LengthSymbol(c.codeLens, Lookup(c.codeLens, Held(r1)), here.bits, here);
    if r1.bits == r0.bits && r0.bits >= 8 {
    } else {
      LessThanByte(r1, Senses(Codes), c.codeLens, here.bits, here);
    }
  }

  lemma {:induction false} LengthRead(r: Reader, o: Writer, c: Control, t: Tables, r1: Reader, here: Entry, r': Reader,
                                      c': Control, t': Tables, before: seq<byte>)
    requires Ready(r, o.past, c, t, before) && c.mode == AtCodeLens && c.have < c.nlen + c.ndist
    requires Pulling(r, r1, c.codeLens) && 1 <= here.bits <= r1.bits && here.val < 16
    requires Answers(Senses(Codes), c.codeLens, Lookup(c.codeLens, Held(r1)), here.bits, here)
    requires BitsOK(r') && Consumed(r1, r') && r'.pos == r1.pos + here.bits && r'.bits == r1.bits - here.bits
    requires LengthPut(c, c', t, t', here.val)
    ensures Stepped(r, o, c, r', o, c', t', before, false) && r'.pos > r.pos
  {
    hide Stepped, Took, Answers, Lookup, Kraft, Decodes, BitsOK, Ready, Go, LVal, TablesOK, Needed, Sound, LensOK,
      Eight, BytesBits, MidRepeat;
    PullingBits(r, r1, c.codeLens);
    ReadyShape(r, o.past, c, t, before);
    ReadyCodeLens(r, o.past, c, t, before);
    assert r'.bits < 8 by { LeftAfterLength(r, r1, c, here); }
    assert r.pos < |r.stream|
        && Took(Senses(Codes), c.codeLens, Lookup(c.codeLens, r.stream[r.pos..]), r.pos, r'.pos, here) by {
      Taken(Senses(Codes), c.codeLens, r1.stream, r1.pos, r1.bits, here.bits, here);
    }
    assert t'.lens == t.lens[..c.have] + [here.val] + t.lens[c.have + 1..];
    assert LensOK([here.val]) by { OneLensOK(here.val); }
    TablesPut(c, t, c', t', [here.val]);
    LengthGoes(r, o.past, c, r', c', here);
    LengthStays(r, o, c, t, r', c', t', before);
  }

  lemma {:induction false} PullingBits(r: Reader, r1: Reader, lens: seq<nat>)
    requires Pulling(r, r1, lens)
    ensures r1.pos + r1.bits <= |r1.stream| && r1.pos == r.pos && r1.stream == r.stream
  {
  }

  lemma {:induction false} ReadyShape(r: Reader, past: seq<byte>, c: Control, t: Tables, before: seq<byte>)
    requires Ready(r, past, c, t, before)
    ensures BitsOK(r) && Shape(c) && TablesOK(c, t)
  {
  }

  lemma {:induction false} OneLensOK(v: nat)
    requires v <= 15
    ensures LensOK([v])
  {
  }

  lemma {:induction false} LengthGoes(r: Reader, past: seq<byte>, c: Control, r': Reader, c': Control, here: Entry)
    requires Shape(c) && c.mode == AtCodeLens && |c.acc| < c.nlen + c.ndist && r.pos < |r.stream|
    requires r'.stream == r.stream
    requires Took(Senses(Codes), c.codeLens, Lookup(c.codeLens, r.stream[r.pos..]), r.pos, r'.pos, here)
    requires here.val < 16
    requires c' == c.(have := c'.have, acc := c.acc + [here.val])
    ensures Go(c', past, r'.stream, r'.pos) == Go(c, past, r.stream, r.pos)
  {
    hide Rfc.Symbols, Rfc.CodesUsable, Lookup;
  }

  lemma {:induction false} LengthStays(r: Reader, o: Writer, c: Control, t: Tables, r': Reader, c': Control, t': Tables,
                                       before: seq<byte>)
    requires Ready(r, o.past, c, t, before) && c.mode == AtCodeLens && BitsOK(r') && Consumed(r, r')
    requires r'.pos > r.pos && r'.bits < 8 && c' == c.(have := c'.have, acc := c'.acc) && Shape(c') && TablesOK(c', t')
    requires Go(c', o.past, r'.stream, r'.pos) == Go(c, o.past, r.stream, r.pos)
    ensures Stepped(r, o, c, r', o, c', t', before, false)
  {
    hide Go, BitsOK, TablesOK, Legal, Checksum;
  }

  // ----- a repeat -----

  /** Waiting for the symbol itself. */
  lemma {:induction false} LengthWaits(r: Reader, o: Writer, c: Control, t: Tables, r': Reader, before: seq<byte>)
    requires Ready(r, o.past, c, t, before) && c.mode == AtCodeLens && c.have < c.nlen + c.ndist
    requires BitsOK(r') && Consumed(r, r') && r'.pos == r.pos && Waits(r', c.codeLens)
    ensures Stepped(r, o, c, r', o, c, t, before, true)
  {
    hide Stepped, Lookup, Kraft, Decodes, BitsOK, Ready, LVal, TablesOK, Sound, LensOK, BytesBits, MidRepeat;
    ReadyCodeLens(r, o.past, c, t, before);
    FewWhileWaiting(c.codeLens, Held(r'));
    if r'.taken == |r'.bytes| {
      WaitsGoes(r, o.past, c, r');
    }
    CodeLensMode(r, o.past, c, t, r', before);
    ToWait(r, o, c, t, r', before);
  }

  lemma {:induction false} CodeLensMode(r: Reader, past: seq<byte>, c: Control, t: Tables, r': Reader,
                                        before: seq<byte>)
    requires Ready(r, past, c, t, before) && c.mode == AtCodeLens && c.have < c.nlen + c.ndist
    requires (r'.bits < 8 || MidRepeat(r', c.codeLens))
    ensures ModeOK(c, r', past)
  {
  }

  lemma {:induction false} WaitsGoes(r: Reader, past: seq<byte>, c: Control, r': Reader)
    requires Shape(c) && c.mode == AtCodeLens && |c.acc| < c.nlen + c.ndist
    requires r'.stream == r.stream && r'.pos == r.pos <= |r.stream| && Lookup(c.codeLens, r.stream[r.pos..]) == NeedMore
    ensures Go(c, past, r.stream, r.pos) == Rfc.NeedsMore(past)
  {
    hide Rfc.Symbols, Rfc.CodesUsable, Lookup;
  }

  /** The symbol v, a repeat, is at the reader's position and is held. */
  ghost predicate AtRepeat(r: Reader, c: Control, v: nat) {
    && |c.codeLens| == 19 && 16 <= v <= 18 && c.codeLens[v] <= r.bits && r.pos + r.bits <= |r.stream|
    && Lookup(c.codeLens, Held(r)) == Found(v) && Lookup(c.codeLens, r.stream[r.pos..]) == Found(v)
    && c.codeLens[v] >= 1
  }

  lemma {:induction false} RepeatWaits(r: Reader, o: Writer, c: Control, t: Tables, r': Reader, v: nat,
                                       before: seq<byte>)
    requires Ready(r, o.past, c, t, before) && c.mode == AtCodeLens && c.have < c.nlen + c.ndist
    requires BitsOK(r') && Consumed(r, r') && r'.pos == r.pos && AtRepeat(r', c, v) && r'.have == 0
    requires r'.bits < c.codeLens[v] + Rfc.RepeatBits(v)
    requires r'.taken == |r'.bytes| ==> |r'.stream| < r'.pos + c.codeLens[v] + Rfc.RepeatBits(v)
    ensures Stepped(r, o, c, r', o, c, t, before, true)
  {
    hide Stepped, Lookup, Kraft, Decodes, BitsOK, Ready, LVal, TablesOK, Sound, LensOK, BytesBits;
    ReadyCodeLens(r, o.past, c, t, before);
    RepeatWaitsGoes(r, o.past, c, v);
    CodeLensMode(r, o.past, c, t, r', before);
    ToWait(r, o, c, t, r', before);
  }

  lemma {:induction false} RepeatWaitsGoes(r: Reader, past: seq<byte>, c: Control, v: nat)
    requires Shape(c) && c.mode == AtCodeLens && |c.acc| < c.nlen + c.ndist && r.pos < |r.stream|
    requires Lookup(c.codeLens, r.stream[r.pos..]) == Found(v) && 16 <= v < 19
    ensures |r.stream| < r.pos + c.codeLens[v] + Rfc.RepeatBits(v) ==>
              Go(c, past, r.stream, r.pos) == Rfc.NeedsMore(past)
  {
    hide Rfc.Symbols, Rfc.CodesUsable, Lookup, Rfc.RepeatBits;
  }

  /** A repeat that has nothing to repeat or is too long. */
  predicate RepeatBad(c: Control, v: nat, n: nat) {
    (v == 16 && c.have == 0) || c.have + n > c.nlen + c.ndist
  }

  lemma {:induction false} RepeatGoes(r: Reader, past: seq<byte>, c: Control, r': Reader, c': Control, v: nat, n: nat)
    requires Shape(c) && c.mode == AtCodeLens && c.have == |c.acc| < c.nlen + c.ndist && r.pos < |r.stream|
    requires r'.stream == r.stream
    requires Lookup(c.codeLens, r.stream[r.pos..]) == Found(v) && 16 <= v < 19
    requires r'.pos == r.pos + c.codeLens[v] + Rfc.RepeatBits(v) <= |r.stream|
    requires n == Rfc.RepeatBase(v) + Rfc.Field(r.stream, r.pos + c.codeLens[v], Rfc.RepeatBits(v))
    ensures RepeatBad(c, v, n) ==> Go(c, past, r.stream, r.pos) == Rfc.Fails(past)
    ensures !RepeatBad(c, v, n)
            && c' == c.(have := c.have + n, acc := c.acc + Rfc.Repeat(Rfc.Repeated(v, c.acc), n)) ==>
              Shape(c') && Go(c', past, r'.stream, r'.pos) == Go(c, past, r.stream, r.pos)
  {
    hide Rfc.Symbols, Rfc.CodesUsable, Lookup, Rfc.RepeatBits, Rfc.RepeatBase, Rfc.Repeated, Rfc.Field;
  }

  /** Section 3.2.7 of RFC 1951: how often 16, 17 and 18 repeat, and the number of bits that say so. */
  lemma {:induction false} RepeatCounts(s: seq<bool>, p: nat, v: nat)
    requires 16 <= v <= 18 && p + Rfc.RepeatBits(v) <= |s|
    ensures var n := Rfc.RepeatBase(v) + Rfc.Field(s, p, Rfc.RepeatBits(v));
            && (v == 16 ==> n == 3 + Rfc.Field(s, p, 2) && 3 <= n <= 6)
            && (v == 17 ==> n == 3 + Rfc.Field(s, p, 3) && 3 <= n <= 10)
            && (v == 18 ==> n == 11 + Rfc.Field(s, p, 7) && 11 <= n <= 138)
  {
    hide Rfc.Field, Pow2;
    Pow2Values();
    FieldBound(s, p, Rfc.RepeatBits(v));
  }

  /** The lengths that a repeat adds. */
  predicate RepeatPut(c: Control, c': Control, t: Tables, t': Tables, v: nat, n: nat) {
    && c.have + n <= |t.lens|
    && c' == c.(have := c.have + n, acc := c.acc + Rfc.Repeat(v, n))
    && t' == t.(lens := t.lens[..c.have] + Rfc.Repeat(v, n) + t.lens[c.have + n..])
  }

  lemma {:induction false} RepeatLensOK(acc: seq<nat>, v: nat, n: nat)
    requires LensOK(acc) && (v == 16 ==> acc != [])
    ensures LensOK(Rfc.Repeat(Rfc.Repeated(v, acc), n))
  {
  }

  lemma {:induction false} AccOK(c: Control, t: Tables)
    requires TablesOK(c, t) && c.mode == AtCodeLens
    ensures LensOK(c.acc)
  {
    hide Decodes;
  }

  lemma {:induction false} RepeatRead(r: Reader, o: Writer, c: Control, t: Tables, r': Reader, v: nat, n: nat,
                                      c': Control, t': Tables, before: seq<byte>)
    requires Ready(r, o.past, c, t, before) && c.mode == AtCodeLens && c.have < c.nlen + c.ndist
    requires r'.stream == r.stream && 16 <= v < 19 && r.pos < |r.stream|
    requires Lookup(c.codeLens, r.stream[r.pos..]) == Found(v)
    requires BitsOK(r') && Consumed(r, r') && r'.bits < 8 && r.pos < r'.pos
    requires |c.codeLens| == 19 && r'.pos == r.pos + c.codeLens[v] + Rfc.RepeatBits(v) <= |r.stream|
    requires n == Rfc.RepeatBase(v) + Rfc.Field(r.stream, r.pos + c.codeLens[v], Rfc.RepeatBits(v))
    requires c.have == |c.acc|
    requires if RepeatBad(c, v, n) then c' == c.(mode := AtBad) && t' == t
             else RepeatPut(c, c', t, t', Rfc.Repeated(v, c.acc), n)
    ensures Stepped(r, o, c, r', o, c', t', before, false)
  {
    hide Stepped, Lookup, Kraft, Decodes, BitsOK, Ready, Go, LVal, TablesOK, Sound, LensOK, BytesBits, MidRepeat,
      Rfc.Field, Rfc.Repeat, Rfc.Repeated, Rfc.RepeatBits, Rfc.RepeatBase;
    ReadyCodeLens(r, o.past, c, t, before);
    ReadyShape(r, o.past, c, t, before);
    RepeatGoes(r, o.past, c, r', c', v, n);
    if RepeatBad(c, v, n) {
      BadMode(r, o, c, t, r', c', t', before);
    } else {
      AccOK(c, t);
      RepeatLensOK(c.acc, v, n);
      RepeatLength(Rfc.Repeated(v, c.acc), n);
      TablesPut(c, t, c', t', Rfc.Repeat(Rfc.Repeated(v, c.acc), n));
      LengthStays(r, o, c, t, r', c', t', before);
    }
  }

  lemma {:induction false} RepeatLength(v: nat, n: nat)
    ensures |Rfc.Repeat(v, n)| == n
  {
  }

  /** Giving up on the code lengths. */
  lemma {:induction false} BadMode(r: Reader, o: Writer, c: Control, t: Tables, r': Reader, c': Control, t': Tables,
                                   before: seq<byte>)
    requires Ready(r, o.past, c, t, before) && c.mode == AtCodeLens && BitsOK(r') && Consumed(r, r')
    requires c'.mode == AtBad && c' == c.(mode := AtBad) && (t' == t || |t'.lens| == 320)
    requires Go(c, o.past, r.stream, r.pos) == Rfc.Fails(o.past)
    ensures Stepped(r, o, c, r', o, c', t', before, false)
  {
    hide Stepped, BitsOK, Go, Legal, TablesOK, Rfc.Fails;
    ToBad(r, o, c, t, r', c', t', before);
  }

  /** A length is repeated in the list. */
  method PutRepeat(s: Stream, len: nat, copy: nat)
    requires s.have + copy <= s.lens.Length
    modifies s`have, s`acc, s.lens
    ensures RepeatPut(old(s.C()), s.C(), old(s.T()), s.T(), len, copy)
  {
    ghost var have := s.have;
    var rest := copy;
    while rest != 0
      invariant 0 <= rest <= copy && s.have == have + (copy - rest) && s.acc == old(s.acc)
      invariant forall i :: 0 <= i < s.lens.Length ==> s.lens[i] == if have <= i < s.have then len else old(s.lens[i])
      decreases rest
    {
      rest := rest - 1;
      s.lens[s.have] := len;
      s.have := s.have + 1;
    }
    s.acc := s.acc + Rfc.Repeat(len, copy);
    ghost var was := old(s.lens[..]);
    assert s.lens[..] == was[..have] + Rfc.Repeat(len, copy) + was[have + copy..];
  }

  /** A symbol has been found that is a repeat. */
  lemma {:induction false} FoundRepeat(r: Reader, r1: Reader, c: Control, here: Entry)
    requires BitsOK(r) && Pulling(r, r1, c.codeLens) && |c.codeLens| == 19 && LensOK(c.codeLens)
    requires Kraft(c.codeLens) <= FULL
    requires 1 <= here.bits <= r1.bits && here.val >= 16
    requires Answers(Senses(Codes), c.codeLens, Lookup(c.codeLens, Held(r1)), here.bits, here)
    ensures AtRepeat(r1, c, here.val) && here.bits == c.codeLens[here.val] && r.pos < |r.stream|
    ensures Lookup(c.codeLens, r.stream[r.pos..]) == Found(here.val)
  {
    hide BitsOK, Needed, Kraft, Lookup, LVal;
    PullingBits(r, r1, c.codeLens);
    LengthSymbol(c.codeLens, Lookup(c.codeLens, Held(r1)), here.bits, here);
    assert r1.stream[r1.pos..] == Held(r1) + r1.stream[r1.pos + r1.bits..];
    LookupStable(c.codeLens, Held(r1), r1.stream[r1.pos + r1.bits..]);
  }

  /** Holding more bits does not change the symbol. */
  lemma {:induction false} StillRepeat(r1: Reader, r2: Reader, c: Control, v: nat)
    requires BitsOK(r2) && Consumed(r1, r2) && r2.pos == r1.pos && r2.bits >= r1.bits && AtRepeat(r1, c, v)
    requires LensOK(c.codeLens) && Kraft(c.codeLens) <= FULL
    ensures AtRepeat(r2, c, v)
  {
    hide Kraft, Lookup, LVal, BytesBits;
    assert Held(r2) == Held(r1) + r1.stream[r1.pos + r1.bits..r1.pos + r2.bits];
    LookupStable(c.codeLens, Held(r1), r1.stream[r1.pos + r1.bits..r1.pos + r2.bits]);
  }

  /** NEEDBITS, DROPBITS and BITS for a repeat: the number that goes with it, if it has come in. */
  method TakeRepeat(r0: Reader, r1: Reader, here: Entry, extra: nat, ghost o: Writer, ghost c: Control, ghost t: Tables,
                    ghost before: seq<byte>)
    returns (ok: bool, n: nat, r: Reader)
    requires Ready(r0, o.past, c, t, before) && c.mode == AtCodeLens && c.have < c.nlen + c.ndist
    requires Pulling(r0, r1, c.codeLens) && 1 <= here.bits <= r1.bits && here.val >= 16
    requires |c.codeLens| == 19 && Answers(Senses(Codes), c.codeLens, Lookup(c.codeLens, Held(r1)), here.bits, here)
    requires extra == Rfc.RepeatBits(here.val) && here.bits <= 7
    ensures !ok ==> Stepped(r0, o, c, r, o, c, t, before, true)
    ensures ok ==>
      && here.val <= 18 && r0.pos < |r0.stream| && Lookup(c.codeLens, r0.stream[r0.pos..]) == Found(here.val)
      && BitsOK(r) && Consumed(r0, r) && r.bits < 8 && here.bits == c.codeLens[here.val]
      && r.pos == r0.pos + here.bits + extra <= |r0.stream| && n == Rfc.Field(r0.stream, r0.pos + here.bits, extra)
  {
    hide Stepped, Lookup, Kraft, Decodes, BitsOK, Ready, Go, LVal, TablesOK, Sound, LensOK, BytesBits, MidRepeat,
      Rfc.Field, Low, Shr, Needed, Answers, AtRepeat, Pow2, Eight;
    ReadyCodeLens(r0, o.past, c, t, before);
    FoundRepeat(r0, r1, c, here);
    LeftAfterLength(r0, r1, c, here);
    RepeatRange(r1, c, here.val);
    var field;
    ok, r, field := Peek(r1, here.bits + extra);
    n := 0;
    if !ok {
      StillRepeat(r1, r, c, here.val);
      RepeatWaits(r0, o, c, t, r, here.val, before);
      return;
    }
    r := DropBits(r, here.bits);
    n, r := TakeField(r, extra);
  }

  lemma {:induction false} RepeatRange(r: Reader, c: Control, v: nat)
    requires AtRepeat(r, c, v)
    ensures 16 <= v <= 18 && Rfc.RepeatBits(v) <= 7
  {
  }

  /** The rest of the loop body for a repeat. */
  method StepRepeat(s: Stream, r0: Reader, r1: Reader, here: Entry, ghost o: Writer, ghost before: seq<byte>)
    returns (leave: bool, r: Reader)
    requires Ready(r0, o.past, s.C(), s.T(), before) && s.mode == AtCodeLens && s.have < s.nlen + s.ndist
    requires Pulling(r0, r1, s.codeLens) && 1 <= here.bits <= r1.bits && here.val >= 16 && here.bits <= 7
    requires |s.codeLens| == 19 && Answers(Senses(Codes), s.codeLens, Lookup(s.codeLens, Held(r1)), here.bits, here)
    modifies s`mode, s`have, s`acc, s.lens
    ensures Stepped(r0, o, old(s.C()), r, o, s.C(), s.T(), before, leave)
    ensures leave ==> s.mode == AtCodeLens
    ensures !leave ==> r.pos > r0.pos && (s.mode == AtCodeLens || s.mode == AtBad)
  {
    hide Stepped, Lookup, Kraft, Decodes, BitsOK, Ready, Go, LVal, TablesOK, Sound, LensOK, BytesBits, MidRepeat,
      Rfc.Field, Low, Shr, Needed, Answers, Pow2, Eight, RepeatPut, Rfc.Repeat, Pulling;
    ghost var c, t := s.C(), s.T();
    ReadyCodeLens(r0, o.past, c, t, before);
    var extra, base := 7, 11;
    if here.val == 16 {
      extra, base := 2, 3;
    } else if here.val == 17 {
      extra, base := 3, 3;
    }
    var ok, n;
    ok, n, r := TakeRepeat(r0, r1, here, extra, o, c, t, before);
    leave := !ok;
    if leave {
      return;
    }
    var copy := base + n;
    if (here.val == 16 && s.have == 0) || s.have + copy > s.nlen + s.ndist {
      s.mode := AtBad;
    } else {
      var len := 0;
      if here.val == 16 {
        assert t.lens[..c.have][c.have - 1] == c.acc[c.have - 1];
        len := s.lens[s.have - 1];
      }
      PutRepeat(s, len, copy);
    }
    RepeatRead(r0, o, c, t, r, here.val, copy, s.C(), s.T(), before);
  }

  // ----- one pass through the loop -----

  method StepLength(s: Stream, r0: Reader, ghost o: Writer, ghost before: seq<byte>) returns (leave: bool, r: Reader)
    requires Ready(r0, o.past, s.C(), s.T(), before) && s.mode == AtCodeLens && s.have < s.nlen + s.ndist
    modifies s`mode, s`have, s`acc, s.lens
    ensures Stepped(r0, o, old(s.C()), r, o, s.C(), s.T(), before, leave)
    ensures leave ==> s.mode == AtCodeLens
    ensures !leave ==> r.pos > r0.pos && (s.mode == AtCodeLens || s.mode == AtBad)
  {
    hide Stepped, Lookup, Kraft, BitsOK, Ready, Go, LVal, Low, TablesOK, Sound, LensOK, BytesBits, MidRepeat, TableOK,
      Eight, Needed, Answers, Pow2, Pulling, Waits, NoLinks, Decodes;
    ghost var c, t := s.C(), s.T();
    ReadyCodeLens(r0, o.past, c, t, before);
    var ok, here;
    ok, r, here := ReadRoot(r0, s.lencode, s.lenbits, Senses(Codes), s.codeLens);
    leave := !ok;
    if leave {
      PulledOK(r0, r, c.codeLens);
      LengthWaits(r0, o, c, t, r, before);
      return;
    }
    if here.val < 16 {
      PulledOK(r0, r, c.codeLens);
      ghost var r1 := r;
      r := DropBits(r, here.bits);
      PutLength(s, here.val);
      LengthRead(r0, o, c, t, r1, here, r, s.C(), s.T(), before);
    } else {
      PulledOK(r0, r, c.codeLens);
      ShortCode(c.codeLens, Lookup(c.codeLens, Held(r)), here);
      leave, r := StepRepeat(s, r0, r, here, o, before);
    }
  }

  lemma {:induction false} PulledOK(r: Reader, r': Reader, lens: seq<nat>)
    requires Pulling(r, r', lens)
    ensures BitsOK(r') && Consumed(r, r') && r'.pos == r.pos && r'.pos + r'.bits <= |r'.stream|
  {
  }

  lemma {:induction false} ShortCode(lens: seq<nat>, r: Symbol, here: Entry)
    requires |lens| == 19 && (forall v :: 0 <= v < 19 ==> lens[v] <= 7)
    requires Answers(Senses(Codes), lens, r, here.bits, here)
    ensures here.bits <= 7
  {
  }

  /** The loop of CODELENS: symbols until the list is full. */
  method ReadCodeLens(s: Stream, r0: Reader, ghost o: Writer, ghost before: seq<byte>) returns (leave: bool, r: Reader)
    requires Ready(r0, o.past, s.C(), s.T(), before) && s.mode == AtCodeLens
    modifies s`mode, s`have, s`acc, s.lens
    ensures Ready(r, o.past, s.C(), s.T(), before) && Kept(r0, o.past, old(s.C()), r, o.past, s.C(), before)
    ensures leave ==> Stepped(r0, o, old(s.C()), r, o, s.C(), s.T(), before, true)
    ensures !leave && s.mode == AtBad ==> Stepped(r0, o, old(s.C()), r, o, s.C(), s.T(), before, false)
    ensures !leave && s.mode != AtBad ==> s.mode == AtCodeLens && s.have >= s.nlen + s.ndist
  {
    hide Stepped, BitsOK, Ready, Go, TablesOK, Kept;
    ghost var c0 := s.C();
    leave, r := false, r0;
    KeptStart(r0, o.past, c0, s.T(), before);
    ReaderOK(r, o.past, c0, s.T(), before);
    while s.have < s.nlen + s.ndist
      invariant Ready(r, o.past, s.C(), s.T(), before) && Kept(r0, o.past, c0, r, o.past, s.C(), before)
      invariant s.mode == AtCodeLens && r.pos <= |r.stream| && !leave
      decreases |r.stream| - r.pos
    {
      ghost var c, r1 := s.C(), r;
      leave, r := StepLength(s, r, o, before);
      SteppedOn(r0, o, c0, r1, c, r, o, s.C(), s.T(), before, leave);
      ReaderOK(r, o.past, s.C(), s.T(), before);
      SameStream(r1, o, c, r, s.C(), s.T(), before, leave);
      if leave || s.mode == AtBad {
        return;
      }
    }
  }

  lemma {:induction false} ReaderOK(r: Reader, past: seq<byte>, c: Control, t: Tables, before: seq<byte>)
    requires Ready(r, past, c, t, before)
    ensures BitsOK(r) && r.pos <= |r.stream|
  {
  }

  lemma {:induction false} SameStream(r: Reader, o: Writer, c: Control, r': Reader, c': Control, t': Tables,
                                      before: seq<byte>, leave: bool)
    requires Stepped(r, o, c, r', o, c', t', before, leave)
    ensures r'.stream == r.stream
  {
    hide ControlOK, TablesOK, Go;
  }
}
