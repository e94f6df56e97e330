/** Literals, lengths and distances: the LEN_, LEN, LENEXT, DIST, DISTEXT and LIT modes. */
module StepCodes {
  import opened Bits
  import opened Huffman
  import opened CodeTables
  import opened Adler
  import opened Outputs
  import opened Streams
  import opened ReadCodes
  import opened EntryOps
  import opened SymbolEnds
  import opened Steps
  import opened StepLenLensMode
  import Rfc = Rfc1951

  lemma {:induction false} ReadyDecoding(r: Reader, past: seq<byte>, c: Control, t: Tables, before: seq<byte>)
    requires Ready(r, past, c, t, before) && Decoding(c.mode)
    ensures BitsOK(r) && Shape(c) && ModeOK(c, r, past)
    ensures Decodes(t.lencode, t.lenbits, Senses(Lens), c.litLens)
    ensures Decodes(t.distcode, t.distbits, Senses(Dists), c.distLens)
  {
    hide BitsOK, Decodes, CheckOK;
  }

  /** Going on decoding with the same tables. */
  lemma {:induction false} DecodingOn(r: Reader, o: Writer, c: Control, t: Tables, r': Reader, o': Writer, c': Control,
                                      before: seq<byte>)
    requires Ready(r, o.past, c, t, before) && Decoding(c.mode) && BitsOK(r') && Consumed(r, r')
    requires Decoding(c'.mode) || c'.mode == AtType
    requires c' == c.(mode := c'.mode, length := c'.length, offset := c'.offset, extra := c'.extra)
    requires Shape(c') && ModeOK(c', r', o'.past) && |o.past| <= |o'.past|
    requires Go(c', o'.past, r'.stream, r'.pos) == Go(c, o.past, r.stream, r.pos)
    requires Progress(r, o.left, c, r', o'.left, c')
    ensures Stepped(r, o, c, r', o', c', t, before, false)
  {
    hide BitsOK, Decodes, Go, ModeOK, Legal, Checksum;
    ModeMono(c, r, o.past, c');
  }

  lemma {:induction false} ModeMono(c: Control, r: Reader, past: seq<byte>, c': Control)
    requires ModeOK(c, r, past) && Decoding(c.mode)
    ensures !c.checked
  {
  }

  // ----- LEN_ and LEN -----

  method StepLenFirst(s: Stream, r: Reader, ghost o: Writer, ghost before: seq<byte>)
    requires Ready(r, o.past, s.C(), s.T(), before) && s.mode == AtLenFirst
    modifies s`mode
    ensures Stepped(r, o, old(s.C()), r, o, s.C(), s.T(), before, false)
  {
    hide BitsOK, Legal, Checksum, Rfc.Symbols, TablesOK, Lookup;
    ghost var c := s.C();
    s.mode := AtLen;
    TablesKept(c, s.C(), s.T());
  }

  lemma {:induction false} LenWaits(r: Reader, o: Writer, c: Control, t: Tables, r': Reader, before: seq<byte>)
    requires Ready(r, o.past, c, t, before) && c.mode == AtLen
    requires BitsOK(r') && Consumed(r, r') && r'.pos == r.pos && Waits(r', c.litLens)
    ensures Stepped(r, o, c, r', o, c, t, before, true)
  {
    hide BitsOK, Legal, Checksum, Lookup, Stepped, Rfc.Type, Rfc.LengthBits, Decodes;
    ToWait(r, o, c, t, r', before);
  }

  lemma {:induction false} LenGoes(c: Control, past: seq<byte>, s: seq<bool>, p: nat, q: nat, here: Entry)
    requires Shape(c) && c.mode == AtLen && p < |s|
    requires Took(Senses(Lens), c.litLens, Lookup(c.litLens, s[p..]), p, q, here)
    ensures var c' := AfterLen(c, here);
            Shape(c') && Go(c', past, s, q) == Go(c, past, s, p)
  {
    hide Lookup, Rfc.Type, Rfc.LengthBits, Senses, And32, And64, And15, LengthExtra, LengthBase;
    LenSense(c.litLens, Lookup(c.litLens, s[p..]), p, q, here);
  }

  lemma {:induction false} LenRead(r: Reader, o: Writer, c: Control, t: Tables, r': Reader, here: Entry, c': Control,
                                   before: seq<byte>)
    requires Ready(r, o.past, c, t, before) && c.mode == AtLen && BitsOK(r') && Consumed(r, r') && r'.bits < 8
    requires r.pos < |r.stream|
    requires Took(Senses(Lens), c.litLens, Lookup(c.litLens, r.stream[r.pos..]), r.pos, r'.pos, here)
    requires c' == AfterLen(c, here)
    ensures Stepped(r, o, c, r', o, c', t, before, false)
  {
    hide BitsOK, Lookup, Stepped, Go, Decodes, And32, And64, And15, Took, Legal, Checksum, TablesOK;
    ReadyDecoding(r, o.past, c, t, before);
    LenGoes(c, o.past, r.stream, r.pos, r'.pos, here);
    LenSense(c.litLens, Lookup(c.litLens, r.stream[r.pos..]), r.pos, r'.pos, here);
    if c'.mode == AtBad {
      GoBad(c', o.past, r'.stream, r'.pos);
      ToBad(r, o, c, t, r', c', t, before);
    } else {
      TookCases(Senses(Lens), c.litLens, Lookup(c.litLens, r.stream[r.pos..]), r.pos, r'.pos, here);
      DecodingOn(r, o, c, t, r', o, c', before);
    }
  }

  lemma {:induction false} TookCases(m: seq<Sense>, lens: seq<nat>, l: Symbol, p: nat, q: nat, here: Entry)
    requires Took(m, lens, l, p, q, here)
    ensures l.Found? || l.NoCode?
  {
  }

  method SetLen(s: Stream, here: Entry)
    modifies s`mode, s`length, s`extra
    ensures s.C() == AfterLen(old(s.C()), here)
  {
    s.length := here.val;
    if here.op == 0 {
      s.mode := AtLit;
      return;
    }
    if And32(here.op) {
      s.mode := AtType;
      return;
    }
    if And64(here.op) {
      s.mode := AtBad;
      return;
    }
    s.extra := And15(here.op);
    s.mode := AtLenExt;
  }

  /** LEN, when there is not enough input or room for the fast path. */
  method StepLen(s: Stream, r0: Reader, ghost o: Writer, ghost before: seq<byte>) returns (leave: bool, r: Reader)
    requires Ready(r0, o.past, s.C(), s.T(), before) && s.mode == AtLen
    modifies s`mode, s`length, s`extra
    ensures Stepped(r0, o, old(s.C()), r, o, s.C(), s.T(), before, leave)
    ensures if leave then s.C() == old(s.C()) && r.pos == r0.pos
            else SameEnd(old(s.C()), o.past, r0.pos, s.C(), o.past, r.pos, r0.stream)
  {
    hide Stepped, SameEnd, Lookup, BitsOK, Ready, Go, LVal, TablesOK, Took, Decodes, Waits, AfterLen, Senses, CheckOK,
      Shape;
    ghost var c, t := s.C(), s.T();
    ReadyDecoding(r0, o.past, c, t, before);
    var ok, here;
    ok, r, here := ReadCode(r0, s.lencode, s.lenbits, false, Senses(Lens), s.litLens);
    leave := !ok;
    if leave {
      LenWaits(r0, o, c, t, r, before);
      return;
    }
    SetLen(s, here);
    LenRead(r0, o, c, t, r, here, s.C(), before);
    LenEnds(c, o.past, r0.stream, r0.pos, r.pos, here);
  }

  // ----- LENEXT -----

  lemma {:induction false} LenExtWaits(r: Reader, o: Writer, c: Control, t: Tables, r': Reader, before: seq<byte>)
    requires Ready(r, o.past, c, t, before) && c.mode == AtLenExt && BitsOK(r') && Consumed(r, r') && r'.pos == r.pos
    requires r'.bits < c.extra && r'.have == 0 && (r'.taken == |r'.bytes| ==> |r'.stream| < r'.pos + c.extra)
    ensures Stepped(r, o, c, r', o, c, t, before, true)
  {
    hide BitsOK, Legal, Checksum, Lookup, Stepped, Rfc.Distance, Decodes;
    ToWait(r, o, c, t, r', before);
  }

  lemma {:induction false} LenExtRead(r: Reader, o: Writer, c: Control, t: Tables, r': Reader, c': Control,
                                      before: seq<byte>)
    requires Ready(r, o.past, c, t, before) && c.mode == AtLenExt && BitsOK(r') && Consumed(r, r')
    requires r'.pos == r.pos + c.extra <= |r.stream| && r'.bits < 8
    requires c' == c.(mode := AtDist, length := c.length + Rfc.Field(r.stream, r.pos, c.extra))
    ensures Stepped(r, o, c, r', o, c', t, before, false)
  {
    hide BitsOK, Lookup, Stepped, Decodes, Legal, Checksum, TablesOK, Rfc.Distance, Rfc.Field;
    DecodingOn(r, o, c, t, r', o, c', before);
  }

  /** NEEDBITS, BITS and DROPBITS of the extra bits, if there are any. */
  method TakeExtra(r0: Reader, extra: nat) returns (ok: bool, v: nat, r: Reader)
    requires BitsOK(r0) && extra <= 13 && (r0.bits < 8 || r0.bits < extra)
    ensures BitsOK(r) && Consumed(r0, r)
    ensures !ok ==> r.pos == r0.pos && r.bits < extra && r.have == 0
    ensures !ok && r.taken == |r.bytes| ==> |r.stream| < r.pos + extra
    ensures ok ==> r.pos == r0.pos + extra <= |r0.stream| && r.bits < 8 && v == Rfc.Field(r0.stream, r0.pos, extra)
  {
    hide BitsOK, Rfc.Field, LVal, Low, Shr, Eight, BytesBits, Pow2;
    ok, v, r := true, 0, r0;
    if extra != 0 {
      ok, r, v := Peek(r0, extra);
      if !ok {
        return;
      }
      v, r := TakeField(r, extra);
    } else {
      NoField(r0);
    }
  }

  lemma {:induction false} NoField(r: Reader)
    requires BitsOK(r)
    ensures r.pos <= |r.stream| && Rfc.Field(r.stream, r.pos, 0) == 0
  {
    hide BytesBits;
  }

  method StepLenExt(s: Stream, r0: Reader, ghost o: Writer, ghost before: seq<byte>) returns (leave: bool, r: Reader)
    requires Ready(r0, o.past, s.C(), s.T(), before) && s.mode == AtLenExt
    modifies s`mode, s`length
    ensures Stepped(r0, o, old(s.C()), r, o, s.C(), s.T(), before, leave)
    ensures if leave then s.C() == old(s.C()) && r.pos == r0.pos
            else SameEnd(old(s.C()), o.past, r0.pos, s.C(), o.past, r.pos, r0.stream)
  {
    hide Stepped, SameEnd, Lookup, BitsOK, Ready, Go, LVal, TablesOK, Decodes, CheckOK, Shape, Rfc.Field;
    ghost var c, t := s.C(), s.T();
    ReadyDecoding(r0, o.past, c, t, before);
    var ok, more;
    ok, more, r := TakeExtra(r0, s.extra);
    leave := !ok;
    if leave {
      LenExtWaits(r0, o, c, t, r, before);
      return;
    }
    s.length := s.length + more;
    s.mode := AtDist;
    LenExtRead(r0, o, c, t, r, s.C(), before);
    LenExtEnds(c, o.past, r0.stream, r0.pos);
  }

  // ----- DIST -----

  lemma {:induction false} DistWaits(r: Reader, o: Writer, c: Control, t: Tables, r': Reader, before: seq<byte>)
    requires Ready(r, o.past, c, t, before) && c.mode == AtDist
    requires BitsOK(r') && Consumed(r, r') && r'.pos == r.pos && Waits(r', c.distLens)
    ensures Stepped(r, o, c, r', o, c, t, before, true)
  {
    hide BitsOK, Legal, Checksum, Lookup, Stepped, Rfc.DistanceBits, Decodes;
    ToWait(r, o, c, t, r', before);
  }

  lemma {:induction false} DistGoes(c: Control, past: seq<byte>, s: seq<bool>, p: nat, q: nat, here: Entry)
    requires Shape(c) && c.mode == AtDist && p < |s|
    requires Took(Senses(Dists), c.distLens, Lookup(c.distLens, s[p..]), p, q, here)
    ensures var c' := AfterDist(c, here);
            Shape(c') && Go(c', past, s, q) == Go(c, past, s, p)
  {
    hide Lookup, Rfc.DistanceBits, Senses, And64, And15, DistExtra, DistBase;
    DistSense(c.distLens, Lookup(c.distLens, s[p..]), p, q, here);
  }

  lemma {:induction false} DistRead(r: Reader, o: Writer, c: Control, t: Tables, r': Reader, here: Entry, c': Control,
                                    before: seq<byte>)
    requires Ready(r, o.past, c, t, before) && c.mode == AtDist && BitsOK(r') && Consumed(r, r') && r'.bits < 8
    requires r.pos < |r.stream|
    requires Took(Senses(Dists), c.distLens, Lookup(c.distLens, r.stream[r.pos..]), r.pos, r'.pos, here)
    requires c' == AfterDist(c, here)
    ensures Stepped(r, o, c, r', o, c', t, before, false)
  {
    hide BitsOK, Lookup, Stepped, Go, Decodes, And64, And15, Took, Legal, Checksum, TablesOK;
    ReadyDecoding(r, o.past, c, t, before);
    DistGoes(c, o.past, r.stream, r.pos, r'.pos, here);
    DistSense(c.distLens, Lookup(c.distLens, r.stream[r.pos..]), r.pos, r'.pos, here);
    if c'.mode == AtBad {
      GoBad(c', o.past, r'.stream, r'.pos);
      ToBad(r, o, c, t, r', c', t, before);
    } else {
      TookCases(Senses(Dists), c.distLens, Lookup(c.distLens, r.stream[r.pos..]), r.pos, r'.pos, here);
      DecodingOn(r, o, c, t, r', o, c', before);
    }
  }

  lemma {:induction false} DistOps()
    ensures forall v :: 0 <= v < |Senses(Dists)| ==> Senses(Dists)[v].op != 0
  {
  }

  method StepDist(s: Stream, r0: Reader, ghost o: Writer, ghost before: seq<byte>) returns (leave: bool, r: Reader)
    requires Ready(r0, o.past, s.C(), s.T(), before) && s.mode == AtDist
    modifies s`mode, s`offset, s`extra
    ensures Stepped(r0, o, old(s.C()), r, o, s.C(), s.T(), before, leave)
    ensures if leave then s.C() == old(s.C()) && r.pos == r0.pos
            else SameEnd(old(s.C()), o.past, r0.pos, s.C(), o.past, r.pos, r0.stream)
  {
    hide Stepped, SameEnd, Lookup, BitsOK, Ready, Go, LVal, TablesOK, Took, Decodes, Waits, Senses, CheckOK, Shape;
    ghost var c, t := s.C(), s.T();
    ReadyDecoding(r0, o.past, c, t, before);
    DistOps();
    var ok, here;
    ok, r, here := ReadCode(r0, s.distcode, s.distbits, true, Senses(Dists), s.distLens);
    leave := !ok;
    if leave {
      DistWaits(r0, o, c, t, r, before);
      return;
    }
    if And64(here.op) {
      s.mode := AtBad;
    } else {
      s.offset := here.val;
      s.extra := And15(here.op);
      s.mode := AtDistExt;
    }
    DistRead(r0, o, c, t, r, here, s.C(), before);
    DistEnds(c, o.past, r0.stream, r0.pos, r.pos, here);
  }

  // ----- DISTEXT -----

  lemma {:induction false} DistExtWaits(r: Reader, o: Writer, c: Control, t: Tables, r': Reader, before: seq<byte>)
    requires Ready(r, o.past, c, t, before) && c.mode == AtDistExt && BitsOK(r') && Consumed(r, r') && r'.pos == r.pos
    requires r'.bits < c.extra && r'.have == 0 && (r'.taken == |r'.bytes| ==> |r'.stream| < r'.pos + c.extra)
    ensures Stepped(r, o, c, r', o, c, t, before, true)
  {
    hide BitsOK, Legal, Checksum, Lookup, Stepped, Rfc.Match, Decodes;
    ToWait(r, o, c, t, r', before);
  }

  lemma {:induction false} DistExtRead(r: Reader, o: Writer, c: Control, t: Tables, r': Reader, c': Control,
                                       before: seq<byte>)
    requires Ready(r, o.past, c, t, before) && c.mode == AtDistExt && BitsOK(r') && Consumed(r, r')
    requires r'.pos == r.pos + c.extra <= |r.stream| && r'.bits < 8
    requires var offset := c.offset + Rfc.Field(r.stream, r.pos, c.extra);
             c' == c.(mode := if offset > c.dmax then AtBad else AtMatch, offset := offset)
    ensures Stepped(r, o, c, r', o, c', t, before, false)
  {
    hide BitsOK, Lookup, Stepped, Decodes, Legal, Checksum, TablesOK, Rfc.Match, Rfc.Field;
    if c'.mode == AtBad {
      ToBad(r, o, c, t, r', c', t, before);
    } else {
      DecodingOn(r, o, c, t, r', o, c', before);
    }
  }

  method StepDistExt(s: Stream, r0: Reader, ghost o: Writer, ghost before: seq<byte>) returns (leave: bool, r: Reader)
    requires Ready(r0, o.past, s.C(), s.T(), before) && s.mode == AtDistExt
    modifies s`mode, s`offset
    ensures Stepped(r0, o, old(s.C()), r, o, s.C(), s.T(), before, leave)
    ensures if leave then s.C() == old(s.C()) && r.pos == r0.pos
            else SameEnd(old(s.C()), o.past, r0.pos, s.C(), o.past, r.pos, r0.stream)
  {
    hide Stepped, SameEnd, Lookup, BitsOK, Ready, Go, LVal, TablesOK, Decodes, CheckOK, Shape, Rfc.Field;
    ghost var c, t := s.C(), s.T();
    ReadyDecoding(r0, o.past, c, t, before);
    var ok, more;
    ok, more, r := TakeExtra(r0, s.extra);
    leave := !ok;
    if leave {
      DistExtWaits(r0, o, c, t, r, before);
      return;
    }
    s.offset := s.offset + more;
    s.mode := if s.offset > s.dmax then AtBad else AtMatch;
    DistExtRead(r0, o, c, t, r, s.C(), before);
    DistExtEnds(c, o.past, r0.stream, r0.pos);
  }

  // ----- LIT -----

  lemma {:induction false} LitWritten(r: Reader, o: Writer, c: Control, t: Tables, c': Control, before: seq<byte>)
    requires Ready(r, o.past, c, t, before) && c.mode == AtLit && c.length < 256 && o.left > 0
    requires c' == c.(mode := AtLen)
    ensures Stepped(r, o, c, r, Put(o, [c.length]), c', t, before, false)
  {
    hide BitsOK, Lookup, Stepped, Decodes, Legal, Checksum, TablesOK, Rfc.Symbols;
    DecodingOn(r, o, c, t, r, Put(o, [c.length]), c', before);
  }

  method StepLit(s: Stream, ghost r: Reader, o: Writer, ghost o0: Writer, ghost b0: seq<byte>)
    returns (leave: bool, o': Writer)
    requires Ready(r, o.past, s.C(), s.T(), o0.past) && s.mode == AtLit && Wrote(o0, b0, o, s.output[..])
    modifies s`mode, s.output
    ensures Stepped(r, o, old(s.C()), r, o', s.C(), old(s.T()), o0.past, leave)
    ensures Wrote(o0, b0, o', s.output[..])
    ensures if leave then s.C() == old(s.C()) && o' == o
            else SameEnd(old(s.C()), o.past, r.pos, s.C(), o'.past, r.pos, r.stream)
  {
    hide Stepped, SameEnd, BitsOK, Ready, Go, TablesOK, Decodes, CheckOK, Wrote, ModeOK;
    ghost var c, t, b := s.C(), s.T(), s.output[..];
    ReadyDecoding(r, o.past, c, t, o0.past);
    WroteRoom(o0, b0, o, b);
    leave, o' := o.left == 0, o;
    if leave {
      NoRoom(r, o, c, t, o0.past);
      return;
    }
    s.output[o.put] := s.length;
    WroteMore(o0, b0, o, b, [s.length], s.output[..]);
    o' := Writer(o.put + 1, o.left - 1, o.past + [s.length]);
    s.mode := AtLen;
    LitWritten(r, o, c, t, s.C(), o0.past);
    LitEnds(c, o.past, r.stream, r.pos);
  }

  /** Leaving for want of room. */
  lemma {:induction false} NoRoom(r: Reader, o: Writer, c: Control, t: Tables, before: seq<byte>)
    requires Ready(r, o.past, c, t, before) && o.left == 0
    ensures Stepped(r, o, c, r, o, c, t, before, true)
  {
    hide Go, TablesOK, ModeOK, CheckOK, BitsOK;
  }
}
