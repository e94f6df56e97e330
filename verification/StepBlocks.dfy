/** The modes of inflate() around blocks: header, block type, stored blocks, trailer. */
module StepBlocks {
  import opened Bits
  import opened CodeTables
  import opened Adler
  import opened Outputs
  import opened Streams
  import opened Steps
  import opened FixedTables
  import Rfc = Rfc1951

  lemma {:induction false} DmaxRange(info: nat)
    requires info + 8 <= 15
    ensures 256 <= Pow2(info + 8) <= WSIZE
  {
    Pow2Values();
    Pow2Mono(8, info + 8);
    Pow2Mono(info + 8, 15);
  }

  lemma {:induction false} EmptyChecksum()
    ensures Checksum([]) == 1 && Legal(1)
  {
  }

  /** From the header to the first block, or to the dictionary. */
  lemma {:induction false} HeadRead(r: Reader, o: Writer, c: Control, t: Tables, r': Reader, c': Control,
                                    before: seq<byte>)
    requires Ready(r, o.past, c, t, before) && c.mode == AtHead && BitsOK(r') && Consumed(r, r')
    requires r'.pos == r.pos + 16 && r'.bits == 0 && r'.pos <= |r.stream|
    requires Rfc.FCheck(Rfc.Field(r.stream, r.pos, 8), Rfc.Field(r.stream, r.pos + 8, 8))
    requires Rfc.Field(r.stream, r.pos, 4) == 8
    requires var info := Rfc.Field(r.stream, r.pos + 4, 4);
             && info + 8 <= 15
             && c' == c.(dmax := Pow2(info + 8), check := 1,
                         mode := if r.stream[r.pos + 13] then AtDictId else AtType)
    ensures Stepped(r, o, c, r', o, c', t, before, false)
  {
    hide BitsOK, Legal, Checksum, Decodes, Rfc.FCheck, Rfc.Field, Rfc.Type, Rfc.DictId, Pow2;
    DmaxRange(Rfc.Field(r.stream, r.pos + 4, 4));
    EmptyChecksum();
    assert before == [];
  }

  /** A header that is refused. */
  predicate Refused(hold: nat, wbits: nat) {
    !Rfc.FCheck(Low(hold, 8), Shr(hold, 8)) || Low(hold, 4) != 8 || Low(Shr(hold, 4), 4) + 8 > wbits
  }

  /** What the sixteen bits of the header say. */
  lemma {:induction false} HeadCases(r0: Reader, o: Writer, c: Control, r: Reader)
    requires BitsOK(r) && Consumed(r0, r) && r.pos == r0.pos && r.bits == 16 && c.mode == AtHead && Shape(c)
    ensures r.pos + 16 <= |r.stream|
    ensures Refused(r.hold, 15) && o.past == [] ==> Go(c, o.past, r0.stream, r0.pos) == Rfc.Fails([])
    ensures !Refused(r.hold, 15) ==>
      && Rfc.FCheck(Rfc.Field(r.stream, r.pos, 8), Rfc.Field(r.stream, r.pos + 8, 8))
      && Rfc.Field(r.stream, r.pos, 4) == 8
      && Rfc.Field(r.stream, r.pos + 4, 4) == Low(Shr(r.hold, 4), 4)
      && (Shr(Shr(r.hold, 4), 9) % 2 == 1 <==> r.stream[r.pos + 13])
  {
    hide LVal, Low, Shr, BytesBits, Eight, Rfc.FCheck, Rfc.Field, Rfc.Type, Rfc.DictId, Pow2;
    HeldLow(r, 8);
    HeldHigh(r, 8);
    HeldLow(r, 4);
    var d := DropBits(r, 4);
    HeldLow(d, 4);
    HeldBit(d, 9);
  }

  lemma {:induction false} HeadWaits(r: Reader, o: Writer, c: Control, t: Tables, r': Reader, before: seq<byte>)
    requires Ready(r, o.past, c, t, before) && c.mode == AtHead && BitsOK(r') && Consumed(r, r') && r'.pos == r.pos
    requires r'.bits < 16 && WholeBytes(r'.bits) && r'.have == 0
    requires (r'.taken == |r'.bytes| ==> |r'.stream| < r'.pos + 16)
    ensures Stepped(r, o, c, r', o, c, t, before, true)
  {
    hide BitsOK, Legal, Checksum, Decodes, Rfc.FCheck, Rfc.Field, Rfc.Type, Rfc.DictId, Stepped;
    ToWait(r, o, c, t, r', before);
  }

  method StepHead(s: Stream, r0: Reader, ghost o: Writer, ghost before: seq<byte>) returns (leave: bool, r: Reader)
    requires Ready(r0, o.past, s.C(), s.T(), before) && s.mode == AtHead && s.wbits == 15
    modifies s`mode, s`dmax, s`check
    ensures Stepped(r0, o, old(s.C()), r, o, s.C(), s.T(), before, leave)
  {
    hide Low, Shr, Pow2, Checksum, Legal, BitsOK, Stepped, Rfc.FCheck, Rfc.Field, Go, Eight, BytesBits, TablesOK;
    ghost var c, t := s.C(), s.T();
    var ok, header;
    ok, r, header := Peek(r0, 16);
    leave := !ok;
    if leave {
      HeadWaits(r0, o, c, t, r, before);
      return;
    }
    HeadCases(r0, o, c, r);
    if Refused(r.hold, s.wbits) {
      s.mode := AtBad;
      ToBad(r0, o, c, t, r, s.C(), t, before);
      return;
    }
    r := DropBits(r, 4);
    s.dmax := Pow2(Low(r.hold, 4) + 8);
    s.check := 1;
    s.mode := if Shr(r.hold, 9) % 2 == 1 then AtDictId else AtType;
    r := InitBits(r);
    HeadRead(r0, o, c, t, r, s.C(), before);
  }

  // ----- the preset dictionary -----

  /** ZSWAP32, without a sign. */
  function Swap32(hold: nat): nat {
    Low(hold, 8) * 0x100_0000 + Low(Shr(hold, 8), 8) * 0x1_0000 + Low(Shr(hold, 16), 8) * 0x100 + Low(Shr(hold, 24), 8)
  }

  lemma {:induction false} SwapIsBigEndian(r: Reader)
    requires BitsOK(r) && r.bits == 32
    ensures r.pos + 32 <= |r.stream| && Swap32(r.hold) == Rfc.BigEndian(r.stream, r.pos)
  {
    hide LVal, Low, Shr, BytesBits, Eight, Rfc.Field;
    HeldLow(r, 8);
    HeldLow(DropBits(r, 8), 8);
    HeldLow(DropBits(r, 16), 8);
    HeldLow(DropBits(r, 24), 8);
  }

  lemma {:induction false} DictWaits(r: Reader, o: Writer, c: Control, t: Tables, r': Reader, before: seq<byte>)
    requires Ready(r, o.past, c, t, before) && c.mode == AtDictId && BitsOK(r') && Consumed(r, r') && r'.pos == r.pos
    requires WholeBytes(r'.bits) && r'.have == 0 && (r'.taken == |r'.bytes| ==> |r'.stream| < r'.pos + 32)
    ensures Stepped(r, o, c, r', o, c, t, before, true)
  {
    hide BitsOK, Legal, Checksum, Decodes, Stepped;
    ToWait(r, o, c, t, r', before);
  }

  lemma {:induction false} DictRead(r: Reader, o: Writer, c: Control, t: Tables, r': Reader, c': Control,
                                    before: seq<byte>)
    requires Ready(r, o.past, c, t, before) && c.mode == AtDictId && BitsOK(r') && Consumed(r, r')
    requires r.pos + 32 <= |r.stream| && r'.pos == r.pos + 32 && c' == c.(mode := AtDict, check := c'.check)
    ensures Stepped(r, o, c, r', o, c', t, before, false)
  {
    hide BitsOK, Legal, Checksum, Decodes;
    TablesKept(c, c', t);
  }

  method StepDictId(s: Stream, r0: Reader, ghost o: Writer, ghost before: seq<byte>) returns (leave: bool, r: Reader)
    requires Ready(r0, o.past, s.C(), s.T(), before) && s.mode == AtDictId
    modifies s`mode, s`check
    ensures Stepped(r0, o, old(s.C()), r, o, s.C(), s.T(), before, leave)
  {
    hide Low, Shr, BitsOK, Stepped, Rfc.Field, Go, Eight, BytesBits, TablesOK;
    ghost var c, t := s.C(), s.T();
    var ok, id;
    ok, r, id := Peek(r0, 32);
    leave := !ok;
    if leave {
      DictWaits(r0, o, c, t, r, before);
      return;
    }
    s.check := Swap32(r.hold);
    r := InitBits(r);
    s.mode := AtDict;
    DictRead(r0, o, c, t, r, s.C(), before);
  }

  // ----- the block header -----

  lemma {:induction false} TypeWaits(r: Reader, o: Writer, c: Control, t: Tables, r': Reader, before: seq<byte>)
    requires Ready(r, o.past, c, t, before) && (c.mode == AtType || c.mode == AtTypeDo) && !c.last
    requires BitsOK(r') && Consumed(r, r') && r'.pos == r.pos
    requires r'.bits < 3 && r'.have == 0 && (r'.taken == |r'.bytes| ==> |r'.stream| < r'.pos + 3)
    ensures Stepped(r, o, c, r', o, c, t, before, true)
  {
    hide BitsOK, Legal, Checksum, Decodes, Stepped;
    hide Rfc.Stored, Rfc.Symbols, Rfc.Table, Rfc.Trailer;
    ToWait(r, o, c, t, r', before);
  }

  lemma {:induction false} LastBlock(r: Reader, o: Writer, c: Control, t: Tables, r': Reader, c': Control,
                                     before: seq<byte>)
    requires Ready(r, o.past, c, t, before) && (c.mode == AtType || c.mode == AtTypeDo) && c.last
    requires BitsOK(r') && Consumed(r, r') && r'.pos == Rfc.Aligned(r.pos) && r'.bits == 0 && c' == c.(mode := AtCheck)
    ensures Stepped(r, o, c, r', o, c', t, before, false)
  {
    hide BitsOK, Legal, Checksum, Decodes;
    hide Rfc.Stored, Rfc.Symbols, Rfc.Table, Rfc.Trailer;
    TablesKept(c, c', t);
    assert Rfc.Aligned(Rfc.Aligned(r.pos)) == Rfc.Aligned(r.pos);
  }

  /** The mode for the two bits of the block type. */
  function BlockMode(kind: nat): Mode {
    if kind == 0 then AtStored else if kind == 1 then AtLenFirst else if kind == 2 then AtTable else AtBad
  }

  lemma {:induction false} TypeRead(r: Reader, o: Writer, c: Control, t: Tables, r': Reader, c': Control, t': Tables,
                                    before: seq<byte>)
    requires Ready(r, o.past, c, t, before) && (c.mode == AtType || c.mode == AtTypeDo) && !c.last
    requires BitsOK(r') && Consumed(r, r') && r'.pos == r.pos + 3 <= |r.stream| && r'.bits < 8
    requires var kind := Rfc.Field(r.stream, r.pos + 1, 2);
             && c' == c.(mode := BlockMode(kind), last := r.stream[r.pos], litLens := c'.litLens,
                         distLens := c'.distLens)
             && (kind != 1 ==> t' == t && c'.litLens == c.litLens && c'.distLens == c.distLens)
             && (kind == 1 ==>
                   && c'.litLens == Rfc.FixedLens() && c'.distLens == Rfc.FixedDists() && |t'.lens| == 320
                   && Decodes(t'.lencode, t'.lenbits, Senses(Lens), c'.litLens)
                   && Decodes(t'.distcode, t'.distbits, Senses(Dists), c'.distLens))
    ensures Stepped(r, o, c, r', o, c', t', before, false)
  {
    hide BitsOK, Legal, Checksum, Decodes, Rfc.FixedLens, Rfc.FixedDists, Rfc.Field;
    hide Rfc.Stored, Rfc.Symbols, Rfc.Table, Rfc.Trailer;
  }

  /** The three bits of a block header. */
  method TakeBlockHeader(r0: Reader) returns (last: bool, kind: nat, r: Reader)
    requires BitsOK(r0) && 3 <= r0.bits < 11
    ensures BitsOK(r) && Consumed(r0, r) && r.pos == r0.pos + 3 <= |r.stream| && r.bits < 8
    ensures last == r.stream[r0.pos] && kind == Rfc.Field(r.stream, r0.pos + 1, 2)
  {
    hide Low, Shr, Rfc.Field, Eight, BytesBits;
    HeldBit(r0, 0);
    last := Shr(r0.hold, 0) % 2 == 1;
    r := DropBits(r0, 1);
    HeldLow(r, 2);
    kind := Low(r.hold, 2);
    r := DropBits(r, 2);
  }

  /** A block with fixed codes. */
  method StartFixed(s: Stream, ghost r0: Reader, ghost o: Writer, ghost before: seq<byte>, last: bool, ghost r: Reader)
    requires Ready(r0, o.past, s.C(), s.T(), before) && (s.mode == AtType || s.mode == AtTypeDo) && !s.last
    requires BitsOK(r) && Consumed(r0, r) && r.pos == r0.pos + 3 <= |r.stream| && r.bits < 8
    requires last == r.stream[r0.pos] && 1 == Rfc.Field(r.stream, r0.pos + 1, 2)
    requires s.ArraysOK() && FixedOK(s.F())
    modifies s`mode, s`last, s`virgin, s`lencode, s`lenbits, s`distcode, s`distbits, s`litLens, s`distLens,
             s.lens, s.work, s.lenfix, s.distfix
    ensures Stepped(r0, o, old(s.C()), r, o, s.C(), s.T(), before, false)
    ensures s.ArraysOK() && FixedOK(s.F())
  {
    hide BitsOK, Stepped, Rfc.Field, Go, TablesOK, FixedOK, Decodes, Rfc.FixedLens, Rfc.FixedDists, Ready, s.ArraysOK;
    ghost var c, t := s.C(), s.T();
    UseFixed(s);
    s.last := last;
    s.mode := AtLenFirst;
    TypeRead(r0, o, c, t, r, s.C(), s.T(), before);
  }

  method StepType(s: Stream, r0: Reader, ghost o: Writer, ghost before: seq<byte>) returns (leave: bool, r: Reader)
    requires Ready(r0, o.past, s.C(), s.T(), before) && (s.mode == AtType || s.mode == AtTypeDo)
    requires s.ArraysOK() && FixedOK(s.F())
    modifies s`mode, s`last, s`virgin, s`lencode, s`lenbits, s`distcode, s`distbits, s`litLens, s`distLens,
             s.lens, s.work, s.lenfix, s.distfix
    ensures Stepped(r0, o, old(s.C()), r, o, s.C(), s.T(), before, leave)
    ensures s.ArraysOK() && FixedOK(s.F())
  {
    hide BitsOK, Stepped, Rfc.Field, Go, TablesOK, FixedOK, Decodes;
    ghost var c, t := s.C(), s.T();
    leave := false;
    if s.last {
      r := ByteBits(r0);
      s.mode := AtCheck;
      LastBlock(r0, o, c, t, r, s.C(), before);
      return;
    }
    var ok, field;
    ok, r, field := Peek(r0, 3);
    leave := !ok;
    if leave {
      TypeWaits(r0, o, c, t, r, before);
      return;
    }
    var last, kind;
    last, kind, r := TakeBlockHeader(r);
    if kind == 1 {
      StartFixed(s, r0, o, before, last, r);
    } else {
      s.last := last;
      s.mode := BlockMode(kind);
      TypeRead(r0, o, c, t, r, s.C(), t, before);
    }
  }
}
