/** The numbers of code lengths of a block with dynamic codes: the TABLE mode. */
module StepTables {
  import opened Bits
  import opened Adler
  import opened Outputs
  import opened Streams
  import opened Steps
  import Rfc = Rfc1951

  // ----- the numbers of code lengths -----

  lemma {:induction false} TableWaits(r: Reader, o: Writer, c: Control, t: Tables, r': Reader, before: seq<byte>)
    requires Ready(r, o.past, c, t, before) && c.mode == AtTable && BitsOK(r') && Consumed(r, r') && r'.pos == r.pos
    requires r'.bits < 14 && r'.have == 0 && (r'.taken == |r'.bytes| ==> |r'.stream| < r'.pos + 14)
    ensures Stepped(r, o, c, r', o, c, t, before, true)
  {
    hide BitsOK, Legal, Checksum, Decodes, Stepped, Rfc.LenLens;
    ToWait(r, o, c, t, r', before);
  }

  /** The fields that TABLE sets. */
  function CountedFrom(c: Control, nlen: nat, ndist: nat, ncode: nat): Control {
    if nlen > 286 || ndist > 30 then
      c.(nlen := nlen, ndist := ndist, ncode := ncode, mode := AtBad)
    else
      c.(nlen := nlen, ndist := ndist, ncode := ncode, mode := AtLenLens, have := 0, acc := [])
  }

  predicate Counted(c: Control, c': Control, s: seq<bool>, p: nat) {
    p + 14 <= |s| && c' == CountedFrom(c, Rfc.Field(s, p, 5) + 257, Rfc.Field(s, p + 5, 5) + 1, Rfc.NCode(s, p))
  }

  lemma {:induction false} TableRead(r: Reader, o: Writer, c: Control, t: Tables, r': Reader, c': Control,
                                     before: seq<byte>)
    requires Ready(r, o.past, c, t, before) && c.mode == AtTable && BitsOK(r') && Consumed(r, r')
    requires Counted(c, c', r.stream, r.pos) && r'.pos == r.pos + 14 && r'.bits < 8
    ensures Stepped(r, o, c, r', o, c', t, before, false)
  {
    hide BitsOK, Legal, Checksum, Decodes, Rfc.LenLens, Rfc.Field, Stepped;
    if c'.mode == AtBad {
      ToBad(r, o, c, t, r', c', t, before);
    } else {
      TableGood(r, o, c, t, r', c', before);
    }
  }

  lemma {:induction false} TableGood(r: Reader, o: Writer, c: Control, t: Tables, r': Reader, c': Control,
                                     before: seq<byte>)
    requires Ready(r, o.past, c, t, before) && c.mode == AtTable && BitsOK(r') && Consumed(r, r')
    requires Counted(c, c', r.stream, r.pos) && c'.mode == AtLenLens && r'.pos == r.pos + 14 && r'.bits < 8
    ensures Stepped(r, o, c, r', o, c', t, before, false)
  {
    hide BitsOK, Legal, Checksum, Decodes, Rfc.LenLens, Rfc.Field;
  }

  /** The three numbers at the start of the block. */
  method TakeCounts(r0: Reader) returns (nlen: nat, ndist: nat, ncode: nat, r: Reader)
    requires BitsOK(r0) && 14 <= r0.bits < 22
    ensures BitsOK(r) && Consumed(r0, r) && r.pos == r0.pos + 14 <= |r.stream| && r.bits < 8
    ensures nlen == Rfc.Field(r.stream, r0.pos, 5) + 257 && ndist == Rfc.Field(r.stream, r0.pos + 5, 5) + 1
    ensures ncode == Rfc.NCode(r.stream, r0.pos)
  {
    hide Low, Shr, Rfc.Field, Eight, BytesBits, LVal, Pow2;
    HeldLow(r0, 5);
    nlen := Low(r0.hold, 5) + 257;
    r := DropBits(r0, 5);
    HeldLow(r, 5);
    ndist := Low(r.hold, 5) + 1;
    r := DropBits(r, 5);
    HeldLow(r, 4);
    ncode := Low(r.hold, 4) + 4;
    r := DropBits(r, 4);
  }

  method SetCounts(s: Stream, nlen: nat, ndist: nat, ncode: nat)
    modifies s`mode, s`nlen, s`ndist, s`ncode, s`have, s`acc
    ensures s.C() == CountedFrom(old(s.C()), nlen, ndist, ncode)
  {
    s.nlen, s.ndist, s.ncode := nlen, ndist, ncode;
    if nlen > 286 || ndist > 30 {
      s.mode := AtBad;
    } else {
      s.have := 0;
      s.acc := [];
      s.mode := AtLenLens;
    }
  }

  lemma {:induction false} ReadyTable(r: Reader, past: seq<byte>, c: Control, t: Tables, before: seq<byte>)
    requires Ready(r, past, c, t, before) && c.mode == AtTable
    ensures BitsOK(r) && r.bits < 14
  {
  }

  method StepTable(s: Stream, r0: Reader, ghost o: Writer, ghost before: seq<byte>) returns (leave: bool, r: Reader)
    requires Ready(r0, o.past, s.C(), s.T(), before) && s.mode == AtTable
    modifies s`mode, s`nlen, s`ndist, s`ncode, s`have, s`acc
    ensures Stepped(r0, o, old(s.C()), r, o, s.C(), s.T(), before, leave)
  {
    hide Low, Shr, LVal, BitsOK, Stepped, Rfc.Field, Go, Eight, BytesBits, TablesOK, Rfc.NCode, Ready,
      Pow2, CountedFrom;
    ghost var c, t := s.C(), s.T();
    ReadyTable(r0, o.past, c, t, before);
    var ok, field;
    ok, r, field := Peek(r0, 14);
    leave := !ok;
    if leave {
      TableWaits(r0, o, c, t, r, before);
      return;
    }
    var nlen, ndist, ncode;
    nlen, ndist, ncode, r := TakeCounts(r);
    SetCounts(s, nlen, ndist, ncode);
    TableRead(r0, o, c, t, r, s.C(), before);
  }
}
