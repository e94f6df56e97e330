/** The CHECK mode: the trailer of the zlib stream. */
module StepTrailers {
  import opened Bits
  import opened Adler
  import opened Outputs
  import opened Streams
  import opened Steps
  import opened StepBlocks
  import Rfc = Rfc1951

  /** The checksum is continued over what this call has written. */
  lemma {:induction false} CheckUpdated(o0: Writer, b0: seq<byte>, o: Writer, b: seq<byte>)
    requires Wrote(o0, b0, o, b)
    ensures o.put <= |b| && Update(Checksum(o0.past), b[o0.put..o.put]) == Checksum(o.past)
    ensures o.put == o0.put ==> o.past == o0.past
  {
    hide Update, Legal;
    UpdateOne();
    UpdateConcat(1, o0.past, b[o0.put..o.put]);
    assert o.past == o.past[..|o0.past|] + o.past[|o0.past|..];
  }

  lemma {:induction false} UpdateOne()
    ensures Legal(1)
  {
  }

  /** Adds the output of this call to the checksum. */
  method UpdateCheck(check: nat, buf: array<byte>, o: Writer, n: nat, ghost o0: Writer, ghost b0: seq<byte>)
    returns (r: nat)
    requires Wrote(o0, b0, o, buf[..]) && n == o0.left - o.left && check == Checksum(o0.past)
    ensures r == Checksum(o.past) && Legal(r)
  {
    hide Update, Legal;
    CheckUpdated(o0, b0, o, buf[..]);
    r := check;
    UpdateOne();
    if n != 0 {
      assert buf[..][o0.put..o.put] == buf[o.put - n..o.put - n + n];
      r := Adler32(check, buf, n, o.put - n);
    }
  }

  lemma {:induction false} CheckWaits(r: Reader, o: Writer, c: Control, t: Tables, r': Reader, before: seq<byte>)
    requires Ready(r, o.past, c, t, before) && c.mode == AtCheck && BitsOK(r') && Consumed(r, r') && r'.pos == r.pos
    requires WholeBytes(r'.bits) && r'.have == 0 && (r'.taken == |r'.bytes| ==> |r'.stream| < r'.pos + 32)
    ensures Stepped(r, o, c, r', o, c, t, before, true)
  {
    hide Legal, Checksum, Decodes, Stepped, BytesBits, LVal;
    AtBoundary(r);
    ToWait(r, o, c, t, r', before);
  }

  /** Between whole bytes, alignment changes nothing. */
  lemma {:induction false} AtBoundary(r: Reader)
    requires BitsOK(r) && WholeBytes(r.bits)
    ensures Rfc.Aligned(r.pos) == r.pos
  {
    hide BytesBits, LVal;
    ToBoundary(r.pos, r.bits, r.taken);
  }

  lemma {:induction false} CheckRead(r: Reader, o: Writer, c: Control, t: Tables, r': Reader, c': Control,
                                     before: seq<byte>)
    requires Ready(r, o.past, c, t, before) && c.mode == AtCheck && BitsOK(r') && Consumed(r, r')
    requires r'.stream == r.stream && r.pos + 32 <= |r.stream|
    requires c' == c.(check := Checksum(o.past), checked := true, mode := c'.mode) && Legal(c'.check)
    requires if Rfc.BigEndian(r.stream, r.pos) == c'.check then r'.pos == r.pos + 32 && c'.mode == AtDone
             else r'.pos == r.pos && c'.mode == AtBad
    ensures Stepped(r, o, c, r', o, c', t, before, false)
  {
    hide BitsOK, Legal, Checksum, Decodes, Rfc.BigEndian, Rfc.Aligned;
    AtBoundary(r);
    TablesKept(c, c', t);
  }

  method StepCheck(s: Stream, r0: Reader, o: Writer, start: nat, ghost o0: Writer, ghost b0: seq<byte>)
    returns (leave: bool, r: Reader, start': nat)
    requires Ready(r0, o.past, s.C(), s.T(), o0.past) && s.mode == AtCheck
    requires start == o0.left && o.left <= start && Wrote(o0, b0, o, s.output[..])
    modifies s`mode, s`check, s`checked, s`totalOut
    ensures Stepped(r0, o, old(s.C()), r, o, s.C(), s.T(), o0.past, leave)
    ensures leave ==> start' == start && s.totalOut == old(s.totalOut) && s.C() == old(s.C())
    ensures !leave ==> start' == o.left && s.totalOut == old(s.totalOut) + (start - o.left) && s.checked
  {
    hide BitsOK, Stepped, Rfc.BigEndian, Go, Eight, BytesBits, TablesOK, Wrote, Legal, Checksum, Swap32, Ready, Low,
      Shr, LVal, Rfc.Field, Pow2;
    ghost var c, t := s.C(), s.T();
    ReadyCheck(r0, o.past, c, t, o0.past);
    start' := start;
    var ok, trailer;
    ok, r, trailer := Peek(r0, 32);
    leave := !ok;
    if leave {
      CheckWaits(r0, o, c, t, r, o0.past);
      return;
    }
    SwapIsBigEndian(r);
    CompareCheck(s, o, Swap32(r.hold), start, o0, b0);
    start' := o.left;
    if s.mode == AtDone {
      r := InitBits(r);
    }
    CheckRead(r0, o, c, t, r, s.C(), o0.past);
  }

  method CompareCheck(s: Stream, o: Writer, trailer: nat, start: nat, ghost o0: Writer, ghost b0: seq<byte>)
    requires s.check == Checksum(o0.past) && start == o0.left && o.left <= start && Wrote(o0, b0, o, s.output[..])
    modifies s`mode, s`check, s`checked, s`totalOut
    ensures s.checked && s.check == Checksum(o.past) && Legal(s.check)
    ensures s.mode == if trailer == s.check then AtDone else AtBad
    ensures s.totalOut == old(s.totalOut) + (start - o.left)
  {
    hide Wrote, Legal, Checksum;
    var out := start - o.left;
    s.totalOut := s.totalOut + out;
    s.check := UpdateCheck(s.check, s.output, o, out, o0, b0);
    s.checked := true;
    s.mode := if trailer == s.check then AtDone else AtBad;
  }

  lemma {:induction false} ReadyCheck(r: Reader, past: seq<byte>, c: Control, t: Tables, before: seq<byte>)
    requires Ready(r, past, c, t, before) && c.mode == AtCheck
    ensures BitsOK(r) && WholeBytes(r.bits) && c.check == Checksum(before)
  {
  }

}
