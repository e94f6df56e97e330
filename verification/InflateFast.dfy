/** `inflate_fast`: the loop without tests for input and room, and the return of whole unused bytes. */
module InflateFasts {
  import opened Bits
  import opened Huffman
  import opened Adler
  import opened Outputs
  import opened Streams
  import opened Steps
  import opened FastSteps

  // ----- returning unused bytes -----

  /** Moves whole bytes from the held bits back to the input; fewer than eight bits stay. */
  function GiveBack(r: Reader): Reader
    requires r.bits / 8 <= r.next && r.bits / 8 <= r.taken
  {
    var len, bits := r.bits / 8, r.bits % 8;
    r.(hold := Low(r.hold, bits), bits := bits, next := r.next - len, have := r.have + len, taken := r.taken - len)
  }

  /** The bytes to return were all read since `a`. */
  lemma {:induction false} ReadSince(a: Reader, r: Reader)
    requires BitsOK(a) && BitsOK(r) && Consumed(a, r) && r.pos + 8 > a.pos + a.bits
    ensures r.bits / 8 <= a.have - r.have == r.next - a.next == r.taken - a.taken
  {
    hide BitsOK;
    BytesTaken(a, r);
    EightIs(a.have - r.have);
    TakenSince(a, r);
  }

  lemma {:induction false} EightIs(n: nat)
    ensures Eight(n) == 8 * n
  {
  }

  lemma {:induction false} TakenSince(a: Reader, r: Reader)
    requires BitsOK(a) && BitsOK(r) && Consumed(a, r)
    ensures a.have - r.have == r.next - a.next == r.taken - a.taken
  {
  }

  lemma {:induction false} GivenSlices(a: Reader, r: Reader, len: nat)
    requires BitsOK(a) && BitsOK(r) && Consumed(a, r) && len <= r.next - a.next == r.taken - a.taken
    ensures r.next + r.have <= |r.input| && r.taken + r.have <= |r.bytes|
    ensures r.input[r.next - len..r.next + r.have] == r.bytes[r.taken - len..r.taken + r.have]
  {
    hide BytesBits, LVal, Eight;
    var i, b := a.input[a.next..a.next + a.have], a.bytes[a.taken..a.taken + a.have];
    var k := r.next - len - a.next;
    assert r.input[r.next - len..r.next + r.have] == i[k..];
    assert r.bytes[r.taken - len..r.taken + r.have] == b[k..];
  }

  /** Whole unused bytes go back, never beyond where the call began. */
  lemma {:induction false} GiveBackOK(a: Reader, r: Reader)
    requires BitsOK(a) && BitsOK(r) && Consumed(a, r) && r.pos + 8 > a.pos + a.bits
    ensures a.next + r.bits / 8 <= r.next && a.taken + r.bits / 8 <= r.taken
    ensures var r' := GiveBack(r); BitsOK(r') && Consumed(a, r') && r'.pos == r.pos && r'.bits < 8
  {
    hide BytesBits, LVal, Low, Eight;
    ReadSince(a, r);
    var len, bits := r.bits / 8, r.bits % 8;
    HeldLow(r, bits);
    GivenSlices(a, r, len);
    EightIs(r.taken);
    EightIs(r.taken - len);
  }

  // ----- the loop -----

  lemma {:induction false} FastKeptOn(c: Control, o: Writer, s: seq<bool>, p: nat, o1: Writer, p1: nat, m: Mode,
                                      o2: Writer, p2: nat)
    requires FastKept(c, o, s, p, AtLen, o1, p1) && FastKept(c, o1, s, p1, m, o2, p2)
    ensures FastKept(c, o, s, p, m, o2, p2)
  {
    hide Go;
    assert c.(mode := AtLen) == c;
  }

  lemma {:induction false} FastStart(r: Reader, o: Writer, c: Control, t: Tables, w: Window, before: seq<byte>)
    requires Ready(r, o.past, c, t, before) && c.mode == AtLen && WindowOK(w) && w.ringed == before
    ensures Shape(c) && FastReady(c, t, w, before) && BitsOK(r) && Tight(r, c.litLens)
    ensures FastKept(c, o, r.stream, r.pos, AtLen, o, r.pos)
  {
    hide BitsOK, Go, WindowOK, Decodes, Tight;
    assert c.(mode := AtLen) == c;
  }

  /** A reader with at most thirty bits. */
  lemma {:induction false} TightBits(r: Reader, lens: seq<nat>)
    requires BitsOK(r) && Tight(r, lens) && LensOK(lens)
    ensures r.bits <= 14
  {
    hide BytesBits, LVal;
    if r.bits >= 8 {
      var b := Held(r);
      var v: nat :| Extends(lens, v, b);
    }
  }

  lemma {:induction false} LitLensOK(c: Control, t: Tables, w: Window, before: seq<byte>)
    requires FastReady(c, t, w, before)
    ensures LensOK(c.litLens)
  {
  }

  lemma {:induction false} FastDone(r: Reader, o: Writer, c: Control, t: Tables, r': Reader, o': Writer, m: Mode,
                                    c': Control, before: seq<byte>)
    requires Ready(r, o.past, c, t, before) && c.mode == AtLen && BitsOK(r') && Consumed(r, r') && r'.bits < 8
    requires r.pos < r'.pos
    requires FastKept(c, o, r.stream, r.pos, m, o', r'.pos) && c' == c.(mode := m) && |o.past| <= |o'.past|
    ensures Stepped(r, o, c, r', o', c', t, before, false)
  {
    hide BitsOK, Go, Decodes, Lookup, Legal, Checksum;
  }

  ghost predicate FastLoop(a: Reader, r: Reader) {
    BitsOK(r) && Consumed(a, r) && r.bits <= 30 && (r == a || (r.pos > a.pos && r.pos + 8 > a.pos + a.bits))
  }

  lemma {:induction false} FastLoopOn(a: Reader, r: Reader, lens: seq<nat>, r': Reader)
    requires FastLoop(a, r) && Within(r, r', 48) && r.pos < r'.pos && BitsOK(a) && Tight(a, lens)
    requires Tight(r, lens) ==> r'.pos + 8 > r.pos + r.bits
    ensures FastLoop(a, r') && r' != a && r'.stream == r.stream && r'.pos <= |r'.stream|
  {
    hide BytesBits, LVal, Lookup;
  }

  /** Decodes symbols as long as there are six bytes of input and 258 bytes of room.

      It is one step from LEN like any other, and reads and writes only what it may.  It does what the slow modes
      do for the same n symbols: the same mode, output and, unless that is an error, the same position. */
  method InflateFast(s: Stream, r0: Reader, o: Writer, start: nat, ghost o0: Writer, ghost b0: seq<byte>)
    returns (r: Reader, o': Writer, ghost n: nat)
    requires Ready(r0, o.past, s.C(), s.T(), o0.past) && s.mode == AtLen && r0.have >= 6 && o.left >= 258
    requires WindowOK(s.W()) && s.ringed == o0.past && s.window != s.output
    requires Wrote(o0, b0, o, s.output[..]) && start == o0.left
    modifies s`mode, s.output
    ensures Stepped(r0, o, old(s.C()), r, o', s.C(), old(s.T()), o0.past, false)
    ensures Wrote(o0, b0, o', s.output[..]) && r.bits < 8
    ensures n >= 1 && EndsAfter(n, old(s.C()), o.past, r0.stream, r0.pos, s.mode, o'.past, r.pos)
  {
    hide BitsOK, Go, Decodes, Lookup, Stepped, Ready, FastReady, FastKept, Wrote, WindowOK, Tight, Within, FastLoop,
      Consumed, GiveBack, EndsAfter, EndsAt;
    ghost var c, t := s.C(), s.T();
    FastStart(r0, o, c, t, s.W(), o0.past);
    LitLensOK(c, t, s.W(), o0.past);
    TightBits(r0, c.litLens);
    FastLoopStart(r0);
    r, o' := r0, o;
    var mode := AtLen;
    n := 0;
    EndsNone(c, o.past, r.stream, r.pos);
    var last, end := r.next + (r.have - 5), o.put + (o.left - 257);
    WroteRoom(o0, b0, o', s.output[..]);
    while mode == AtLen && r.next < last && o'.put < end
      invariant s.C() == c && s.T() == t && FastReady(s.C(), s.T(), s.W(), o0.past)
      invariant FastLoop(r0, r) && r.stream == r0.stream && r.pos <= |r.stream|
      invariant r == r0 ==> mode == AtLen && o' == o
      invariant Wrote(o0, b0, o', s.output[..]) && o'.put + o'.left == o.put + o.left && |o.past| <= |o'.past|
      invariant FastKept(c, o, r0.stream, r0.pos, mode, o', r.pos)
      invariant EndsAfter(n, c, o.past, r0.stream, r0.pos, mode, o'.past, r.pos) && (r != r0 ==> n >= 1)
      decreases |r.stream| - r.pos
    {
      FastLoopParts(r0, r);
      ghost var r1, o1 := r, o';
      WroteRoom(o0, b0, o1, s.output[..]);
      mode, r, o' := FastStep(s, r, o', start, o0, b0);
      FastLoopOn(r0, r1, c.litLens, r);
      EndsOneMore(n, c, o.past, r0.stream, r0.pos, o1.past, r1.pos, mode, o'.past, r.pos);
      n := n + 1;
      FastKeptOn(c, o, r0.stream, r0.pos, o1, r1.pos, mode, o', r.pos);
      WroteRoom(o0, b0, o', s.output[..]);
    }
    FastLoopParts(r0, r);
    GiveBackOK(r0, r);
    r := GiveBack(r);
    s.mode := mode;
    FastDone(r0, o, c, t, r, o', mode, s.C(), o0.past);
  }

  lemma {:induction false} EndsNone(c: Control, past: seq<byte>, s: seq<bool>, p: nat)
    requires Shape(c) && c.mode == AtLen
    ensures EndsAfter(0, c, past, s, p, AtLen, past, p)
  {
  }

  lemma {:induction false} FastLoopStart(r: Reader)
    requires BitsOK(r) && r.bits <= 14
    ensures FastLoop(r, r) && r.pos <= |r.stream|
  {
  }

  lemma {:induction false} FastLoopParts(a: Reader, r: Reader)
    requires FastLoop(a, r)
    ensures BitsOK(r) && Consumed(a, r) && r.bits <= 30 && r.next + r.have == a.next + a.have
    ensures r == a || (r.pos > a.pos && r.pos + 8 > a.pos + a.bits)
  {
  }
}
