/** The caller's output buffer. */
module Outputs {
  import opened Bits

  /** The local variables of inflate() for the output, and in `past` everything that has been written,
      in all calls. */
  datatype Writer = Writer(put: nat, left: nat, ghost past: seq<byte>)

  /** The bytes of `past` beyond those of `o0` have been stored in the buffer, and nothing else has been. */
  ghost predicate Wrote(o0: Writer, b0: seq<byte>, o: Writer, b: seq<byte>) {
    && o0.put <= o.put && o.put + o.left == o0.put + o0.left <= |b0| == |b|
    && |o.past| == |o0.past| + (o.put - o0.put) && o.past[..|o0.past|] == o0.past
    && b[..o0.put] == b0[..o0.put]
    && b[o0.put..o.put] == o.past[|o0.past|..]
    && b[o.put..] == b0[o.put..]
  }

  lemma {:induction false} WroteNothing(o: Writer, b: seq<byte>)
    requires o.put + o.left <= |b|
    ensures Wrote(o, b, o, b)
  {
  }

  lemma {:induction false} WroteRoom(o0: Writer, b0: seq<byte>, o: Writer, b: seq<byte>)
    requires Wrote(o0, b0, o, b)
    ensures o.put + o.left <= |b| && o0.put <= o.put && o.left <= o0.left && |o0.past| <= |o.past|
    ensures o.put - o0.put == o0.left - o.left == |o.past| - |o0.past|
  {
  }

  /** Appending `x`. */
  ghost function Put(o: Writer, x: seq<byte>): Writer
    requires |x| <= o.left
  {
    Writer(o.put + |x|, o.left - |x|, o.past + x)
  }

  /** `x` has been stored from index i on. */
  predicate Stored(b: seq<byte>, i: nat, x: seq<byte>, b': seq<byte>) {
    i + |x| <= |b| && b' == b[..i] + x + b[i + |x|..]
  }

  lemma {:induction false} WroteMore(o0: Writer, b0: seq<byte>, o: Writer, b: seq<byte>, x: seq<byte>, b': seq<byte>)
    requires Wrote(o0, b0, o, b) && |x| <= o.left && Stored(b, o.put, x, b')
    ensures Wrote(o0, b0, Put(o, x), b')
  {
    var o' := Put(o, x);
    var i := o0.put;
    assert b'[..i] == b[..i];
    assert b'[i..o'.put] == b[i..o.put] + x;
    assert o'.past[|o0.past|..] == o.past[|o0.past|..] + x;
    assert o'.past[..|o0.past|] == o.past[..|o0.past|];
    assert b[o'.put..] == b[o.put..][|x|..];
    assert b0[o'.put..] == b0[o.put..][|x|..];
    assert b'[o'.put..] == b[o'.put..];
  }

  /** The bytes of this call, looking back from the write position. */
  lemma {:induction false} WroteAt(o0: Writer, b0: seq<byte>, o: Writer, b: seq<byte>, j: nat)
    requires Wrote(o0, b0, o, b) && 1 <= j <= o.put - o0.put
    ensures j <= |o.past| && j <= o.put <= |b| && b[o.put - j] == o.past[|o.past| - j]
  {
    var k := o.put - o0.put - j;
    assert b[o0.put..o.put][k] == o.past[|o0.past|..][k];
  }
}
