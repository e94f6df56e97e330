/** Copying a match: byte by byte, from the window or from the output, the distance may be shorter than
    the match.
 */
module Matches {
  import opened Bits
  import opened Outputs
  import opened Streams
  import Rfc = Rfc1951

  /** Each byte of a match is the one `dist` before it. */
  lemma {:induction false} CopyMatchNext(out: seq<byte>, dist: nat, k: nat)
    requires 1 <= dist <= |out|
    ensures var x := Rfc.CopyMatch(out, dist, k);
            |x| == |out| + k && Rfc.CopyMatch(out, dist, k + 1) == x + [x[|x| - dist]]
    decreases k
  {
    if k > 0 {
      CopyMatchNext(out + [out[|out| - dist]], dist, k - 1);
    }
  }

  lemma {:induction false} CopyMatchPrefix(out: seq<byte>, dist: nat, k: nat)
    requires 1 <= dist <= |out|
    ensures Rfc.CopyMatch(out, dist, k)[..|out|] == out
    decreases k
  {
    if k > 0 {
      var x := out + [out[|out| - dist]];
      CopyMatchPrefix(x, dist, k - 1);
      assert Rfc.CopyMatch(x, dist, k - 1)[..|out|] == Rfc.CopyMatch(x, dist, k - 1)[..|x|][..|out|];
    }
  }

  lemma {:induction false} CopyMatchSplit(out: seq<byte>, dist: nat, a: nat, b: nat)
    requires 1 <= dist <= |out|
    ensures Rfc.CopyMatch(out, dist, a + b) == Rfc.CopyMatch(Rfc.CopyMatch(out, dist, a), dist, b)
    decreases a
  {
    if a > 0 {
      CopyMatchSplit(out + [out[|out| - dist]], dist, a - 1, b);
    }
  }

  /** What a match means, by index: section 3.2.3 read literally. */
  lemma {:induction false} CopyMatchAt(out: seq<byte>, dist: nat, len: nat, i: nat)
    requires 1 <= dist <= |out| && |out| <= i < |out| + len
    ensures Rfc.CopyMatch(out, dist, len)[i] == Rfc.CopyMatch(out, dist, len)[i - dist]
    decreases len
  {
    var x := out + [out[|out| - dist]];
    var r := Rfc.CopyMatch(x, dist, len - 1);
    if i == |out| {
      CopyMatchPrefix(x, dist, len - 1);
      assert r[i] == r[..|x|][i] && r[i - dist] == r[..|x|][i - dist];
    } else {
      CopyMatchAt(x, dist, len - 1, i);
    }
  }

  /** The source holds the next n bytes of the match: either some other array that has them from index
      `from` on, or the output itself, `dist` back. */
  ghost predicate Feeds(src: seq<byte>, same: bool, from: nat, n: nat, past: seq<byte>, dist: nat, o0: Writer,
                        put: nat)
  {
    && 1 <= dist <= |past|
    && if same then o0.put + dist <= put && from == put - dist
       else n <= dist && from + n <= |src| && src[from..from + n] == past[|past| - dist..|past| - dist + n]
  }

  /** One more byte has been copied. */
  lemma {:induction false} FeedsOn(src: seq<byte>, same: bool, from: nat, n: nat, past: seq<byte>, dist: nat,
                                   o0: Writer, put: nat)
    requires Feeds(src, same, from, n, past, dist, o0, put) && n >= 1
    ensures Feeds(src, same, from + 1, n - 1, past + [past[|past| - dist]], dist, o0, put + 1)
  {
    if !same {
      var past' := past + [past[|past| - dist]];
      var a, b := src[from..from + n], past[|past| - dist..|past| - dist + n];
      assert src[from + 1..from + n] == a[1..];
      assert past'[|past'| - dist..|past'| - dist + (n - 1)] == b[1..];
    }
  }

  lemma {:induction false} FirstFed(src: seq<byte>, from: nat, n: nat, past: seq<byte>, dist: nat, o0: Writer, put: nat)
    requires Feeds(src, false, from, n, past, dist, o0, put) && n >= 1
    ensures from < |src| && src[from] == past[|past| - dist]
  {
    assert src[from..from + n][0] == past[|past| - dist..|past| - dist + n][0];
  }

  lemma {:induction false} FedDistance(src: seq<byte>, same: bool, from: nat, n: nat, past: seq<byte>, dist: nat,
                                       o0: Writer, put: nat)
    requires Feeds(src, same, from, n, past, dist, o0, put)
    ensures 1 <= dist <= |past|
  {
  }

  /** The source is the output itself, `dist` back. */
  lemma {:induction false} FedBack(src: seq<byte>, from: nat, n: nat, past: seq<byte>, dist: nat, o0: Writer, put: nat)
    requires Feeds(src, true, from, n, past, dist, o0, put)
    ensures o0.put + dist <= put && from == put - dist
  {
  }

  lemma {:induction false} FedBySame(src: seq<byte>, src': seq<byte>, from: nat, n: nat, past: seq<byte>, dist: nat,
                                     o0: Writer, put: nat)
    requires Feeds(src, true, from, n, past, dist, o0, put)
    ensures Feeds(src', true, from, n, past, dist, o0, put)
  {
  }

  lemma {:induction false} StoredOne(b: seq<byte>, i: nat, x: byte)
    requires i < |b|
    ensures Stored(b, i, [x], b[i := x])
  {
  }

  method StoreByte(output: array<byte>, ghost other: array<byte>, i: nat, x: byte)
    requires i < output.Length
    modifies output
    ensures Stored(old(output[..]), i, [x], output[..])
    ensures other != output ==> other[..] == old(other[..])
  {
    StoredOne(output[..], i, x);
    output[i] := x;
  }

  /** One byte of a match: the next one of the source goes to the write position, and both move on. */
  method CopyOne(output: array<byte>, src: array<byte>, o: Writer, from: nat, ghost n: nat, ghost dist: nat,
                 ghost o0: Writer, ghost b0: seq<byte>) returns (o': Writer)
    requires Wrote(o0, b0, o, output[..]) && 1 <= n <= o.left
    requires Feeds(src[..], src == output, from, n, o.past, dist, o0, o.put)
    modifies output
    ensures Wrote(o0, b0, o', output[..])
    ensures o' == Put(o, [o.past[|o.past| - dist]])
    ensures Feeds(src[..], src == output, from + 1, n - 1, o'.past, dist, o0, o'.put)
  {
    hide Wrote, Feeds, Stored;
    ghost var b, w := output[..], src[..];
    WroteRoom(o0, b0, o, b);
    FedDistance(w, src == output, from, n, o.past, dist, o0, o.put);
    if src == output {
      FedBack(w, from, n, o.past, dist, o0, o.put);
      WroteAt(o0, b0, o, b, dist);
    } else {
      FirstFed(w, from, n, o.past, dist, o0, o.put);
    }
    var x := src[from];
    FeedsOn(w, src == output, from, n, o.past, dist, o0, o.put);
    StoreByte(output, src, o.put, x);
    WroteMore(o0, b0, o, b, [x], output[..]);
    o' := Writer(o.put + 1, o.left - 1, o.past + [x]);
    if src == output {
      FedBySame(w, output[..], from + 1, n - 1, o'.past, dist, o0, o'.put);
    }
  }

  /** The bytes of a match, one after the other, at least one of them. */
  method CopyRun(output: array<byte>, src: array<byte>, o: Writer, from: nat, copy: nat, ghost dist: nat,
                 ghost o0: Writer, ghost b0: seq<byte>) returns (o': Writer)
    requires Wrote(o0, b0, o, output[..]) && 1 <= copy <= o.left
    requires Feeds(src[..], src == output, from, copy, o.past, dist, o0, o.put)
    modifies output
    ensures Wrote(o0, b0, o', output[..])
    ensures 1 <= dist <= |o.past| && o' == Writer(o.put + copy, o.left - copy, Rfc.CopyMatch(o.past, dist, copy))
  {
    hide Wrote, Feeds, Rfc.CopyMatch;
    FedDistance(src[..], src == output, from, copy, o.past, dist, o0, o.put);
    NothingCopied(o.past, dist);
    o' := o;
    var at, rest := from, copy;
    while rest != 0
      invariant rest <= copy && at == from + (copy - rest)
      invariant Wrote(o0, b0, o', output[..])
      invariant o' == Writer(o.put + (copy - rest), o.left - (copy - rest), Rfc.CopyMatch(o.past, dist, copy - rest))
      invariant Feeds(src[..], src == output, at, rest, o'.past, dist, o0, o'.put)
      decreases rest
    {
      CopyMatchNext(o.past, dist, copy - rest);
      o' := CopyOne(output, src, o', at, rest, dist, o0, b0);
      at, rest := at + 1, rest - 1;
    }
  }

  lemma {:induction false} NothingCopied(past: seq<byte>, dist: nat)
    requires 1 <= dist <= |past|
    ensures Rfc.CopyMatch(past, dist, 0) == past
  {
  }

  // ----- where the source is -----

  /** A distance beyond what this call has written: the j-th most recent byte of the window is next, and
      the n bytes from there on are contiguous. */
  lemma {:induction false} WindowFeeds(w: Window, o0: Writer, b0: seq<byte>, o: Writer, b: seq<byte>, dist: nat, j: nat,
                                       n: nat)
    requires WindowOK(w) && w.ringed == o0.past && Wrote(o0, b0, o, b) && 1 <= j <= w.whave
    requires dist == j + (o.put - o0.put)
    requires n <= if j > w.wnext then j - w.wnext else j
    ensures 0 <= RingIndex(w.wsize, w.wnext, j)
    ensures Feeds(w.buf, false, RingIndex(w.wsize, w.wnext, j), n, o.past, dist, o0, o.put)
  {
    var from := RingIndex(w.wsize, w.wnext, j);
    var a, h := |o.past| - dist, o0.past;
    assert a == |h| - j;
    var x, y := w.buf[from..from + n], o.past[a..a + n];
    forall i | 0 <= i < n ensures x[i] == y[i] {
      assert RingIndex(w.wsize, w.wnext, j - i) == from + i;
      assert o.past[..|h|][a + i] == h[a + i];
    }
    assert x == y;
  }

  /** A distance is beyond the window exactly when it is beyond all output. */
  lemma {:induction false} TooFar(w: Window, o0: Writer, b0: seq<byte>, o: Writer, b: seq<byte>, dist: nat)
    requires WindowOK(w) && w.ringed == o0.past && Wrote(o0, b0, o, b) && dist <= WSIZE
    ensures dist > (o.put - o0.put) + w.whave <==> dist > |o.past|
  {
  }
}
