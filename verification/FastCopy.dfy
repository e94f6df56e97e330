/** The match copy of `inflate_fast`: segments of the window, then the output, three bytes at a time and
    without looking at the space that is left.
 */
module FastCopies {
  import opened Bits
  import opened Outputs
  import opened Streams
  import opened Matches
  import opened StepMatches
  import Rfc = Rfc1951

  /** The first n bytes of a match have been copied. */
  ghost predicate Copied(o: Writer, dist: nat, n: nat, o': Writer) {
    1 <= dist <= |o.past| && n <= o.left && o' == Writer(o.put + n, o.left - n, Rfc.CopyMatch(o.past, dist, n))
  }

  lemma {:induction false} CopiedOn(o: Writer, dist: nat, a: nat, o1: Writer, b: nat, o2: Writer)
    requires Copied(o, dist, a, o1) && Copied(o1, dist, b, o2)
    ensures Copied(o, dist, a + b, o2)
  {
    CopyMatchSplit(o.past, dist, a, b);
  }

  lemma {:induction false} CopiedOne(o: Writer, dist: nat, a: nat, o1: Writer)
    requires Copied(o, dist, a, o1) && o1.left >= 1 && dist <= |o1.past|
    ensures Copied(o, dist, a + 1, Put(o1, [o1.past[|o1.past| - dist]]))
  {
    CopyMatchNext(o.past, dist, a);
  }

  /** The unrolled copy: threes, then the one or two bytes that remain. */
  method CopyThrees(output: array<byte>, src: array<byte>, o: Writer, from: nat, len: nat, ghost dist: nat,
                    ghost o0: Writer, ghost b0: seq<byte>) returns (o': Writer)
    requires Wrote(o0, b0, o, output[..]) && len <= o.left
    requires Feeds(src[..], src == output, from, len, o.past, dist, o0, o.put)
    modifies output
    ensures Wrote(o0, b0, o', output[..]) && Copied(o, dist, len, o')
  {
    hide Wrote, Feeds, Copied;
    FedDistance(src[..], src == output, from, len, o.past, dist, o0, o.put);
    o' := o;
    CopiedNothing(o, dist);
    var at: nat, rest: nat := from, len;
    while rest > 2
      invariant rest <= len && rest <= o'.left
      invariant Wrote(o0, b0, o', output[..]) && Copied(o, dist, len - rest, o')
      invariant Feeds(src[..], src == output, at, rest, o'.past, dist, o0, o'.put)
    {
      o' := CopyNext(output, src, o', at, rest, dist, o, len - rest, o0, b0);
      o' := CopyNext(output, src, o', at + 1, rest - 1, dist, o, len - rest + 1, o0, b0);
      o' := CopyNext(output, src, o', at + 2, rest - 2, dist, o, len - rest + 2, o0, b0);
      at := at + 3;
      rest := rest - 3;
    }
    if rest != 0 {
      o' := CopyNext(output, src, o', at, rest, dist, o, len - rest, o0, b0);
      if rest > 1 {
        o' := CopyNext(output, src, o', at + 1, rest - 1, dist, o, len - rest + 1, o0, b0);
      }
    }
  }

  lemma {:induction false} CopiedNothing(o: Writer, dist: nat)
    requires 1 <= dist <= |o.past|
    ensures Copied(o, dist, 0, o)
  {
  }

  /** One byte of a match that began at `b`. */
  method CopyNext(output: array<byte>, src: array<byte>, o: Writer, from: nat, ghost n: nat, ghost dist: nat,
                  ghost b: Writer, ghost done: nat, ghost o0: Writer, ghost b0: seq<byte>) returns (o': Writer)
    requires Wrote(o0, b0, o, output[..]) && 1 <= n <= o.left && Copied(b, dist, done, o)
    requires Feeds(src[..], src == output, from, n, o.past, dist, o0, o.put)
    modifies output
    ensures Wrote(o0, b0, o', output[..]) && Copied(b, dist, done + 1, o') && o'.left == o.left - 1
    ensures Feeds(src[..], src == output, from + 1, n - 1, o'.past, dist, o0, o'.put)
  {
    hide Wrote, Feeds, Copied;
    FedDistance(src[..], src == output, from, n, o.past, dist, o0, o.put);
    CopiedOne(b, dist, done, o);
    o' := CopyOne(output, src, o, from, n, dist, o0, b0);
  }

  /** Enough of the window remains for what is to be copied, or else the output takes over. */
  lemma {:induction false} OutputFeeds(src: seq<byte>, o0: Writer, b0: seq<byte>, o: Writer, b: seq<byte>, dist: nat,
                                       n: nat)
    requires Wrote(o0, b0, o, b) && 1 <= dist <= o.put - o0.put
    ensures Feeds(src, true, o.put - dist, n, o.past, dist, o0, o.put)
  {
  }

  /** The three cases of a source in the window: the write position at the start, the distance wrapping
      around, or contiguous.  Copies whole segments; what is left comes from one source. */
  method CopySegments(s: Stream, o: Writer, len0: nat, op0: nat, dist: nat, ghost o0: Writer, ghost b0: seq<byte>)
    returns (source: array<byte>, from: nat, len: nat, o': Writer)
    requires WindowOK(s.W()) && s.ringed == o0.past && Wrote(o0, b0, o, s.output[..]) && s.window != s.output
    requires 1 <= op0 <= s.whave && dist == op0 + (o.put - o0.put) && 1 <= len0 <= o.left
    modifies s.output
    ensures 1 <= len <= len0 && Wrote(o0, b0, o', s.output[..]) && Copied(o, dist, len0 - len, o')
    ensures source == s.output || source == s.window
    ensures Feeds(source[..], source == s.output, from, len, o'.past, dist, o0, o'.put)
  {
    hide Wrote, Feeds, Copied, WindowOK;
    ghost var w := s.W();
    WindowRange(w, op0);
    var op;
    len, op, o' := len0, op0, o;
    ghost var n := if op0 > s.wnext then op0 - s.wnext else op0;
    WindowFeeds(w, o0, b0, o, s.output[..], dist, op0, n);
    FedDistance(w.buf, false, RingIndex(w.wsize, w.wnext, op0), n, o.past, dist, o0, o.put);
    CopiedNothing(o, dist);
    WroteRoom(o0, b0, o, s.output[..]);
    if s.wnext == 0 {
      from := s.wsize - op;
    } else if s.wnext < op {
      from := s.wsize + s.wnext - op;
      op := op - s.wnext;
      if op < len {
        o' := CopySegment(s, o, 0, o', from, op, dist, o0, b0);
        len := len - op;
        WroteRoom(o0, b0, o', s.output[..]);
        WindowFeeds(w, o0, b0, o', s.output[..], dist, s.wnext, s.wnext);
        from := 0;
        op := s.wnext;
      }
    } else {
      from := s.wnext - op;
    }
    source, from, len, o' := CopyLast(s, o, o', from, len0, len, op, dist, o0, b0);
  }

  /** The last segment of the window, behind which the output takes over, or else what is left is within it. */
  method CopyLast(s: Stream, ghost b: Writer, o: Writer, from0: nat, ghost all: nat, len0: nat, op: nat, dist: nat,
                  ghost o0: Writer, ghost b0: seq<byte>)
    returns (source: array<byte>, from: nat, len: nat, o': Writer)
    requires s.window != null && s.window != s.output && Wrote(o0, b0, o, s.output[..])
    requires o0.put <= o.put && 1 <= op && (op < len0 ==> dist == op + (o.put - o0.put)) && 1 <= len0 <= o.left
    requires len0 <= all
    requires Feeds(s.window[..], false, from0, op, o.past, dist, o0, o.put) && Copied(b, dist, all - len0, o)
    modifies s.output
    ensures 1 <= len <= len0 && Wrote(o0, b0, o', s.output[..]) && Copied(b, dist, all - len, o')
    ensures source == s.output || source == s.window
    ensures Feeds(source[..], source == s.output, from, len, o'.past, dist, o0, o'.put)
  {
    hide Wrote, Feeds, Copied;
    source, from, len, o' := s.window, from0, len0, o;
    if op < len {
      o' := CopySegment(s, b, all - len, o', from, op, dist, o0, b0);
      len := len - op;
      WroteRoom(o0, b0, o', s.output[..]);
      from := o'.put - dist;
      source := s.output;
      OutputFeeds(source[..], o0, b0, o', s.output[..], dist, len);
    } else {
      FeedsLess(source[..], false, from, op, len, o'.past, dist, o0, o'.put);
    }
  }

  /** One segment of the window, in full. */
  method CopySegment(s: Stream, ghost b: Writer, ghost done: nat, o: Writer, from: nat, op: nat, ghost dist: nat,
                     ghost o0: Writer, ghost b0: seq<byte>) returns (o': Writer)
    requires s.window != null && s.window != s.output && Wrote(o0, b0, o, s.output[..]) && 1 <= op <= o.left
    requires Feeds(s.window[..], false, from, op, o.past, dist, o0, o.put) && Copied(b, dist, done, o)
    modifies s.output
    ensures Wrote(o0, b0, o', s.output[..]) && Copied(b, dist, done + op, o') && o'.put == o.put + op
    ensures s.window[..] == old(s.window[..]) && o'.left == o.left - op
  {
    hide Wrote, Feeds, Rfc.CopyMatch;
    o' := CopyRun(s.output, s.window, o, from, op, dist, o0, b0);
    CopiedOn(b, dist, done, o, op, o');
  }

  /** Copies a whole match in the fast path, unless it reaches too far back. */
  method FastCopy(s: Stream, o: Writer, len: nat, dist: nat, start: nat, ghost o0: Writer, ghost b0: seq<byte>)
    returns (tooFar: bool, o': Writer)
    requires WindowOK(s.W()) && s.ringed == o0.past && Wrote(o0, b0, o, s.output[..]) && s.window != s.output
    requires start == o0.left && 1 <= dist <= WSIZE && 1 <= len <= o.left
    modifies s.output
    ensures Wrote(o0, b0, o', s.output[..])
    ensures tooFar <==> dist > |o.past|
    ensures if tooFar then o' == o else Copied(o, dist, len, o')
  {
    hide Wrote, Feeds, Copied, WindowOK, Rfc.CopyMatch;
    WroteRoom(o0, b0, o, s.output[..]);
    TooFar(s.W(), o0, b0, o, s.output[..], dist);
    tooFar, o' := false, o;
    var op := start - o.left;
    if dist > op {
      op := dist - op;
      if op > s.whave {
        return true, o;
      }
      var source, from, rest;
      source, from, rest, o' := CopySegments(s, o, len, op, dist, o0, b0);
      ghost var o1 := o';
      LeftAfter(o, dist, len - rest, o1);
      o' := CopyThrees(s.output, source, o', from, rest, dist, o0, b0);
      CopiedOn(o, dist, len - rest, o1, rest, o');
    } else {
      OutputFeeds(s.output[..], o0, b0, o, s.output[..], dist, len);
      o' := CopyThrees(s.output, s.output, o, o.put - dist, len, dist, o0, b0);
    }
  }

  lemma {:induction false} LeftAfter(o: Writer, dist: nat, n: nat, o': Writer)
    requires Copied(o, dist, n, o')
    ensures o'.left == o.left - n
  {
  }
}
