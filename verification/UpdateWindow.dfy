/** `updatewindow`: keeping the most recent output in the circular window. */
module UpdateWindows {
  import opened Bits
  import opened Outputs
  import opened Streams
  import opened StepStoredBlocks

  /** How far behind the write position index i comes, going around. */
  function Behind(wsize: nat, wnext: nat, i: nat): int {
    if i >= wnext then i - wnext else i + wsize - wnext
  }

  /** `x` has been written around the ring from index wnext on. */
  predicate Around(buf: seq<byte>, wnext: nat, x: seq<byte>, buf': seq<byte>) {
    && |buf'| == |buf| && |x| <= |buf|
    && forall i :: 0 <= i < |buf| ==> buf'[i] == var k := Behind(|buf|, wnext, i); if 0 <= k < |x| then x[k] else buf[i]
  }

  function Advance(wsize: nat, wnext: nat, n: nat): int {
    if wnext + n >= wsize then wnext + n - wsize else wnext + n
  }

  /** Less than a window's worth of new bytes: the ring then holds the longer history. */
  lemma {:induction false} RingAppend(buf: seq<byte>, whave: nat, wnext: nat, h: seq<byte>, x: seq<byte>,
                                      buf': seq<byte>)
    requires Ring(buf, |buf|, whave, wnext, h) && |x| < |buf| && Around(buf, wnext, x, buf')
    ensures 0 <= Advance(|buf|, wnext, |x|) < |buf|
    ensures Ring(buf', |buf|, if whave + |x| < |buf| then whave + |x| else |buf|, Advance(|buf|, wnext, |x|), h + x)
  {
    var n, c, h' := |buf|, |x|, h + x;
    var have', next' := if whave + c < n then whave + c else n, Advance(n, wnext, c);
    forall j | 1 <= j <= have'
      ensures 0 <= RingIndex(n, next', j) < n && buf'[RingIndex(n, next', j)] == h'[|h'| - j]
    {
      var i := RingIndex(n, next', j);
      if j <= c {
        assert Behind(n, wnext, i) == c - j;
      } else {
        assert i == RingIndex(n, wnext, j - c);
        assert !(0 <= Behind(n, wnext, i) < c);
      }
    }
  }

  /** At least a window's worth: the last part of it is all that is kept. */
  lemma {:induction false} RingReplace(n: nat, h: seq<byte>, x: seq<byte>, buf': seq<byte>)
    requires 0 < n <= |x| && buf' == x[|x| - n..]
    ensures Ring(buf', n, n, 0, h + x)
  {
    var h' := h + x;
    forall j | 1 <= j <= n ensures 0 <= RingIndex(n, 0, j) < n && buf'[RingIndex(n, 0, j)] == h'[|h'| - j] {
    }
  }

  /** The two copies of a wrapped write, or the one copy of a write that fits. */
  lemma {:induction false} AroundTwo(buf: seq<byte>, wnext: nat, x: seq<byte>, d: nat, mid: seq<byte>, buf': seq<byte>)
    requires wnext < |buf| && |x| < |buf| && d == (if |buf| - wnext > |x| then |x| else |buf| - wnext)
    requires Stored(buf, wnext, x[..d], mid) && Stored(mid, 0, x[d..], buf')
    ensures Around(buf, wnext, x, buf')
  {
    forall i | 0 <= i < |buf| ensures buf'[i] == var k := Behind(|buf|, wnext,
                                                                 i); if 0 <= k < |x| then x[k] else buf[i] {
      if i < |x| - d {
        assert buf'[i] == x[d + i];
      } else {
        assert buf'[i] == mid[i];
      }
    }
  }

  lemma {:induction false} NothingStored(b: seq<byte>)
    ensures Stored(b, 0, [], b)
  {
  }

  lemma {:induction false} WindowFits(w: Window)
    requires WindowOK(w)
    ensures w.wbits == 15
    ensures w.wsize == 0 ==> !w.present && w.ringed == []
    ensures w.wsize != 0 ==> w.present && w.wsize == WSIZE == |w.buf| && w.wnext < WSIZE
    ensures w.wsize != 0 ==> Ring(w.buf, WSIZE, w.whave, w.wnext, w.ringed)
  {
  }

  lemma {:induction false} EmptyRing(b: seq<byte>)
    requires |b| == WSIZE
    ensures Ring(b, WSIZE, 0, 0, [])
  {
  }

  /** Adds the last `copy` bytes before index `end` of the output to the window. */
  method UpdateWindow(s: Stream, end: nat, copy: nat)
    requires WindowOK(s.W()) && s.window != s.output && copy <= end <= s.output.Length
    modifies s`wsize, s`whave, s`wnext, s`window, s`ringed, if s.window == null then {} else {s.window}
    ensures WindowOK(s.W()) && s.wsize == WSIZE && s.window != s.output
    ensures s.ringed == old(s.ringed) + s.output[end - copy..end]
    ensures old(s.window) == null ==> fresh(s.window)
    ensures old(s.window) != null ==> s.window == old(s.window)
    ensures s.output[..] == old(s.output[..])
  {
    hide Ring, WindowOK, Stored, Around;
    ghost var x, h := s.output[end - copy..end], s.ringed;
    WindowFits(s.W());
    if s.window == null {
      Pow2Values();
      s.wsize := Pow2(s.wbits);
      s.wnext := 0;
      s.whave := 0;
      s.window := new byte[s.wsize];
      EmptyRing(s.window[..]);
    }
    var window := s.window;
    CopyIn(s, window, end, copy, x, h);
    s.ringed := h + x;
    FullWindow(s.W());
  }

  lemma {:induction false} FullWindow(w: Window)
    requires w.wbits == 15 && w.wsize == WSIZE && w.present && Ring(w.buf, WSIZE, w.whave, w.wnext, w.ringed)
    ensures WindowOK(w)
  {
  }

  /** Copies the last part of the output, or all of it around the ring. */
  method CopyIn(s: Stream, window: array<byte>, end: nat, n: nat, ghost x: seq<byte>, ghost h: seq<byte>)
    requires window == s.window && window != s.output && n <= end <= s.output.Length
    requires s.wsize == WSIZE == window.Length && s.wnext < WSIZE && Ring(window[..], WSIZE, s.whave, s.wnext, h)
    requires x == s.output[end - n..end]
    modifies s`whave, s`wnext, window
    ensures Ring(window[..], WSIZE, s.whave, s.wnext, h + x)
  {
    hide Ring, Stored, Around;
    if n >= s.wsize {
      ghost var buf := window[..];
      assert s.output[..][end - WSIZE..end - WSIZE + WSIZE] == x[n - WSIZE..];
      ArraySet(window, s.output[..], end - s.wsize, s.wsize, 0);
      s.wnext := 0;
      s.whave := s.wsize;
      WholeStored(buf, x[|x| - WSIZE..], window[..]);
      RingReplace(WSIZE, h, x, window[..]);
    } else {
      CopyAround(s, window, end, n, x, h);
    }
  }

  method CopyAround(s: Stream, window: array<byte>, end: nat, n: nat, ghost x: seq<byte>, ghost h: seq<byte>)
    requires window == s.window && window != s.output && n <= end <= s.output.Length && n < WSIZE
    requires s.wsize == WSIZE == window.Length && s.wnext < WSIZE && Ring(window[..], WSIZE, s.whave, s.wnext, h)
    requires x == s.output[end - n..end]
    modifies s`whave, s`wnext, window
    ensures Ring(window[..], WSIZE, s.whave, s.wnext, h + x)
  {
    hide Ring, Stored, Around;
    var copy := n;
    ghost var buf, whave, wnext := window[..], s.whave, s.wnext;
    RingHave(buf, whave, wnext, h);
    var dist := s.wsize - s.wnext;
    if dist > copy {
      dist := copy;
    }
    CopyTwo(window, s.output, end, copy, dist, s.wnext, x);
    copy := copy - dist;
    if copy != 0 {
      s.wnext := copy;
      s.whave := s.wsize;
    } else {
      s.wnext := s.wnext + dist;
      if s.wnext == s.wsize {
        s.wnext := 0;
      }
      if s.whave < s.wsize {
        s.whave := s.whave + dist;
      }
    }
    RingAppend(buf, whave, wnext, h, x, window[..]);
  }

  /** One copy, up to the end of the window, and if need be another one to its start. */
  method CopyTwo(window: array<byte>, output: array<byte>, end: nat, n: nat, dist: nat, wnext: nat, ghost x: seq<byte>)
    requires window != output && n <= end <= output.Length && n < window.Length && wnext < window.Length
    requires dist == (if window.Length - wnext > n then n else window.Length - wnext) && x == output[end - n..end]
    modifies window
    ensures Around(old(window[..]), wnext, x, window[..])
  {
    hide Stored, Around;
    ghost var buf, src := window[..], output[..];
    PartsOf(src, end, n, dist);
    ArraySet(window, output[..], end - n, dist, wnext);
    ghost var mid := window[..];
    if n != dist {
      ArraySet(window, output[..], end - (n - dist), n - dist, 0);
    } else {
      NothingStored(mid);
    }
    AroundTwo(buf, wnext, x, dist, mid, window[..]);
  }

  lemma {:induction false} PartsOf(s: seq<byte>, end: nat, n: nat, d: nat)
    requires d <= n <= end <= |s|
    ensures s[end - n..end][..d] == s[end - n..end - n + d]
    ensures s[end - n..end][d..] == s[end - (n - d)..end - (n - d) + (n - d)]
  {
  }

  lemma {:induction false} WholeStored(b: seq<byte>, x: seq<byte>, b': seq<byte>)
    requires |b| == |x| && Stored(b, 0, x, b')
    ensures b' == x
  {
  }

  /** While the window is not full, it has been filled from the start. */
  lemma {:induction false} RingHave(buf: seq<byte>, whave: nat, wnext: nat, h: seq<byte>)
    requires Ring(buf, WSIZE, whave, wnext, h)
    ensures whave <= WSIZE && (whave < WSIZE ==> wnext == whave)
  {
  }
}
