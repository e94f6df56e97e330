/** The MATCH mode: as much of a match as there is room for, from the window or from the output. */
module StepMatches {
  import opened Bits
  import opened Huffman
  import opened Adler
  import opened Outputs
  import opened Streams
  import opened Matches
  import opened Steps
  import opened StepCodes
  import opened SymbolEnds
  import Rfc = Rfc1951

  lemma {:induction false} MatchTooFar(r: Reader, o: Writer, c: Control, t: Tables, c': Control, before: seq<byte>)
    requires Ready(r, o.past, c, t, before) && c.mode == AtMatch && c.offset > |o.past| && c' == c.(mode := AtBad)
    ensures Stepped(r, o, c, r, o, c', t, before, false)
  {
    hide BitsOK, Lookup, Stepped, Decodes, Legal, Checksum, TablesOK, Rfc.Symbols, Rfc.CopyMatch;
    ToBad(r, o, c, t, r, c', t, before);
  }

  /** Part of a match has been copied. */
  lemma {:induction false} MatchCopied(r: Reader, o: Writer, c: Control, t: Tables, n: nat, c': Control,
                                       before: seq<byte>)
    requires Ready(r, o.past, c, t, before) && c.mode == AtMatch && 1 <= c.offset <= |o.past|
    requires 1 <= n <= c.length && n <= o.left
    requires c' == c.(length := c.length - n, mode := if n == c.length then AtLen else AtMatch)
    ensures Stepped(r, o, c, r, Writer(o.put + n, o.left - n, Rfc.CopyMatch(o.past, c.offset, n)), c', t, before, false)
  {
    hide BitsOK, Lookup, Stepped, Decodes, Legal, Checksum, TablesOK, Rfc.Symbols, Rfc.CopyMatch;
    CopyMatchNext(o.past, c.offset, n);
    CopyMatchSplit(o.past, c.offset, n, c.length - n);
    var past' := Rfc.CopyMatch(o.past, c.offset, n);
    if n == c.length {
      NothingCopied(past', c.offset);
    }
    DecodingOn(r, o, c, t, r, Writer(o.put + n, o.left - n, past'), c', before);
  }

  /** Where the next bytes of a match are: in the window, if the distance goes beyond what this call has
      written.  `n` of them are contiguous. */
  method Locate(s: Stream, o: Writer, start: nat, ghost o0: Writer, ghost b0: seq<byte>)
    returns (tooFar: bool, inWindow: bool, from: nat, n: nat)
    requires WindowOK(s.W()) && s.ringed == o0.past && Wrote(o0, b0, o, s.output[..]) && start == o0.left
    requires 1 <= s.offset <= WSIZE && 1 <= s.length
    ensures tooFar <==> s.offset > |o.past|
    ensures !tooFar ==> 1 <= n <= s.length
    ensures !tooFar && inWindow ==> s.window != null && Feeds(s.window[..], false, from, n, o.past, s.offset, o0, o.put)
    ensures !tooFar && !inWindow ==> Feeds(s.output[..], true, from, n, o.past, s.offset, o0, o.put)
  {
    hide Wrote, Ring;
    ghost var b, w := s.output[..], s.W();
    WroteRoom(o0, b0, o, b);
    TooFar(w, o0, b0, o, b, s.offset);
    tooFar, inWindow, from, n := false, false, 0, s.length;
    var copy := start - o.left;
    if s.offset > copy {
      inWindow := true;
      copy := s.offset - copy;
      if copy > s.whave {
        tooFar := true;
        return;
      }
      ghost var j := copy;
      WindowRange(w, j);
      if copy > s.wnext {
        copy := copy - s.wnext;
        from := s.wsize - copy;
      } else {
        from := s.wnext - copy;
      }
      n := if copy > s.length then s.length else copy;
      WindowFeeds(w, o0, b0, o, b, s.offset, j, n);
    } else {
      from := o.put - s.offset;
    }
  }

  lemma {:induction false} WindowRange(w: Window, j: nat)
    requires WindowOK(w) && 1 <= j <= w.whave
    ensures w.present && j <= w.wsize && w.wnext < w.wsize
  {
  }

  lemma {:induction false} ReadyMatch(r: Reader, past: seq<byte>, c: Control, t: Tables, before: seq<byte>)
    requires Ready(r, past, c, t, before) && c.mode == AtMatch
    ensures 1 <= c.length && 1 <= c.offset <= WSIZE && Shape(c)
  {
    hide BitsOK, Decodes, CheckOK;
  }

  method StepMatch(s: Stream, ghost r: Reader, o: Writer, start: nat, ghost o0: Writer, ghost b0: seq<byte>)
    returns (leave: bool, o': Writer)
    requires Ready(r, o.past, s.C(), s.T(), o0.past) && s.mode == AtMatch && Wrote(o0, b0, o, s.output[..])
    requires WindowOK(s.W()) && s.ringed == o0.past && s.window != s.output && start == o0.left
    modifies s`mode, s`length, s.output
    ensures Stepped(r, o, old(s.C()), r, o', s.C(), old(s.T()), o0.past, leave)
    ensures Wrote(o0, b0, o', s.output[..])
    ensures if leave then s.C() == old(s.C()) && o' == o
            else SameEnd(old(s.C()), o.past, r.pos, s.C(), o'.past, r.pos, r.stream)
  {
    hide Stepped, SameEnd, BitsOK, Ready, Go, TablesOK, Decodes, CheckOK, Wrote, ModeOK, Feeds, Rfc.CopyMatch, WindowOK;
    ghost var c, t := s.C(), s.T();
    ReadyMatch(r, o.past, c, t, o0.past);
    leave, o' := o.left == 0, o;
    if leave {
      NoRoom(r, o, c, t, o0.past);
      return;
    }
    var tooFar, inWindow, from, copy := Locate(s, o, start, o0, b0);
    if tooFar {
      s.mode := AtBad;
      MatchTooFar(r, o, c, t, s.C(), o0.past);
      MatchErrs(c, o.past, r.stream, r.pos);
      return;
    }
    var source := if inWindow then s.window else s.output;
    if copy > o.left {
      FeedsLess(source[..], source == s.output, from, copy, o.left, o.past, s.offset, o0, o.put);
      copy := o.left;
    }
    o' := CopyRun(s.output, source, o, from, copy, s.offset, o0, b0);
    s.length := s.length - copy;
    if s.length == 0 {
      s.mode := AtLen;
    }
    MatchCopied(r, o, c, t, copy, s.C(), o0.past);
    MatchEnds(c, o.past, r.stream, r.pos, copy);
  }

  lemma {:induction false} FeedsLess(src: seq<byte>, same: bool, from: nat, n: nat, n': nat, past: seq<byte>, dist: nat,
                                     o0: Writer, put: nat)
    requires Feeds(src, same, from, n, past, dist, o0, put) && n' <= n
    ensures Feeds(src, same, from, n', past, dist, o0, put)
  {
    if !same {
      assert src[from..from + n'] == src[from..from + n][..n'];
      assert past[|past| - dist..|past| - dist + n'] == past[|past| - dist..|past| - dist + n][..n'];
    }
  }
}
