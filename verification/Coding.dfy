/** Reading one symbol from held bits through a table: when the answer is final and when it is not. */
module Coding {
  import opened Bits
  import opened Huffman
  import opened CodeTables
  import opened SortedSymbols
  import opened Enough
  import opened CodeLengths
  import InflateTable
  import opened Streams

  lemma {:induction false} FindInterval(lens: seq<nat>, work: seq<nat>, p: nat, k: nat) returns (s: nat)
    requires Complete(lens, work) && k < Total(lens) && Pos(lens, work, k) <= p < FULL
    ensures s < |lens| && lens[s] >= 1 && Start(lens, s) <= p < Start(lens, s) + Width(lens[s])
    decreases Total(lens) - k
  {
    hide Start, Width, Kraft;
    PosStep(lens, work, k);
    if p < Pos(lens, work, k + 1) {
      s := work[k];
    } else {
      s := FindInterval(lens, work, p, k + 1);
    }
  }

  /** A complete code has a symbol for every word. */
  lemma {:induction false} CompleteCode(lens: seq<nat>, w: seq<bool>)
    requires LensOK(lens) && Kraft(lens) == FULL && |w| == 15
    ensures Lookup(lens, w).Found?
  {
    hide Start, Width, Lookup, MVal;
    var work := SortedExists(lens);
    MaxFacts(lens);
    if MaxLen(lens) == 0 {
      InflateTable.NoCodeFacts(lens);
    }
    FirstWidths(lens, work);
    Pow2Values();
    var s := FindInterval(lens, work, MVal(w), 0);
    MatchesInterval(lens, s, w);
    LookupIs(lens, s, w);
  }

  /** What held bits decode to, given what they decode to when padded with zeros. */
  function Truncated(lens: seq<nat>, r: Symbol, n: nat): Symbol {
    match r
    case Found(s) => if s < |lens| && lens[s] <= n then r else NeedMore
    case NeedMore => NeedMore
    case NoCode => if n >= 1 then NoCode else NeedMore
  }

  lemma {:induction false} LookupOfPad(lens: seq<nat>, b: seq<bool>)
    requires LensOK(lens) && Kraft(lens) <= FULL && Sound(lens)
    ensures Lookup(lens, Pad(b)) != NeedMore
    ensures Lookup(lens, b) == Truncated(lens, Lookup(lens, Pad(b)), |b|)
  {
    LookupPad(lens, b);
    if Kraft(lens) == FULL {
      CompleteCode(lens, Pad(b));
    }
    if b == [] {
      assert forall s: nat :: !Matches(lens, s, b);
    }
  }

  lemma {:induction false} PrefixOfMatch(lens: seq<nat>, s: nat, b: seq<bool>, c: seq<bool>)
    ensures Matches(lens, s, b + c) ==> Matches(lens, s, b) || Extends(lens, s, b)
    ensures Extends(lens, s, b + c) ==> Extends(lens, s, b)
  {
    if Matches(lens, s, b + c) {
      if lens[s] <= |b| {
        assert (b + c)[..lens[s]] == b[..lens[s]];
      } else {
        assert b == (b + c)[..lens[s]][..|b|];
      }
    }
    if Extends(lens, s, b + c) {
      assert b == (b + c)[..|b|] == Codeword(lens, s)[..|b + c|][..|b|];
    }
  }

  /** Once held bits are enough for an answer, no continuation changes it. */
  lemma {:induction false} LookupStable(lens: seq<nat>, b: seq<bool>, c: seq<bool>)
    requires LensOK(lens) && Kraft(lens) <= FULL && Lookup(lens, b) != NeedMore
    ensures Lookup(lens, b + c) == Lookup(lens, b)
  {
    if Lookup(lens, b).Found? {
      LookupMonotone(lens, b, c);
    } else {
      forall s: nat ensures !Matches(lens, s, b + c) && !Extends(lens, s, b + c) {
        PrefixOfMatch(lens, s, b, c);
      }
    }
  }

  /** The index that the program forms from the held bits is that of the padded word. */
  lemma {:induction false} LowPad(b: seq<bool>, n: nat)
    requires n <= 15
    ensures Low(LVal(b), n) == LVal(Pad(b)[..n])
  {
    hide LVal, Low, Scale;
    if n <= |b| {
      LValSplit(b, n);
      assert Pad(b)[..n] == b[..n];
    } else {
      var x := b + Zeros(n - |b|);
      LValConcat(b, Zeros(n - |b|));
      ZerosVal(n - |b|);
      ScaleZero(|b|);
      LValSplit(x, n);
      assert x[..n] == x;
      assert Pad(b)[..n] == x;
    }
  }

  lemma {:induction false} SubPad(b: seq<bool>, root: nat, op: nat)
    requires root + op <= 15
    ensures Shr(Low(LVal(b), root + op), root) == LVal(Pad(b)[root..root + op])
  {
    hide LVal, Low, Shr;
    LowPad(b, root + op);
    LValSplit(Pad(b)[..root + op], root);
    assert Pad(b)[..root + op][root..] == Pad(b)[root..root + op];
  }

  /** The answer that a table gives: a length and an entry that say what the code says. */
  predicate Answers(m: seq<Sense>, lens: seq<nat>, r: Symbol, len: nat, e: Entry) {
    match r
    case Found(s) => s < |lens| && s < |m| && len == lens[s] && e.op == m[s].op && e.val == m[s].val
    case NeedMore => false
    case NoCode => len == 1 && e.op == 64 && e.val == 0
  }

  /** A root entry that is no link: it is the answer if the held bits cover it. */
  lemma {:induction false} RootEntry(t: seq<Entry>, root: nat, m: seq<Sense>, lens: seq<nat>, b: seq<bool>)
    requires TableOK(t, root, m, lens) && Kraft(lens) <= FULL && Sound(lens) && NoLinks(m)
    ensures Low(LVal(b), root) < |t|
    ensures var e := t[Low(LVal(b), root)];
            && e.bits >= 1
            && (!IsLink(e) && e.bits <= |b| ==> Answers(m, lens, Lookup(lens, b), e.bits, e))
            && (e.bits > |b| ==> Lookup(lens, b) == NeedMore)
            && (IsLink(e) ==> e.bits == root && root + e.op <= 15 && exists s :: 0 <= s < |lens| && lens[s] > root)
  {
    hide LVal, Low, Lookup;
    LowPad(b, root);
    LookupOfPad(lens, b);
    assert WordOK(t, root, m, lens, Pad(b));
  }

  /** The sub-table entry behind a link: with the root bits it is the answer, if they are held. */
  lemma {:induction false} SubEntry(t: seq<Entry>, root: nat, m: seq<Sense>, lens: seq<nat>, b: seq<bool>)
    requires TableOK(t, root, m, lens) && Kraft(lens) <= FULL && Sound(lens) && NoLinks(m)
    requires Low(LVal(b), root) < |t| && IsLink(t[Low(LVal(b), root)])
    ensures var e := t[Low(LVal(b), root)];
            var i := e.val + Shr(Low(LVal(b), root + e.op), root);
            && i < |t|
            && !IsLink(t[i]) && t[i].bits >= 1
            && (root + t[i].bits <= |b| ==> Answers(m, lens, Lookup(lens, b), root + t[i].bits, t[i]))
            && (root + t[i].bits > |b| ==> Lookup(lens, b) == NeedMore)
  {
    hide LVal, Low, Lookup, Shr;
    LowPad(b, root);
    LookupOfPad(lens, b);
    assert WordOK(t, root, m, lens, Pad(b));
    SubPad(b, root, t[Low(LVal(b), root)].op);
  }

  lemma {:induction false} MatchExtends(lens: seq<nat>, s: nat, b: seq<bool>, c: seq<bool>)
    ensures Matches(lens, s, b) ==> Matches(lens, s, b + c)
  {
    if Matches(lens, s, b) {
      assert (b + c)[..lens[s]] == b[..lens[s]];
    }
  }

  /** That there is no code shows in the first bit. */
  lemma {:induction false} NoCodeAtOnce(lens: seq<nat>, b: seq<bool>, c: seq<bool>)
    requires LensOK(lens) && Kraft(lens) <= FULL && Sound(lens) && |b| >= 1 && Lookup(lens, b + c) == NoCode
    ensures Lookup(lens, b) == NoCode
  {
    LookupOfPad(lens, b + c);
    if Kraft(lens) == FULL {
      CompleteCode(lens, Pad(b + c));
    } else {
      forall s: nat ensures !Matches(lens, s, b) && !Extends(lens, s, b) {
        MatchExtends(lens, s, b, c);
      }
    }
  }
}
