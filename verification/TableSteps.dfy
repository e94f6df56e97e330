/** The three ways in which `inflate_table` writes to the table, and what each one achieves.

    `pos` is the frontier: every 15-bit word below it is already decoded correctly.
 */
module TableSteps {
  import opened Bits
  import opened Huffman
  import opened CodeTables

  /** While the root table is filled, finished words have their symbol in the root entry. */
  ghost predicate RootDone(t: seq<Entry>, root: nat, m: seq<Sense>, lens: seq<nat>, pos: nat)
    requires root <= 15 && |lens| <= |m|
  {
    forall w: seq<bool> :: |w| == 15 && MVal(w) < pos ==> RootWord(t, root, m, lens, w)
  }

  ghost predicate RootWord(t: seq<Entry>, root: nat, m: seq<Sense>, lens: seq<nat>, w: seq<bool>)
    requires root <= 15 && |lens| <= |m| && |w| == 15
  {
    var r := Lookup(lens, w);
    r.Found? && LVal(w[..root]) < |t| &&
    t[LVal(w[..root])] == Entry(lens[r.sym], m[r.sym].op, m[r.sym].val)
  }

  /** While sub-tables are filled: `next` is where the current one starts, `low` is its root index
      and `used` is where it ends. */
  ghost predicate SubDone(t: seq<Entry>, root: nat, m: seq<Sense>, lens: seq<nat>, pos: nat, low: nat, next: nat,
                          used: nat)
    requires root <= 15 && |lens| <= |m|
  {
    forall w: seq<bool> :: |w| == 15 && MVal(w) < pos ==> SubWord(t, root, m, lens, w, low, next, used)
  }

  ghost predicate SubWord(t: seq<Entry>, root: nat, m: seq<Sense>, lens: seq<nat>, w: seq<bool>, low: nat, next: nat,
                          used: nat)
    requires root <= 15 && |lens| <= |m| && |w| == 15
  {
    var i := LVal(w[..root]);
    && Lookup(lens, w).Found?
    && WordOK(t, root, m, lens, w)
    && i < |t|
    && (IsLink(t[i]) ==>
          Pow2(root) <= t[i].val && t[i].val + Pow2(t[i].op) <= (if i == low then used else next))
  }

  lemma {:induction false} IndexBound(w: seq<bool>, root: nat)
    requires root <= |w|
    ensures LVal(w[..root]) < Pow2(root)
  {
  }

  /** An index agrees with a code on its low bits exactly when the word starts with the code. */
  lemma {:induction false} IndexMatches(c: seq<bool>, b: seq<bool>)
    requires |c| <= |b|
    ensures Low(LVal(b), |c|) == LVal(c) <==> b[..|c|] == c
  {
    LValSplit(b, |c|);
    if LVal(b[..|c|]) == LVal(c) {
      LValInjective(b[..|c|], c);
    }
  }

  lemma {:induction false} RootWordStep(t: seq<Entry>, t': seq<Entry>, root: nat, m: seq<Sense>, lens: seq<nat>, s: nat,
                                        w: seq<bool>)
    requires LensOK(lens) && |lens| <= |m| && NoLinks(m) && Kraft(lens) <= FULL && root <= 15
    requires s < |lens| && 1 <= lens[s] <= root && Pow2(root) <= |t| == |t'|
    requires |w| == 15 && MVal(w) < Start(lens, s) + Width(lens[s])
    requires MVal(w) < Start(lens, s) ==> RootWord(t, root, m, lens, w)
    requires forall i :: 0 <= i < Pow2(root) ==>
               t'[i] == if Low(i, lens[s]) == LVal(Codeword(lens, s))
                        then Entry(lens[s], m[s].op, m[s].val) else t[i]
    ensures RootWord(t', root, m, lens, w)
  {
    var c, i := Codeword(lens, s), LVal(w[..root]);
    IndexBound(w, root);
    IndexMatches(c, w[..root]);
    assert w[..root][..|c|] == w[..|c|];
    MatchesInterval(lens, s, w);
    if Start(lens, s) <= MVal(w) {
      LookupIs(lens, s, w);
    }
  }

  lemma {:induction false} RootStep(t: seq<Entry>, t': seq<Entry>, root: nat, m: seq<Sense>, lens: seq<nat>, s: nat)
    requires LensOK(lens) && |lens| <= |m| && NoLinks(m) && Kraft(lens) <= FULL && root <= 15
    requires s < |lens| && 1 <= lens[s] <= root && Pow2(root) <= |t| == |t'|
    requires RootDone(t, root, m, lens, Start(lens, s))
    requires forall i :: 0 <= i < Pow2(root) ==>
               t'[i] == if Low(i, lens[s]) == LVal(Codeword(lens, s))
                        then Entry(lens[s], m[s].op, m[s].val) else t[i]
    ensures RootDone(t', root, m, lens, Start(lens, s) + Width(lens[s]))
  {
    hide RootWord, Start, Width, Codeword, LVal, MVal;
    forall w: seq<bool> | |w| == 15 && MVal(w) < Start(lens, s) + Width(lens[s])
      ensures RootWord(t', root, m, lens, w)
    {
      RootWordStep(t, t', root, m, lens, s, w);
    }
  }

  /** A word that is resolved already keeps its meaning when cells of the current block change,
      unless its own cell does. */
  lemma {:induction false} Unaffected(t: seq<Entry>, t': seq<Entry>, root: nat, w: seq<bool>, len: nat, op: nat,
                                      val: nat, low: nat, next: nat, curr: nat)
    requires |w| == 15 && root <= 15 && root + curr <= 15 && |t| == |t'|
    requires Pow2(root) <= next && next + Pow2(curr) <= |t|
    requires 1 <= curr && low < Pow2(root) && t[low] == Entry(root, curr, next)
    requires Resolves(t, root, w, len, op, val)
    requires var i := LVal(w[..root]);
             i != low && IsLink(t[i]) ==> t[i].val + Pow2(t[i].op) <= next
    requires forall i :: 0 <= i < |t| && !(next <= i < next + Pow2(curr)) ==> t'[i] == t[i]
    requires LVal(w[..root]) == low ==>
               var j := next + LVal(w[root..root + curr]); j < |t| && t'[j] == t[j]
    ensures Resolves(t', root, w, len, op, val)
    ensures t'[LVal(w[..root])] == t[LVal(w[..root])]
  {
    hide LVal;
    var i := LVal(w[..root]);
    IndexBound(w, root);
    assert t'[i] == t[i];
    if IsLink(t[i]) && i != low {
      var j := t[i].val + LVal(w[root..root + t[i].op]);
      assert j < next;
      assert t'[j] == t[j];
    }
  }

  lemma {:induction false} SubWordNew(t': seq<Entry>, root: nat, m: seq<Sense>, lens: seq<nat>, s: nat, w: seq<bool>,
                                      low: nat, next: nat, curr: nat)
    requires LensOK(lens) && |lens| <= |m| && NoLinks(m) && Kraft(lens) <= FULL
    requires s < |lens| && root < lens[s] <= root + curr <= 15 && curr < 16
    requires Pow2(root) <= next && next + Pow2(curr) <= |t'|
    requires low == LVal(Codeword(lens, s)[..root]) && low < |t'| && t'[low] == Entry(root, curr, next)
    requires |w| == 15 && Matches(lens, s, w)
    requires var i := LVal(w[root..root + curr]);
             t'[next + i] == Entry(lens[s] - root, m[s].op, m[s].val)
    ensures SubWord(t', root, m, lens, w, low, next, next + Pow2(curr))
  {
    hide Lookup, Codeword, LVal, MVal, Pow2;
    LookupIs(lens, s, w);
    assert w[..lens[s]][..root] == w[..root];
  }

  lemma {:induction false} SubWordOld(t: seq<Entry>, t': seq<Entry>, root: nat, m: seq<Sense>, lens: seq<nat>,
                                      w: seq<bool>, low: nat, next: nat, curr: nat)
    requires |lens| <= |m| && NoLinks(m) && root + curr <= 15 && 1 <= curr && |t| == |t'|
    requires Pow2(root) <= next && next + Pow2(curr) <= |t|
    requires low < Pow2(root) && t[low] == Entry(root, curr, next)
    requires |w| == 15 && SubWord(t, root, m, lens, w, low, next, next + Pow2(curr))
    requires forall i :: 0 <= i < |t| && !(next <= i < next + Pow2(curr)) ==> t'[i] == t[i]
    requires LVal(w[..root]) == low ==>
               var j := next + LVal(w[root..root + curr]); t'[j] == t[j]
    ensures SubWord(t', root, m, lens, w, low, next, next + Pow2(curr))
  {
    var s := Lookup(lens, w).sym;
    Unaffected(t, t', root, w, lens[s], m[s].op, m[s].val, low, next, curr);
  }

  /** What the replication loop does to the table when the code ends in the current sub-table. */
  predicate SubWrite(t: seq<Entry>, t': seq<Entry>, next: nat, curr: nat, c: seq<bool>, e: Entry)
    requires |t| == |t'|
  {
    forall i :: 0 <= i < |t| ==>
      t'[i] == if next <= i < next + Pow2(curr) && Low(i - next, |c|) == LVal(c) then e else t[i]
  }

  lemma {:induction false} SplitEquality(c: seq<bool>, w: seq<bool>, k: nat)
    requires k <= |c| <= |w| && w[..k] == c[..k]
    ensures w[k..|c|] == c[k..] <==> w[..|c|] == c
  {
    assert w[..|c|] == w[..k] + w[k..|c|];
    assert c == c[..k] + c[k..];
    if w[..|c|] == c {
      assert w[k..|c|] == w[..|c|][k..];
    }
  }

  /** Inside a slot, the sub-table cell of a word is rewritten exactly when the word has the code. */
  lemma {:induction false} CellRewritten(c: seq<bool>, w: seq<bool>, root: nat, curr: nat)
    requires root <= |c| <= root + curr <= |w| && LVal(w[..root]) == LVal(c[..root])
    ensures Low(LVal(w[root..root + curr]), |c| - root) == LVal(c[root..]) <==> w[..|c|] == c
  {
    hide LVal, Low, Pow2;
    var x := w[root..root + curr];
    var d := c[root..];
    assert Low(LVal(x), |d|) == LVal(d) <==> w[root..|c|] == d by {
      IndexMatches(d, x);
      SliceSlice(w, root, curr, |d|);
    }
    assert w[root..|c|] == d <==> w[..|c|] == c by {
      LValInjective(w[..root], c[..root]);
      SplitEquality(c, w, root);
    }
  }

  lemma {:induction false} SliceSlice(w: seq<bool>, a: nat, n: nat, k: nat)
    requires k <= n && a + n <= |w|
    ensures w[a..a + n][..k] == w[a..a + k]
  {
  }

  /** The cell of a word of the current slot, after the write for code c. */
  lemma {:induction false} CellAfter(t: seq<Entry>, t': seq<Entry>, root: nat, c: seq<bool>, w: seq<bool>, next: nat,
                                     curr: nat, e: Entry)
    requires root <= |c| <= root + curr <= |w| && LVal(w[..root]) == LVal(c[..root])
    requires |t| == |t'| && next + Pow2(curr) <= |t| && SubWrite(t, t', next, curr, c[root..], e)
    ensures var j := next + LVal(w[root..root + curr]);
            next <= j < next + Pow2(curr) && t'[j] == if w[..|c|] == c then e else t[j]
  {
    var v := LVal(w[root..root + curr]);
    assert v < Pow2(curr) by { assert |w[root..root + curr]| == curr; }
    CellRewritten(c, w, root, curr);
    assert next + v - next == v;
  }

  lemma {:induction false} SubWordStep(t: seq<Entry>, t': seq<Entry>, root: nat, m: seq<Sense>, lens: seq<nat>, s: nat,
                                       w: seq<bool>, low: nat, next: nat, curr: nat)
    requires LensOK(lens) && |lens| <= |m| && NoLinks(m) && Kraft(lens) <= FULL
    requires s < |lens| && root < lens[s] <= root + curr <= 15 && curr < 16 && |t| == |t'|
    requires Pow2(root) <= next && next + Pow2(curr) <= |t|
    requires low == LVal(Codeword(lens, s)[..root]) && t[low] == Entry(root, curr, next)
    requires |w| == 15 && MVal(w) < Start(lens, s) + Width(lens[s])
    requires MVal(w) < Start(lens, s) ==> SubWord(t, root, m, lens, w, low, next, next + Pow2(curr))
    requires SubWrite(t, t', next, curr, Codeword(lens, s)[root..], Entry(lens[s] - root, m[s].op, m[s].val))
    ensures SubWord(t', root, m, lens, w, low, next, next + Pow2(curr))
  {
    hide LVal, Low, Codeword, Lookup, MVal, SubWord;
    var c := Codeword(lens, s);
    IndexBound(c, root);
    MatchesInterval(lens, s, w);
    var e := Entry(lens[s] - root, m[s].op, m[s].val);
    if Start(lens, s) <= MVal(w) {
      assert w[..root] == c[..root] by { assert w[..|c|][..root] == w[..root]; }
      CellAfter(t, t', root, c, w, next, curr, e);
      SubWordNew(t', root, m, lens, s, w, low, next, curr);
    } else {
      if LVal(w[..root]) == low {
        CellAfter(t, t', root, c, w, next, curr, e);
      }
      SubWordOld(t, t', root, m, lens, w, low, next, curr);
    }
  }

  lemma {:induction false} SubStep(t: seq<Entry>, t': seq<Entry>, root: nat, m: seq<Sense>, lens: seq<nat>, s: nat,
                                   low: nat, next: nat, curr: nat)
    requires LensOK(lens) && |lens| <= |m| && NoLinks(m) && Kraft(lens) <= FULL && root <= 15
    requires s < |lens| && root < lens[s] <= root + curr <= 15 && curr < 16 && |t| == |t'|
    requires Pow2(root) <= next && next + Pow2(curr) <= |t|
    requires low == LVal(Codeword(lens, s)[..root]) && t[low] == Entry(root, curr, next)
    requires SubDone(t, root, m, lens, Start(lens, s), low, next, next + Pow2(curr))
    requires SubWrite(t, t', next, curr, Codeword(lens, s)[root..], Entry(lens[s] - root, m[s].op, m[s].val))
    ensures SubDone(t', root, m, lens, Start(lens, s) + Width(lens[s]), low, next, next + Pow2(curr))
  {
    forall w: seq<bool> | |w| == 15 && MVal(w) < Start(lens, s) + Width(lens[s])
      ensures SubWord(t', root, m, lens, w, low, next, next + Pow2(curr))
    {
      SubWordStep(t, t', root, m, lens, s, w, low, next, curr);
    }
  }

  /** A word whose root index is that of a slot cannot lie below the slot. */
  lemma {:induction false} SlotBelow(lowBits: seq<bool>, w: seq<bool>)
    requires |lowBits| <= |w| == 15 && LVal(w[..|lowBits|]) == LVal(lowBits)
    ensures Scale(MVal(lowBits), 15 - |lowBits|) <= MVal(w)
  {
    hide Scale, MVal, LVal, Pow2;
    LValInjective(w[..|lowBits|], lowBits);
    PrefixInterval(lowBits, w);
  }

  /** Linking a new sub-table into the root disturbs no word of another slot. */
  lemma {:induction false} OpenWord(t: seq<Entry>, root: nat, m: seq<Sense>, lens: seq<nat>, w: seq<bool>, low: nat,
                                    oldLow: nat, oldNext: nat, next: nat, curr: nat)
    requires |lens| <= |m| && NoLinks(m) && root <= 15 && |w| == 15 && low < Pow2(root) <= next <= |t|
    requires oldNext <= next
    requires RootWord(t, root, m, lens, w) || SubWord(t, root, m, lens, w, oldLow, oldNext, next)
    requires LVal(w[..root]) != low
    ensures SubWord(t[low := Entry(root, curr, next)], root, m, lens, w, low, next, next + Pow2(curr))
  {
    hide LVal, MVal, Lookup;
    var t' := t[low := Entry(root, curr, next)];
    var i := LVal(w[..root]);
    IndexBound(w, root);
    var s := Lookup(lens, w).sym;
    if IsLink(t[i]) {
      var j := t[i].val + LVal(w[root..root + t[i].op]);
      assert t'[j] == t[j];
    }
  }

  lemma {:induction false} OpenStep(t: seq<Entry>, root: nat, m: seq<Sense>, lens: seq<nat>, lowBits: seq<bool>,
                                    oldLow: nat, oldNext: nat, next: nat, curr: nat)
    requires |lens| <= |m| && NoLinks(m) && root == |lowBits| <= 15 && Pow2(root) <= next <= |t|
    requires oldNext <= next
    requires var pos := Scale(MVal(lowBits), 15 - root);
             RootDone(t, root, m, lens, pos) || SubDone(t, root, m, lens, pos, oldLow, oldNext, next)
    ensures SubDone(t[LVal(lowBits) := Entry(root, curr, next)], root, m, lens, Scale(MVal(lowBits), 15 - root),
                    LVal(lowBits), next, next + Pow2(curr))
  {
    hide Scale, MVal, LVal, RootWord, SubWord;
    var pos, low := Scale(MVal(lowBits), 15 - root), LVal(lowBits);
    var t' := t[low := Entry(root, curr, next)];
    forall w: seq<bool> | |w| == 15 && MVal(w) < pos
      ensures SubWord(t', root, m, lens, w, low, next, next + Pow2(curr))
    {
      if LVal(w[..root]) == low {
        SlotBelow(lowBits, w);
        assert false;
      }
      OpenWord(t, root, m, lens, w, low, oldLow, oldNext, next, curr);
    }
  }
}
