/** The second half of `inflate_table`: filling the two-level decoding table. */
module InflateTable {
  import opened Bits
  import opened Huffman
  import opened CodeTables
  import opened SortedSymbols
  import opened TableSteps
  import opened CodeLengths
  import opened TableWalk

  // ----- replication -----

  lemma {:induction false} LowOfSum(h: nat, q: nat, n: nat)
    requires h < Pow2(n)
    ensures Low(h + Scale(q, n), n) == h
  {
    ScaleIsMul(q, n);
    MulComm(q, Pow2(n));
    DivModUnique(h + Scale(q, n), q, h, Pow2(n));
    LowShrDivMod(h + Scale(q, n), n);
  }

  /** In a stretch of 2^n cells only one has the low bits h. */
  lemma {:induction false} OneCell(i: nat, q: nat, n: nat, h: nat)
    requires h < Pow2(n) && Scale(q, n) <= i < Scale(q + 1, n)
    ensures Low(i, n) == h <==> i == h + Scale(q, n)
  {
    LowOfSum(h, q, n);
    LowShr(i, n);
    var s := Shr(i, n);
    ScaleAdd(q, 1, n);
    ScaleOne(n);
    if s < q {
      ScaleStrict(s, q, n);
    } else if s > q {
      ScaleStrict(q, s, n);
    }
  }

  /** Writes `here` to every cell of the block of 2^curr cells at `next` whose low n bits are `h`. */
  method Replicate(table: array<Entry>, next: nat, h: nat, n: nat, curr: nat, here: Entry)
    requires n <= curr && next + Pow2(curr) <= table.Length && h < Pow2(n)
    modifies table
    ensures forall i :: 0 <= i < table.Length ==>
              table[i] == if next <= i < next + Pow2(curr) && Low(i - next, n) == h then here else old(table[i])
  {
    var incr := Pow2(n);
    var fill := Pow2(curr);
    ghost var q := Pow2(curr - n);
    Pow2Add(curr - n, n);
    assert curr - n + n == curr;
    while fill != 0
      invariant 0 <= fill <= Pow2(curr) && fill == Scale(q, n)
      invariant forall i :: 0 <= i < table.Length ==>
                  table[i] == if next + fill <= i < next + Pow2(curr) && Low(i - next, n) == h
                              then here else old(table[i])
      decreases fill
    {
      if q == 0 {
        ScaleZero(n);
      }
      q := q - 1;
      ScaleAdd(q, 1, n);
      ScaleOne(n);
      fill := fill - incr;
      forall i | fill <= i < fill + incr ensures Low(i, n) == h <==> i == h + fill {
        OneCell(i, q, n, h);
      }
      table[next + h + fill] := here;
    }
  }

  // ----- the next code, backwards -----

  lemma {:induction false} AllOnes(c: seq<bool>)
    requires forall j :: 0 <= j < |c| ==> c[j]
    ensures MVal(c) + 1 == Pow2(|c|)
  {
    if c != [] {
      AllOnes(c[..|c| - 1]);
    }
  }

  /** Setting the last clear bit of a code and clearing the ones after it adds one to its value. */
  function Successor(c: seq<bool>, i: nat): (d: seq<bool>)
    requires i < |c|
    ensures |d| == |c|
  {
    c[..i] + ([true] + Zeros(|c| - 1 - i))
  }

  lemma {:induction false} LeadingBit(b: bool, x: seq<bool>)
    ensures MVal([b] + x) == MVal(x) + (if b then Pow2(|x|) else 0)
    ensures LVal([b] + x) == BitVal(b) + Twice(LVal(x))
  {
    MValConcat([b], x);
    assert MVal([b]) == BitVal(b) by { assert [b][..0] == []; }
    if b {
      ScaleOne(|x|);
    } else {
      ScaleZero(|x|);
    }
    assert ([b] + x)[1..] == x;
  }

  lemma {:induction false} SuccessorVal(c: seq<bool>, i: nat)
    requires i < |c| && !c[i] && forall j :: i < j < |c| ==> c[j]
    ensures MVal(Successor(c, i)) == MVal(c) + 1
  {
    hide Scale, MVal, Pow2;
    var k := |c| - 1 - i;
    var o := c[i + 1..];
    assert c == c[..i] + ([false] + o);
    MValConcat(c[..i], [false] + o);
    MValConcat(c[..i], [true] + Zeros(k));
    LeadingBit(false, o);
    LeadingBit(true, Zeros(k));
    AllOnes(o);
    ZerosVal(k);
  }

  lemma {:induction false} SuccessorLow(c: seq<bool>, i: nat)
    requires i < |c|
    ensures LVal(Successor(c, i)) == Low(LVal(c), i) + Pow2(i)
  {
    var k := |c| - 1 - i;
    LValSplit(c, i);
    LValConcat(c[..i], [true] + Zeros(k));
    LeadingBit(true, Zeros(k));
    ZerosVal(k);
    ScaleOne(i);
  }

  /** Increments the len-bit code `huff`, whose bits are stored backwards. */
  method NextCode(huff: nat, len: nat, ghost c: seq<bool>) returns (r: nat, ghost d: seq<bool>)
    requires 1 <= len == |c| && huff == LVal(c)
    ensures |d| == len && r == LVal(d)
    ensures MVal(c) + 1 < Pow2(len) ==> MVal(d) == MVal(c) + 1
    ensures MVal(c) + 1 == Pow2(len) ==> r == 0
    ensures r == 0 ==> MVal(c) + 1 == Pow2(len)
  {
    var incr := Pow2(len - 1);
    var i: int := len - 1;
    while incr != 0 && Shr(huff, i) % 2 == 1
      invariant -1 <= i < len && incr == (if i < 0 then 0 else Pow2(i))
      invariant forall j :: i < j < len ==> c[j]
      decreases incr
    {
      BitOf(c, i);
      incr := incr / 2;
      i := i - 1;
    }
    if incr != 0 {
      BitOf(c, i);
      r := Low(huff, i) + incr;
      d := Successor(c, i);
      SuccessorVal(c, i);
      SuccessorLow(c, i);
    } else {
      AllOnes(c);
      r := 0;
      d := Zeros(len);
      ZerosVal(len);
    }
  }

  // ----- the state of the main loop -----

  /** The loop variables: root index of the current sub-table, bits dropped, start and index bits of
      the current table, and entries allocated so far. */
  datatype Fill = Fill(low: int, drop: nat, next: nat, curr: nat, used: nat)

  /** All words below `pos` are decoded, and the current table is the one that `f` describes. */
  ghost predicate Frontier(t: seq<Entry>, root: nat, m: seq<Sense>, lens: seq<nat>, pos: nat, f: Fill) {
    && root <= 15 && |lens| <= |m| && Pow2(root) <= f.used <= |t|
    && if f.drop == 0 then
         f == Fill(-1, 0, 0, root, Pow2(root)) && RootDone(t, root, m, lens, pos)
       else
         && f.drop == root && 1 <= f.curr && root + f.curr <= 15
         && Pow2(root) <= f.next && f.next + Pow2(f.curr) == f.used
         && 0 <= f.low < Pow2(root) && t[f.low] == Entry(root, f.curr, f.next)
         && SubDone(t, root, m, lens, pos, f.low, f.next, f.used)
  }

  /** Only the first n entries have been written. */
  predicate WrittenBelow(t: seq<Entry>, t': seq<Entry>, n: nat) {
    |t'| == |t| && n <= |t| && t'[n..] == t[n..]
  }

  lemma {:induction false} WrittenNothing(t: seq<Entry>, n: nat)
    requires n <= |t|
    ensures WrittenBelow(t, t, n)
  {
  }

  lemma {:induction false} WrittenOn(t0: seq<Entry>, t1: seq<Entry>, t2: seq<Entry>, n: nat, n': nat)
    requires WrittenBelow(t0, t1, n) && WrittenBelow(t1, t2, n) && n <= n' <= |t0|
    ensures WrittenBelow(t0, t2, n')
  {
    assert t2[n'..] == t2[n..][n' - n..];
    assert t0[n'..] == t0[n..][n' - n..];
  }

  lemma {:induction false} WrittenOne(t: seq<Entry>, i: nat, e: Entry, n: nat)
    requires i < n <= |t|
    ensures WrittenBelow(t, t[i := e], n)
  {
  }

  lemma {:induction false} FrontierSize(t: seq<Entry>, root: nat, m: seq<Sense>, lens: seq<nat>, pos: nat, f: Fill)
    requires Frontier(t, root, m, lens, pos, f)
    ensures Pow2(root) <= f.used <= |t|
  {
  }

  /** The space accounting: what is allocated plus what the remaining slots need. */
  predicate Accounted(root: nat, lens: seq<nat>, s: nat, f: Fill)
    requires LensOK(lens) && s < |lens| && root <= lens[s] && root < 15
  {
    var e := SlotEnd(Codeword(lens, s), root);
    && f.curr + root == SubLen(lens, e, root + 1)
    && f.used + Space(lens, root, e) == TableSize(lens, root)
  }

  /** Symbol s is the next one to enter, and its code belongs to the current table. */
  ghost predicate Head(t: seq<Entry>, root: nat, m: seq<Sense>, lens: seq<nat>, s: nat, f: Fill) {
    && LensOK(lens) && s < |lens| && lens[s] >= 1
    && Frontier(t, root, m, lens, Start(lens, s), f)
    && if f.drop == 0 then lens[s] <= root
       else
         && root < lens[s] <= root + f.curr
         && f.low == LVal(Codeword(lens, s)[..root])
         && Accounted(root, lens, s, f)
  }

  /** Replicating the entry of s moves the frontier to the end of its interval. */
  lemma {:induction false} Written(t: seq<Entry>, t': seq<Entry>, root: nat, m: seq<Sense>, lens: seq<nat>, s: nat,
                                   f: Fill)
    requires Head(t, root, m, lens, s, f) && Kraft(lens) <= FULL && NoLinks(m) && |t| == |t'|
    requires var c := Codeword(lens, s);
             SubWrite(t, t', f.next, f.curr, c[f.drop..], Entry(lens[s] - f.drop, m[s].op, m[s].val))
    ensures Frontier(t', root, m, lens, Start(lens, s) + Width(lens[s]), f)
  {
    hide RootDone, SubDone, LVal, Low, Codeword, Start, Width;
    var c := Codeword(lens, s);
    if f.drop == 0 {
      assert c[0..] == c;
      RootStep(t, t', root, m, lens, s);
    } else {
      SubStep(t, t', root, m, lens, s, f.low, f.next, f.curr);
    }
  }

  /** A long code fits the sub-table whose size is computed for its slot. */
  lemma {:induction false} FitsSlot(lens: seq<nat>, s: nat, root: nat)
    requires LensOK(lens) && s < |lens| && root < lens[s] && Kraft(lens) <= FULL
    ensures lens[s] <= SubLen(lens, SlotEnd(Codeword(lens, s), root), root + 1)
  {
    hide Scale, MVal, Codeword, SubLen, Base;
    var d := Codeword(lens, s);
    InSlot(d, root);
    StartIsPos(lens, s);
    SlotFits(lens, s, SlotEnd(d, root), root + 1);
  }

  lemma {:induction false} SameSlot(c: seq<bool>, d: seq<bool>, root: nat)
    requires root <= |c| && root <= |d| && root <= 15 && LVal(c[..root]) == LVal(d[..root])
    ensures SlotEnd(c, root) == SlotEnd(d, root)
  {
    LValInjective(c[..root], d[..root]);
  }

  /** The next symbol stays in the current table. */
  lemma {:induction false} Stays(t: seq<Entry>, root: nat, m: seq<Sense>, lens: seq<nat>, s: nat, s': nat, f: Fill)
    requires LensOK(lens) && s < |lens| && s' < |lens| && 1 <= lens[s] <= lens[s'] && Kraft(lens) <= FULL
    requires Frontier(t, root, m, lens, Start(lens, s'), f)
    requires f.drop == 0 ==> lens[s'] <= root
    requires f.drop != 0 ==>
               && root < lens[s] && Accounted(root, lens, s, f) && f.low == LVal(Codeword(lens, s)[..root])
               && LVal(Codeword(lens, s')[..root]) == f.low
    ensures Head(t, root, m, lens, s', f)
  {
    if f.drop != 0 {
      SameSlot(Codeword(lens, s), Codeword(lens, s'), root);
      FitsSlot(lens, s', root);
    }
  }

  /** What the accounting says when a slot opens at position p. */
  predicate Pending(root: nat, lens: seq<nat>, p: nat, used: nat)
    requires root < 15
  {
    used + Space(lens, root, p) == TableSize(lens, root)
  }

  lemma {:induction false} SlotInCode(c: seq<bool>, root: nat)
    requires root <= |c| && root <= 15
    ensures SlotEnd(c, root) <= FULL
  {
    var h := MVal(c[..root]);
    ScaleStrict(h, Pow2(root), 15 - root);
    Pow2Add(root, 15 - root);
    Pow2Values();
  }

  /** The first long code starts where the short codes end. */
  lemma {:induction false} FirstLong(root: nat, lens: seq<nat>, s: nat, s': nat)
    requires LensOK(lens) && s < |lens| && s' < |lens| && 1 <= lens[s] <= root < lens[s'] && Kraft(lens) == FULL
    requires Start(lens, s') == Start(lens, s) + Width(lens[s])
    ensures Start(lens, s') == SlotStart(Codeword(lens, s'), root)
    ensures Pending(root, lens, Start(lens, s'), Pow2(root))
  {
    assert Start(lens, s') == SlotStart(Codeword(lens, s'), root) by {
      StartIsPos(lens, s);
      StartIsPos(lens, s');
      SlotAfterShort(Codeword(lens, s), Codeword(lens, s'), root);
    }
    assert Start(lens, s') == Base(lens, root + 1) by {
      StartBound(lens, s);
      BaseMono(lens, lens[s] + 1, root + 1);
      BaseMono(lens, root + 1, lens[s']);
    }
  }

  /** A long code outside the current slot starts where that slot ends. */
  lemma {:induction false} NextSlot(root: nat, lens: seq<nat>, s: nat, s': nat, f: Fill)
    requires LensOK(lens) && s < |lens| && s' < |lens| && root < lens[s] <= lens[s'] && Kraft(lens) == FULL
    requires Start(lens, s') == Start(lens, s) + Width(lens[s])
    requires Accounted(root, lens, s, f)
    requires LVal(Codeword(lens, s')[..root]) != LVal(Codeword(lens, s)[..root])
    ensures Start(lens, s') == SlotStart(Codeword(lens, s'), root)
    ensures Pending(root, lens, Start(lens, s'), f.used)
  {
    StartIsPos(lens, s);
    StartIsPos(lens, s');
    SlotAfterSlot(Codeword(lens, s), Codeword(lens, s'), root);
  }

  lemma {:induction false} OpenAccounted(root: nat, lens: seq<nat>, s: nat, f: Fill)
    requires LensOK(lens) && s < |lens| && root < lens[s] && Kraft(lens) == FULL
    requires Start(lens, s) == SlotStart(Codeword(lens, s), root)
    requires f.curr + root == SubLen(lens, SlotEnd(Codeword(lens, s), root), root + 1)
    requires Pow2(f.curr) <= f.used && Pending(root, lens, Start(lens, s), f.used - Pow2(f.curr))
    ensures Accounted(root, lens, s, f)
  {
    hide Scale, MVal, LVal, Codeword, SubLen;
    SlotInCode(Codeword(lens, s), root);
  }

  lemma {:induction false} OpenFrontier(t: seq<Entry>, root: nat, m: seq<Sense>, lens: seq<nat>, b: seq<bool>, f: Fill,
                                        curr: nat)
    requires |b| == root >= 1 && NoLinks(m) && 1 <= curr && root + curr <= 15
    requires Frontier(t, root, m, lens, Scale(MVal(b), 15 - root), f)
    requires f.used + Pow2(curr) <= |t|
    ensures Frontier(t[LVal(b) := Entry(root, curr, f.used)], root, m, lens, Scale(MVal(b), 15 - root),
                     Fill(LVal(b), root, f.used, curr, f.used + Pow2(curr)))
  {
    hide MVal, LVal, Scale, RootDone, SubDone;
    OpenStep(t, root, m, lens, b, if f.low < 0 then 0 else f.low, f.next, f.used, curr);
  }

  /** A sub-table of the computed size for the slot of s makes s the next symbol of that table. */
  lemma {:induction false} Opened(t: seq<Entry>, root: nat, m: seq<Sense>, lens: seq<nat>, s: nat, f: Fill, curr: nat)
    requires 1 <= root && LensOK(lens) && s < |lens| && root < lens[s] && Kraft(lens) == FULL && NoLinks(m)
    requires Frontier(t, root, m, lens, Start(lens, s), f)
    requires Start(lens, s) == SlotStart(Codeword(lens, s), root)
    requires Pending(root, lens, Start(lens, s), f.used)
    requires curr + root == SubLen(lens, SlotEnd(Codeword(lens, s), root), root + 1)
    requires f.used + Pow2(curr) <= |t|
    ensures var low := LVal(Codeword(lens, s)[..root]);
            low < |t| &&
            Head(t[low := Entry(root, curr, f.used)], root, m, lens, s,
                 Fill(low, root, f.used, curr, f.used + Pow2(curr)))
  {
    hide Scale, MVal, Codeword, SubLen, RootDone, SubDone;
    var b := Codeword(lens, s)[..root];
    FitsSlot(lens, s, root);
    OpenFrontier(t, root, m, lens, b, f, curr);
    OpenAccounted(root, lens, s, Fill(LVal(b), root, f.used, curr, f.used + Pow2(curr)));
  }

  // ----- the methods -----

  /** One step of the look-ahead: taking the cnt codes between `from` and `to` leaves room below e,
      or fills it. */
  lemma {:induction false} LookAhead(left: nat, cnt: nat, k: nat, from: nat, to: nat, e: nat)
    requires k >= 1 && Scale(left, k) + from == e && from + Scale(cnt, k) == to
    ensures left <= cnt ==> e <= to
    ensures left > cnt ==> to < e && Scale(Twice(left - cnt), k - 1) + to == e
  {
    if left <= cnt {
      ScaleMono(left, cnt, k);
    } else {
      ScaleAdd(left - cnt, cnt, k);
      ScaleStrict(0, left - cnt, k);
      ScaleDouble(left - cnt, k - 1);
    }
  }

  /** Where the codes that are left over begin, by length: at `pos` for length len, and then where
      the longer codes begin.  The counts say how many there are. */
  predicate Ahead(base: seq<nat>, count: seq<nat>, len: nat, pos: nat) {
    && |base| == 17 && |count| == 16 && 1 <= len <= 15
    && pos + Scale(count[len], 15 - len) == base[len + 1]
    && forall l :: len < l <= 15 ==> base[l] + Scale(count[l], 15 - l) == base[l + 1]
  }

  /** How many index bits the sub-table needs: looks ahead at the counts of the codes left over. */
  method SubTableBits(count: array<nat>, len: nat, drop: nat, max: nat, ghost base: seq<nat>, ghost pos: nat)
    returns (curr: nat)
    requires 1 <= drop < len <= max <= 15 && Ahead(base, count[..], len, pos)
    requires base[len] <= pos && pos + Width(drop) <= base[max + 1]
    ensures len <= curr + drop <= max && base[curr + drop] < pos + Width(drop) <= base[curr + drop + 1]
  {
    hide Low, LVal, Pow2, Scale, Base, Kraft, Count;
    ghost var e := pos + Width(drop);
    ghost var from := pos;
    curr := len - drop;
    var left := Pow2(curr);
    Pow2Add(len - drop, 15 - len);
    while curr + drop < max
      invariant len <= curr + drop <= max && from == if curr + drop == len then pos else base[curr + drop]
      invariant Scale(left, 15 - (curr + drop)) + from == e
      invariant base[curr + drop] < e
      decreases max - curr
    {
      LookAhead(left, count[curr + drop], 15 - (curr + drop), from, base[curr + drop + 1], e);
      if left <= count[curr + drop] {
        break;
      }
      left := left - count[curr + drop];
      from := base[curr + drop + 1];
      curr := curr + 1;
      left := Twice(left);
    }
  }

  function BaseSeq(lens: seq<nat>): (b: seq<nat>)
    ensures |b| == 17 && forall l :: 0 <= l <= 16 ==> b[l] == Base(lens, l)
  {
    seq(17, l requires 0 <= l < 17 => Base(lens, l))
  }

  /** The counts of the codes from the k-th on, of length len or longer. */
  predicate CountsFrom(lens: seq<nat>, count: seq<nat>, k: nat, len: nat) {
    && |count| == 16 && 1 <= len <= 15
    && k < Off(lens, len + 1) && count[len] == Off(lens, len + 1) - k
    && forall l :: len < l <= 15 ==> count[l] == Count(lens, l)
  }

  lemma {:induction false} AheadOfSymbol(lens: seq<nat>, work: seq<nat>, count: seq<nat>, k: nat)
    requires LensOK(lens) && IsSorted(lens, work) && k < Total(lens)
    requires CountsFrom(lens, count, k, lens[work[k]])
    ensures Ahead(BaseSeq(lens), count, lens[work[k]], Start(lens, work[k]))
    ensures BaseSeq(lens)[lens[work[k]]] <= Start(lens, work[k])
  {
    var s := work[k];
    var l := lens[s];
    ScaleAdd(Count(lens[..s], l), count[l], 15 - l);
  }

  /** After the k-th symbol: either the last one of its length, or one more of the same length. */
  lemma {:induction false} CountsStep(lens: seq<nat>, work: seq<nat>, count: seq<nat>, k: nat)
    requires LensOK(lens) && IsSorted(lens, work) && k < Total(lens)
    requires CountsFrom(lens, count, k, lens[work[k]])
    ensures var len := lens[work[k]];
            var count' := count[len := count[len] - 1];
            if count[len] == 1 then
              if len == MaxLen(lens) then k + 1 == Total(lens)
              else k + 1 < Total(lens) && CountsFrom(lens, count', k + 1, lens[work[k + 1]])
            else
              k + 1 < Total(lens) && lens[work[k + 1]] == len && CountsFrom(lens, count', k + 1, len)
  {
    hide Kraft, Base, Start, Width, Scale, Pow2, AtMostOneBit, AllZero, Count;
    var s := work[k];
    var len := lens[s];
    RankBound(lens, s);
    LenBounds(lens, s);
    MaxFacts(lens);
    OffMono(lens, len + 1, 16);
    if k + 1 == Total(lens) {
      if len < MaxLen(lens) {
        MaxFromIs(lens, 15);
        OffMono(lens, len + 1, MaxLen(lens));
      }
    } else {
      var t := work[k + 1];
      RankBound(lens, t);
      NextStart(lens, work, k);
      if len < lens[t] {
        OffMono(lens, len + 1, lens[t]);
      }
    }
  }

  // ----- the end of the walk -----

  /** When every code is entered, a complete code has used exactly its table size. */
  lemma {:induction false} WalkEnds(t: seq<Entry>, root: nat, m: seq<Sense>, lens: seq<nat>, s: nat, f: Fill)
    requires Head(t, root, m, lens, s, f) && Start(lens, s) + Width(lens[s]) == Kraft(lens) <= FULL
    requires Kraft(lens) == FULL || f.drop == 0
    ensures f.used == TableSize(lens, root)
  {
    if f.drop != 0 {
      var c := Codeword(lens, s);
      StartIsPos(lens, s);
      InSlot(c, root);
      SlotInCode(c, root);
    } else if root < 15 {
      StartBound(lens, s);
      BaseMono(lens, lens[s] + 1, root + 1);
      BaseMono(lens, root + 1, 16);
    }
  }

  lemma {:induction false} CompleteOK(t: seq<Entry>, root: nat, m: seq<Sense>, lens: seq<nat>, f: Fill)
    requires Frontier(t, root, m, lens, FULL, f) && 1 <= root && LensOK(lens) && NoLinks(m)
    ensures TableOK(t, root, m, lens)
  {
    Pow2Values();
    forall w: seq<bool> | |w| == 15 ensures WordOK(t, root, m, lens, w) {
      if f.drop == 0 {
        assert RootWord(t, root, m, lens, w);
      } else {
        assert SubWord(t, root, m, lens, w, f.low, f.next, f.used);
      }
    }
  }

  lemma {:induction false} UpperHalf(w: seq<bool>)
    requires |w| == 15 && 16384 <= MVal(w)
    ensures LVal(w[..1]) == 1
  {
    assert MVal([true]) == 1;
    ScaleOne(14);
    Pow2Values();
    hide MVal, Scale, Pow2;
    PrefixInterval([true], w);
  }

  /** The incomplete code with one symbol, of one bit: the other bit is marked invalid. */
  lemma {:induction false} SingleOK(t: seq<Entry>, m: seq<Sense>, lens: seq<nat>)
    requires LensOK(lens) && |lens| <= |m| && NoLinks(m) && AtMostOneBit(lens) && Kraft(lens) == 16384
    requires |t| >= 2 && RootDone(t, 1, m, lens, 16384) && t[1] == Entry(1, 64, 0)
    ensures TableOK(t, 1, m, lens)
  {
    Pow2Values();
    forall w: seq<bool> | |w| == 15 ensures WordOK(t, 1, m, lens, w) {
      if MVal(w) < 16384 {
        assert RootWord(t, 1, m, lens, w);
      } else {
        forall s: nat | Matches(lens, s, w) ensures false {
          MatchesInterval(lens, s, w);
          StartBound(lens, s);
        }
        assert Lookup(lens, w) == NoCode;
        UpperHalf(w);
      }
    }
  }

  lemma {:induction false} NoSymbolsOK(t: seq<Entry>, m: seq<Sense>, lens: seq<nat>)
    requires AllZero(lens) && |lens| <= |m|
    requires |t| >= 2 && t[0] == t[1] == Entry(1, 64, 0)
    ensures TableOK(t, 1, m, lens)
  {
    forall w: seq<bool> | |w| == 15 ensures WordOK(t, 1, m, lens, w) {
      assert Lookup(lens, w) == NoCode;
      assert LVal(w[..1]) < Pow2(1);
    }
  }

  // ----- the main loop -----

  // The base values and extra bits of length codes 257..287 and of distance codes 0..31.
  const LBASE: seq<nat> := [
    3, 4, 5, 6, 7, 8, 9, 10, 11, 13, 15, 17, 19, 23, 27, 31,
    35, 43, 51, 59, 67, 83, 99, 115, 131, 163, 195, 227, 258, 0, 0]
  const LEXT: seq<nat> := [
    16, 16, 16, 16, 16, 16, 16, 16, 17, 17, 17, 17, 18, 18, 18, 18,
    19, 19, 19, 19, 20, 20, 20, 20, 21, 21, 21, 21, 16, 72, 78]
  const DBASE: seq<nat> := [
    1, 2, 3, 4, 5, 7, 9, 13, 17, 25, 33, 49, 65, 97, 129, 193,
    257, 385, 513, 769, 1025, 1537, 2049, 3073, 4097, 6145,
    8193, 12289, 16385, 24577, 0, 0]
  const DEXT: seq<nat> := [
    16, 16, 16, 16, 17, 17, 18, 18, 19, 19, 20, 20, 21, 21, 22, 22,
    23, 23, 24, 24, 25, 25, 26, 26, 27, 27,
    28, 28, 29, 29, 64, 64]

  /** Which symbols carry base values: those above `end`, which itself ends a block. */
  datatype Basis = Basis(base: seq<nat>, extra: seq<nat>, index: int, end: int)

  predicate Usable(b: Basis, n: nat) {
    b.end + 1 < n ==> 0 <= b.index + b.end + 1 && b.index + n <= |b.base| && b.index + n <= |b.extra|
  }

  function SenseFrom(b: Basis, n: nat, s: nat): Sense
    requires s < n && Usable(b, n)
  {
    if s < b.end then Sense(0, s)
    else if s > b.end then Sense(b.extra[b.index + s], b.base[b.index + s])
    else Sense(96, 0)
  }

  function BasisOf(kind: Kind): Basis {
    match kind
    case Codes => Basis([], [], 0, 19)
    case Lens => Basis(LBASE, LEXT, -257, 256)
    case Dists => Basis(DBASE, DEXT, 0, -1)
  }

  lemma {:induction false} ScaleFourToSeven()
    ensures Scale(4, 1) == 8 && Scale(5, 1) == 10 && Scale(6, 1) == 12 && Scale(7, 1) == 14
    ensures Scale(4, 2) == 16 && Scale(5, 2) == 20 && Scale(6, 2) == 24 && Scale(7, 2) == 28
    ensures Scale(4, 3) == 32 && Scale(5, 3) == 40 && Scale(6, 3) == 48 && Scale(7, 3) == 56
    ensures Scale(4, 4) == 64 && Scale(5, 4) == 80 && Scale(6, 4) == 96 && Scale(7, 4) == 112
    ensures Scale(4, 5) == 128 && Scale(5, 5) == 160 && Scale(6, 5) == 192 && Scale(7, 5) == 224
  {
  }

  /** Length codes 265..284: extra bits e, and the r-th of the four base values that share them. */
  lemma {:induction false} LengthRow(s: nat, e: nat, r: nat)
    requires 1 <= e <= 5 && r < 4 && s == 261 + e + e + e + e + r
    ensures LBASE[s - 257] == Scale(4 + r, e) + 3 && LEXT[s - 257] == 16 + e
  {
    ScaleFourToSeven();
    hide Scale;
    assert e == 1 || e == 2 || e == 3 || e == 4 || e == 5;
    assert r == 0 || r == 1 || r == 2 || r == 3;
  }

  lemma {:induction false} ScaleTwoThree()
    ensures Scale(2, 1) == 4 && Scale(2, 2) == 8 && Scale(2, 3) == 16 && Scale(2, 4) == 32 && Scale(2, 5) == 64
    ensures Scale(2, 6) == 128 && Scale(2, 7) == 256 && Scale(2, 8) == 512 && Scale(2, 9) == 1024
    ensures Scale(2, 10) == 2048 && Scale(2, 11) == 4096 && Scale(2, 12) == 8192 && Scale(2, 13) == 16384
    ensures Scale(3, 1) == 6 && Scale(3, 2) == 12 && Scale(3, 3) == 24 && Scale(3, 4) == 48 && Scale(3, 5) == 96
    ensures Scale(3, 6) == 192 && Scale(3, 7) == 384 && Scale(3, 8) == 768 && Scale(3, 9) == 1536
    ensures Scale(3, 10) == 3072 && Scale(3, 11) == 6144 && Scale(3, 12) == 12288 && Scale(3, 13) == 24576
  {
  }

  /** Distance codes 4..29: extra bits e, and the r-th of the two base values that share them. */
  lemma {:induction false} DistRow(s: nat, e: nat, r: nat)
    requires 1 <= e <= 13 && r < 2 && s == 2 + e + e + r
    ensures DBASE[s] == Scale(2 + r, e) + 1 && DEXT[s] == 16 + e
  {
    ScaleTwoThree();
    hide Scale;
    assert e == 1 || e == 2 || e == 3 || e == 4 || e == 5 || e == 6 || e == 7 || e == 8 || e == 9
        || e == 10 || e == 11 || e == 12 || e == 13;
    assert r == 0 || r == 1;
  }

  lemma {:induction false} LensBasisLow(s: nat)
    requires 257 <= s < 265
    ensures LBASE[s - 257] == s - 254 && LEXT[s - 257] == 16
  {
  }

  lemma {:induction false} LensBasis(s: nat)
    requires 257 <= s < 288
    ensures var t := SenseOf(Lens, s); LEXT[s - 257] == t.op && LBASE[s - 257] == t.val
  {
    hide Scale;
    if 265 <= s < 285 {
      LengthRow(s, (s - 261) / 4, (s - 265) % 4);
    } else if s < 265 {
      LensBasisLow(s);
    }
  }

  lemma {:induction false} DistsBasis(s: nat)
    requires s < 32
    ensures var t := SenseOf(Dists, s); DEXT[s] == t.op && DBASE[s] == t.val
  {
    hide Scale;
    if 4 <= s < 30 {
      DistRow(s, (s - 2) / 2, s % 2);
    }
  }

  /** The program's tables agree with section 3.2.5 of RFC 1951. */
  lemma {:induction false} BasisIsSense(kind: Kind, s: nat)
    requires s < MaxSymbols(kind)
    ensures Usable(BasisOf(kind), MaxSymbols(kind))
    ensures SenseFrom(BasisOf(kind), MaxSymbols(kind), s) == SenseOf(kind, s)
  {
    match kind
    case Codes =>
    case Lens =>
      if s > 256 {
        LensBasis(s);
      }
    case Dists => DistsBasis(s);
  }

  /** The entry for a symbol. */
  method SymbolEntry(b: Basis, ghost n: nat, sym: nat, bits: nat) returns (here: Entry)
    requires sym < n && Usable(b, n)
    ensures here == Entry(bits, SenseFrom(b, n, sym).op, SenseFrom(b, n, sym).val)
  {
    if sym < b.end {
      here := Entry(bits, 0, sym);
    } else if sym > b.end {
      here := Entry(bits, b.extra[b.index + sym], b.base[b.index + sym]);
    } else {
      here := Entry(bits, 96, 0);
    }
  }

  /** Fills the cells of one code. */
  method WriteCode(table: array<Entry>, sym: nat, root: nat, b: Basis, ghost m: seq<Sense>, ghost lens: seq<nat>,
                   len: nat, huff: nat, drop: nat, next: nat, curr: nat, ghost f: Fill)
    requires f.drop == drop && f.next == next && f.curr == curr
    requires Kraft(lens) <= FULL && NoLinks(m) && Head(table[..], root, m, lens, sym, f)
    requires Usable(b, |m|) && m[sym] == SenseFrom(b, |m|, sym)
    requires len == lens[sym] && huff == LVal(Codeword(lens, sym))
    modifies table
    ensures Frontier(table[..], root, m, lens, Start(lens, sym) + Width(len), f)
    ensures WrittenBelow(old(table[..]), table[..], f.used)
  {
    hide Codeword, LVal, Pow2, Start, Width, RootDone, SubDone, Accounted;
    ghost var t := table[..];
    ghost var c := Codeword(lens, sym);
    LValSplit(c, drop);
    var here := SymbolEntry(b, |m|, sym, len - drop);
    Replicate(table, next, Shr(huff, drop), len - drop, curr, here);
    assert SubWrite(t, table[..], next, curr, c[drop..], here);
    assert table[f.used..] == t[f.used..];
    Written(t, table[..], root, m, lens, sym, f);
  }

  /** The value that the backward increment must produce for the next code. */
  lemma {:induction false} NextHuff(lens: seq<nat>, work: seq<nat>, k: nat, d: seq<bool>, r: nat)
    requires LensOK(lens) && Kraft(lens) <= FULL && IsSorted(lens, work) && k < Total(lens)
    requires var c := Codeword(lens, work[k]);
             && |d| == |c| && r == LVal(d)
             && (MVal(c) + 1 < Pow2(|c|) ==> MVal(d) == MVal(c) + 1)
             && (MVal(c) + 1 == Pow2(|c|) <==> r == 0)
    ensures k + 1 < Total(lens) ==> r == LVal(Codeword(lens, work[k + 1]))
    ensures k + 1 == Total(lens) ==> (r == 0 <==> Kraft(lens) == FULL)
  {
    hide Codeword, LVal, MVal, Pow2, Start, Width, Rank;
    var s := work[k];
    SuccessorExists(lens, s);
    if k + 1 < Total(lens) {
      NextStart(lens, work, k);
      StartBound(lens, work[k + 1]);
      NextCodeword(lens, s, work[k + 1], d);
    } else {
      LastStart(lens, work);
    }
  }

  /** The set of lengths that the main loop works on. */
  ghost predicate Ready(lens: seq<nat>, work: seq<nat>, root: nat, m: seq<Sense>) {
    && LensOK(lens) && |lens| <= |m| && NoLinks(m) && 1 <= root <= 15
    && (Kraft(lens) == FULL || (Kraft(lens) < FULL && MaxLen(lens) <= 1))
    && IsSorted(lens, work)
  }

  /** The invariant of the main loop: the k-th symbol is next, everything before it is done. */
  ghost predicate Walking(t: seq<Entry>, count: seq<nat>, work: seq<nat>, root: nat, m: seq<Sense>, lens: seq<nat>,
                          k: nat, len: nat, huff: nat, f: Fill)
  {
    && Ready(lens, work, root, m) && k < Total(lens) && lens[work[k]] == len
    && CountsFrom(lens, count, k, len)
    && huff == LVal(Codeword(lens, work[k]))
    && Head(t, root, m, lens, work[k], f)
  }

  /** Enters the k-th code: fills its cells and increments the code. */
  method EnterCode(table: array<Entry>, work: array<nat>, k: nat, root: nat, b: Basis, ghost m: seq<Sense>,
                   ghost lens: seq<nat>, ghost count: seq<nat>, len: nat, huff: nat, drop: nat, next: nat, curr: nat,
                   ghost f: Fill)
    returns (huff': nat)
    requires f.drop == drop && f.next == next && f.curr == curr
    requires Walking(table[..], count, work[..], root, m, lens, k, len, huff, f)
    requires Usable(b, |m|) && m[work[k]] == SenseFrom(b, |m|, work[k])
    modifies table
    ensures Frontier(table[..], root, m, lens, Start(lens, work[k]) + Width(len), f)
    ensures WrittenBelow(old(table[..]), table[..], f.used)
    ensures k + 1 < Total(lens) ==> huff' == LVal(Codeword(lens, work[k + 1]))
    ensures k + 1 == Total(lens) ==> (huff' == 0 <==> Kraft(lens) == FULL)
    ensures huff' < Pow2(len)
  {
    hide Codeword, LVal, MVal, Pow2, Start, Width, Frontier, Accounted, Usable, SenseFrom;
    ghost var w := work[..];
    WriteCode(table, work[k], root, b, m, lens, len, huff, drop, next, curr, f);
    ghost var d;
    huff', d := NextCode(huff, len, Codeword(lens, work[k]));
    NextHuff(lens, w, k, d, huff');
  }

  /** The caller's table is large enough, unless the space check refuses the lengths first. */
  predicate HasRoom(kind: Kind, length: nat, lens: seq<nat>, root: nat)
    requires root <= 15
  {
    TableSize(lens, root) <= length || (kind != Codes && Room(kind) <= length)
  }

  /** Symbol number k opens a slot, and everything below it is done and accounted for. */
  ghost predicate Opening(t: seq<Entry>, count: seq<nat>, work: seq<nat>, root: nat, m: seq<Sense>, lens: seq<nat>,
                          k: nat, len: nat, huff: nat, f: Fill)
  {
    && Ready(lens, work, root, m) && Kraft(lens) == FULL && k < Total(lens) && lens[work[k]] == len
    && root < len && CountsFrom(lens, count, k, len)
    && huff == LVal(Codeword(lens, work[k]))
    && Frontier(t, root, m, lens, Start(lens, work[k]), f)
    && Start(lens, work[k]) == SlotStart(Codeword(lens, work[k]), root)
    && Pending(root, lens, Start(lens, work[k]), f.used)
  }

  /** The look-ahead may run. */
  lemma {:induction false} CanLookAhead(t: seq<Entry>, count: seq<nat>, work: seq<nat>, root: nat, m: seq<Sense>,
                                        lens: seq<nat>, k: nat, len: nat, huff: nat, f: Fill)
    requires Opening(t, count, work, root, m, lens, k, len, huff, f)
    ensures var pos, max, base := Start(lens, work[k]), MaxLen(lens), BaseSeq(lens);
            && len <= max <= 15 && Ahead(base, count, len, pos)
            && base[len] <= pos && pos + Width(root) <= base[max + 1]
  {
    hide Codeword, LVal, MVal, Pow2, Start, Scale, Base, Space, TableSize, Off, Frontier;
    SlotInCode(Codeword(lens, work[k]), root);
    AheadOfSymbol(lens, work, count, k);
    LenBounds(lens, work[k]);
    MaxFacts(lens);
  }

  /** What the look-ahead found is the size that the accounting expects. */
  lemma {:induction false} LookedAhead(t: seq<Entry>, count: seq<nat>, work: seq<nat>, root: nat, m: seq<Sense>,
                                       lens: seq<nat>, k: nat, len: nat, huff: nat, f: Fill, curr: nat)
    requires Opening(t, count, work, root, m, lens, k, len, huff, f)
    requires len <= curr + root <= 15
    requires var e, base := Start(lens, work[k]) + Width(root), BaseSeq(lens);
             base[curr + root] < e <= base[curr + root + 1]
    ensures curr + root == SubLen(lens, SlotEnd(Codeword(lens, work[k]), root), root + 1)
    ensures f.used + Pow2(curr) <= TableSize(lens, root)
  {
    hide Codeword, LVal, MVal, Pow2, Start, Scale, Base, SubLen, Space, TableSize, Off, Frontier;
    SubLenReached(lens, Start(lens, work[k]) + Width(root), root + 1, curr + root);
    OpenAccounted(root, lens, work[k], Fill(0, root, f.used, curr, f.used + Pow2(curr)));
  }

  lemma {:induction false} OpenedFrom(t: seq<Entry>, count: seq<nat>, work: seq<nat>, root: nat, m: seq<Sense>,
                                      lens: seq<nat>, k: nat, len: nat, huff: nat, f: Fill, curr: nat)
    requires Opening(t, count, work, root, m, lens, k, len, huff, f)
    requires curr + root == SubLen(lens, SlotEnd(Codeword(lens, work[k]), root), root + 1)
    requires f.used + Pow2(curr) <= |t|
    ensures Low(huff, root) < |t|
    ensures Head(t[Low(huff, root) := Entry(root, curr, f.used)], root, m, lens, work[k],
                 Fill(Low(huff, root), root, f.used, curr, f.used + Pow2(curr)))
  {
    hide Codeword, LVal, MVal, Pow2, Start, Scale, Base, SubLen, Space, TableSize, Off, Frontier, Low;
    LValSplit(Codeword(lens, work[k]), root);
    Opened(t, root, m, lens, work[k], f, curr);
  }

  /** Starts the sub-table for the slot that symbol number k opens. */
  method OpenSubTable(kind: Kind, table: array<Entry>, count: array<nat>, root: nat, max: nat, len: nat, huff: nat,
                      used: nat, ghost k: nat, ghost work: seq<nat>, ghost m: seq<Sense>, ghost lens: seq<nat>,
                      ghost f: Fill)
    returns (ok: bool, curr: nat)
    requires Opening(table[..], count[..], work, root, m, lens, k, len, huff, f)
    requires max == MaxLen(lens) && f.used == used && HasRoom(kind, table.Length, lens, root)
    modifies table
    ensures WrittenBelow(old(table[..]), table[..], used)
    ensures ok ==> used + Pow2(curr) <= table.Length
    ensures ok ==> !TooBig(kind, used + Pow2(curr))
    ensures ok ==> Head(table[..], root, m, lens, work[k], Fill(Low(huff, root), root, used, curr, used + Pow2(curr)))
    ensures !ok ==> TooBig(kind, TableSize(lens, root))
  {
    hide Codeword, LVal, MVal, Pow2, Start, Scale, Base, SubLen, Space, TableSize, Off, Frontier, Low, Head;
    ghost var t := table[..];
    CanLookAhead(t, count[..], work, root, m, lens, k, len, huff, f);
    curr := SubTableBits(count, len, root, max, BaseSeq(lens), Start(lens, work[k]));
    FrontierSize(t, root, m, lens, Start(lens, work[k]), f);
    WrittenNothing(t, used);
    LookedAhead(t, count[..], work, root, m, lens, k, len, huff, f, curr);
    ok := !TooBig(kind, used + Pow2(curr));
    if ok {
      OpenedFrom(t, count[..], work, root, m, lens, k, len, huff, f, curr);
      LowBound(huff, root);
      WrittenOne(t, Low(huff, root), Entry(root, curr, used), used);
      table[Low(huff, root)] := Entry(root, curr, used);
      assert table[..] == t[Low(huff, root) := Entry(root, curr, used)];
      HeadSize(table[..], root, m, lens, work[k], Fill(Low(huff, root), root, used, curr, used + Pow2(curr)));
    }
  }

  lemma {:induction false} HeadSize(t: seq<Entry>, root: nat, m: seq<Sense>, lens: seq<nat>, s: nat, f: Fill)
    requires Head(t, root, m, lens, s, f)
    ensures Pow2(root) <= f.used <= |t|
  {
  }

  lemma {:induction false} LowBound(v: nat, n: nat)
    ensures Low(v, n) < Pow2(n)
  {
    LowShr(v, n);
  }

  /** After the k-th code, the next one either belongs to the current table or opens a slot. */
  lemma {:induction false} Advance(t: seq<Entry>, t': seq<Entry>, count: seq<nat>, count': seq<nat>, work: seq<nat>,
                                   root: nat, m: seq<Sense>, lens: seq<nat>, k: nat, len: nat, huff: nat, len': nat,
                                   huff': nat, f: Fill)
    requires Walking(t, count, work, root, m, lens, k, len, huff, f)
    requires Frontier(t', root, m, lens, Start(lens, work[k]) + Width(len), f)
    requires k + 1 < Total(lens) && len' == lens[work[k + 1]] && CountsFrom(lens, count', k + 1, len')
    requires huff' == LVal(Codeword(lens, work[k + 1]))
    ensures !(len' > root && Low(huff', root) != f.low) ==>
              Walking(t', count', work, root, m, lens, k + 1, len', huff', f)
    ensures len' > root && Low(huff', root) != f.low ==>
              Opening(t', count', work, root, m, lens, k + 1, len', huff', f)
    ensures f.next + Pow2(f.curr) == f.used && (f.drop == 0 || f.drop == root)
  {
    hide Codeword, LVal, MVal, Pow2, Start, Width, Scale, RootDone, SubDone, Low, Rank, CountsFrom, Pending;
    var s, s' := work[k], work[k + 1];
    NextStart(lens, work, k);
    LenBounds(lens, s');
    if len' > root {
      LValSplit(Codeword(lens, s'), root);
      if Low(huff', root) != f.low {
        if f.drop == 0 {
          FirstLong(root, lens, s, s');
        } else {
          NextSlot(root, lens, s, s', f);
        }
      } else {
        Stays(t', root, m, lens, s, s', f);
      }
    } else {
      Stays(t', root, m, lens, s, s', f);
    }
  }

  /** The first code, before anything is written. */
  lemma {:induction false} WalkStarts(t: seq<Entry>, count: seq<nat>, work: seq<nat>, root: nat, m: seq<Sense>,
                                      lens: seq<nat>)
    requires Ready(lens, work, root, m) && Total(lens) > 0 && Pow2(root) <= |t|
    requires forall l :: 0 <= l < |count| == 16 ==> count[l] == Count(lens, l)
    requires |count| == 16 && lens[work[0]] <= root
    ensures Walking(t, count, work, root, m, lens, 0, lens[work[0]], 0, Fill(-1, 0, 0, root, Pow2(root)))
  {
    FirstStart(lens, work);
    ZerosVal(lens[work[0]]);
    RankBound(lens, work[0]);
  }

  /** The last code: the table is finished, up to the cell that an incomplete code leaves open. */
  /** Nothing from the end of the allocated entries on is used. */
  lemma {:induction false} FrontierPrefix(t: seq<Entry>, root: nat, m: seq<Sense>, lens: seq<nat>, pos: nat, f: Fill)
    requires Frontier(t, root, m, lens, pos, f)
    ensures f.used <= |t| && Frontier(t[..f.used], root, m, lens, pos, f)
  {
    hide Lookup, LVal, MVal, Pow2;
    forall w: seq<bool> | |w| == 15 && MVal(w) < pos
      ensures f.drop == 0 ==> RootWord(t[..f.used], root, m, lens, w)
      ensures f.drop != 0 ==> SubWord(t[..f.used], root, m, lens, w, f.low, f.next, f.used)
    {
      IndexBound(w, root);
      if f.drop == 0 {
        assert RootWord(t, root, m, lens, w);
      } else {
        assert SubWord(t, root, m, lens, w, f.low, f.next, f.used);
        ResolvesPrefix(t, f.used, root, w);
      }
    }
  }

  /** The entry behind a link is within the sub-table. */
  lemma {:induction false} ResolvesPrefix(t: seq<Entry>, n: nat, root: nat, w: seq<bool>)
    requires |w| == 15 && root <= 15 && n <= |t| && LVal(w[..root]) < n
    requires var e := t[LVal(w[..root])]; IsLink(e) && root + e.op <= 15 ==> e.val + Pow2(e.op) <= n
    ensures forall len, op, val :: Resolves(t, root, w, len, op, val) ==> Resolves(t[..n], root, w, len, op, val)
  {
    hide LVal, Pow2;
    var e := t[LVal(w[..root])];
    if IsLink(e) && root + e.op <= 15 {
      var x := w[root..root + e.op];
      IndexBound(x, e.op);
      assert x[..e.op] == x;
    }
  }

  /** A table that works up to n entries works however long it is. */
  lemma {:induction false} PrefixSuffices(t: seq<Entry>, n: nat, root: nat, m: seq<Sense>, lens: seq<nat>)
    requires n <= |t| && TableOK(t[..n], root, m, lens)
    ensures TableOK(t, root, m, lens)
  {
    hide Lookup, LVal, Pow2;
    forall w: seq<bool> | |w| == 15 ensures WordOK(t, root, m, lens, w) {
      assert WordOK(t[..n], root, m, lens, w);
    }
  }

  lemma {:induction false} LastCode(t: seq<Entry>, t': seq<Entry>, count: seq<nat>, work: seq<nat>, root: nat,
                                    m: seq<Sense>, lens: seq<nat>, k: nat, len: nat, huff: nat, f: Fill, huff': nat)
    requires Walking(t, count, work, root, m, lens, k, len, huff, f) && k + 1 == Total(lens)
    requires Frontier(t', root, m, lens, Start(lens, work[k]) + Width(len), f)
    requires huff' == 0 <==> Kraft(lens) == FULL
    ensures f.used == TableSize(lens, root)
    ensures f.used <= |t'| && (huff' == 0 ==> TableOK(t'[..f.used], root, m, lens))
    ensures huff' != 0 && root == 1 ==>
              f.next == 0 && f.drop == 0 && len == 1 && f.used >= 2 &&
              TableOK(t'[..f.used][1 := Entry(1, 64, 0)], root, m, lens)
  {
    hide Codeword, LVal, MVal, Start, Width, Scale, Rank, CountsFrom, SubDone;
    LastStart(lens, work);
    LenBounds(lens, work[k]);
    FrontierPrefix(t', root, m, lens, Start(lens, work[k]) + Width(len), f);
    WalkEnds(t, root, m, lens, work[k], f);
    if huff' == 0 {
      CompleteOK(t'[..f.used], root, m, lens, f);
    } else if root == 1 {
      MaxFacts(lens);
      HalfKraft(lens);
      SingleRoot(t'[..f.used], m, lens, f);
    }
  }

  lemma {:induction false} HalfKraft(lens: seq<nat>)
    requires LensOK(lens) && MaxLen(lens) == 1 && Kraft(lens) < FULL
    ensures Kraft(lens) == 16384
  {
    MaxFacts(lens);
    MaxFromIs(lens, 15);
    var n := Count(lens, 1);
    Pow2Values();
    ScaleOne(14);
    if n >= 2 {
      ScaleMono(2, n, 14);
      ScaleDouble(1, 14);
    }
  }

  lemma {:induction false} SingleRoot(t: seq<Entry>, m: seq<Sense>, lens: seq<nat>, f: Fill)
    requires LensOK(lens) && NoLinks(m) && AtMostOneBit(lens) && Kraft(lens) == 16384
    requires Frontier(t, 1, m, lens, 16384, f) && f.drop == 0
    ensures |t| >= 2 && TableOK(t[1 := Entry(1, 64, 0)], 1, m, lens)
  {
    var t' := t[1 := Entry(1, 64, 0)];
    forall w: seq<bool> | |w| == 15 && MVal(w) < 16384 ensures RootWord(t', 1, m, lens, w) {
      assert RootWord(t, 1, m, lens, w);
      LowerHalf(w);
    }
    SingleOK(t', m, lens);
  }

  lemma {:induction false} LowerHalf(w: seq<bool>)
    requires |w| == 15 && MVal(w) < 16384
    ensures LVal(w[..1]) == 0
  {
    hide MVal, Scale, Pow2;
    NoneSet();
    ScaleZero(14);
    Pow2Values();
    PrefixInterval([false], w);
  }

  lemma {:induction false} NoneSet()
    ensures MVal([false]) == 0 && LVal([false]) == 0
  {
  }

  /** All codes are entered; if the code is incomplete, one cell is left to be marked. */
  ghost predicate Finished(t: seq<Entry>, root: nat, m: seq<Sense>, lens: seq<nat>, len: nat, huff: nat, f: Fill)
    requires root <= 15
  {
    && f.used == TableSize(lens, root) <= |t|
    && (huff == 0 ==> TableOK(t[..f.used], root, m, lens))
    && (huff != 0 ==> Kraft(lens) < FULL)
    && (huff != 0 && root == 1 ==>
          f.next == 0 && f.drop == 0 && len == 1 == huff && f.used >= 2 &&
          TableOK(t[..f.used][1 := Entry(1, 64, 0)], root, m, lens))
  }

  /** Enters the k-th code and goes on to the next symbol: the count of its length goes down, and the
      length goes up when that count is used up.  `last` when it was the last symbol. */
  method NextSymbol(lens: array<nat>, lensIndex: nat, ghost L: seq<nat>, table: array<Entry>, work: array<nat>,
                    count: array<nat>, k: nat, root: nat, max: nat, b: Basis, ghost m: seq<Sense>, len: nat, huff: nat,
                    drop: nat, next: nat, curr: nat, ghost f: Fill)
    returns (last: bool, huff': nat, len': nat)
    requires lensIndex + |L| <= lens.Length && L == lens[lensIndex..lensIndex + |L|]
    requires count != work && count != lens && max == MaxLen(L)
    requires f.drop == drop && f.next == next && f.curr == curr
    requires Walking(table[..], count[..], work[..], root, m, L, k, len, huff, f)
    requires Usable(b, |m|) && m[work[k]] == SenseFrom(b, |m|, work[k])
    modifies table, count
    ensures huff' < Pow2(len) && f.used <= table.Length && WrittenBelow(old(table[..]), table[..], f.used)
    ensures last ==> Finished(table[..], root, m, L, len', huff', f)
    ensures !last ==> k + 1 < Total(L) && f.next + Pow2(f.curr) == f.used && (f.drop == 0 || f.drop == root)
    ensures !last && !(len' > root && Low(huff', root) != f.low) ==>
              Walking(table[..], count[..], work[..], root, m, L, k + 1, len', huff', f)
    ensures !last && len' > root && Low(huff', root) != f.low ==>
              Opening(table[..], count[..], work[..], root, m, L, k + 1, len', huff', f)
  {
    hide Codeword, LVal, MVal, Start, Width, Scale, Low, Rank, Head, TableOK, SenseFrom, Usable, RootDone, SubDone,
      WrittenBelow, Kraft, Base;
    ghost var t, cs, w := table[..], count[..], work[..];
    len' := len;
    huff' := EnterCode(table, work, k, root, b, m, L, count[..], len, huff, drop, next, curr, f);
    CountsStep(L, w, cs, k);
    count[len] := count[len] - 1;
    assert count[..] == cs[len := cs[len] - 1];
    if count[len] == 0 {
      if len == max {
        LastCode(t, table[..], cs, w, root, m, L, k, len, huff, f, huff');
        last := true;
        return;
      }
      len' := lens[lensIndex + work[k + 1]];
    }
    last := false;
    Advance(t, table[..], cs, count[..], w, root, m, L, k, len, huff, len', huff', f);
  }

  lemma {:induction false} RootFits(kind: Kind, length: nat, lens: seq<nat>, root: nat)
    requires 1 <= root <= 15 && HasRoom(kind, length, lens, root)
    ensures TooBig(kind, Pow2(root)) ==> TooBig(kind, TableSize(lens, root))
    ensures !TooBig(kind, Pow2(root)) ==> Pow2(root) <= length || kind == Codes
    ensures kind == Codes ==> Pow2(root) <= length
  {
  }

  lemma {:induction false} RoomFits(kind: Kind, length: nat, lens: seq<nat>, root: nat)
    requires 1 <= root <= 15 && HasRoom(kind, length, lens, root)
    ensures TooBig(kind, TableSize(lens, root)) ==> Room(kind) <= length
    ensures forall used: nat :: kind != Codes && !TooBig(kind, used) ==> used <= Room(kind)
  {
  }

  lemma {:induction false} WalkingSymbol(t: seq<Entry>, count: seq<nat>, work: seq<nat>, root: nat, m: seq<Sense>,
                                         lens: seq<nat>, k: nat, len: nat, huff: nat, f: Fill)
    requires Walking(t, count, work, root, m, lens, k, len, huff, f)
    ensures k < Total(lens) && k < |work| && work[k] < |lens| <= |m|
  {
    hide Codeword, LVal, Head, Kraft;
  }

  /** The walk goes on in the new sub-table. */
  lemma {:induction false} Reopened(t: seq<Entry>, t': seq<Entry>, count: seq<nat>, work: seq<nat>, root: nat,
                                    m: seq<Sense>, lens: seq<nat>, k: nat, len: nat, huff: nat, f: Fill, f': Fill)
    requires Opening(t, count, work, root, m, lens, k, len, huff, f) && Head(t', root, m, lens, work[k], f')
    ensures Walking(t', count, work, root, m, lens, k, len, huff, f')
  {
    hide Codeword, LVal, Start, Head, Kraft;
  }

  /** What is left to do at the end: at most the one entry of an incomplete code. */
  lemma {:induction false} FinishedParts(t: seq<Entry>, root: nat, m: seq<Sense>, lens: seq<nat>, len: nat, huff: nat,
                                         f: Fill)
    requires root <= 15 && Finished(t, root, m, lens, len, huff, f)
    ensures f.used == TableSize(lens, root) <= |t|
    ensures huff == 0 ==> TableOK(t[..f.used], root, m, lens)
    ensures huff != 0 ==> Kraft(lens) < FULL
    ensures huff != 0 && root == 1 ==>
      && f.next == 0 && f.drop == 0 && len == 1 == huff && f.used >= 2
      && TableOK(t[..f.used][1 := Entry(1, 64, 0)], root, m, lens)
  {
    hide TableOK, Kraft, TableSize;
  }

  /** Creates and fills the decoding tables; false when they do not fit the space. */
  method FillTable(kind: Kind, lens: array<nat>, lensIndex: nat, codes: nat, table: array<Entry>, work: array<nat>,
                   count: array<nat>, root: nat, max: nat, b: Basis)
    returns (ok: bool)
    requires lensIndex + codes <= lens.Length && codes <= MaxSymbols(kind)
    requires var L := lens[lensIndex..lensIndex + codes];
             && Ready(L, work[..], root, Senses(kind)) && Total(L) > 0 && L[work[0]] <= root
             && max == MaxLen(L) && HasRoom(kind, table.Length, L, root)
             && (Kraft(L) < FULL ==> root == 1)
    requires count != work && count != lens && count.Length == 16
    requires forall l :: 0 <= l <= 15 ==> count[l] == Count(lens[lensIndex..lensIndex + codes], l)
    requires Usable(b, MaxSymbols(kind))
    requires forall s :: 0 <= s < MaxSymbols(kind) ==> SenseOf(kind, s) == SenseFrom(b, MaxSymbols(kind), s)
    modifies table, count
    ensures var L := lens[lensIndex..lensIndex + codes];
            && (!ok <==> TooBig(kind, TableSize(L, root)))
            && (ok ==> WrittenBelow(old(table[..]), table[..], TableSize(L, root))
                       && TableOK(table[..TableSize(L, root)], root, Senses(kind), L))
            && (!ok ==> WrittenBelow(old(table[..]), table[..], Room(kind)))
  {
    hide Codeword, LVal, MVal, Start, Width, Scale, Low, Rank, Frontier, Head, TableOK, SenseOf, SenseFrom, Usable,
      CountsFrom, TableSize, WrittenBelow, Kraft, Base, Walking, Opening, Finished;
    ghost var L := lens[lensIndex..lensIndex + codes];
    ghost var w := work[..];
    ghost var m := Senses(kind);
    var huff: nat, k: nat := 0, 0;
    var len: nat := lens[lensIndex + work[0]];
    var low: int := -1;
    var next: nat, curr: nat, drop: nat, used: nat := 0, root, 0, Pow2(root);
    ghost var t0 := table[..];
    RootFits(kind, table.Length, L, root);
    RoomFits(kind, table.Length, L, root);
    if TooBig(kind, used) {
      WrittenNothing(t0, Room(kind));
      return false;
    }
    ghost var f := Fill(-1, 0, 0, root, Pow2(root));
    WalkStarts(table[..], count[..], w, root, m, L);
    WrittenNothing(t0, used);
    while true
      invariant L == lens[lensIndex..lensIndex + codes] && w == work[..]
      invariant f == Fill(low, drop, next, curr, used) && !TooBig(kind, used)
      invariant used <= table.Length && WrittenBelow(t0, table[..], used)
      invariant Walking(table[..], count[..], w, root, m, L, k, len, huff, f)
      decreases Total(L) - k
    {
      var last;
      ghost var t1 := table[..];
      WalkingSymbol(table[..], count[..], w, root, m, L, k, len, huff, f);
      last, huff, len := NextSymbol(lens, lensIndex, L, table, work, count, k, root, max, b, m,
                                    len, huff, drop, next, curr, f);
      WrittenOn(t0, t1, table[..], used, used);
      if last {
        break;
      }
      k := k + 1;
      if len > root && Low(huff, root) != low {
        if drop == 0 {
          drop := root;
        }
        next := next + Pow2(curr);
        var fits;
        ghost var t2 := table[..];
        fits, curr := OpenSubTable(kind, table, count, root, max, len, huff, used, k, w, m, L, f);
        if !fits {
          WrittenOn(t0, t2, table[..], used, Room(kind));
          return false;
        }
        WrittenOn(t0, t2, table[..], used, used + Pow2(curr));
        used := used + Pow2(curr);
        low := Low(huff, root);
        ghost var f0 := f;
        f := Fill(low, drop, next, curr, used);
        Reopened(t2, table[..], count[..], w, root, m, L, k, len, huff, f0, f);
      }
    }
    FinishedParts(table[..], root, m, L, len, huff, f);
    if huff != 0 {
      ghost var t := table[..];
      table[next + huff] := Entry(len - drop, 64, 0);
      WrittenOne(t, 1, Entry(1, 64, 0), used);
      WrittenOn(t0, t, table[..], used, used);
      assert table[..used] == t[..used][1 := Entry(1, 64, 0)];
    }
    BelowLength(t0, table[..], used);
    ok := true;
  }

  /** The longest and shortest code lengths in use, found by scanning the counts. */
  method FindBounds(count: array<nat>, ghost lens: seq<nat>) returns (min: nat, max: nat)
    requires count.Length == 16 && forall l :: 0 <= l <= 15 ==> count[l] == Count(lens, l)
    ensures max == MaxLen(lens) && (max > 0 ==> min == MinFrom(lens, 1, max))
  {
    max := 15;
    while max >= 1 && count[max] == 0
      invariant 0 <= max <= 15 && MaxFrom(lens, 15) == MaxFrom(lens, max)
    {
      max := max - 1;
    }
    min := 1;
    while min < max && count[min] == 0
      invariant 1 <= min && (max > 0 ==> min <= max && MinFrom(lens, 1, max) == MinFrom(lens, min, max))
    {
      min := min + 1;
    }
  }

  /** The shortest code comes first, and the root table is at least as wide. */
  lemma {:induction false} FirstIsShortest(lens: seq<nat>, work: seq<nat>, bits: nat)
    requires LensOK(lens) && IsSorted(lens, work) && MaxLen(lens) > 0 && 1 <= bits
    ensures Total(lens) > 0 && lens[work[0]] <= RootBits(lens, bits) <= 15
  {
    MaxFacts(lens);
    var l := lens[work[0]];
    RankBound(lens, work[0]);
    LenBounds(lens, work[0]);
    var min := MinFrom(lens, 1, MaxLen(lens));
    MinFromIs(lens, 1, MaxLen(lens));
    if min < l {
      OffMono(lens, min + 1, l);
    }
  }

  lemma {:induction false} NoCodeFacts(lens: seq<nat>)
    requires LensOK(lens) && MaxLen(lens) == 0
    ensures AllZero(lens) && Kraft(lens) == 0 && TableSize(lens, 1) == 2
  {
    MaxFacts(lens);
    Pow2Values();
  }

  /** Sorts the symbols of an acceptable set of lengths and fills the table. */
  method SortAndFill(kind: Kind, lens: array<nat>, lensIndex: nat, codes: nat, table: array<Entry>, work: array<nat>,
                     count: array<nat>, root: nat, max: nat, bits: nat)
    returns (ok: bool)
    requires lensIndex + codes <= lens.Length && codes <= MaxSymbols(kind) && codes <= work.Length
    requires var L := lens[lensIndex..lensIndex + codes];
             && LensOK(L) && 1 <= bits <= 15 && max == MaxLen(L) > 0 && root == RootBits(L, bits)
             && HasRoom(kind, table.Length, L, root) && Acceptable(kind, L)
    requires work != lens && count != work && count != lens && count.Length == 16
    requires forall l :: 0 <= l <= 15 ==> count[l] == Count(lens[lensIndex..lensIndex + codes], l)
    modifies table, work, count
    ensures var L := lens[lensIndex..lensIndex + codes];
            && (!ok <==> TooBig(kind, TableSize(L, root)))
            && (ok ==> WrittenBelow(old(table[..]), table[..], TableSize(L, root))
                       && TableOK(table[..TableSize(L, root)], root, Senses(kind), L))
            && (!ok ==> WrittenBelow(old(table[..]), table[..], Room(kind)))
  {
    hide TableOK, Kraft, TableSize, SenseOf, Count, WrittenBelow;
    ghost var L := lens[lensIndex..lensIndex + codes];
    MaxFacts(L);
    var offs := Offsets(count, L);
    SortSymbols(lens, lensIndex, codes, offs, work);
    FirstIsShortest(L, work[..], bits);
    SensesNoLinks(kind);
    forall s | 0 <= s < MaxSymbols(kind)
      ensures SenseOf(kind, s) == SenseFrom(BasisOf(kind), MaxSymbols(kind), s)
    {
      BasisIsSense(kind, s);
    }
    BasisIsSense(kind, 0);
    ok := FillTable(kind, lens, lensIndex, codes, table, work, count, root, max, BasisOf(kind));
  }

  /** Builds the decoding table for the code lengths lens[lensIndex..lensIndex + codes].

      The result is -1 for a set of lengths that is over-subscribed or incomplete in a way that is not
      allowed, 1 when the table would not fit the space, and 0 when the table decodes the code.  Only the
      entries that the accounting allows are written, and decoding needs no others. */
  method Build(kind: Kind, lens: array<nat>, lensIndex: nat, codes: nat, table: array<Entry>, work: array<nat>,
               bits: nat)
    returns (ret: int, root: nat)
    requires lensIndex + codes <= lens.Length && codes <= MaxSymbols(kind) && codes <= work.Length
    requires LensOK(lens[lensIndex..lensIndex + codes]) && work != lens && 1 <= bits <= 15
    requires HasRoom(kind, table.Length, lens[lensIndex..lensIndex + codes],
                     RootBits(lens[lensIndex..lensIndex + codes], bits))
    modifies table, work
    ensures var L := lens[lensIndex..lensIndex + codes];
            && (ret == -1 || ret == 0 || ret == 1)
            && (ret == -1 <==> !Acceptable(kind, L))
            && (ret == 1 <==> Acceptable(kind, L) && TooBig(kind, TableSize(L, RootBits(L, bits))))
            && (ret == 0 ==> root == RootBits(L, bits) && TableOK(table[..], root, Senses(kind), L))
    ensures var L := lens[lensIndex..lensIndex + codes];
            && (ret == -1 ==> table[..] == old(table[..]))
            && (ret == 1 ==> WrittenBelow(old(table[..]), table[..], Room(kind)))
            && (ret == 0 ==> WrittenBelow(old(table[..]), table[..], TableSize(L, root))
                             && TableOK(table[..TableSize(L, root)], root, Senses(kind), L))
  {
    hide TableOK, Kraft, TableSize, SenseOf, Count, WrittenBelow;
    ghost var L, t := lens[lensIndex..lensIndex + codes], table[..];
    root := bits;
    var count := CountLengths(lens, lensIndex, codes);
    var min, max := FindBounds(count, L);
    MaxFacts(L);
    if max == 0 {
      NoCodeFacts(L);
      table[0] := Entry(1, 64, 0);
      table[1] := Entry(1, 64, 0);
      EmptyTable(t, table[..], Senses(kind), L);
      return 0, 1;
    }
    if root > max {
      root := max;
    }
    if root < min {
      root := min;
    }
    var left := CheckLengths(count, L);
    if left < 0 || (left > 0 && (kind == Codes || max != 1)) {
      return -1, bits;
    }
    var ok := SortAndFill(kind, lens, lensIndex, codes, table, work, count, root, max, bits);
    if !ok {
      return 1, bits;
    }
    BelowLength(t, table[..], TableSize(L, root));
    PrefixSuffices(table[..], TableSize(L, root), root, Senses(kind), L);
    ret := 0;
  }

  lemma {:induction false} BelowLength(t: seq<Entry>, t': seq<Entry>, n: nat)
    requires WrittenBelow(t, t', n)
    ensures n <= |t'| == |t|
  {
  }

  /** The table of a code without symbols has two entries. */
  lemma {:induction false} EmptyTable(t: seq<Entry>, t': seq<Entry>, m: seq<Sense>, lens: seq<nat>)
    requires |t| >= 2 && t' == t[0 := Entry(1, 64, 0)][1 := Entry(1, 64, 0)] && AllZero(lens) && |lens| <= |m|
    ensures WrittenBelow(t, t', 2) && TableOK(t'[..2], 1, m, lens) && TableOK(t', 1, m, lens)
  {
    hide TableOK;
    NoSymbolsOK(t'[..2], m, lens);
    NoSymbolsOK(t', m, lens);
  }
}
