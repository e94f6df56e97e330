/** The code length code: the LENLENS mode. */
module StepLenLensMode {
  import opened Bits
  import opened Huffman
  import opened CodeTables
  import opened Adler
  import opened Outputs
  import opened Streams
  import opened Steps
  import opened CodeLengths
  import InflateTable
  import opened FixedTables
  import Rfc = Rfc1951

  /** Which of the given lengths, counted from zero, belongs to symbol j: those of 16, 17, 18 and 0 come first, and
      then those of 8, 7, 9, 6 and so on, outwards to 1 and 15. */
  function Given(j: nat): (q: nat)
    requires j < 19
    ensures q < 19
  {
    if j == 0 then 3 else if j >= 16 then j - 16 else if j <= 7 then 19 - 2 * j else 2 * j - 12
  }

  /** The permutation of code lengths, the other way round. */
  lemma {:induction false} OrderInverse(j: nat)
    requires j < 19
    ensures Rfc.ORDER[Given(j)] == j
  {
  }

  lemma {:induction false} OrderRange()
    ensures |Rfc.ORDER| == 19
    ensures forall i :: 0 <= i < 19 ==> Rfc.ORDER[i] < 19
    ensures forall i, j :: 0 <= i < j < 19 ==> Rfc.ORDER[i] != Rfc.ORDER[j]
  {
  }

  /** PlaceLens puts each length in its place, and zeros elsewhere. */
  lemma {:induction false} PlaceAt(acc: seq<nat>, i: nat)
    requires |acc| <= 19 && i < 19
    ensures Rfc.PlaceLens(acc)[Rfc.ORDER[i]] == if i < |acc| then acc[i] else 0
  {
    OrderRange();
    if acc != [] {
      PlaceAt(acc[..|acc| - 1], i);
    }
  }

  /** Each symbol of the code length code has the length that was given for it, or zero. */
  lemma {:induction false} PlacedLens(acc: seq<nat>, j: nat)
    requires |acc| <= 19 && j < 19
    ensures Rfc.PlaceLens(acc)[j] == if Given(j) < |acc| then acc[Given(j)] else 0
  {
    hide Rfc.PlaceLens;
    OrderInverse(j);
    PlaceAt(acc, Given(j));
  }

  /** An array that agrees with `acc` in the order of the permutation, and is zero beyond. */
  lemma {:induction false} PlacedIs(lens: seq<nat>, acc: seq<nat>)
    requires |lens| == 19 && |acc| <= 19
    requires forall i :: 0 <= i < 19 ==> lens[Rfc.ORDER[i]] == if i < |acc| then acc[i] else 0
    ensures lens == Rfc.PlaceLens(acc)
  {
    hide Rfc.PlaceLens;
    forall j: nat | j < 19 ensures lens[j] == Rfc.PlaceLens(acc)[j] {
      OrderInverse(j);
      PlaceAt(acc, Given(j));
    }
    LenPlaced(acc);
  }

  lemma {:induction false} LenPlaced(acc: seq<nat>)
    requires |acc| <= 19
    ensures |Rfc.PlaceLens(acc)| == 19
  {
  }

  // ----- reading the lengths -----

  /** One more code length has been read. */
  predicate LenTaken(c: Control, c': Control, t: Tables, t': Tables, v: nat) {
    && c.have < 19 <= |t.lens|
    && c' == c.(have := c.have + 1, acc := c.acc + [v]) && t' == t.(lens := t.lens[Rfc.ORDER[c.have] := v])
  }

  lemma {:induction false} LenLensStep(r: Reader, past: seq<byte>, c: Control, t: Tables, r': Reader, c': Control,
                                       t': Tables, before: seq<byte>)
    requires Ready(r, past, c, t, before) && c.mode == AtLenLens && c.have < c.ncode
    requires BitsOK(r') && Consumed(r, r') && r'.pos == r.pos + 3 <= |r.stream| && r'.bits < 8
    requires LenTaken(c, c', t, t', Rfc.Field(r.stream, r.pos, 3))
    ensures Ready(r', past, c', t', before) && Kept(r, past, c, r', past, c', before)
  {
    hide BitsOK, Legal, Checksum, Decodes, Rfc.CodeLens, Rfc.PlaceLens, Rfc.Field, Acceptable;
    OrderRange();
    assert Rfc.Field(r.stream, r.pos, 3) <= 7 by { FieldBound(r.stream, r.pos, 3); Pow2Values(); }
  }

  lemma {:induction false} FieldBound(s: seq<bool>, p: nat, n: nat)
    requires p + n <= |s|
    ensures Rfc.Field(s, p, n) < Pow2(n)
  {
  }

  lemma {:induction false} LenLensWaits(r: Reader, o: Writer, c: Control, t: Tables, r': Reader, before: seq<byte>)
    requires Ready(r, o.past, c, t, before) && c.mode == AtLenLens && c.have < c.ncode
    requires BitsOK(r') && Consumed(r, r') && r'.pos == r.pos
    requires r'.bits < 3 && r'.have == 0 && (r'.taken == |r'.bytes| ==> |r'.stream| < r'.pos + 3)
    ensures Stepped(r, o, c, r', o, c, t, before, true)
  {
    hide BitsOK, Legal, Checksum, Decodes, Rfc.CodeLens, Rfc.PlaceLens, Rfc.Field, Acceptable, Stepped;
    ToWait(r, o, c, t, r', before);
  }

  lemma {:induction false} ReadyLenLens(r: Reader, past: seq<byte>, c: Control, t: Tables, before: seq<byte>)
    requires Ready(r, past, c, t, before) && c.mode == AtLenLens
    ensures BitsOK(r) && r.bits < 8 && |c.acc| == c.have <= c.ncode <= 19 && |t.lens| == 320 && Shape(c)
  {
  }

  method TakeField(r0: Reader, n: nat) returns (v: nat, r: Reader)
    requires BitsOK(r0) && n <= r0.bits
    ensures BitsOK(r) && Consumed(r0, r) && r.pos == r0.pos + n <= |r.stream| && r.bits == r0.bits - n
    ensures r.have == r0.have && v == Rfc.Field(r.stream, r0.pos, n)
  {
    hide BytesBits, LVal;
    HeldLow(r0, n);
    v := Low(r0.hold, n);
    r := DropBits(r0, n);
  }

  method PutLen(s: Stream, v: nat)
    requires s.have < 19 <= s.lens.Length
    modifies s`have, s`acc, s.lens
    ensures LenTaken(old(s.C()), s.C(), old(s.T()), s.T(), v)
  {
    OrderRange();
    s.lens[Rfc.ORDER[s.have]] := v;
    s.have := s.have + 1;
    s.acc := s.acc + [v];
  }

  /** The first loop of LENLENS. */
  method ReadLenLens(s: Stream, r0: Reader, ghost o: Writer, ghost before: seq<byte>) returns (ok: bool, r: Reader)
    requires Ready(r0, o.past, s.C(), s.T(), before) && s.mode == AtLenLens
    modifies s`have, s`acc, s.lens
    ensures Ready(r, o.past, s.C(), s.T(), before) && Kept(r0, o.past, old(s.C()), r, o.past, s.C(), before)
    ensures ok ==> s.have == s.ncode
    ensures !ok ==> Stepped(r0, o, old(s.C()), r, o, s.C(), s.T(), before, true)
  {
    hide Low, Shr, LVal, BitsOK, Stepped, Rfc.Field, Go, Eight, BytesBits, TablesOK, Ready, Pow2, Kept, LenTaken;
    ghost var c0 := s.C();
    r := r0;
    KeptStart(r0, o.past, c0, s.T(), before);
    ReadyLenLens(r, o.past, c0, s.T(), before);
    while s.have < s.ncode
      invariant Ready(r, o.past, s.C(), s.T(), before) && Kept(r0, o.past, c0, r, o.past, s.C(), before)
      invariant s.mode == AtLenLens && s.have <= s.ncode
      decreases s.ncode - s.have
    {
      ghost var c, t, r1 := s.C(), s.T(), r;
      ReadyLenLens(r, o.past, c, t, before);
      var more, v;
      more, r, v := Peek(r, 3);
      if !more {
        LenLensWaits(r1, o, c, t, r, before);
        SteppedOn(r0, o, c0, r1, c, r, o, c, t, before, true);
        return false, r;
      }
      v, r := TakeField(r, 3);
      PutLen(s, v);
      LenLensStep(r1, o.past, c, t, r, s.C(), s.T(), before);
      KeptOn(r0, o.past, c0, r1, o.past, c, r, o.past, s.C(), before);
    }
    ok := true;
    ReadyLenLens(r, o.past, s.C(), s.T(), before);
  }

  // ----- building the table -----

  lemma {:induction false} ReadyLens(r: Reader, past: seq<byte>, c: Control, t: Tables, before: seq<byte>)
    requires Ready(r, past, c, t, before) && c.mode == AtLenLens
    ensures c.have == |c.acc| <= 19 <= |t.lens|
    ensures forall i :: 0 <= i < c.have ==> c.acc[i] <= 7 && t.lens[Rfc.ORDER[i]] == c.acc[i]
  {
  }

  /** The second loop of LENLENS: the lengths that are not given are zero. */
  method ClearLens(s: Stream)
    requires s.lens.Length == 320 && s.have == |s.acc| <= 19
    requires forall i :: 0 <= i < s.have ==> s.acc[i] <= 7 && s.lens[Rfc.ORDER[i]] == s.acc[i]
    modifies s`have, s.lens
    ensures s.have == 19 && s.lens[..19] == Rfc.PlaceLens(s.acc)
    ensures forall j :: 0 <= j < 19 ==> s.lens[j] == if Given(j) < |s.acc| then s.acc[Given(j)] else 0
    ensures forall j :: 0 <= j < 19 ==> s.lens[j] <= 7
  {
    hide Rfc.PlaceLens;
    OrderRange();
    while s.have < 19
      invariant |s.acc| <= s.have <= 19
      invariant forall i :: 0 <= i < |s.acc| ==> s.lens[Rfc.ORDER[i]] == s.acc[i]
      invariant forall i :: |s.acc| <= i < s.have ==> s.lens[Rfc.ORDER[i]] == 0
    {
      s.lens[Rfc.ORDER[s.have]] := 0;
      s.have := s.have + 1;
    }
    PlacedIs(s.lens[..19], s.acc);
    forall j: nat | j < 19 ensures s.lens[j] == if Given(j) < |s.acc| then s.acc[Given(j)] else 0 {
      PlacedLens(s.acc, j);
    }
  }

  lemma {:induction false} CodesRoot(lens: seq<nat>)
    requires |lens| == 19 && forall i :: 0 <= i < 19 ==> lens[i] <= 7
    ensures LensOK(lens) && 1 <= RootBits(lens, 7) <= 7
    ensures InflateTable.HasRoom(Codes, ENOUGH_LENS, lens, RootBits(lens, 7))
    ensures forall i :: 0 <= i < 19 ==> lens[i] <= RootBits(lens, 7)
  {
    hide TableSize, Kraft;
    CodesFit(lens);
    MaxFacts(lens);
    forall i | 0 <= i < 19 ensures lens[i] <= RootBits(lens, 7) {
      if lens[i] >= 1 {
        LenBounds(lens, i);
      }
    }
  }

  /** The state after the table for the code length code has been built, or refused. */
  ghost predicate CodesBuilt(c: Control, c': Control, t': Tables, l: seq<nat>) {
    && |l| == 19 && |t'.lens| == 320
    && if Acceptable(Codes, l) then
         && c' == c.(mode := AtCodeLens, have := 0, acc := [], codeLens := l)
         && t'.dynamic && t'.lenbits <= 7 && (forall v :: 0 <= v < |l| ==> l[v] <= t'.lenbits)
         && Decodes(t'.lencode, t'.lenbits, Senses(Codes), l)
       else
         c' == c.(mode := AtBad, have := c'.have)
  }

  method BuildCodesTable(lens: array<nat>, work: array<nat>, table: array<Entry>, bits: nat)
    returns (ret: int, root: nat)
    requires lens.Length == 320 && work.Length == 288 && lens != work && table.Length == ENOUGH_LENS && bits == 7
    requires forall j :: 0 <= j < 19 ==> lens[j] <= 7
    modifies table, work
    ensures ret == 0 <==> Acceptable(Codes, lens[..19])
    ensures ret == 0 ==>
      && root <= 7 && (forall v :: 0 <= v < 19 ==> lens[v] <= root)
      && Decodes(table[..], root, Senses(Codes), lens[..19])
  {
    hide Acceptable, TableOK, Decodes, RootBits, TableSize, InflateTable.HasRoom, Kraft;
    assert lens[0..0 + 19] == lens[..19];
    CodesRoot(lens[..19]);
    ret, root := InflateTable.Build(Codes, lens, 0, 19, table, work, bits);
    if ret == 0 {
      BuiltDecodes(Codes, table[..], root, lens[..19]);
    }
  }

  /** The fields that change once the table has been built or refused. */
  method EndLenLens(s: Stream, ret: int, lenbits: nat, ghost l: seq<nat>)
    modifies s`mode, s`have, s`acc, s`codeLens, s`lenbits
    ensures s.T() == old(s.T()).(lenbits := lenbits)
    ensures s.C() == if ret != 0 then old(s.C()).(mode := AtBad)
                     else old(s.C()).(mode := AtCodeLens, have := 0, acc := [], codeLens := l)
  {
    s.lenbits := lenbits;
    if ret != 0 {
      s.mode := AtBad;
    } else {
      s.have := 0;
      s.codeLens, s.acc := l, [];
      s.mode := AtCodeLens;
    }
  }

  method BuildCodes(s: Stream)
    requires s.ArraysOK() && |s.acc| <= 19 && s.lens[..19] == Rfc.PlaceLens(s.acc)
    requires forall j :: 0 <= j < 19 ==> s.lens[j] <= 7
    modifies s`mode, s`have, s`acc, s`codeLens, s`lencode, s`lenbits, s.lendyn, s.work
    ensures s.ArraysOK()
    ensures CodesBuilt(old(s.C()), s.C(), s.T(), Rfc.PlaceLens(old(s.acc)))
  {
    hide Rfc.PlaceLens, Acceptable, Decodes;
    s.lencode := s.lendyn;
    var ret, root := BuildCodesTable(s.lens, s.work, s.lencode, 7);
    EndLenLens(s, ret, root, s.lens[..19]);
  }

  lemma {:induction false} LenLensDone(r: Reader, o: Writer, c: Control, t: Tables, c': Control, t': Tables,
                                       before: seq<byte>)
    requires Ready(r, o.past, c, t, before) && c.mode == AtLenLens && c.have == c.ncode && |c.acc| <= 19
    requires CodesBuilt(c.(have := 19), c', t', Rfc.PlaceLens(c.acc))
    ensures Stepped(r, o, c, r, o, c', t', before, false)
  {
    hide BitsOK, Legal, Checksum, Decodes, Rfc.CodeLens, Rfc.PlaceLens, Rfc.Field, Acceptable;
  }

  /** After the first loop. */
  method FinishLenLens(s: Stream, ghost r: Reader, ghost o: Writer, ghost before: seq<byte>)
    requires Ready(r, o.past, s.C(), s.T(), before) && s.mode == AtLenLens && s.ArraysOK() && s.have == s.ncode
    modifies s`mode, s`have, s`acc, s`codeLens, s`lencode, s`lenbits, s.lens, s.lendyn, s.work
    ensures Stepped(r, o, old(s.C()), r, o, s.C(), s.T(), before, false)
    ensures s.ArraysOK()
  {
    hide Stepped, Go, TablesOK, Ready, CodesBuilt, Rfc.PlaceLens;
    ghost var c, t := s.C(), s.T();
    ReadyLens(r, o.past, c, t, before);
    ClearLens(s);
    BuildCodes(s);
    LenLensDone(r, o, c, t, s.C(), s.T(), before);
  }

  method StepLenLens(s: Stream, r0: Reader, ghost o: Writer, ghost before: seq<byte>) returns (leave: bool, r: Reader)
    requires Ready(r0, o.past, s.C(), s.T(), before) && s.mode == AtLenLens && s.ArraysOK()
    modifies s`mode, s`have, s`acc, s`codeLens, s`lencode, s`lenbits, s.lens, s.lendyn, s.work
    ensures Stepped(r0, o, old(s.C()), r, o, s.C(), s.T(), before, leave)
    ensures s.ArraysOK()
  {
    hide Stepped, Go, TablesOK, Ready, Kept;
    ghost var c0 := s.C();
    var ok;
    ok, r := ReadLenLens(s, r0, o, before);
    leave := !ok;
    if ok {
      ghost var c := s.C();
      FinishLenLens(s, r, o, before);
      SteppedOn(r0, o, c0, r, c, r, o, s.C(), s.T(), before, false);
    }
  }
}
