/** Building the tables of a block with dynamic codes, at the end of the CODELENS mode. */
module StepBuilds {
  import opened Bits
  import opened Huffman
  import opened CodeTables
  import opened CodeLengths
  import opened Adler
  import opened Outputs
  import opened Streams
  import opened Steps
  import opened StepCodeLensMode
  import opened FixedTables
  import InflateTable
  import Rfc = Rfc1951

  /** The table for literals and lengths: refused exactly when the lengths are not acceptable. */
  method BuildLens(lens: array<nat>, work: array<nat>, table: array<Entry>, nlen: nat, bits: nat)
    returns (ret: int, root: nat)
    requires lens.Length == 320 && work.Length == 288 && lens != work && table.Length == ENOUGH_LENS
    requires nlen <= 286 && LensOK(lens[..nlen]) && bits == 9
    modifies table, work
    ensures ret == 0 <==> Acceptable(Lens, lens[..nlen])
    ensures ret == 0 ==> Decodes(table[..], root, Senses(Lens), lens[..nlen])
  {
    hide Acceptable, TableOK, Decodes, RootBits, TableSize, Kraft, LensOK;
    assert lens[0..0 + nlen] == lens[..nlen];
    RootRange(lens[..nlen], 9);
    ret, root := InflateTable.Build(Lens, lens, 0, nlen, table, work, bits);
    if Acceptable(Lens, lens[..nlen]) {
      LensFit(lens[..nlen]);
    }
    if ret == 0 {
      BuiltDecodes(Lens, table[..], root, lens[..nlen]);
    }
  }

  /** The table for distances. */
  method BuildDists(lens: array<nat>, work: array<nat>, table: array<Entry>, nlen: nat, ndist: nat, bits: nat)
    returns (ret: int, root: nat)
    requires lens.Length == 320 && work.Length == 288 && lens != work && table.Length == ENOUGH_DISTS
    requires nlen <= 286 && ndist <= 30 && LensOK(lens[nlen..nlen + ndist]) && bits == 6
    modifies table, work
    ensures ret == 0 <==> Acceptable(Dists, lens[nlen..nlen + ndist])
    ensures ret == 0 ==> Decodes(table[..], root, Senses(Dists), lens[nlen..nlen + ndist])
  {
    hide Acceptable, TableOK, Decodes, RootBits, TableSize, Kraft, LensOK;
    RootRange(lens[nlen..nlen + ndist], 6);
    ret, root := InflateTable.Build(Dists, lens, nlen, ndist, table, work, bits);
    if Acceptable(Dists, lens[nlen..nlen + ndist]) {
      DistsFit(lens[nlen..nlen + ndist]);
    }
    if ret == 0 {
      BuiltDecodes(Dists, table[..], root, lens[nlen..nlen + ndist]);
    }
  }

  lemma {:induction false} RootRange(lens: seq<nat>, bits: nat)
    requires LensOK(lens) && 1 <= bits <= 15
    ensures 1 <= RootBits(lens, bits) <= 15
  {
  }

  /** Both tables have been built for the lengths `acc`. */
  ghost predicate BothBuilt(t: Tables, acc: seq<nat>, nlen: nat) {
    && nlen <= |acc|
    && Decodes(t.lencode, t.lenbits, Senses(Lens), acc[..nlen])
    && Decodes(t.distcode, t.distbits, Senses(Dists), acc[nlen..])
  }

  lemma {:induction false} SlicesOK(acc: seq<nat>, n: nat)
    requires LensOK(acc) && n <= |acc|
    ensures LensOK(acc[..n]) && LensOK(acc[n..])
  {
  }

  /** From the check for an end-of-block code to the distance table. */
  method BuildTables(s: Stream, ghost acc: seq<nat>) returns (ok: bool)
    requires s.ArraysOK() && 257 <= s.nlen <= 286 && 1 <= s.ndist <= 30 && s.lencode == s.lendyn
    requires LensOK(acc) && |acc| == s.nlen + s.ndist && s.lens[..s.nlen + s.ndist] == acc
    modifies s`lenbits, s`distbits, s`distcode, s.lendyn, s.distdyn, s.work
    ensures s.ArraysOK() && s.lens.Length == 320
    ensures ok <==> Rfc.CodesUsable(acc, s.nlen)
    ensures ok ==> BothBuilt(s.T(), acc, s.nlen)
  {
    hide Decodes, LensOK, Acceptable, Senses, Kraft;
    assert s.lens[..s.nlen] == acc[..s.nlen] && s.lens[s.nlen..s.nlen + s.ndist] == acc[s.nlen..];
    assert s.lens[256] == acc[256];
    SlicesOK(acc, s.nlen);
    if s.lens[256] == 0 {
      return false;
    }
    var ret, root := BuildLens(s.lens, s.work, s.lencode, s.nlen, 9);
    s.lenbits := root;
    if ret != 0 {
      return false;
    }
    s.distcode := s.distdyn;
    ret, root := BuildDists(s.lens, s.work, s.distcode, s.nlen, s.ndist, 6);
    s.distbits := root;
    ok := ret == 0;
  }

  /** The state after that. */
  predicate TablesEnded(c: Control, c': Control, ok: bool) {
    && 257 <= c.nlen <= |c.acc|
    && c' ==
       if ok then c.(mode := AtLenFirst, litLens := c.acc[..c.nlen], distLens := c.acc[c.nlen..])
       else c.(mode := AtBad)
  }

  method EndCodeLens(s: Stream, ok: bool)
    requires 257 <= s.nlen <= |s.acc|
    modifies s`mode, s`litLens, s`distLens
    ensures TablesEnded(old(s.C()), s.C(), ok)
  {
    if ok {
      s.litLens, s.distLens := s.acc[..s.nlen], s.acc[s.nlen..];
      s.mode := AtLenFirst;
    } else {
      s.mode := AtBad;
    }
  }

  lemma {:induction false} CodesGo(c: Control, past: seq<byte>, s: seq<bool>, p: nat)
    requires Shape(c) && c.mode == AtCodeLens && |c.acc| == c.nlen + c.ndist
    ensures Rfc.CodesUsable(c.acc, c.nlen) ==>
              Go(c, past, s, p) == Rfc.Symbols(Rfc.Program, c.acc[..c.nlen], c.acc[c.nlen..], c.last, c.dmax, past, s,
                                               p)
    ensures !Rfc.CodesUsable(c.acc, c.nlen) ==> Go(c, past, s, p) == Rfc.Fails(past)
  {
    hide Rfc.CodesUsable, Lookup, Rfc.Symbols;
  }

  lemma {:induction false} BuildDone(r: Reader, o: Writer, c: Control, t: Tables, c': Control, t': Tables, ok: bool,
                                     before: seq<byte>)
    requires Ready(r, o.past, c, t, before) && c.mode == AtCodeLens && c.have >= c.nlen + c.ndist
    requires TablesEnded(c, c', ok) && |t'.lens| == 320 && (ok <==> Rfc.CodesUsable(c.acc, c.nlen))
    requires ok ==> BothBuilt(t', c.acc, c.nlen)
    ensures Stepped(r, o, c, r, o, c', t', before, false)
  {
    hide Rfc.CodesUsable, Lookup, Rfc.Symbols, Go, BitsOK, Decodes, Legal, Checksum, Stepped, MidRepeat;
    ReadyCodeLens(r, o.past, c, t, before);
    CodesGo(c, o.past, r.stream, r.pos);
    if ok {
      BuildGood(r, o, c, t, c', t', before);
    } else {
      BadMode(r, o, c, t, r, c', t', before);
    }
  }

  lemma {:induction false} BuildGood(r: Reader, o: Writer, c: Control, t: Tables, c': Control, t': Tables,
                                     before: seq<byte>)
    requires Ready(r, o.past, c, t, before) && c.mode == AtCodeLens && c.have == |c.acc| == c.nlen + c.ndist
    requires TablesEnded(c, c', true) && |t'.lens| == 320 && BothBuilt(t', c.acc, c.nlen)
    requires Go(c, o.past, r.stream, r.pos) == Rfc.Symbols(Rfc.Program, c.acc[..c.nlen], c.acc[c.nlen..], c.last,
                                                           c.dmax, o.past, r.stream, r.pos)
    ensures Stepped(r, o, c, r, o, c', t', before, false)
  {
    hide Lookup, Rfc.Symbols, Rfc.CodeLens, BitsOK, Decodes, Legal, Checksum, MidRepeat;
  }

  /** After the loop of CODELENS. */
  method FinishCodeLens(s: Stream, ghost r: Reader, ghost o: Writer, ghost before: seq<byte>)
    requires Ready(r, o.past, s.C(), s.T(), before) && s.mode == AtCodeLens && s.have >= s.nlen + s.ndist
    requires s.ArraysOK()
    modifies s`mode, s`litLens, s`distLens, s`lenbits, s`distbits, s`distcode, s.lendyn, s.distdyn, s.work
    ensures Stepped(r, o, old(s.C()), r, o, s.C(), s.T(), before, false)
    ensures s.ArraysOK()
  {
    hide Stepped, Go, Ready, BothBuilt, TablesEnded, Rfc.CodesUsable, BitsOK, Decodes, MidRepeat, Kraft, Sound;
    ghost var c, t := s.C(), s.T();
    ReadyCodeLens(r, o.past, c, t, before);
    ReadyAcc(r, o.past, c, t, before);
    var ok := BuildTables(s, s.acc);
    EndCodeLens(s, ok);
    BuildDone(r, o, c, t, s.C(), s.T(), ok, before);
  }

  lemma {:induction false} ReadyAcc(r: Reader, past: seq<byte>, c: Control, t: Tables, before: seq<byte>)
    requires Ready(r, past, c, t, before) && c.mode == AtCodeLens
    ensures SizesOK(c) && LensOK(c.acc)
  {
    hide BitsOK, Decodes;
  }

  method StepCodeLens(s: Stream, r0: Reader, ghost o: Writer, ghost before: seq<byte>) returns (leave: bool, r: Reader)
    requires Ready(r0, o.past, s.C(), s.T(), before) && s.mode == AtCodeLens && s.ArraysOK()
    modifies s`mode, s`have, s`acc, s`litLens, s`distLens, s`lenbits, s`distbits, s`distcode,
             s.lens, s.lendyn, s.distdyn, s.work
    ensures Stepped(r0, o, old(s.C()), r, o, s.C(), s.T(), before, leave)
    ensures s.ArraysOK()
  {
    hide Stepped, Go, Ready, Kept;
    ghost var c0 := s.C();
    leave, r := ReadCodeLens(s, r0, o, before);
    if !leave && s.mode != AtBad {
      ghost var c := s.C();
      FinishCodeLens(s, r, o, before);
      SteppedOn(r0, o, c0, r, c, r, o, s.C(), s.T(), before, false);
    }
  }
}
