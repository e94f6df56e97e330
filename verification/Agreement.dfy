/** Where the program's decoder and the standard part, and what each makes of the stream there.

    `Shared` stops at a dynamic block header on which the two differ.  Everywhere else all three are the same;
    at such a header the program fails with what it has output, possibly only once more input has come.
 */
module Agreements {
  import opened Bits
  import opened Huffman
  import opened CodeTables
  import opened Adler
  import opened OutputGrows
  import opened StreamPrefixes
  import opened StoredStreams
  import Rfc = Rfc1951

  /** What the program makes of a stream of n bits with this shared outcome: it refuses 31 and 32 distance codes
      at once, and a code length code without symbols when the list of zeros that it reads is full. */
  function AsProgram(o: Rfc.Outcome, n: nat): Rfc.Outcome {
    match o.status
    case ManyDists => Rfc.Fails(o.out)
    case NoLengths => if o.used <= n then Rfc.Fails(o.out) else Rfc.NeedsMore(o.out)
    case _ => o
  }

  /** What the standard makes of it, unless it goes on with 31 or 32 distance codes. */
  function AsStandard(o: Rfc.Outcome): Rfc.Outcome {
    if o.status == Rfc.NoLengths then Rfc.Fails(o.out) else o
  }

  predicate Agree(shared: Rfc.Outcome, program: Rfc.Outcome, standard: Rfc.Outcome, n: nat) {
    && program == AsProgram(shared, n)
    && if shared.status == Rfc.ManyDists then shared.out <= standard.out else standard == AsStandard(shared)
  }

  // ----- a code length code without symbols -----

  lemma {:induction false} NoSymbols(lens: seq<nat>, b: seq<bool>)
    requires AllZero(lens) && b != []
    ensures Lookup(lens, b) == NoCode
  {
    forall v: nat ensures !Huffman.Matches(lens, v, b) && !Extends(lens, v, b) {
    }
  }

  /** Every bit reads as a zero; the block is refused, for want of an end-of-block code, as soon as there are
      enough bits to fill the list of code lengths. */
  lemma {:induction false} EmptyCode(rules: Rfc.Rules, lens: seq<nat>, nlen: nat, ndist: nat, acc: seq<nat>, last: bool,
                                     dmax: nat, out: seq<byte>, s: seq<bool>, p: nat)
    requires 257 <= nlen <= 286 && 1 <= ndist <= 32 && |acc| <= nlen + ndist && |lens| == 19 && p <= |s|
    requires AllZero(lens) && AllZero(acc)
    ensures Rfc.CodeLens(rules, lens, nlen, ndist, acc, last, dmax, out, s, p)
            == if p + (nlen + ndist - |acc|) <= |s| then Rfc.Fails(out) else Rfc.NeedsMore(out)
    decreases |s| - p
  {
    hide Rfc.CodeLens, Rfc.Symbols, Lookup, Acceptable;
    CodeLensUnfold(rules, lens, nlen, ndist, acc, last, dmax, out, s, p);
    if |acc| < nlen + ndist && p < |s| {
      NoSymbols(lens, s[p..]);
      EmptyCode(rules, lens, nlen, ndist, acc + [0], last, dmax, out, s, p + 1);
    }
  }

  lemma {:induction false} TypeAgrees(last: bool, dmax: nat, out: seq<byte>, s: seq<bool>, p: nat)
    ensures Agree(Rfc.Type(Rfc.Shared, last, dmax, out, s, p), Rfc.Type(Rfc.Program, last, dmax, out, s, p),
                  Rfc.Type(Rfc.Standard, last, dmax, out, s, p), |s|)
    decreases |s| - p, 0
  {
    hide Rfc.Stored, Rfc.Symbols, Rfc.Table, Rfc.Field, Rfc.BigEndian, Checksum, Rfc.FixedLens, Rfc.FixedDists,
      Rfc.Aligned;
    AlignedAt(p + 3);
    if !last && |s| >= p + 3 {
      var kind := Rfc.Field(s, p + 1, 2);
      if kind == 0 {
        StoredAgrees(s[p], dmax, out, s, Rfc.Aligned(p + 3));
      } else if kind == 1 {
        SymbolsAgree(Rfc.FixedLens(), Rfc.FixedDists(), s[p], dmax, out, s, p + 3);
      } else if kind == 2 {
        TableAgrees(s[p], dmax, out, s, p + 3);
      }
    }
  }

  lemma {:induction false} StoredAgrees(last: bool, dmax: nat, out: seq<byte>, s: seq<bool>, p: nat)
    ensures Agree(Rfc.Stored(Rfc.Shared, last, dmax, out, s, p), Rfc.Stored(Rfc.Program, last, dmax, out, s, p),
                  Rfc.Stored(Rfc.Standard, last, dmax, out, s, p), |s|)
    decreases |s| - p, 1
  {
    hide Rfc.Copy, Rfc.Field;
    if |s| >= p + 32 && Rfc.Field(s, p + 16, 16) == 65535 - Rfc.Field(s, p, 16) {
      CopyAgrees(Rfc.Field(s, p, 16), last, dmax, out, s, p + 32);
    }
  }

  lemma {:induction false} CopyAgrees(n: nat, last: bool, dmax: nat, out: seq<byte>, s: seq<bool>, p: nat)
    ensures Agree(Rfc.Copy(Rfc.Shared, n, last, dmax, out, s, p), Rfc.Copy(Rfc.Program, n, last, dmax, out, s, p),
                  Rfc.Copy(Rfc.Standard, n, last, dmax, out, s, p), |s|)
    decreases |s| - p, 1
  {
    hide Rfc.Type, Rfc.ByteAt;
    if n == 0 {
      TypeAgrees(last, dmax, out, s, p);
    } else if |s| >= p + 8 {
      CopyAgrees(n - 1, last, dmax, out + [Rfc.ByteAt(s, p)], s, p + 8);
    }
  }

  /** At the numbers of code lengths: the program's outcome is the standard's with up to 30 distance codes, as
      far as the rest agrees, and with more it is a failure. */
  lemma {:induction false} TableAgrees(last: bool, dmax: nat, out: seq<byte>, s: seq<bool>, p: nat)
    ensures Agree(Rfc.Table(Rfc.Shared, last, dmax, out, s, p), Rfc.Table(Rfc.Program, last, dmax, out, s, p),
                  Rfc.Table(Rfc.Standard, last, dmax, out, s, p), |s|)
    decreases |s| - p, 7
  {
    hide Rfc.LenLens, Rfc.Field, Rfc.NCode, Rfc.NDist;
    if |s| >= p + 14 {
      var nlen := Rfc.Field(s, p, 5) + 257;
      NCodeRange(s, p);
      if nlen <= 286 {
        if Rfc.NDist(s, p) <= 30 {
          LenLensAgree(nlen, Rfc.NDist(s, p), Rfc.NCode(s, p), [], last, dmax, out, s, p + 14);
        } else {
          LenLensGrow(Rfc.Standard, nlen, Rfc.NDist(s, p), Rfc.NCode(s, p), [], last, dmax, out, s, p + 14);
        }
      }
    }
  }

  lemma {:induction false} LenLensAgree(nlen: nat, ndist: nat, ncode: nat, acc: seq<nat>, last: bool, dmax: nat,
                                        out: seq<byte>, s: seq<bool>, p: nat)
    requires |acc| <= ncode <= 19 && 257 <= nlen <= 286 && 1 <= ndist <= 32 && p <= |s|
    ensures Agree(Rfc.LenLens(Rfc.Shared, nlen, ndist, ncode, acc, last, dmax, out, s, p),
                  Rfc.LenLens(Rfc.Program, nlen, ndist, ncode, acc, last, dmax, out, s, p),
                  Rfc.LenLens(Rfc.Standard, nlen, ndist, ncode, acc, last, dmax, out, s, p), |s|)
    decreases |s| - p, 6
  {
    hide Rfc.CodeLens, Rfc.Field, Acceptable, Rfc.PlaceLens;
    if |acc| < ncode {
      if |s| >= p + 3 {
        LenLensAgree(nlen, ndist, ncode, acc + [Rfc.Field(s, p, 3)], last, dmax, out, s, p + 3);
      }
    } else if Acceptable(Codes, Rfc.PlaceLens(acc)) {
      var lens := Rfc.PlaceLens(acc);
      if AllZero(lens) {
        EmptyCode(Rfc.Program, lens, nlen, ndist, [], last, dmax, out, s, p);
      } else {
        CodeLensAgree(lens, nlen, ndist, [], last, dmax, out, s, p);
      }
    }
  }

  lemma {:induction false} CodeLensAgree(lens: seq<nat>, nlen: nat, ndist: nat, acc: seq<nat>, last: bool, dmax: nat,
                                         out: seq<byte>, s: seq<bool>, p: nat)
    requires 257 <= nlen <= 286 && 1 <= ndist <= 32 && |acc| <= nlen + ndist && |lens| == 19
    ensures Agree(Rfc.CodeLens(Rfc.Shared, lens, nlen, ndist, acc, last, dmax, out, s, p),
                  Rfc.CodeLens(Rfc.Program, lens, nlen, ndist, acc, last, dmax, out, s, p),
                  Rfc.CodeLens(Rfc.Standard, lens, nlen, ndist, acc, last, dmax, out, s, p), |s|)
    decreases |s| - p, 5
  {
    hide Rfc.CodeLens, Rfc.Symbols, Rfc.CodesUsable, Lookup, AfterRepeat;
    CodeLensUnfold(Rfc.Shared, lens, nlen, ndist, acc, last, dmax, out, s, p);
    CodeLensUnfold(Rfc.Program, lens, nlen, ndist, acc, last, dmax, out, s, p);
    CodeLensUnfold(Rfc.Standard, lens, nlen, ndist, acc, last, dmax, out, s, p);
    if |acc| == nlen + ndist {
      if Rfc.CodesUsable(acc, nlen) {
        SymbolsAgree(acc[..nlen], acc[nlen..], last, dmax, out, s, p);
      }
    } else if |s| > p {
      match Lookup(lens, s[p..])
      case NeedMore =>
      case NoCode => CodeLensAgree(lens, nlen, ndist, acc + [0], last, dmax, out, s, p + 1);
      case Found(v) =>
        FoundAhead(lens, s, p);
        if v < 16 {
          CodeLensAgree(lens, nlen, ndist, acc + [v], last, dmax, out, s, p + lens[v]);
        } else {
          RepeatAgrees(lens, nlen, ndist, acc, last, dmax, out, s, p, v);
        }
    }
  }

  lemma {:induction false} RepeatAgrees(lens: seq<nat>, nlen: nat, ndist: nat, acc: seq<nat>, last: bool, dmax: nat,
                                        out: seq<byte>, s: seq<bool>, p: nat, v: nat)
    requires 257 <= nlen <= 286 && 1 <= ndist <= 32 && |acc| < nlen + ndist && |lens| == 19
    requires v < 19 && 1 <= lens[v] && p + lens[v] <= |s|
    ensures Agree(AfterRepeat(Rfc.Shared, lens, nlen, ndist, acc, last, dmax, out, s, p + lens[v], v),
                  AfterRepeat(Rfc.Program, lens, nlen, ndist, acc, last, dmax, out, s, p + lens[v], v),
                  AfterRepeat(Rfc.Standard, lens, nlen, ndist, acc, last, dmax, out, s, p + lens[v], v), |s|)
    decreases |s| - p, 4
  {
    hide Rfc.CodeLens, Rfc.Field, Rfc.RepeatBits, Rfc.RepeatBase, Rfc.Repeated, Rfc.Repeat;
    var q, x := p + lens[v], Rfc.RepeatBits(v);
    if |s| >= q + x {
      var n := Rfc.RepeatBase(v) + Rfc.Field(s, q, x);
      if !((v == 16 && acc == []) || |acc| + n > nlen + ndist) {
        RepeatCount(Rfc.Repeated(v, acc), n);
        CodeLensAgree(lens, nlen, ndist, acc + Rfc.Repeat(Rfc.Repeated(v, acc), n), last, dmax, out, s, q + x);
      }
    }
  }

  lemma {:induction false} RepeatCount(v: nat, n: nat)
    ensures |Rfc.Repeat(v, n)| == n
  {
  }

  lemma {:induction false} SymbolsAgree(lens: seq<nat>, dists: seq<nat>, last: bool, dmax: nat, out: seq<byte>,
                                        s: seq<bool>, p: nat)
    requires |lens| <= 288 && |dists| <= 32
    ensures Agree(Rfc.Symbols(Rfc.Shared, lens, dists, last, dmax, out, s, p),
                  Rfc.Symbols(Rfc.Program, lens, dists, last, dmax, out, s, p),
                  Rfc.Symbols(Rfc.Standard, lens, dists, last, dmax, out, s, p), |s|)
    decreases |s| - p, 0
  {
    hide Rfc.Type, Rfc.LengthBits, LengthBase, LengthExtra, Lookup;
    if |s| > p {
      match Lookup(lens, s[p..])
      case NeedMore =>
      case NoCode =>
      case Found(v) =>
        FoundAhead(lens, s, p);
        var q := p + lens[v];
        if v < 256 {
          SymbolsAgree(lens, dists, last, dmax, out + [v], s, q);
        } else if v == 256 {
          TypeAgrees(last, dmax, out, s, q);
        } else if v <= 285 {
          LengthBitsAgree(LengthBase(v), LengthExtra(v), lens, dists, last, dmax, out, s, q);
        }
    }
  }

  lemma {:induction false} LengthBitsAgree(base: nat, extra: nat, lens: seq<nat>, dists: seq<nat>, last: bool,
                                           dmax: nat, out: seq<byte>, s: seq<bool>, p: nat)
    requires |lens| <= 288 && |dists| <= 32
    ensures Agree(Rfc.LengthBits(Rfc.Shared, base, extra, lens, dists, last, dmax, out, s, p),
                  Rfc.LengthBits(Rfc.Program, base, extra, lens, dists, last, dmax, out, s, p),
                  Rfc.LengthBits(Rfc.Standard, base, extra, lens, dists, last, dmax, out, s, p), |s|)
    decreases |s| - p, 4
  {
    hide Rfc.Distance, Rfc.Field;
    if |s| >= p + extra {
      DistanceAgrees(base + Rfc.Field(s, p, extra), lens, dists, last, dmax, out, s, p + extra);
    }
  }

  lemma {:induction false} DistanceAgrees(len: nat, lens: seq<nat>, dists: seq<nat>, last: bool, dmax: nat,
                                          out: seq<byte>, s: seq<bool>, p: nat)
    requires |lens| <= 288 && |dists| <= 32
    ensures Agree(Rfc.Distance(Rfc.Shared, len, lens, dists, last, dmax, out, s, p),
                  Rfc.Distance(Rfc.Program, len, lens, dists, last, dmax, out, s, p),
                  Rfc.Distance(Rfc.Standard, len, lens, dists, last, dmax, out, s, p), |s|)
    decreases |s| - p, 3
  {
    hide Rfc.DistanceBits, DistBase, DistExtra, Lookup;
    if |s| > p {
      match Lookup(dists, s[p..])
      case NeedMore =>
      case NoCode =>
      case Found(v) =>
        FoundAhead(dists, s, p);
        if v <= 29 {
          DistanceBitsAgree(len, DistBase(v), DistExtra(v), lens, dists, last, dmax, out, s, p + dists[v]);
        }
    }
  }

  lemma {:induction false} DistanceBitsAgree(len: nat, base: nat, extra: nat, lens: seq<nat>, dists: seq<nat>,
                                             last: bool, dmax: nat, out: seq<byte>, s: seq<bool>, p: nat)
    requires |lens| <= 288 && |dists| <= 32
    ensures Agree(Rfc.DistanceBits(Rfc.Shared, len, base, extra, lens, dists, last, dmax, out, s, p),
                  Rfc.DistanceBits(Rfc.Program, len, base, extra, lens, dists, last, dmax, out, s, p),
                  Rfc.DistanceBits(Rfc.Standard, len, base, extra, lens, dists, last, dmax, out, s, p), |s|)
    decreases |s| - p, 2
  {
    hide Rfc.Match, Rfc.Field;
    if |s| >= p + extra && base + Rfc.Field(s, p, extra) <= dmax {
      MatchAgrees(len, base + Rfc.Field(s, p, extra), lens, dists, last, dmax, out, s, p + extra);
    }
  }

  lemma {:induction false} MatchAgrees(len: nat, dist: nat, lens: seq<nat>, dists: seq<nat>, last: bool, dmax: nat,
                                       out: seq<byte>, s: seq<bool>, p: nat)
    requires |lens| <= 288 && |dists| <= 32
    ensures Agree(Rfc.Match(Rfc.Shared, len, dist, lens, dists, last, dmax, out, s, p),
                  Rfc.Match(Rfc.Program, len, dist, lens, dists, last, dmax, out, s, p),
                  Rfc.Match(Rfc.Standard, len, dist, lens, dists, last, dmax, out, s, p), |s|)
    decreases |s| - p, 1
  {
    hide Rfc.Symbols, Rfc.CopyMatch;
    if 1 <= dist <= |out| {
      SymbolsAgree(lens, dists, last, dmax, Rfc.CopyMatch(out, dist, len), s, p);
    }
  }

  // ----- whole streams -----

  lemma {:induction false} DecodeAgrees(bytes: seq<byte>)
    ensures Agree(Rfc.Decode(Rfc.Shared, bytes), Rfc.Decode(Rfc.Program, bytes), Rfc.Decode(Rfc.Standard, bytes),
                  |BytesBits(bytes)|)
  {
    hide Rfc.Type, Rfc.Field, BytesBits, Pow2, Rfc.FCheck;
    var s := BytesBits(bytes);
    if |s| >= 16 {
      TypeAgrees(false, Pow2(Rfc.Field(s, 4, 4) + 8), [], s, 16);
    }
  }

  /** The exact relation.  If no header is reached on which the rules part, the program decodes as the standard says.
      With 31 or 32 distance codes it fails, having output what comes before, and so differs from the standard unless
      that fails there too.  With a code length code without symbols both fail with the same output, and they differ
      only if the stream is cut off before the program notices. */
  lemma {:induction false} ProgramAndStandard(bytes: seq<byte>)
    ensures var shared, program := Rfc.Decode(Rfc.Shared, bytes), Rfc.Decode(Rfc.Program, bytes);
            var standard := Rfc.Decode(Rfc.Standard, bytes);
            match shared.status
            case ManyDists => program == Rfc.Fails(shared.out) && shared.out <= standard.out
            case NoLengths =>
              && standard == Rfc.Fails(shared.out)
              && program == if shared.used <= |BytesBits(bytes)| then standard else Rfc.NeedsMore(shared.out)
            case _ => program == standard == shared
  {
    hide Rfc.Decode, BytesBits;
    DecodeAgrees(bytes);
  }

  // ----- examples -----

  /** A field of a byte that begins i bits behind its start. */
  lemma {:induction false} FieldOfByte(b: seq<byte>, k: nat, i: nat, n: nat)
    requires k < |b| && i + n <= 8
    ensures Eight(k) + 8 <= |BytesBits(b)| && Rfc.Field(BytesBits(b), Eight(k) + i, n) == Low(Shr(b[k], i), n)
  {
    hide Rfc.Field, BytesBits, Low, Shr, Scale, Eight;
    ByteField(b, k);
    FieldSplit(BytesBits(b), Eight(k), i, 8 - i);
    FieldSplit(BytesBits(b), Eight(k) + i, n, 8 - i - n);
  }

  /** The numbers 5 and 30 in fields of a byte. */
  lemma {:induction false} FieldNumbers()
    ensures Low(Shr(5, 0), 1) == 1 && Low(Shr(5, 1), 2) == 2 && Low(Shr(5, 3), 5) == 0 && Low(Shr(30, 0), 5) == 30
  {
    hide Low, Shr, Pow2;
    Pow2Values();
    LowShrDivMod(5, 0);
    LowShrDivMod(5, 1);
    LowShrDivMod(5, 3);
    LowShrDivMod(30, 0);
    LowShrDivMod(2, 2);
    LowShrDivMod(0, 5);
    LowShrDivMod(5, 1);
    LowShrDivMod(30, 5);
  }

  /** The zlib header, and the header of a last block with dynamic codes and 257 literal/length codes. */
  lemma {:induction false} DynamicHeader(rules: Rfc.Rules, b: seq<byte>)
    requires |b| >= 5 && b[0] == 0x78 && b[1] == 1 && b[2] == 5
    ensures var s := BytesBits(b);
            && |s| == Eight(|b|) && Rfc.Decode(rules, b) == Rfc.Table(rules, true, 32768, [], s, 19)
            && Rfc.Field(s, 19, 5) == 0
  {
    hide Rfc.Field, BytesBits, Low, Shr, Rfc.Table, Rfc.Stored, Rfc.Symbols, Pow2;
    BitCount(b);
    Pow2Values();
    HeaderBits(b);
    var s := BytesBits(b);
    FieldNumbers();
    FieldOfByte(b, 2, 0, 1);
    FieldOfByte(b, 2, 1, 2);
    FieldOfByte(b, 2, 3, 5);
    BitField(s, 16);
  }

  /** A stream that announces 31 distance codes, cut off behind that: the program refuses it, by the standard more
      input is needed. */
  lemma {:induction false} ManyDistsExample()
    ensures var b := [0x78, 1, 5, 30, 0];
            && Rfc.Decode(Rfc.Program, b) == Rfc.Fails([]) && Rfc.Decode(Rfc.Standard, b) == Rfc.NeedsMore([])
            && Rfc.Decode(Rfc.Shared, b).status == Rfc.ManyDists
  {
    hide Rfc.Field, BytesBits, Low, Shr, Rfc.LenLens, Rfc.Decode, Rfc.NCode;
    var b: seq<byte> := [0x78, 1, 5, 30, 0];
    var s := BytesBits(b);
    DynamicHeader(Rfc.Program, b);
    DynamicHeader(Rfc.Standard, b);
    DynamicHeader(Rfc.Shared, b);
    FieldNumbers();
    FieldOfByte(b, 3, 0, 5);
    FewLens(Rfc.NDist(s, 19), Rfc.NCode(s, 19), s);
    NCodeRange(s, 19);
  }

  /** Four lengths of the code length code do not fit into the last seven of forty bits. */
  lemma {:induction false} FewLens(ndist: nat, ncode: nat, s: seq<bool>)
    requires |s| == 40 && 4 <= ncode <= 19 && 1 <= ndist <= 32
    ensures Rfc.LenLens(Rfc.Standard, 257, ndist, ncode, [], true, 32768, [], s, 33) == Rfc.NeedsMore([])
  {
    hide Rfc.Field, Rfc.CodeLens;
    var a := [Rfc.Field(s, 33, 3)];
    var c := a + [Rfc.Field(s, 36, 3)];
    assert Rfc.LenLens(Rfc.Standard, 257, ndist, ncode, c, true, 32768, [], s, 39) == Rfc.NeedsMore([]);
    assert Rfc.LenLens(Rfc.Standard, 257, ndist, ncode, a, true, 32768, [], s, 36)
        == Rfc.LenLens(Rfc.Standard, 257, ndist, ncode, c, true, 32768, [], s, 39);
    assert [] + [Rfc.Field(s, 33, 3)] == a;
  }

  lemma {:induction false} ZeroField(s: seq<bool>, p: nat, n: nat)
    requires p + n <= |s| && forall i :: p <= i < p + n ==> !s[i]
    ensures Rfc.Field(s, p, n) == 0
  {
    hide LVal;
    ZerosVal(n);
    assert s[p..p + n] == Zeros(n);
  }

  lemma {:induction false} ZeroByte(b: seq<byte>, k: nat, i: nat)
    requires k < |b| && b[k] == 0 && i < 8
    ensures Eight(k) + 8 <= |BytesBits(b)| && !BytesBits(b)[Eight(k) + i]
  {
    hide Rfc.Field, BytesBits, Low, Shr, Pow2, Eight;
    FieldOfByte(b, k, i, 1);
    Pow2Values();
    LowShrDivMod(0, i);
    LowShrDivMod(0, 1);
    Pow2Positive(i);
    BitField(BytesBits(b), Eight(k) + i);
  }

  lemma {:induction false} Pow2Positive(i: nat)
    ensures 0 / Pow2(i) == 0
  {
  }

  lemma {:induction false} ZerosPlaced(acc: seq<nat>)
    requires |acc| <= 19 && AllZero(acc)
    ensures AllZero(Rfc.PlaceLens(acc))
  {
    if acc != [] {
      ZerosPlaced(acc[..|acc| - 1]);
    }
  }

  /** Four lengths of zero. */
  lemma {:induction false} FourZeros(rules: Rfc.Rules, s: seq<bool>)
    requires |s| == 48 && forall i :: 24 <= i < 48 ==> !s[i]
    ensures var o := Rfc.LenLens(rules, 257, 1, 4, [], true, 32768, [], s, 33);
            (rules == Rfc.Standard ==> o == Rfc.Fails([])) && (rules == Rfc.Program ==> o == Rfc.NeedsMore([]))
  {
    hide Rfc.Field, Rfc.CodeLens, Rfc.PlaceLens, Lookup, Kraft;
    ZeroField(s, 33, 3);
    ZeroField(s, 36, 3);
    ZeroField(s, 39, 3);
    ZeroField(s, 42, 3);
    var lens := Rfc.PlaceLens([0, 0, 0, 0]);
    PlacedZeros();
    EmptyCode(Rfc.Program, lens, 257, 1, [], true, 32768, [], s, 45);
    assert [] + [0] == [0] && [0] + [0] == [0, 0] && [0, 0] + [0] == [0, 0, 0] && [0, 0, 0] + [0] == [0, 0, 0, 0];
    assert Rfc.LenLens(rules, 257, 1, 4, [0, 0, 0], true, 32768, [], s, 42)
        == Rfc.LenLens(rules, 257, 1, 4, [0, 0, 0, 0], true, 32768, [], s, 45);
    assert Rfc.LenLens(rules, 257, 1, 4, [0, 0], true, 32768, [], s, 39)
        == Rfc.LenLens(rules, 257, 1, 4, [0, 0, 0], true, 32768, [], s, 42);
    assert Rfc.LenLens(rules, 257, 1, 4, [0], true, 32768, [], s, 36)
        == Rfc.LenLens(rules, 257, 1, 4, [0, 0], true, 32768, [], s, 39);
  }

  lemma {:induction false} PlacedZeros()
    ensures |Rfc.PlaceLens([0, 0, 0, 0])| == 19 && AllZero(Rfc.PlaceLens([0, 0, 0, 0]))
  {
    ZerosPlaced([0, 0, 0, 0]);
  }

  /** A code length code without symbols, cut off behind it: the program asks for more input. */
  lemma {:induction false} NoLengthsExample()
    ensures var b := [0x78, 1, 5, 0, 0, 0];
            Rfc.Decode(Rfc.Program, b) == Rfc.NeedsMore([]) && Rfc.Decode(Rfc.Standard, b) == Rfc.Fails([])
  {
    hide Rfc.Field, BytesBits, Low, Shr, Rfc.LenLens, Rfc.Decode, Pow2;
    var b: seq<byte> := [0x78, 1, 5, 0, 0, 0];
    var s := BytesBits(b);
    Pow2Values();
    DynamicHeader(Rfc.Program, b);
    DynamicHeader(Rfc.Standard, b);
    forall i | 24 <= i < 48 ensures !s[i] {
      ZeroByte(b, if i < 32 then 3 else if i < 40 then 4 else 5,
               if i < 32 then i - 24 else if i < 40 then i - 32 else i - 40);
    }
    ZeroField(s, 24, 5);
    ZeroField(s, 29, 4);
    FourZeros(Rfc.Program, s);
    FourZeros(Rfc.Standard, s);
  }
}
