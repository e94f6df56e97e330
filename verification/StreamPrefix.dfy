/** What the beginning of a stream means does not depend on the rest: a decoder may commit to its output
    before it has seen all input.
 */
module StreamPrefixes {
  import opened Bits
  import opened Huffman
  import opened CodeTables
  import opened Adler
  import opened Streams
  import opened Coding
  import opened CodeLengths
  import opened FixedTables
  import opened StepLenLensMode
  import opened StepCodeLensMode
  import opened OutputGrows
  import InflateTable
  import Rfc = Rfc1951

  /** What the outcome `a` of the beginning of a stream says of the outcome `b` of the whole: if more input was
      needed, that the output begins with what there was, and otherwise everything. */
  predicate Decides(a: Rfc.Outcome, b: Rfc.Outcome) {
    if a.status == Rfc.More then a.out <= b.out else b == a
  }

  lemma {:induction false} SameField(s: seq<bool>, t: seq<bool>, p: nat, n: nat)
    requires s <= t && p + n <= |s|
    ensures Rfc.Field(t, p, n) == Rfc.Field(s, p, n)
  {
    hide LVal;
    assert t[p..p + n] == s[p..p + n];
  }

  lemma {:induction false} SameLookup(lens: seq<nat>, s: seq<bool>, t: seq<bool>, p: nat)
    requires s <= t && p < |s| && LensOK(lens) && Kraft(lens) <= FULL && Lookup(lens, s[p..]) != NeedMore
    ensures Lookup(lens, t[p..]) == Lookup(lens, s[p..])
  {
    hide Lookup, Kraft;
    assert t[p..] == s[p..] + t[|s|..];
    LookupStable(lens, s[p..], t[|s|..]);
  }

  /** Code lengths that a decoder works with. */
  predicate Usable(lens: seq<nat>) {
    LensOK(lens) && Kraft(lens) <= FULL
  }

  lemma {:induction false} AcceptableUsable(kind: Kind, lens: seq<nat>)
    requires LensOK(lens) && Acceptable(kind, lens)
    ensures Usable(lens)
  {
    hide Kraft;
    if AllZero(lens) {
      MaxFacts(lens);
      InflateTable.NoCodeFacts(lens);
    }
  }

  lemma {:induction false} FixedUsable()
    ensures Usable(Rfc.FixedLens()) && Usable(Rfc.FixedDists())
  {
    hide Kraft, LensOK, Rfc.FixedLens, Rfc.FixedDists;
    FixedLensFacts();
    FixedDistsFacts();
  }

  // ----- point by point -----

  lemma {:induction false} TypeDecides(rules: Rfc.Rules, last: bool, dmax: nat, out: seq<byte>, s: seq<bool>,
                                       t: seq<bool>, p: nat)
    requires s <= t
    ensures Decides(Rfc.Type(rules, last, dmax, out, s, p), Rfc.Type(rules, last, dmax, out, t, p))
    decreases |s| - p, 0
  {
    hide Rfc.Stored, Rfc.Symbols, Rfc.Table, Rfc.Field, Checksum, Rfc.FixedLens, Rfc.FixedDists, Rfc.Aligned, Usable;
    TypeGrows(rules, last, dmax, out, t, p);
    if last {
      AlignedAt(p);
      TrailerDecides(out, s, t, Rfc.Aligned(p));
    } else if |s| >= p + 3 {
      SameField(s, t, p + 1, 2);
      AlignedAt(p + 3);
      var kind := Rfc.Field(s, p + 1, 2);
      if kind == 0 {
        StoredDecides(rules, s[p], dmax, out, s, t, Rfc.Aligned(p + 3));
      } else if kind == 1 {
        FixedUsable();
        SymbolsDecide(rules, Rfc.FixedLens(), Rfc.FixedDists(), s[p], dmax, out, s, t, p + 3);
      } else if kind == 2 {
        TableDecides(rules, s[p], dmax, out, s, t, p + 3);
      }
    }
  }

  lemma {:induction false} TrailerDecides(out: seq<byte>, s: seq<bool>, t: seq<bool>, p: nat)
    requires s <= t
    ensures Decides(Rfc.Trailer(out, s, p), Rfc.Trailer(out, t, p))
  {
    hide Rfc.Field, Checksum;
    if |s| >= p + 32 {
      SameField(s, t, p, 8);
      SameField(s, t, p + 8, 8);
      SameField(s, t, p + 16, 8);
      SameField(s, t, p + 24, 8);
    }
  }

  lemma {:induction false} StoredDecides(rules: Rfc.Rules, last: bool, dmax: nat, out: seq<byte>, s: seq<bool>,
                                         t: seq<bool>, p: nat)
    requires s <= t
    ensures Decides(Rfc.Stored(rules, last, dmax, out, s, p), Rfc.Stored(rules, last, dmax, out, t, p))
    decreases |s| - p, 1
  {
    hide Rfc.Copy, Rfc.Field;
    StoredGrows(rules, last, dmax, out, t, p);
    if |s| >= p + 32 {
      SameField(s, t, p, 16);
      SameField(s, t, p + 16, 16);
      if Rfc.Field(s, p + 16, 16) == 65535 - Rfc.Field(s, p, 16) {
        CopyDecides(rules, Rfc.Field(s, p, 16), last, dmax, out, s, t, p + 32);
      }
    }
  }

  lemma {:induction false} CopyDecides(rules: Rfc.Rules, n: nat, last: bool, dmax: nat, out: seq<byte>, s: seq<bool>,
                                       t: seq<bool>, p: nat)
    requires s <= t
    ensures Decides(Rfc.Copy(rules, n, last, dmax, out, s, p), Rfc.Copy(rules, n, last, dmax, out, t, p))
    decreases |s| - p, 1
  {
    hide Rfc.Type, Rfc.Field;
    CopyGrows(rules, n, last, dmax, out, t, p);
    if n == 0 {
      TypeDecides(rules, last, dmax, out, s, t, p);
    } else if |s| >= p + 8 {
      SameField(s, t, p, 8);
      CopyDecides(rules, n - 1, last, dmax, out + [Rfc.ByteAt(s, p)], s, t, p + 8);
    }
  }

  lemma {:induction false} TableDecides(rules: Rfc.Rules, last: bool, dmax: nat, out: seq<byte>, s: seq<bool>,
                                        t: seq<bool>, p: nat)
    requires s <= t
    ensures Decides(Rfc.Table(rules, last, dmax, out, s, p), Rfc.Table(rules, last, dmax, out, t, p))
    decreases |s| - p, 7
  {
    hide Rfc.LenLens, Rfc.Field, Rfc.NDist, Rfc.NCode;
    TableGrows(rules, last, dmax, out, t, p);
    if |s| >= p + 14 {
      SameCounts(s, t, p);
      NCodeRange(s, p);
      var nlen := Rfc.Field(s, p, 5) + 257;
      if nlen <= 286 {
        LenLensDecide(rules, nlen, Rfc.NDist(s, p), Rfc.NCode(s, p), [], last, dmax, out, s, t, p + 14);
      }
    }
  }

  lemma {:induction false} SameCounts(s: seq<bool>, t: seq<bool>, p: nat)
    requires s <= t && p + 14 <= |s|
    ensures Rfc.Field(t, p, 5) == Rfc.Field(s, p, 5) && Rfc.NDist(t, p) == Rfc.NDist(s, p)
    ensures Rfc.NCode(t, p) == Rfc.NCode(s, p)
  {
    hide Rfc.Field, Pow2;
    SameField(s, t, p, 5);
    SameField(s, t, p + 5, 5);
    SameField(s, t, p + 10, 4);
  }

  /** The lengths of the code length code are below eight. */
  predicate Small(acc: seq<nat>) {
    forall i :: 0 <= i < |acc| ==> acc[i] <= 7
  }

  lemma {:induction false} PlacedOK(acc: seq<nat>)
    requires |acc| <= 19 && Small(acc)
    ensures Small(Rfc.PlaceLens(acc))
  {
    OrderRange();
    if acc != [] {
      PlacedOK(acc[..|acc| - 1]);
    }
  }

  lemma {:induction false} LenLensDecide(rules: Rfc.Rules, nlen: nat, ndist: nat, ncode: nat, acc: seq<nat>, last: bool,
                                         dmax: nat, out: seq<byte>, s: seq<bool>, t: seq<bool>, p: nat)
    requires |acc| <= ncode <= 19 && 257 <= nlen <= 286 && 1 <= ndist <= 32 && s <= t && Small(acc)
    ensures Decides(Rfc.LenLens(rules, nlen, ndist, ncode, acc, last, dmax, out, s, p),
                    Rfc.LenLens(rules, nlen, ndist, ncode, acc, last, dmax, out, t, p))
    decreases |s| - p, 6
  {
    hide Rfc.CodeLens, Rfc.Field, Acceptable, Usable;
    LenLensGrow(rules, nlen, ndist, ncode, acc, last, dmax, out, t, p);
    if |acc| < ncode {
      if |s| >= p + 3 {
        SameField(s, t, p, 3);
        FieldBound(s, p, 3);
        Pow2Values();
        LenLensDecide(rules, nlen, ndist, ncode, acc + [Rfc.Field(s, p, 3)], last, dmax, out, s, t, p + 3);
      }
    } else if Acceptable(Codes, Rfc.PlaceLens(acc)) {
      PlacedOK(acc);
      AcceptableUsable(Codes, Rfc.PlaceLens(acc));
      CodeLensDecide(rules, Rfc.PlaceLens(acc), nlen, ndist, [], last, dmax, out, s, t, p);
    }
  }

  lemma {:induction false} SlicesUsable(acc: seq<nat>, nlen: nat)
    requires LensOK(acc) && 257 <= nlen <= |acc| && Rfc.CodesUsable(acc, nlen)
    ensures Usable(acc[..nlen]) && Usable(acc[nlen..])
  {
    hide Acceptable;
    AcceptableUsable(Lens, acc[..nlen]);
    AcceptableUsable(Dists, acc[nlen..]);
  }

  lemma {:induction false} CodeLensDecide(rules: Rfc.Rules, lens: seq<nat>, nlen: nat, ndist: nat, acc: seq<nat>,
                                          last: bool, dmax: nat, out: seq<byte>, s: seq<bool>, t: seq<bool>, p: nat)
    requires 257 <= nlen <= 286 && 1 <= ndist <= 32 && |acc| <= nlen + ndist && |lens| == 19
    requires s <= t && Usable(lens) && LensOK(acc)
    ensures Decides(Rfc.CodeLens(rules, lens, nlen, ndist, acc, last, dmax, out, s, p),
                    Rfc.CodeLens(rules, lens, nlen, ndist, acc, last, dmax, out, t, p))
    decreases |s| - p, 5
  {
    hide Rfc.CodeLens, Rfc.Symbols, Rfc.CodesUsable, Lookup, Usable, LensOK;
    CodeLensGrow(rules, lens, nlen, ndist, acc, last, dmax, out, t, p);
    CodeLensUnfold(rules, lens, nlen, ndist, acc, last, dmax, out, s, p);
    CodeLensUnfold(rules, lens, nlen, ndist, acc, last, dmax, out, t, p);
    if |acc| == nlen + ndist {
      if Rfc.CodesUsable(acc, nlen) {
        SlicesUsable(acc, nlen);
        SymbolsDecide(rules, acc[..nlen], acc[nlen..], last, dmax, out, s, t, p);
      }
    } else if |s| > p && Lookup(lens, s[p..]) != NeedMore {
      UsableParts(lens);
      SameLookup(lens, s, t, p);
      match Lookup(lens, s[p..])
      case NoCode =>
        LongerOK(acc, 0);
        CodeLensDecide(rules, lens, nlen, ndist, acc + [0], last, dmax, out, s, t, p + 1);
      case Found(v) =>
        FoundAhead(lens, s, p);
        if v < 16 {
          LongerOK(acc, v);
          CodeLensDecide(rules, lens, nlen, ndist, acc + [v], last, dmax, out, s, t, p + lens[v]);
        } else {
          RepeatDecides(rules, lens, nlen, ndist, acc, last, dmax, out, s, t, p, v);
        }
    }
  }

  lemma {:induction false} UsableParts(lens: seq<nat>)
    requires Usable(lens)
    ensures LensOK(lens) && Kraft(lens) <= FULL
  {
  }

  lemma {:induction false} LongerOK(acc: seq<nat>, v: nat)
    requires LensOK(acc) && v <= 15
    ensures LensOK(acc + [v])
  {
  }

  /** A symbol that is found has a length within the stream. */
  lemma {:induction false} FoundAhead(lens: seq<nat>, s: seq<bool>, p: nat)
    requires p < |s| && Lookup(lens, s[p..]).Found?
    ensures var v := Lookup(lens, s[p..]).sym; v < |lens| && 1 <= lens[v] && p + lens[v] <= |s|
  {
  }

  /** The outcome behind a repeat code v that ends at position q. */
  ghost function AfterRepeat(rules: Rfc.Rules, lens: seq<nat>, nlen: nat, ndist: nat, acc: seq<nat>, last: bool,
                             dmax: nat, out: seq<byte>, s: seq<bool>, q: nat, v: nat): Rfc.Outcome
    requires 257 <= nlen <= 286 && 1 <= ndist <= 32 && |acc| <= nlen + ndist && |lens| == 19
  {
    var x := Rfc.RepeatBits(v);
    if |s| < q + x then Rfc.NeedsMore(out)
    else
      var n := Rfc.RepeatBase(v) + Rfc.Field(s, q, x);
      if (v == 16 && acc == []) || |acc| + n > nlen + ndist then Rfc.Fails(out)
      else Rfc.CodeLens(rules, lens, nlen, ndist, acc + Rfc.Repeat(Rfc.Repeated(v, acc), n), last, dmax, out, s, q + x)
  }

  /** One symbol of the code length code. */
  lemma {:induction false} CodeLensUnfold(rules: Rfc.Rules, lens: seq<nat>, nlen: nat, ndist: nat, acc: seq<nat>,
                                          last: bool, dmax: nat, out: seq<byte>, s: seq<bool>, p: nat)
    requires 257 <= nlen <= 286 && 1 <= ndist <= 32 && |acc| <= nlen + ndist && |lens| == 19
    ensures var r := Rfc.CodeLens(rules, lens, nlen, ndist, acc, last, dmax, out, s, p);
            if |acc| == nlen + ndist then
              if Rfc.CodesUsable(acc, nlen) then r == Rfc.Symbols(rules, acc[..nlen], acc[nlen..], last, dmax, out, s,
                                                                  p)
              else r == Rfc.Fails(out)
            else if |s| <= p || Lookup(lens, s[p..]) == NeedMore then r == Rfc.NeedsMore(out)
            else if Lookup(lens, s[p..]) == NoCode then
              r == Rfc.CodeLens(rules, lens, nlen, ndist, acc + [0], last, dmax, out, s, p + 1)
            else
              var v := Lookup(lens, s[p..]).sym;
              v < 19 &&
              if v < 16 then r == Rfc.CodeLens(rules, lens, nlen, ndist, acc + [v], last, dmax, out, s, p + lens[v])
              else r == AfterRepeat(rules, lens, nlen, ndist, acc, last, dmax, out, s, p + lens[v], v)
  {
    hide Rfc.Symbols, Rfc.Field, Rfc.CodesUsable, Rfc.RepeatBits, Rfc.RepeatBase, Rfc.Repeated, Rfc.Repeat;
  }

  lemma {:induction false} RepeatDecides(rules: Rfc.Rules, lens: seq<nat>, nlen: nat, ndist: nat, acc: seq<nat>,
                                         last: bool, dmax: nat, out: seq<byte>, s: seq<bool>, t: seq<bool>, p: nat,
                                         v: nat)
    requires 257 <= nlen <= 286 && 1 <= ndist <= 32 && |acc| < nlen + ndist && |lens| == 19
    requires s <= t && Usable(lens) && LensOK(acc) && 16 <= v < 19 && 1 <= lens[v] && p + lens[v] <= |s|
    requires out <= AfterRepeat(rules, lens, nlen, ndist, acc, last, dmax, out, t, p + lens[v], v).out
    ensures Decides(AfterRepeat(rules, lens, nlen, ndist, acc, last, dmax, out, s, p + lens[v], v),
                    AfterRepeat(rules, lens, nlen, ndist, acc, last, dmax, out, t, p + lens[v], v))
    decreases |s| - p, 4
  {
    hide Rfc.CodeLens, Rfc.Field, Rfc.RepeatBits, Rfc.RepeatBase, Rfc.Repeated, Rfc.Repeat, Usable, LensOK;
    var q, x := p + lens[v], Rfc.RepeatBits(v);
    if |s| >= q + x {
      SameField(s, t, q, x);
      var n := Rfc.RepeatBase(v) + Rfc.Field(s, q, x);
      if !((v == 16 && acc == []) || |acc| + n > nlen + ndist) {
        RepeatLensOK(acc, v, n);
        RepeatLength(Rfc.Repeated(v, acc), n);
        AppendOK(acc, Rfc.Repeat(Rfc.Repeated(v, acc), n));
        CodeLensDecide(rules, lens, nlen, ndist, acc + Rfc.Repeat(Rfc.Repeated(v, acc), n), last, dmax, out, s, t,
                       q + x);
      }
    }
  }

  lemma {:induction false} AppendOK(a: seq<nat>, b: seq<nat>)
    requires LensOK(a) && LensOK(b)
    ensures LensOK(a + b)
  {
  }

  lemma {:induction false} SymbolsDecide(rules: Rfc.Rules, lens: seq<nat>, dists: seq<nat>, last: bool, dmax: nat,
                                         out: seq<byte>, s: seq<bool>, t: seq<bool>, p: nat)
    requires |lens| <= 288 && |dists| <= 32 && s <= t && Usable(lens) && Usable(dists)
    ensures Decides(Rfc.Symbols(rules, lens, dists, last, dmax, out, s, p),
                    Rfc.Symbols(rules, lens, dists, last, dmax, out, t, p))
    decreases |s| - p, 0
  {
    hide Rfc.Type, Rfc.LengthBits, LengthBase, LengthExtra, Usable, Lookup;
    UsableParts(lens);
    SymbolsGrow(rules, lens, dists, last, dmax, out, t, p);
    if |s| > p && Lookup(lens, s[p..]) != NeedMore {
      SameLookup(lens, s, t, p);
      match Lookup(lens, s[p..])
      case NoCode =>
      case Found(v) =>
        FoundAhead(lens, s, p);
        var q := p + lens[v];
        if v < 256 {
          SymbolsDecide(rules, lens, dists, last, dmax, out + [v], s, t, q);
        } else if v == 256 {
          TypeDecides(rules, last, dmax, out, s, t, q);
        } else if v <= 285 {
          LengthBitsDecide(rules, LengthBase(v), LengthExtra(v), lens, dists, last, dmax, out, s, t, q);
        }
    }
  }

  lemma {:induction false} LengthBitsDecide(rules: Rfc.Rules, base: nat, extra: nat, lens: seq<nat>, dists: seq<nat>,
                                            last: bool, dmax: nat, out: seq<byte>, s: seq<bool>, t: seq<bool>, p: nat)
    requires |lens| <= 288 && |dists| <= 32 && s <= t && Usable(lens) && Usable(dists)
    ensures Decides(Rfc.LengthBits(rules, base, extra, lens, dists, last, dmax, out, s, p),
                    Rfc.LengthBits(rules, base, extra, lens, dists, last, dmax, out, t, p))
    decreases |s| - p, 4
  {
    hide Rfc.Distance, Rfc.Field, Usable;
    LengthBitsGrow(rules, base, extra, lens, dists, last, dmax, out, t, p);
    if |s| >= p + extra {
      SameField(s, t, p, extra);
      DistanceDecides(rules, base + Rfc.Field(s, p, extra), lens, dists, last, dmax, out, s, t, p + extra);
    }
  }

  lemma {:induction false} DistanceDecides(rules: Rfc.Rules, len: nat, lens: seq<nat>, dists: seq<nat>, last: bool,
                                           dmax: nat, out: seq<byte>, s: seq<bool>, t: seq<bool>, p: nat)
    requires |lens| <= 288 && |dists| <= 32 && s <= t && Usable(lens) && Usable(dists)
    ensures Decides(Rfc.Distance(rules, len, lens, dists, last, dmax, out, s, p),
                    Rfc.Distance(rules, len, lens, dists, last, dmax, out, t, p))
    decreases |s| - p, 3
  {
    hide Rfc.DistanceBits, DistBase, DistExtra, Usable, Lookup;
    UsableParts(dists);
    DistanceGrows(rules, len, lens, dists, last, dmax, out, t, p);
    if |s| > p && Lookup(dists, s[p..]) != NeedMore {
      SameLookup(dists, s, t, p);
      match Lookup(dists, s[p..])
      case NoCode =>
      case Found(v) =>
        FoundAhead(dists, s, p);
        if v <= 29 {
          DistanceBitsDecide(rules, len, DistBase(v), DistExtra(v), lens, dists, last, dmax, out, s, t, p + dists[v]);
        }
    }
  }

  lemma {:induction false} DistanceBitsDecide(rules: Rfc.Rules, len: nat, base: nat, extra: nat, lens: seq<nat>,
                                              dists: seq<nat>, last: bool, dmax: nat, out: seq<byte>, s: seq<bool>,
                                              t: seq<bool>, p: nat)
    requires |lens| <= 288 && |dists| <= 32 && s <= t && Usable(lens) && Usable(dists)
    ensures Decides(Rfc.DistanceBits(rules, len, base, extra, lens, dists, last, dmax, out, s, p),
                    Rfc.DistanceBits(rules, len, base, extra, lens, dists, last, dmax, out, t, p))
    decreases |s| - p, 2
  {
    hide Rfc.Match, Rfc.Field, Usable;
    DistanceBitsGrow(rules, len, base, extra, lens, dists, last, dmax, out, t, p);
    if |s| >= p + extra {
      SameField(s, t, p, extra);
      if base + Rfc.Field(s, p, extra) <= dmax {
        MatchDecides(rules, len, base + Rfc.Field(s, p, extra), lens, dists, last, dmax, out, s, t, p + extra);
      }
    }
  }

  lemma {:induction false} MatchDecides(rules: Rfc.Rules, len: nat, dist: nat, lens: seq<nat>, dists: seq<nat>,
                                        last: bool, dmax: nat, out: seq<byte>, s: seq<bool>, t: seq<bool>, p: nat)
    requires |lens| <= 288 && |dists| <= 32 && s <= t && Usable(lens) && Usable(dists)
    ensures Decides(Rfc.Match(rules, len, dist, lens, dists, last, dmax, out, s, p),
                    Rfc.Match(rules, len, dist, lens, dists, last, dmax, out, t, p))
    decreases |s| - p, 1
  {
    hide Rfc.Symbols, Rfc.CopyMatch, Usable;
    MatchGrows(rules, len, dist, lens, dists, last, dmax, out, t, p);
    if 1 <= dist <= |out| {
      SymbolsDecide(rules, lens, dists, last, dmax, Rfc.CopyMatch(out, dist, len), s, t, p);
    }
  }

  lemma {:induction false} BitsPrefix(a: seq<byte>, b: seq<byte>)
    requires a <= b
    ensures BytesBits(a) <= BytesBits(b)
  {
    hide LBits;
    BytesBitsPrefix(a, b, |a|);
    assert BytesBits(a)[..Eight(|a|)] == BytesBits(a);
  }

  /** A stream that is cut off decodes to the beginning of the whole; one that is complete or wrong stays so,
      whatever follows. */
  lemma {:induction false} PrefixDecides(rules: Rfc.Rules, a: seq<byte>, b: seq<byte>)
    requires a <= b
    ensures Decides(Rfc.Decode(rules, a), Rfc.Decode(rules, b))
  {
    hide Rfc.Type, Rfc.Field, BytesBits, Pow2, Rfc.FCheck;
    BitsPrefix(a, b);
    var s, t := BytesBits(a), BytesBits(b);
    if |s| >= 16 {
      SameField(s, t, 0, 8);
      SameField(s, t, 8, 8);
      SameField(s, t, 0, 4);
      SameField(s, t, 4, 4);
      TypeDecides(rules, false, Pow2(Rfc.Field(s, 4, 4) + 8), [], s, t, 16);
    }
  }
}
