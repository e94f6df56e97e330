/** In the meaning of a stream, what has been output stays: every outcome begins with it. */
module OutputGrows {
  import opened Bits
  import opened Huffman
  import opened CodeTables
  import opened Adler
  import opened Streams
  import opened Matches
  import Rfc = Rfc1951

  lemma {:induction false} Longer(a: seq<byte>, b: seq<byte>, c: seq<byte>)
    requires a <= b <= c
    ensures a <= c
  {
  }

  lemma {:induction false} TypeGrows(rules: Rfc.Rules, last: bool, dmax: nat, out: seq<byte>, s: seq<bool>, p: nat)
    ensures out <= Rfc.Type(rules, last, dmax, out, s, p).out
    decreases |s| - p, 0
  {
    hide Rfc.Stored, Rfc.Symbols, Rfc.Table, Rfc.Field, Rfc.BigEndian, Checksum, Rfc.FixedLens, Rfc.FixedDists,
      Rfc.Aligned;
    if !last && |s| >= p + 3 {
      var kind := Rfc.Field(s, p + 1, 2);
      AlignedAt(p + 3);
      if kind == 0 {
        StoredGrows(rules, s[p], dmax, out, s, Rfc.Aligned(p + 3));
      } else if kind == 1 {
        SymbolsGrow(rules, Rfc.FixedLens(), Rfc.FixedDists(), s[p], dmax, out, s, p + 3);
      } else if kind == 2 {
        TableGrows(rules, s[p], dmax, out, s, p + 3);
      }
    }
  }

  lemma {:induction false} AlignedAt(p: nat)
    ensures p <= Rfc.Aligned(p)
  {
  }

  lemma {:induction false} StoredGrows(rules: Rfc.Rules, last: bool, dmax: nat, out: seq<byte>, s: seq<bool>, p: nat)
    ensures out <= Rfc.Stored(rules, last, dmax, out, s, p).out
    decreases |s| - p, 1
  {
    hide Rfc.Copy, Rfc.Field;
    if |s| >= p + 32 && Rfc.Field(s, p + 16, 16) == 65535 - Rfc.Field(s, p, 16) {
      CopyGrows(rules, Rfc.Field(s, p, 16), last, dmax, out, s, p + 32);
    }
  }

  lemma {:induction false} CopyGrows(rules: Rfc.Rules, n: nat, last: bool, dmax: nat, out: seq<byte>, s: seq<bool>,
                                     p: nat)
    ensures out <= Rfc.Copy(rules, n, last, dmax, out, s, p).out
    decreases |s| - p, 1
  {
    hide Rfc.Type, Rfc.ByteAt;
    if n == 0 {
      TypeGrows(rules, last, dmax, out, s, p);
    } else if |s| >= p + 8 {
      var x := out + [Rfc.ByteAt(s, p)];
      CopyGrows(rules, n - 1, last, dmax, x, s, p + 8);
      Longer(out, x, Rfc.Copy(rules, n - 1, last, dmax, x, s, p + 8).out);
    }
  }

  lemma {:induction false} TableGrows(rules: Rfc.Rules, last: bool, dmax: nat, out: seq<byte>, s: seq<bool>, p: nat)
    ensures out <= Rfc.Table(rules, last, dmax, out, s, p).out
    decreases |s| - p, 7
  {
    hide Rfc.LenLens, Rfc.Field, Rfc.NCode, Rfc.NDist;
    if |s| >= p + 14 {
      var nlen, ndist := Rfc.Field(s, p, 5) + 257, Rfc.NDist(s, p);
      NCodeRange(s, p);
      if nlen <= 286 {
        LenLensGrow(rules, nlen, ndist, Rfc.NCode(s, p), [], last, dmax, out, s, p + 14);
      }
    }
  }

  lemma {:induction false} NCodeRange(s: seq<bool>, p: nat)
    requires p + 14 <= |s|
    ensures 4 <= Rfc.NCode(s, p) <= 19 && 1 <= Rfc.NDist(s, p) <= 32
  {
  }

  lemma {:induction false} LenLensGrow(rules: Rfc.Rules, nlen: nat, ndist: nat, ncode: nat, acc: seq<nat>, last: bool,
                                       dmax: nat, out: seq<byte>, s: seq<bool>, p: nat)
    requires |acc| <= ncode <= 19 && 257 <= nlen <= 286 && 1 <= ndist <= 32
    ensures out <= Rfc.LenLens(rules, nlen, ndist, ncode, acc, last, dmax, out, s, p).out
    decreases |s| - p, 6
  {
    hide Rfc.CodeLens, Rfc.Field, Acceptable;
    if |acc| < ncode {
      if |s| >= p + 3 {
        LenLensGrow(rules, nlen, ndist, ncode, acc + [Rfc.Field(s, p, 3)], last, dmax, out, s, p + 3);
      }
    } else if Acceptable(Codes, Rfc.PlaceLens(acc)) {
      CodeLensGrow(rules, Rfc.PlaceLens(acc), nlen, ndist, [], last, dmax, out, s, p);
    }
  }

  lemma {:induction false} CodeLensGrow(rules: Rfc.Rules, lens: seq<nat>, nlen: nat, ndist: nat, acc: seq<nat>,
                                        last: bool, dmax: nat, out: seq<byte>, s: seq<bool>, p: nat)
    requires 257 <= nlen <= 286 && 1 <= ndist <= 32 && |acc| <= nlen + ndist && |lens| == 19
    ensures out <= Rfc.CodeLens(rules, lens, nlen, ndist, acc, last, dmax, out, s, p).out
    decreases |s| - p, 5
  {
    hide Rfc.Symbols, Rfc.Field, Rfc.CodesUsable, Rfc.RepeatBits, Rfc.RepeatBase, Rfc.Repeated;
    if |acc| == nlen + ndist {
      if Rfc.CodesUsable(acc, nlen) {
        SymbolsGrow(rules, acc[..nlen], acc[nlen..], last, dmax, out, s, p);
      }
    } else if |s| > p {
      match Lookup(lens, s[p..])
      case NeedMore =>
      case NoCode => CodeLensGrow(rules, lens, nlen, ndist, acc + [0], last, dmax, out, s, p + 1);
      case Found(v) =>
        var q := p + lens[v];
        if v < 16 {
          CodeLensGrow(rules, lens, nlen, ndist, acc + [v], last, dmax, out, s, q);
        } else {
          var x := Rfc.RepeatBits(v);
          if |s| >= q + x {
            var n := Rfc.RepeatBase(v) + Rfc.Field(s, q, x);
            if !((v == 16 && acc == []) || |acc| + n > nlen + ndist) {
              CodeLensGrow(rules, lens, nlen, ndist, acc + Rfc.Repeat(Rfc.Repeated(v, acc), n), last, dmax, out, s,
                           q + x);
            }
          }
        }
    }
  }

  lemma {:induction false} SymbolsGrow(rules: Rfc.Rules, lens: seq<nat>, dists: seq<nat>, last: bool, dmax: nat,
                                       out: seq<byte>, s: seq<bool>, p: nat)
    requires |lens| <= 288 && |dists| <= 32
    ensures out <= Rfc.Symbols(rules, lens, dists, last, dmax, out, s, p).out
    decreases |s| - p, 0
  {
    hide Rfc.Type, Rfc.LengthBits, LengthBase, LengthExtra;
    if |s| > p {
      match Lookup(lens, s[p..])
      case NeedMore =>
      case NoCode =>
      case Found(v) =>
        var q := p + lens[v];
        if v < 256 {
          SymbolsGrow(rules, lens, dists, last, dmax, out + [v], s, q);
          Longer(out, out + [v], Rfc.Symbols(rules, lens, dists, last, dmax, out + [v], s, q).out);
        } else if v == 256 {
          TypeGrows(rules, last, dmax, out, s, q);
        } else if v <= 285 {
          LengthBitsGrow(rules, LengthBase(v), LengthExtra(v), lens, dists, last, dmax, out, s, q);
        }
    }
  }

  lemma {:induction false} LengthBitsGrow(rules: Rfc.Rules, base: nat, extra: nat, lens: seq<nat>, dists: seq<nat>,
                                          last: bool, dmax: nat, out: seq<byte>, s: seq<bool>, p: nat)
    requires |lens| <= 288 && |dists| <= 32
    ensures out <= Rfc.LengthBits(rules, base, extra, lens, dists, last, dmax, out, s, p).out
    decreases |s| - p, 4
  {
    hide Rfc.Distance, Rfc.Field;
    if |s| >= p + extra {
      DistanceGrows(rules, base + Rfc.Field(s, p, extra), lens, dists, last, dmax, out, s, p + extra);
    }
  }

  lemma {:induction false} DistanceGrows(rules: Rfc.Rules, len: nat, lens: seq<nat>, dists: seq<nat>, last: bool,
                                         dmax: nat, out: seq<byte>, s: seq<bool>, p: nat)
    requires |lens| <= 288 && |dists| <= 32
    ensures out <= Rfc.Distance(rules, len, lens, dists, last, dmax, out, s, p).out
    decreases |s| - p, 3
  {
    hide Rfc.DistanceBits, DistBase, DistExtra;
    if |s| > p {
      match Lookup(dists, s[p..])
      case NeedMore =>
      case NoCode =>
      case Found(v) =>
        if v <= 29 {
          DistanceBitsGrow(rules, len, DistBase(v), DistExtra(v), lens, dists, last, dmax, out, s, p + dists[v]);
        }
    }
  }

  lemma {:induction false} DistanceBitsGrow(rules: Rfc.Rules, len: nat, base: nat, extra: nat, lens: seq<nat>,
                                            dists: seq<nat>, last: bool, dmax: nat, out: seq<byte>, s: seq<bool>,
                                            p: nat)
    requires |lens| <= 288 && |dists| <= 32
    ensures out <= Rfc.DistanceBits(rules, len, base, extra, lens, dists, last, dmax, out, s, p).out
    decreases |s| - p, 2
  {
    hide Rfc.Match, Rfc.Field;
    if |s| >= p + extra && base + Rfc.Field(s, p, extra) <= dmax {
      MatchGrows(rules, len, base + Rfc.Field(s, p, extra), lens, dists, last, dmax, out, s, p + extra);
    }
  }

  lemma {:induction false} MatchGrows(rules: Rfc.Rules, len: nat, dist: nat, lens: seq<nat>, dists: seq<nat>,
                                      last: bool, dmax: nat, out: seq<byte>, s: seq<bool>, p: nat)
    requires |lens| <= 288 && |dists| <= 32
    ensures out <= Rfc.Match(rules, len, dist, lens, dists, last, dmax, out, s, p).out
    decreases |s| - p, 1
  {
    hide Rfc.Symbols, Rfc.CopyMatch;
    if 1 <= dist <= |out| {
      var x := Rfc.CopyMatch(out, dist, len);
      CopyMatchPrefix(out, dist, len);
      CopyMatchLength(out, dist, len);
      assert out <= x;
      SymbolsGrow(rules, lens, dists, last, dmax, x, s, p);
      Longer(out, x, Rfc.Symbols(rules, lens, dists, last, dmax, x, s, p).out);
    }
  }

  lemma {:induction false} CopyMatchLength(out: seq<byte>, dist: nat, len: nat)
    requires 1 <= dist <= |out|
    ensures |Rfc.CopyMatch(out, dist, len)| == |out| + len
  {
  }
}
