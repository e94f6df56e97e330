/** Where decoding one symbol ends: the common ground of the slow modes LEN to LIT and of `inflate_fast`. */
module SymbolEnds {
  import opened Bits
  import opened Huffman
  import opened CodeTables
  import opened Streams
  import opened ReadCodes
  import opened EntryOps
  import opened Matches
  import Rfc = Rfc1951

  /** The mode, the output and the position behind a symbol; there is no position behind an error.  `Cut` if the
      stream ends within the symbol. */
  datatype Ending = Cut | At(mode: Mode, out: seq<byte>, pos: nat)

  function Error(out: seq<byte>): Ending {
    At(AtBad, out, 0)
  }

  /** A literal, the end of the block, or a length and its distance. */
  ghost function SymbolFrom(lens: seq<nat>, dists: seq<nat>, dmax: nat, out: seq<byte>, s: seq<bool>, p: nat): Ending
    requires |lens| <= 288 && |dists| <= 32
  {
    if |s| <= p then Cut
    else
      match Lookup(lens, s[p..])
      case NeedMore => Cut
      case NoCode => Error(out)
      case Found(v) =>
        var q := p + lens[v];
        if v < 256 then At(AtLen, out + [v], q)
        else if v == 256 then At(AtType, out, q)
        else if v > 285 then Error(out)
        else LengthFrom(LengthBase(v), LengthExtra(v), dists, dmax, out, s, q)
  }

  ghost function LengthFrom(base: nat, extra: nat, dists: seq<nat>, dmax: nat, out: seq<byte>, s: seq<bool>,
                            p: nat): Ending
    requires |dists| <= 32
  {
    if |s| < p + extra then Cut
    else DistanceFrom(base + Rfc.Field(s, p, extra), dists, dmax, out, s, p + extra)
  }

  ghost function DistanceFrom(len: nat, dists: seq<nat>, dmax: nat, out: seq<byte>, s: seq<bool>, p: nat): Ending
    requires |dists| <= 32
  {
    if |s| <= p then Cut
    else
      match Lookup(dists, s[p..])
      case NeedMore => Cut
      case NoCode => Error(out)
      case Found(v) =>
        if v > 29 then Error(out) else ExtraFrom(len, DistBase(v), DistExtra(v), dmax, out, s, p + dists[v])
  }

  ghost function ExtraFrom(len: nat, base: nat, extra: nat, dmax: nat, out: seq<byte>, s: seq<bool>, p: nat): Ending {
    if |s| < p + extra then Cut
    else if base + Rfc.Field(s, p, extra) > dmax then Error(out)
    else MatchFrom(len, base + Rfc.Field(s, p, extra), out, p + extra)
  }

  ghost function MatchFrom(len: nat, dist: nat, out: seq<byte>, p: nat): Ending {
    if dist == 0 || dist > |out| then Error(out) else At(AtLen, Rfc.CopyMatch(out, dist, len), p)
  }

  /** Modes within a symbol. */
  predicate InSymbol(m: Mode) {
    m.AtLenExt? || m.AtDist? || m.AtDistExt? || m.AtMatch? || m.AtLit?
  }

  /** Where the symbol ends that is being decoded, or that is next in LEN. */
  ghost function Pending(c: Control, out: seq<byte>, s: seq<bool>, p: nat): Ending
    requires Shape(c) && (c.mode == AtLen || InSymbol(c.mode))
  {
    match c.mode
    case AtLenExt => LengthFrom(c.length, c.extra, c.distLens, c.dmax, out, s, p)
    case AtDist => DistanceFrom(c.length, c.distLens, c.dmax, out, s, p)
    case AtDistExt => ExtraFrom(c.length, c.offset, c.extra, c.dmax, out, s, p)
    case AtMatch => MatchFrom(c.length, c.offset, out, p)
    case AtLit => At(AtLen, out + [c.length], p)
    case _ => SymbolFrom(c.litLens, c.distLens, c.dmax, out, s, p)
  }

  /** A step within a symbol: it ends where it was going to end, or it has ended there. */
  ghost predicate SameEnd(c: Control, out: seq<byte>, p: nat, c': Control, out': seq<byte>, p': nat, s: seq<bool>) {
    && Shape(c) && (c.mode == AtLen || InSymbol(c.mode)) && Shape(c')
    && if InSymbol(c'.mode) then Pending(c', out', s, p') == Pending(c, out, s, p)
       else Pending(c, out, s, p) == At(c'.mode, out', if c'.mode == AtBad then 0 else p')
  }

  // ----- the slow modes -----

  lemma {:induction false} LenEnds(c: Control, past: seq<byte>, s: seq<bool>, p: nat, q: nat, here: Entry)
    requires Shape(c) && c.mode == AtLen && p < |s|
    requires Took(Senses(Lens), c.litLens, Lookup(c.litLens, s[p..]), p, q, here)
    ensures SameEnd(c, past, p, AfterLen(c, here), past, q, s)
  {
    hide Lookup, LengthFrom, Senses, And32, And64, And15, LengthExtra, LengthBase;
    LenSense(c.litLens, Lookup(c.litLens, s[p..]), p, q, here);
  }

  lemma {:induction false} LenExtEnds(c: Control, past: seq<byte>, s: seq<bool>, p: nat)
    requires Shape(c) && c.mode == AtLenExt && p + c.extra <= |s|
    ensures SameEnd(c, past, p, c.(mode := AtDist, length := c.length + Rfc.Field(s, p, c.extra)), past, p + c.extra, s)
  {
    hide DistanceFrom, Rfc.Field;
  }

  lemma {:induction false} DistEnds(c: Control, past: seq<byte>, s: seq<bool>, p: nat, q: nat, here: Entry)
    requires Shape(c) && c.mode == AtDist && p < |s|
    requires Took(Senses(Dists), c.distLens, Lookup(c.distLens, s[p..]), p, q, here)
    ensures SameEnd(c, past, p, AfterDist(c, here), past, q, s)
  {
    hide Lookup, ExtraFrom, Senses, And64, And15, DistExtra, DistBase;
    DistSense(c.distLens, Lookup(c.distLens, s[p..]), p, q, here);
  }

  lemma {:induction false} DistExtEnds(c: Control, past: seq<byte>, s: seq<bool>, p: nat)
    requires Shape(c) && c.mode == AtDistExt && p + c.extra <= |s|
    ensures var offset := c.offset + Rfc.Field(s, p, c.extra);
            SameEnd(c, past, p, c.(mode := if offset > c.dmax then AtBad else AtMatch, offset := offset), past,
                    p + c.extra, s)
  {
    hide MatchFrom, Rfc.Field;
  }

  /** Part of a match, or all of it. */
  lemma {:induction false} MatchEnds(c: Control, past: seq<byte>, s: seq<bool>, p: nat, n: nat)
    requires Shape(c) && c.mode == AtMatch && 1 <= c.offset <= |past| && n <= c.length
    ensures SameEnd(c, past, p, c.(length := c.length - n, mode := if n == c.length then AtLen else AtMatch),
                    Rfc.CopyMatch(past, c.offset, n), p, s)
  {
    hide Rfc.CopyMatch;
    CopyMatchNext(past, c.offset, n);
    CopyMatchSplit(past, c.offset, n, c.length - n);
    NothingCopied(Rfc.CopyMatch(past, c.offset, n), c.offset);
  }

  lemma {:induction false} MatchErrs(c: Control, past: seq<byte>, s: seq<bool>, p: nat)
    requires Shape(c) && c.mode == AtMatch && c.offset > |past|
    ensures SameEnd(c, past, p, c.(mode := AtBad), past, p, s)
  {
  }

  lemma {:induction false} LitEnds(c: Control, past: seq<byte>, s: seq<bool>, p: nat)
    requires Shape(c) && c.mode == AtLit && c.length < 256
    ensures SameEnd(c, past, p, c.(mode := AtLen), past + [c.length], p, s)
  {
  }

  // ----- several symbols -----

  /** Where up to n symbols end; the end of the block and an error end them all. */
  ghost function SymbolsFrom(n: nat, lens: seq<nat>, dists: seq<nat>, dmax: nat, out: seq<byte>, s: seq<bool>,
                             p: nat): Ending
    requires |lens| <= 288 && |dists| <= 32
  {
    if n == 0 then At(AtLen, out, p)
    else
      match SymbolsFrom(n - 1, lens, dists, dmax, out, s, p)
      case Cut => Cut
      case At(m, out', p') => if m == AtLen then SymbolFrom(lens, dists, dmax, out', s, p') else At(m, out', p')
  }
}
