/** What a zlib stream means: sections 3.2.3 to 3.2.7 of RFC 1951 inside the wrapper of section 2.2 of
    RFC 1950, as functions from a position in the stream to the outcome of the whole stream.

    There is one function for each point at which a decoder can be waiting, so that a suspended decoder
    can be compared with the rest of the stream.

    The program departs from the standard in the header of a block with dynamic codes, in two ways: it
    refuses 31 and 32 distance codes, and it accepts a code length code without any symbol.  The functions
    are therefore defined for the rules of either, and for what the two share.  Which incomplete codes are
    accepted (`Acceptable`) is left open by the standard; that policy is the program's under all rules.
 */
module Rfc1951 {
  import opened Bits
  import opened Huffman
  import opened CodeTables
  import opened Adler

  /** The rules of the standard, those of the program, and what they share, which stops where they part. */
  datatype Rules = Standard | Program | Shared

  /** The last two statuses are those of a stream on which the rules part: at a block that has 31 or 32
      distance codes, or at a code length code without symbols. */
  datatype Status = More | Done | Bad | NeedDict | ManyDists | NoLengths

  /** How decoding ends when the stream ends where it does: what has been written, and, if decoding is
      done, the position behind the last bit that was needed.  Where the rules part, the position is that of
      the numbers of code lengths, or the one where the program's list of code lengths is full. */
  datatype Outcome = Outcome(status: Status, out: seq<byte>, used: nat)

  function NeedsMore(out: seq<byte>): Outcome {
    Outcome(More, out, 0)
  }

  function Fails(out: seq<byte>): Outcome {
    Outcome(Bad, out, 0)
  }

  /** An n-bit number at position p. */
  function Field(s: seq<bool>, p: nat, n: nat): nat
    requires p + n <= |s|
  {
    LVal(s[p..p + n])
  }

  /** The next byte boundary. */
  function Aligned(p: nat): (q: nat)
    ensures p <= q < p + 8 && q % 8 == 0
  {
    if p % 8 == 0 then p else p + 8 - p % 8
  }

  // ----- the zlib wrapper -----

  /** The header as a 16-bit number is a multiple of 31. */
  predicate FCheck(cmf: nat, flg: nat) {
    (cmf * 256 + flg) % 31 == 0
  }

  /** The two header bytes: check bits, method, window size, dictionary flag. */
  ghost function Header(rules: Rules, s: seq<bool>, p: nat): Outcome {
    if |s| < p + 16 then NeedsMore([])
    else if !FCheck(Field(s, p, 8), Field(s, p + 8, 8)) then Fails([])
    else if Field(s, p, 4) != 8 then Fails([])
    else if Field(s, p + 4, 4) + 8 > 15 then Fails([])
    else if s[p + 13] then DictId(s, p + 16)
    else Type(rules, false, Pow2(Field(s, p + 4, 4) + 8), [], s, p + 16)
  }

  /** A stream with a preset dictionary, which nobody supplies. */
  function DictId(s: seq<bool>, p: nat): Outcome {
    if |s| < p + 32 then NeedsMore([]) else Outcome(NeedDict, [], 0)
  }

  /** Four bytes, most significant byte first. */
  function BigEndian(s: seq<bool>, p: nat): nat
    requires p + 32 <= |s|
  {
    Field(s, p, 8) * 0x100_0000 + Field(s, p + 8, 8) * 0x1_0000 + Field(s, p + 16, 8) * 0x100 + Field(s, p + 24, 8)
  }

  /** The checksum of the data follows the last block, at a byte boundary. */
  function Trailer(out: seq<byte>, s: seq<bool>, p: nat): Outcome {
    if |s| < p + 32 then NeedsMore(out)
    else if BigEndian(s, p) == Checksum(out) then Outcome(Done, out, p + 32)
    else Fails(out)
  }

  // ----- blocks -----

  function FixedLens(): (l: seq<nat>)
    ensures |l| == 288
  {
    Repeat(8, 144) + Repeat(9, 112) + Repeat(7, 24) + Repeat(8, 8)
  }

  function FixedDists(): (l: seq<nat>)
    ensures |l| == 32
  {
    Repeat(5, 32)
  }

  /** Section 3.2.3: after the last block the trailer, otherwise the three header bits of a block. */
  ghost function Type(rules: Rules, last: bool, dmax: nat, out: seq<byte>, s: seq<bool>, p: nat): Outcome
    decreases |s| - p, 0
  {
    if last then Trailer(out, s, Aligned(p))
    else if |s| < p + 3 then NeedsMore(out)
    else
      var kind := Field(s, p + 1, 2);
      if kind == 0 then Stored(rules, s[p], dmax, out, s, Aligned(p + 3))
      else if kind == 1 then Symbols(rules, FixedLens(), FixedDists(), s[p], dmax, out, s, p + 3)
      else if kind == 2 then Table(rules, s[p], dmax, out, s, p + 3)
      else Fails(out)
  }

  /** Section 3.2.4: at a byte boundary, the length and its complement. */
  ghost function Stored(rules: Rules, last: bool, dmax: nat, out: seq<byte>, s: seq<bool>, p: nat): Outcome
    decreases |s| - p, 1
  {
    if |s| < p + 32 then NeedsMore(out)
    else if Field(s, p + 16, 16) != 65535 - Field(s, p, 16) then Fails(out)
    else Copy(rules, Field(s, p, 16), last, dmax, out, s, p + 32)
  }

  ghost function Copy(rules: Rules, n: nat, last: bool, dmax: nat, out: seq<byte>, s: seq<bool>, p: nat): Outcome
    decreases |s| - p, 1
  {
    if n == 0 then Type(rules, last, dmax, out, s, p)
    else if |s| < p + 8 then NeedsMore(out)
    else Copy(rules, n - 1, last, dmax, out + [ByteAt(s, p)], s, p + 8)
  }

  function ByteAt(s: seq<bool>, p: nat): byte
    requires p + 8 <= |s|
  {
    Pow2Values();
    Field(s, p, 8)
  }

  /** Section 3.2.7: the numbers of code lengths. */
  ghost function Table(rules: Rules, last: bool, dmax: nat, out: seq<byte>, s: seq<bool>, p: nat): Outcome
    decreases |s| - p, 7
  {
    if |s| < p + 14 then NeedsMore(out)
    else
      var nlen, ndist := Field(s, p, 5) + 257, NDist(s, p);
      if nlen > 286 then Fails(out)
      else if ndist > 30 && rules == Program then Fails(out)
      else if ndist > 30 && rules == Shared then Outcome(ManyDists, out, p)
      else LenLens(rules, nlen, ndist, NCode(s, p), [], last, dmax, out, s, p + 14)
  }

  /** Section 3.2.7 allows all values of the field. */
  function NDist(s: seq<bool>, p: nat): (n: nat)
    requires p + 14 <= |s|
    ensures 1 <= n <= 32
  {
    Pow2Values();
    Field(s, p + 5, 5) + 1
  }

  function NCode(s: seq<bool>, p: nat): (n: nat)
    requires p + 14 <= |s|
    ensures 4 <= n <= 19
  {
    Pow2Values();
    Field(s, p + 10, 4) + 4
  }

  const ORDER: seq<nat> := [16, 17, 18, 0, 8, 7, 9, 6, 10, 5, 11, 4, 12, 3, 13, 2, 14, 1, 15]

  /** The code lengths of the code length code, given in the order of ORDER; the others are zero. */
  function PlaceLens(acc: seq<nat>): (l: seq<nat>)
    requires |acc| <= 19
    ensures |l| == 19
  {
    if acc == [] then seq(19, i => 0) else PlaceLens(acc[..|acc| - 1])[ORDER[|acc| - 1] := acc[|acc| - 1]]
  }

  ghost function LenLens(rules: Rules, nlen: nat, ndist: nat, ncode: nat, acc: seq<nat>, last: bool, dmax: nat,
                         out: seq<byte>, s: seq<bool>, p: nat): Outcome
    requires |acc| <= ncode <= 19 && 257 <= nlen <= 286 && 1 <= ndist <= 32
    decreases |s| - p, 6
  {
    if |acc| < ncode then
      if |s| < p + 3 then NeedsMore(out)
      else LenLens(rules, nlen, ndist, ncode, acc + [Field(s, p, 3)], last, dmax, out, s, p + 3)
    else if !Acceptable(Codes, PlaceLens(acc)) then Fails(out)
    else if AllZero(PlaceLens(acc)) && rules == Standard then Fails(out)
    else if AllZero(PlaceLens(acc)) && rules == Shared then Outcome(NoLengths, out, p + nlen + ndist)
    else CodeLens(rules, PlaceLens(acc), nlen, ndist, [], last, dmax, out, s, p)
  }

  /** The code lengths of both codes, as one list, with repetitions.

      Under the program's rules the code length code may have no symbol at all; every bit then reads as a
      length of zero. */
  ghost function CodeLens(rules: Rules, lens: seq<nat>, nlen: nat, ndist: nat, acc: seq<nat>, last: bool, dmax: nat,
                          out: seq<byte>, s: seq<bool>, p: nat): Outcome
    requires 257 <= nlen <= 286 && 1 <= ndist <= 32 && |acc| <= nlen + ndist && |lens| == 19
    decreases |s| - p, 5
  {
    if |acc| == nlen + ndist then
      if CodesUsable(acc, nlen) then Symbols(rules, acc[..nlen], acc[nlen..], last, dmax, out, s, p) else Fails(out)
    else if |s| <= p then NeedsMore(out)
    else
      match Lookup(lens, s[p..])
      case NeedMore => NeedsMore(out)
      case NoCode => CodeLens(rules, lens, nlen, ndist, acc + [0], last, dmax, out, s, p + 1)
      case Found(v) =>
        var q := p + lens[v];
        if v < 16 then CodeLens(rules, lens, nlen, ndist, acc + [v], last, dmax, out, s, q)
        else
          var x := RepeatBits(v);
          if |s| < q + x then NeedsMore(out)
          else
            var n := RepeatBase(v) + Field(s, q, x);
            if (v == 16 && acc == []) || |acc| + n > nlen + ndist then Fails(out)
            else CodeLens(rules, lens, nlen, ndist, acc + Repeat(Repeated(v, acc), n), last, dmax, out, s, q + x)
  }

  /** There is an end-of-block code, and both sets of lengths are acceptable. */
  predicate CodesUsable(acc: seq<nat>, nlen: nat)
    requires 257 <= nlen <= |acc|
  {
    acc[256] != 0 && Acceptable(Lens, acc[..nlen]) && Acceptable(Dists, acc[nlen..])
  }

  function RepeatBits(v: nat): nat {
    if v == 16 then 2 else if v == 17 then 3 else 7
  }

  function RepeatBase(v: nat): nat {
    if v == 18 then 11 else 3
  }

  function Repeated(v: nat, acc: seq<nat>): nat
    requires v == 16 ==> acc != []
  {
    if v == 16 then acc[|acc| - 1] else 0
  }

  function Repeat(v: nat, n: nat): (r: seq<nat>)
    ensures |r| == n && forall i :: 0 <= i < n ==> r[i] == v
  {
    seq(n, i => v)
  }

  // ----- compressed data -----

  /** Section 3.2.3: literals, the end of the block, and pairs of length and distance. */
  ghost function Symbols(rules: Rules, lens: seq<nat>, dists: seq<nat>, last: bool, dmax: nat, out: seq<byte>,
                         s: seq<bool>, p: nat): Outcome
    requires |lens| <= 288 && |dists| <= 32
    decreases |s| - p, 0
  {
    if |s| <= p then NeedsMore(out)
    else
      match Lookup(lens, s[p..])
      case NeedMore => NeedsMore(out)
      case NoCode => Fails(out)
      case Found(v) =>
        var q := p + lens[v];
        if v < 256 then Symbols(rules, lens, dists, last, dmax, out + [v], s, q)
        else if v == 256 then Type(rules, last, dmax, out, s, q)
        else if v > 285 then Fails(out)
        else LengthBits(rules, LengthBase(v), LengthExtra(v), lens, dists, last, dmax, out, s, q)
  }

  ghost function LengthBits(rules: Rules, base: nat, extra: nat, lens: seq<nat>, dists: seq<nat>, last: bool, dmax: nat,
                            out: seq<byte>, s: seq<bool>, p: nat): Outcome
    requires |lens| <= 288 && |dists| <= 32
    decreases |s| - p, 4
  {
    if |s| < p + extra then NeedsMore(out)
    else Distance(rules, base + Field(s, p, extra), lens, dists, last, dmax, out, s, p + extra)
  }

  ghost function Distance(rules: Rules, len: nat, lens: seq<nat>, dists: seq<nat>, last: bool, dmax: nat,
                          out: seq<byte>, s: seq<bool>, p: nat): Outcome
    requires |lens| <= 288 && |dists| <= 32
    decreases |s| - p, 3
  {
    if |s| <= p then NeedsMore(out)
    else
      match Lookup(dists, s[p..])
      case NeedMore => NeedsMore(out)
      case NoCode => Fails(out)
      case Found(v) =>
        if v > 29 then Fails(out)
        else DistanceBits(rules, len, DistBase(v), DistExtra(v), lens, dists, last, dmax, out, s, p + dists[v])
  }

  ghost function DistanceBits(rules: Rules, len: nat, base: nat, extra: nat, lens: seq<nat>, dists: seq<nat>,
                              last: bool, dmax: nat, out: seq<byte>, s: seq<bool>, p: nat): Outcome
    requires |lens| <= 288 && |dists| <= 32
    decreases |s| - p, 2
  {
    if |s| < p + extra then NeedsMore(out)
    else if base + Field(s, p, extra) > dmax then Fails(out)
    else Match(rules, len, base + Field(s, p, extra), lens, dists, last, dmax, out, s, p + extra)
  }

  /** A match repeats `len` bytes from `dist` back, possibly running into what it writes. */
  ghost function Match(rules: Rules, len: nat, dist: nat, lens: seq<nat>, dists: seq<nat>, last: bool, dmax: nat,
                       out: seq<byte>, s: seq<bool>, p: nat): Outcome
    requires |lens| <= 288 && |dists| <= 32
    decreases |s| - p, 1
  {
    if dist == 0 || dist > |out| then Fails(out)
    else Symbols(rules, lens, dists, last, dmax, CopyMatch(out, dist, len), s, p)
  }

  function CopyMatch(out: seq<byte>, dist: nat, len: nat): (r: seq<byte>)
    requires 1 <= dist <= |out|
    ensures |r| == |out| + len
    decreases len
  {
    if len == 0 then out else CopyMatch(out + [out[|out| - dist]], dist, len - 1)
  }

  /** The meaning of a whole zlib stream. */
  ghost function Decode(rules: Rules, bytes: seq<byte>): Outcome {
    Header(rules, BytesBits(bytes), 0)
  }
}
