/** A zlib stream of stored blocks: what is put into it comes out. */
module StoredStreams {
  import opened Bits
  import opened Adler
  import opened StepStoredBlocks
  import Rfc = Rfc1951

  /** A 16-bit number, least significant byte first. */
  function Le16(n: nat): seq<byte>
    requires n < 65536
  {
    [n % 256, n / 256]
  }

  /** A 32-bit number, most significant byte first. */
  function Be32(n: nat): seq<byte>
    requires n < 0x1_0000_0000
  {
    var a := n / 256;
    var b := a / 256;
    [b / 256, b % 256, a % 256, n % 256]
  }

  /** One stored block (section 3.2.4 of RFC 1951): three header bits and padding, the length, its complement. */
  function Block(last: bool, x: seq<byte>): seq<byte>
    requires |x| < 65536
  {
    [if last then 1 else 0] + Le16(|x|) + Le16(65535 - |x|) + x
  }

  function Blocks(x: seq<byte>): seq<byte> {
    if |x| < 65536 then Block(true, x) else Block(false, x[..65535]) + Blocks(x[65535..])
  }

  lemma {:induction false} ChecksumRange(x: seq<byte>)
    ensures Checksum(x) < 0x1_0000_0000
  {
    hide SumA, SumB;
  }

  /** A whole stream: window size 2^15, no dictionary, the blocks, the checksum. */
  function StoredStream(x: seq<byte>): seq<byte> {
    ChecksumRange(x);
    [0x78, 0x01] + Blocks(x) + Be32(Checksum(x))
  }

  // ----- fields at byte positions -----

  lemma {:induction false} ByteField(b: seq<byte>, i: nat)
    requires i < |b|
    ensures Eight(i) + 8 <= |BytesBits(b)| && Rfc.Field(BytesBits(b), Eight(i), 8) == b[i]
  {
    hide LVal, BytesBits, Eight;
    ByteAtIs(b, i);
  }

  lemma {:induction false} FieldSplit(s: seq<bool>, p: nat, m: nat, n: nat)
    requires p + m + n <= |s|
    ensures Rfc.Field(s, p, m + n) == Rfc.Field(s, p, m) + Scale(Rfc.Field(s, p + m, n), m)
    ensures Low(Rfc.Field(s, p, m + n), m) == Rfc.Field(s, p, m)
    ensures Shr(Rfc.Field(s, p, m + n), m) == Rfc.Field(s, p + m, n)
  {
    hide LVal, Low, Shr, Scale;
    assert s[p..p + (m + n)] == s[p..p + m] + s[p + m..p + m + n];
    LValConcat(s[p..p + m], s[p + m..p + m + n]);
    LValSplit(s[p..p + (m + n)], m);
    assert s[p..p + (m + n)][..m] == s[p..p + m];
    assert s[p..p + (m + n)][m..] == s[p + m..p + m + n];
  }

  function Word(a: nat, b: nat): nat {
    a + b * 256
  }

  lemma {:induction false} WordField(b: seq<byte>, i: nat)
    requires i + 1 < |b|
    ensures Eight(i) + 16 <= |BytesBits(b)| && Rfc.Field(BytesBits(b), Eight(i), 16) == Word(b[i], b[i + 1])
  {
    hide Rfc.Field, BytesBits, Scale, Pow2, Low, Shr;
    ByteField(b, i);
    ByteField(b, i + 1);
    assert Eight(i + 1) == Eight(i) + 8;
    FieldSplit(BytesBits(b), Eight(i), 8, 8);
    ScaleIsMul(b[i + 1], 8);
    Pow2Values();
  }

  /** A field of one bit, and fields of a number with few bits. */
  lemma {:induction false} BitField(s: seq<bool>, p: nat)
    requires p < |s|
    ensures Rfc.Field(s, p, 1) == if s[p] then 1 else 0
  {
    assert s[p..p + 1] == [s[p]];
  }

  lemma {:induction false} SmallNumbers()
    ensures Low(0, 1) == 0 && Low(0, 2) == 0 && Low(1, 1) == 1 && Shr(0, 1) == 0 && Shr(1, 1) == 0 && Shr(1, 5) == 0
    ensures Low(0x78, 4) == 8 && Shr(0x78, 4) == 7
  {
    hide Low, Shr, Pow2;
    Pow2Values();
    LowShrDivMod(0, 1);
    LowShrDivMod(0, 2);
    LowShrDivMod(1, 1);
    LowShrDivMod(1, 5);
    LowShrDivMod(0x78, 4);
  }

  /** The three header bits of a stored block. */
  lemma {:induction false} BlockBits(b: seq<byte>, i: nat)
    requires i < |b| && b[i] <= 1
    ensures var s, p := BytesBits(b), Eight(i);
            p + 8 <= |s| && (s[p] <==> b[i] == 1) && Rfc.Field(s, p + 1, 2) == 0
  {
    hide Rfc.Field, BytesBits, Low, Shr, Eight, Scale;
    var s, p := BytesBits(b), Eight(i);
    ByteField(b, i);
    SmallNumbers();
    FieldSplit(s, p, 1, 7);
    BitField(s, p);
    FieldSplit(s, p + 1, 2, 5);
  }

  /** The two header bytes. */
  lemma {:induction false} HeaderBits(b: seq<byte>)
    requires |b| >= 2 && b[0] == 0x78 && b[1] == 1
    ensures var s := BytesBits(b);
            && |s| >= 16 && Rfc.Field(s, 0, 8) == 0x78 && Rfc.Field(s, 8, 8) == 1
            && Rfc.Field(s, 0, 4) == 8 && Rfc.Field(s, 4, 4) == 7 && !s[13]
  {
    hide Rfc.Field, BytesBits, Low, Shr, Scale;
    var s := BytesBits(b);
    ByteField(b, 0);
    ByteField(b, 1);
    SmallNumbers();
    FieldSplit(s, 0, 4, 4);
    FieldSplit(s, 8, 5, 3);
    FieldSplit(s, 13, 1, 2);
    BitField(s, 13);
  }

  // ----- decoding -----

  lemma {:induction false} NextByte(i: nat)
    ensures Rfc.Aligned(Eight(i) + 3) == Eight(i + 1) && Rfc.Aligned(Eight(i)) == Eight(i)
    ensures Eight(i + 1) == Eight(i) + 8 && Eight(i + 4) == Eight(i) + 32 && Eight(i + 2) == Eight(i) + 16
  {
    assert Eight(i) == 8 * i;
  }

  lemma {:induction false} Le16Word(n: nat)
    requires n < 65536
    ensures |Le16(n)| == 2 && Word(Le16(n)[0], Le16(n)[1]) == n
  {
  }

  /** The bytes of a block, by position. */
  lemma {:induction false} BlockAt(b: seq<byte>, i: nat, last: bool, x: seq<byte>)
    requires |x| < 65536 && i + 5 + |x| <= |b| && b[i..i + 5 + |x|] == Block(last, x)
    ensures b[i] == (if last then 1 else 0) && b[i + 5..i + 5 + |x|] == x
    ensures Word(b[i + 1], b[i + 2]) == |x| && Word(b[i + 3], b[i + 4]) == 65535 - |x|
  {
    hide Le16, Word;
    Le16Word(|x|);
    Le16Word(65535 - |x|);
    var c := b[i..i + 5 + |x|];
    assert c[0] == b[i] && c[1] == b[i + 1] && c[2] == b[i + 2] && c[3] == b[i + 3] && c[4] == b[i + 4];
    assert c[5..] == b[i + 5..i + 5 + |x|];
    assert Block(last, x)[5..] == x;
  }

  lemma {:induction false} BlockTrip(rules: Rfc.Rules, b: seq<byte>, i: nat, last: bool, x: seq<byte>, dmax: nat,
                                     out: seq<byte>)
    requires |x| < 65536 && i + 5 + |x| <= |b| && b[i..i + 5 + |x|] == Block(last, x)
    ensures Rfc.Type(rules, false, dmax, out, BytesBits(b), Eight(i)) ==
            Rfc.Type(rules, last, dmax, out + x, BytesBits(b), Eight(i + 5 + |x|))
  {
    hide Block, Word, BytesBits, Rfc.Field, Rfc.Copy, Rfc.Type, Eight, Rfc.Aligned;
    BlockAt(b, i, last, x);
    BlockBits(b, i);
    WordField(b, i + 1);
    WordField(b, i + 3);
    NextByte(i);
    NextByte(i + 1);
    CopyRun(rules, |x|, |x|, last, dmax, out, b, i + 5);
    StoredGoes(rules, b, i, last, |x|, dmax, out);
    CopyEnd(rules, last, dmax, out + x, BytesBits(b), Eight(i + 5 + |x|));
  }

  lemma {:induction false} StoredGoes(rules: Rfc.Rules, b: seq<byte>, i: nat, last: bool, n: nat, dmax: nat,
                                      out: seq<byte>)
    requires i + 5 <= |b| && n < 65536
    requires var s, p := BytesBits(b), Eight(i);
             && p + 40 <= |s| && s[p] == last && Rfc.Field(s, p + 1, 2) == 0
             && Rfc.Aligned(p + 3) == p + 8 && Eight(i + 5) == p + 40
             && Rfc.Field(s, p + 8, 16) == n && Rfc.Field(s, p + 24, 16) == 65535 - n
    ensures Rfc.Type(rules, false, dmax, out, BytesBits(b), Eight(i)) == Rfc.Copy(rules, n, last, dmax, out,
        BytesBits(b), Eight(i + 5))
  {
    hide Rfc.Copy, Rfc.Field, BytesBits, Eight, Rfc.Aligned, Rfc.Symbols, Rfc.Table, Rfc.Trailer;
  }

  lemma {:induction false} CopyEnd(rules: Rfc.Rules, last: bool, dmax: nat, out: seq<byte>, s: seq<bool>, p: nat)
    ensures Rfc.Copy(rules, 0, last, dmax, out, s, p) == Rfc.Type(rules, last, dmax, out, s, p)
  {
    hide Rfc.Type;
  }

  /** All blocks. */
  lemma {:induction false} BlocksTrip(rules: Rfc.Rules, b: seq<byte>, i: nat, x: seq<byte>, dmax: nat, out: seq<byte>)
    requires i + |Blocks(x)| <= |b| && b[i..i + |Blocks(x)|] == Blocks(x)
    ensures Rfc.Type(rules, false, dmax, out, BytesBits(b), Eight(i))
            == Rfc.Type(rules, true, dmax, out + x, BytesBits(b), Eight(i + |Blocks(x)|))
    decreases |x|
  {
    hide Rfc.Type, BytesBits, Eight;
    if |x| < 65536 {
      BlockTrip(rules, b, i, true, x, dmax, out);
    } else {
      var first, rest := x[..65535], x[65535..];
      var n := 5 + |first|;
      assert |Block(false, first)| == n;
      assert b[i..i + n] == Block(false, first) by {
        assert b[i..i + |Blocks(x)|][..n] == b[i..i + n];
      }
      assert b[i + n..i + n + |Blocks(rest)|] == Blocks(rest) by {
        assert b[i..i + |Blocks(x)|][n..] == b[i + n..i + n + |Blocks(rest)|];
      }
      BlockTrip(rules, b, i, false, first, dmax, out);
      BlocksTrip(rules, b, i + n, rest, dmax, out + first);
      assert out + first + rest == out + x;
    }
  }

  lemma {:induction false} Be32Value(n: nat)
    requires n < 0x1_0000_0000
    ensures var q := Be32(n);
            |q| == 4 && q[0] as nat * 0x100_0000 + q[1] as nat * 0x1_0000 + q[2] as nat * 0x100 + q[3] as nat == n
  {
  }

  /** The trailer. */
  lemma {:induction false} TrailerTrip(rules: Rfc.Rules, b: seq<byte>, i: nat, dmax: nat, out: seq<byte>)
    requires i + 4 == |b| && Checksum(out) < 0x1_0000_0000 && b[i..] == Be32(Checksum(out))
    ensures Rfc.Type(rules, true, dmax, out, BytesBits(b), Eight(i)) == Rfc.Outcome(Rfc.Done, out, Eight(|b|))
  {
    hide Rfc.Field, BytesBits, Eight, Checksum, Be32, Rfc.Aligned;
    Be32Value(Checksum(out));
    assert b[i..][0] == b[i] && b[i..][1] == b[i + 1] && b[i..][2] == b[i + 2] && b[i..][3] == b[i + 3];
    ByteField(b, i);
    ByteField(b, i + 1);
    ByteField(b, i + 2);
    ByteField(b, i + 3);
    NextByte(i);
    NextByte(i + 1);
    NextByte(i + 2);
  }

  /** Any data, put into a stream of stored blocks, is what the stream decodes to, and all of the stream is used. */
  lemma {:induction false} StoredRoundTrip(rules: Rfc.Rules, x: seq<byte>)
    ensures Rfc.Decode(rules, StoredStream(x)) == Rfc.Outcome(Rfc.Done, x, Eight(|StoredStream(x)|))
  {
    hide Rfc.Field, BytesBits, Checksum, Be32, Rfc.Type, Blocks;
    ChecksumRange(x);
    var b := StoredStream(x);
    HeaderBits(b);
    var n := |Blocks(x)|;
    assert b[2..2 + n] == Blocks(x);
    assert b[2 + n..] == Be32(Checksum(x));
    Be32Value(Checksum(x));
    BlocksTrip(rules, b, 2, x, Pow2(15), []);
    assert [] + x == x;
    TrailerTrip(rules, b, 2 + n, Pow2(15), x);
  }
}
