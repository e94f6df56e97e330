/** Bit strings, in the two orders that DEFLATE uses.

    A stream of bytes is read as a `seq<bool>` in stream order: the least significant bit of the
    first byte comes first (section 3.1.1 of RFC 1951).  Numbers are packed least significant bit
    first (`LVal`), Huffman codes most significant bit first (`MVal`).
 */
module Bits {

  type byte = x: int | 0 <= x < 256

  function Twice(x: nat): nat {
    x + x
  }

  function Pow2(n: nat): (r: nat)
    ensures r > 0
  {
    if n == 0 then 1 else Twice(Pow2(n - 1))
  }

  lemma {:induction false} Pow2Values()
    ensures Pow2(0) == 1
    ensures Pow2(1) == 2
    ensures Pow2(2) == 4
    ensures Pow2(3) == 8
    ensures Pow2(4) == 16
    ensures Pow2(5) == 32
    ensures Pow2(6) == 64
    ensures Pow2(7) == 128
    ensures Pow2(8) == 256
    ensures Pow2(9) == 512
    ensures Pow2(10) == 1024
    ensures Pow2(11) == 2048
    ensures Pow2(12) == 4096
    ensures Pow2(13) == 8192
    ensures Pow2(14) == 16384
    ensures Pow2(15) == 32768
    ensures Pow2(16) == 65536
  {
    assert Pow2(4) == 16;
    assert Pow2(8) == 256;
    assert Pow2(12) == 4096;
  }

  /** v * 2^k, by doubling. */
  function Scale(v: nat, k: nat): (r: nat) {
    if k == 0 then v else Twice(Scale(v, k - 1))
  }

  lemma {:induction false} ScaleIsMul(v: nat, k: nat)
    ensures Scale(v, k) == v * Pow2(k)
  {
    if k > 0 {
      ScaleIsMul(v, k - 1);
      MulTwice(v, Pow2(k - 1));
    }
  }

  lemma {:induction false} MulTwice(x: nat, y: nat)
    ensures x * Twice(y) == Twice(x * y)
  {
  }

  lemma {:induction false} ScaleOne(k: nat)
    ensures Scale(1, k) == Pow2(k)
  {
    if k > 0 {
      ScaleOne(k - 1);
    }
  }

  lemma {:induction false} ScaleZero(k: nat)
    ensures Scale(0, k) == 0
  {
    if k > 0 {
      ScaleZero(k - 1);
    }
  }

  lemma {:induction false} ScaleAdd(a: nat, b: nat, k: nat)
    ensures Scale(a + b, k) == Scale(a, k) + Scale(b, k)
  {
    if k > 0 {
      ScaleAdd(a, b, k - 1);
    }
  }

  lemma {:induction false} ScaleMono(a: nat, b: nat, k: nat)
    requires a <= b
    ensures Scale(a, k) <= Scale(b, k)
  {
    ScaleAdd(a, b - a, k);
  }

  lemma {:induction false} ScaleStrict(a: nat, b: nat, k: nat)
    requires a < b
    ensures Scale(a, k) + Pow2(k) <= Scale(b, k)
  {
    ScaleAdd(a, 1, k);
    ScaleOne(k);
    ScaleMono(a + 1, b, k);
  }

  lemma {:induction false} ScaleDouble(v: nat, k: nat)
    ensures Scale(Twice(v), k) == Twice(Scale(v, k)) == Scale(v, k + 1)
  {
    if k > 0 {
      ScaleDouble(v, k - 1);
    }
  }

  lemma {:induction false} ScaleScale(v: nat, a: nat, b: nat)
    ensures Scale(Scale(v, a), b) == Scale(v, a + b)
  {
    if b > 0 {
      ScaleScale(v, a, b - 1);
    }
  }

  lemma {:induction false} Pow2Add(a: nat, b: nat)
    ensures Pow2(a + b) == Scale(Pow2(a), b)
  {
    ScaleOne(a);
    ScaleScale(1, a, b);
    ScaleOne(a + b);
  }

  lemma {:induction false} Pow2Mono(a: nat, b: nat)
    requires a <= b
    ensures Pow2(a) <= Pow2(b)
  {
    if a < b {
      Pow2Mono(a, b - 1);
    }
  }

  function BitVal(b: bool): (v: nat) {
    if b then 1 else 0
  }

  /** The number whose binary digits are `b`, least significant digit first. */
  function LVal(b: seq<bool>): (v: nat)
    ensures v < Pow2(|b|)
  {
    if b == [] then 0 else BitVal(b[0]) + Twice(LVal(b[1..]))
  }

  /** The number whose binary digits are `b`, most significant digit first. */
  function MVal(b: seq<bool>): (v: nat)
    ensures v < Pow2(|b|)
  {
    if b == [] then 0 else Twice(MVal(b[..|b| - 1])) + BitVal(b[|b| - 1])
  }

  function LBits(v: nat, n: nat): (b: seq<bool>)
    ensures |b| == n
  {
    if n == 0 then [] else [v % 2 == 1] + LBits(v / 2, n - 1)
  }

  function MBits(v: nat, n: nat): (b: seq<bool>)
    ensures |b| == n
  {
    if n == 0 then [] else MBits(v / 2, n - 1) + [v % 2 == 1]
  }

  lemma {:induction false} LValLBits(v: nat, n: nat)
    requires v < Pow2(n)
    ensures LVal(LBits(v, n)) == v
  {
    if n > 0 {
      LValLBits(v / 2, n - 1);
      assert LBits(v, n)[1..] == LBits(v / 2, n - 1);
    }
  }

  lemma {:induction false} LBitsLVal(b: seq<bool>)
    ensures LBits(LVal(b), |b|) == b
  {
    if b != [] {
      LBitsLVal(b[1..]);
      assert LVal(b) / 2 == LVal(b[1..]);
    }
  }

  lemma {:induction false} MValMBits(v: nat, n: nat)
    requires v < Pow2(n)
    ensures MVal(MBits(v, n)) == v
  {
    if n > 0 {
      MValMBits(v / 2, n - 1);
      assert MBits(v, n)[..n - 1] == MBits(v / 2, n - 1);
    }
  }

  lemma {:induction false} MBitsMVal(b: seq<bool>)
    ensures MBits(MVal(b), |b|) == b
  {
    if b != [] {
      MBitsMVal(b[..|b| - 1]);
      assert MVal(b) / 2 == MVal(b[..|b| - 1]);
    }
  }

  /** Appending in stream order puts the new bits above the old ones. */
  lemma {:induction false} LValConcat(a: seq<bool>, b: seq<bool>)
    ensures LVal(a + b) == LVal(a) + Scale(LVal(b), |a|)
  {
    if a == [] {
      assert a + b == b;
    } else {
      LValConcat(a[1..], b);
      assert (a + b)[1..] == a[1..] + b;
    }
  }

  lemma {:induction false} MValConcat(a: seq<bool>, b: seq<bool>)
    ensures MVal(a + b) == Scale(MVal(a), |b|) + MVal(b)
  {
    if b == [] {
      assert a + b == a;
    } else {
      var b' := b[..|b| - 1];
      MValConcat(a, b');
      assert (a + b)[..|a + b| - 1] == a + b';
    }
  }

  lemma {:induction false} MulAtLeast(d: int, m: int)
    requires d >= 1 && m >= 0
    ensures d * m >= m
  {
  }

  lemma {:induction false} MulComm(x: int, y: int)
    ensures x * y == y * x
  {
  }

  lemma {:induction false} DivModUnique(v: nat, q: nat, r: nat, m: nat)
    requires m > 0 && r < m && v == r + m * q
    ensures v / m == q && v % m == r
  {
    var d := v / m - q;
    assert d * m == r - v % m;
    if d >= 1 {
      MulAtLeast(d, m);
    } else if d <= -1 {
      MulAtLeast(-d, m);
    }
  }

  /** The low n bits of a number. */
  function Low(v: nat, n: nat): nat {
    if n == 0 then 0 else v % 2 + Twice(Low(v / 2, n - 1))
  }

  /** A number without its low n bits. */
  function Shr(v: nat, n: nat): nat {
    if n == 0 then v else Shr(v / 2, n - 1)
  }

  lemma {:induction false} LowShr(v: nat, n: nat)
    ensures v == Low(v, n) + Scale(Shr(v, n), n) && Low(v, n) < Pow2(n)
  {
    if n > 0 {
      LowShr(v / 2, n - 1);
    }
  }

  /** Masking and shifting are remainder and quotient by a power of two. */
  lemma {:induction false} LowShrDivMod(v: nat, n: nat)
    ensures Low(v, n) == v % Pow2(n) && Shr(v, n) == v / Pow2(n)
  {
    LowShr(v, n);
    ScaleIsMul(Shr(v, n), n);
    MulComm(Shr(v, n), Pow2(n));
    DivModUnique(v, Shr(v, n), Low(v, n), Pow2(n));
  }

  /** Masking the low n bits keeps the first n bits of the stream; shifting drops them. */
  lemma {:induction false} LValSplit(b: seq<bool>, n: nat)
    requires n <= |b|
    ensures Low(LVal(b), n) == LVal(b[..n])
    ensures Shr(LVal(b), n) == LVal(b[n..])
  {
    if n == 0 {
      assert b[0..] == b;
    } else {
      LValSplit(b[1..], n - 1);
      assert b[1..][..n - 1] == b[..n][1..];
      assert b[1..][n - 1..] == b[n..];
      assert LVal(b) / 2 == LVal(b[1..]);
    }
  }

  lemma {:induction false} BitOf(c: seq<bool>, i: nat)
    requires i < |c|
    ensures Shr(LVal(c), i) % 2 == 1 <==> c[i]
  {
    LValSplit(c, i);
    assert c[i..][0] == c[i];
  }

  function Zeros(n: nat): (b: seq<bool>)
    ensures |b| == n
    ensures forall i :: 0 <= i < n ==> !b[i]
  {
    seq(n, i => false)
  }

  lemma {:induction false} ZerosVal(n: nat)
    ensures LVal(Zeros(n)) == 0
    ensures MVal(Zeros(n)) == 0
  {
    if n > 0 {
      ZerosVal(n - 1);
      assert Zeros(n)[1..] == Zeros(n - 1);
      assert Zeros(n)[..n - 1] == Zeros(n - 1);
    }
  }

  lemma {:induction false} LValInjective(a: seq<bool>, b: seq<bool>)
    requires |a| == |b| && LVal(a) == LVal(b)
    ensures a == b
  {
    LBitsLVal(a);
    LBitsLVal(b);
  }

  lemma {:induction false} MValInjective(a: seq<bool>, b: seq<bool>)
    requires |a| == |b| && MVal(a) == MVal(b)
    ensures a == b
  {
    MBitsMVal(a);
    MBitsMVal(b);
  }

  function Eight(n: nat): nat {
    Twice(Twice(Twice(n)))
  }

  /** The bits of a byte string, in stream order. */
  function BytesBits(s: seq<byte>): (b: seq<bool>)
    ensures |b| == Eight(|s|)
  {
    if s == [] then [] else LBits(s[0], 8) + BytesBits(s[1..])
  }

  lemma {:induction false} BitCount(b: seq<byte>)
    ensures |BytesBits(b)| == Eight(|b|)
  {
  }

  /** The i-th byte of a stream, and what is before it. */
  lemma {:induction false} BytesBitsAt(s: seq<byte>, i: nat)
    requires i < |s|
    ensures BytesBits(s)[Eight(i)..Eight(i) + 8] == LBits(s[i], 8)
  {
    if i == 0 {
      assert BytesBits(s)[..8] == LBits(s[0], 8);
    } else {
      BytesBitsAt(s[1..], i - 1);
      var r := BytesBits(s[1..]);
      assert BytesBits(s)[Eight(i)..Eight(i) + 8] == r[Eight(i - 1)..Eight(i - 1) + 8];
    }
  }

  /** What a stream begins with depends only on its first bytes. */
  lemma {:induction false} BytesBitsPrefix(s: seq<byte>, t: seq<byte>, i: nat)
    requires i <= |s| && i <= |t| && s[..i] == t[..i]
    ensures BytesBits(s)[..Eight(i)] == BytesBits(t)[..Eight(i)]
  {
    if i > 0 {
      assert s[1..][..i - 1] == s[..i][1..] == t[..i][1..] == t[1..][..i - 1];
      BytesBitsPrefix(s[1..], t[1..], i - 1);
      var x, y := BytesBits(s[1..]), BytesBits(t[1..]);
      assert s[0] == s[..i][0] == t[0];
      assert BytesBits(s)[..Eight(i)] == LBits(s[0], 8) + x[..Eight(i - 1)];
      assert BytesBits(t)[..Eight(i)] == LBits(t[0], 8) + y[..Eight(i - 1)];
    }
  }
}
