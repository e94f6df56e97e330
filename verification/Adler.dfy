/** The Adler-32 checksum (section 2.2 of RFC 1950) and the blockwise computation of it. */
module Adler {
  import opened Bits

  const BASE: nat := 65521

  /** s1: one plus the sum of all bytes, reduced at each byte. */
  function SumA(a: nat, s: seq<byte>): (r: nat)
    requires a < BASE
    ensures r < BASE
  {
    if s == [] then a else (SumA(a, s[..|s| - 1]) + s[|s| - 1]) % BASE
  }

  /** s2: the sum of all values of s1, reduced at each byte. */
  function SumB(a: nat, b: nat, s: seq<byte>): (r: nat)
    requires a < BASE && b < BASE
    ensures r < BASE
  {
    if s == [] then b else (SumB(a, b, s[..|s| - 1]) + SumA(a, s)) % BASE
  }

  /** The checksum of `s` continued from the checksum `adler` of what came before. */
  function Update(adler: nat, s: seq<byte>): (r: nat)
    requires Legal(adler)
    ensures Legal(r)
  {
    var a, b := SumA(adler % 65536, s), SumB(adler % 65536, adler / 65536, s);
    Join(a, b);
    a + 65536 * b
  }

  /** Both halves of the checksum are below the modulus. */
  predicate Legal(adler: nat) {
    adler % 65536 < BASE && adler / 65536 < BASE
  }

  lemma {:induction false} Join(a: nat, b: nat)
    requires a < BASE && b < BASE
    ensures (a + 65536 * b) % 65536 == a && (a + 65536 * b) / 65536 == b
  {
  }

  function Checksum(s: seq<byte>): nat {
    Update(1, s)
  }

  lemma {:induction false} SumConcat(a: nat, b: nat, s: seq<byte>, t: seq<byte>)
    requires a < BASE && b < BASE
    ensures SumA(a, s + t) == SumA(SumA(a, s), t)
    ensures SumB(a, b, s + t) == SumB(SumA(a, s), SumB(a, b, s), t)
  {
    if t == [] {
      assert s + t == s;
    } else {
      SumConcat(a, b, s, t[..|t| - 1]);
      assert (s + t)[..|s + t| - 1] == s + t[..|t| - 1];
    }
  }

  /** Checksumming two pieces in turn is checksumming them joined. */
  lemma {:induction false} UpdateConcat(adler: nat, s: seq<byte>, t: seq<byte>)
    requires Legal(adler)
    ensures Update(Update(adler, s), t) == Update(adler, s + t)
  {
    var a, b := adler % 65536, adler / 65536;
    SumConcat(a, b, s, t);
    Join(SumA(a, s), SumB(a, b, s));
  }

  // ----- the closed form -----

  /** The sum of all bytes. */
  function Total(s: seq<byte>): nat {
    if s == [] then 0 else s[0] + Total(s[1..])
  }

  /** The sum of all bytes, each times the number of bytes from it to the end. */
  function Weighted(s: seq<byte>): nat {
    if s == [] then 0 else |s| * s[0] + Weighted(s[1..])
  }

  lemma {:induction false} TotalOn(s: seq<byte>, x: byte)
    ensures Total(s + [x]) == Total(s) + x
    ensures Weighted(s + [x]) == Weighted(s) + Total(s) + x
  {
    if s == [] {
      assert (s + [x])[1..] == [];
    } else {
      assert (s + [x])[1..] == s[1..] + [x];
      TotalOn(s[1..], x);
      TimesNext(|s|, s[0]);
    }
  }

  lemma {:induction false} TimesNext(n: int, x: int)
    ensures (n + 1) * x == n * x + x
  {
  }

  lemma {:induction false} SumsOn(a: nat, b: nat, s: seq<byte>, x: byte)
    requires a < BASE && b < BASE
    ensures SumA(a, s + [x]) == (SumA(a, s) + x) % BASE
    ensures SumB(a, b, s + [x]) == (SumB(a, b, s) + SumA(a, s + [x])) % BASE
  {
    assert (s + [x])[..|s|] == s;
  }

  lemma {:induction false} NoSums(a: nat, b: nat)
    requires a < BASE && b < BASE
    ensures SumA(a, []) == a && SumB(a, b, []) == b && Total([]) == 0 && Weighted([]) == 0
  {
  }

  /** One more byte, on numbers. */
  lemma {:induction false} ClosedOn(m: nat, n: nat, x: nat, a: nat, b: nat, a': nat, b': nat)
    requires a == m % BASE && b == n % BASE && a' == (a + x) % BASE && b' == (b + a') % BASE
    ensures a' == (m + x) % BASE && b' == (n + m + x) % BASE
  {
    ModStep(m, x);
    ModStep(n, a');
    ModStep(m + x, n);
  }

  /** The two halves as section 2.2 of RFC 1950 gives them, continued from any start. */
  lemma {:induction false} SumsClosed(a: nat, b: nat, s: seq<byte>)
    requires a < BASE && b < BASE
    ensures SumA(a, s) == (a + Total(s)) % 65521
    ensures SumB(a, b, s) == (b + |s| * a + Weighted(s)) % 65521
  {
    hide SumA, SumB, Total, Weighted;
    if s == [] {
      NoSums(a, b);
    } else {
      var n := |s| - 1;
      var t, x := s[..n], s[n];
      assert s == t + [x];
      SumsClosed(a, b, t);
      SumsOn(a, b, t, x);
      TotalOn(t, x);
      TimesNext(n, a);
      ClosedOn(a + Total(t), b + n * a + Weighted(t), x, SumA(a, t), SumB(a, b, t), SumA(a, s), SumB(a, b, s));
    }
  }

  /** The checksum of a whole text: its bytes and its running sums, modulo 65521. */
  lemma {:induction false} ChecksumClosed(s: seq<byte>)
    ensures Checksum(s) % 65536 == (1 + Total(s)) % 65521
    ensures Checksum(s) / 65536 == (|s| + Weighted(s)) % 65521
  {
    hide SumA, SumB;
    SumsClosed(1, 0, s);
    Join(SumA(1, s), SumB(1, 0, s));
  }

  /** The checksum of a single letter, and of nothing. */
  lemma {:induction false} ChecksumExample()
    ensures Checksum([0x61]) == 0x0062_0062 && Checksum([]) == 1
  {
    assert [0x61 as byte][..0] == [];
  }

  lemma {:induction false} ModStep(x: nat, y: nat)
    ensures (x % BASE + y) % BASE == (x + y) % BASE
  {
  }

  /** `adler32`: reduces only once every 2000 bytes.  The sums stay below 2^31 throughout. */
  method Adler32(adler: nat, buf: array<byte>, len: nat, pos: nat) returns (r: nat)
    requires Legal(adler) && pos + len <= buf.Length
    ensures r == Update(adler, buf[pos..pos + len])
    ensures r % 65536 == (adler % 65536 + Total(buf[pos..pos + len])) % 65521
    ensures r / 65536 == (adler / 65536 + len * (adler % 65536) + Weighted(buf[pos..pos + len])) % 65521
  {
    var s1 := adler % 65536;
    var s2 := adler / 65536;
    var rest, p := len, pos;
    ghost var a, b := s1, s2;
    assert buf[pos..pos] == [];
    while rest != 0
      invariant p + rest == pos + len && pos <= p
      invariant s1 == SumA(a, buf[pos..p]) && s2 == SumB(a, b, buf[pos..p])
      decreases rest
    {
      var n := if rest > 2000 then 2000 else rest;
      rest := rest - n;
      s1, s2, p := Block(buf, pos, p, n, s1, s2, a, b);
      s1 := s1 % BASE;
      s2 := s2 % BASE;
    }
    r := s1 + 65536 * s2;
    SumsClosed(a, b, buf[pos..pos + len]);
    Join(s1, s2);
  }

  /** One block of at most 2000 bytes, without reduction. */
  method Block(buf: array<byte>, ghost pos: nat, start: nat, count: nat, a1: nat, b1: nat, ghost a: nat, ghost b: nat)
    returns (s1: nat, s2: nat, p: nat)
    requires a < BASE && b < BASE && pos <= start && start + count <= buf.Length && 1 <= count <= 2000
    requires a1 == SumA(a, buf[pos..start]) && b1 == SumB(a, b, buf[pos..start])
    ensures p == start + count
    ensures s1 % BASE == SumA(a, buf[pos..p]) && s2 % BASE == SumB(a, b, buf[pos..p])
    ensures s1 < 0x8000_0000 && s2 < 0x8000_0000
  {
    s1, s2, p := a1, b1, start;
    var n := count;
    while n != 0
      invariant 0 <= n <= count && p == start + count - n
      invariant s1 % BASE == SumA(a, buf[pos..p]) && s2 % BASE == SumB(a, b, buf[pos..p])
      invariant s1 <= 65520 + 255 * (count - n) && s2 <= 65520 + 575520 * (count - n)
      decreases n
    {
      assert buf[pos..p + 1][..|buf[pos..p + 1]| - 1] == buf[pos..p];
      ModStep(s1, buf[p]);
      s1 := s1 + buf[p];
      p := p + 1;
      ModStep(s2, s1);
      ModStep(s1, s2 % BASE);
      s2 := s2 + s1;
      n := n - 1;
    }
  }
}
