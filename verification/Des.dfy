/** The block cipher of the VNC authentication: swap networks around sixteen Feistel rounds, on 32-bit words.

    The keys and the tables SP1 to SP8 may be anything; what is proved does not depend on them.
 */
module Des {
  /** The eight tables of 64 words each. */
  datatype Boxes = Boxes(sp1: bv6 -> bv32, sp2: bv6 -> bv32, sp3: bv6 -> bv32, sp4: bv6 -> bv32,
                         sp5: bv6 -> bv32, sp6: bv6 -> bv32, sp7: bv6 -> bv32, sp8: bv6 -> bv32)

  datatype Pair = Pair(l: bv32, r: bv32)

  function Swapped(p: Pair): Pair {
    Pair(p.r, p.l)
  }

  // ----- words -----

  function Xor(a: bv32, b: bv32): bv32 {
    a ^ b
  }

  /** The bits of the mask in which `a`, shifted, and `b` differ. */
  function Differing(a: bv32, b: bv32, n: bv6, m: bv32): bv32
    requires n < 32
  {
    ((a >> n) ^ b) & m
  }

  function Raised(x: bv32, n: bv6): bv32
    requires n < 32
  {
    x << n
  }

  function CrossMask(a: bv32, b: bv32): bv32 {
    (a ^ b) & 0xaaaa_aaaa
  }

  function RotateLeft(x: bv32): bv32 {
    (x << 1) | ((x >> 31) & 1)
  }

  function RotateRight(x: bv32): bv32 {
    (x << 31) | (x >> 1)
  }

  lemma {:induction false} XorTwice(a: bv32, x: bv32)
    ensures Xor(Xor(a, x), x) == a
  {
  }

  lemma {:induction false} CrossMasks(a: bv32, b: bv32)
    ensures var x := CrossMask(a, b);
            CrossMask(Xor(a, x), Xor(b, x)) == x && CrossMask(b, a) == x
  {
  }

  lemma {:induction false} RotateBack(x: bv32)
    ensures RotateLeft(RotateRight(x)) == x && RotateRight(RotateLeft(x)) == x
  {
  }

  /** Exchanging the differing bits leaves the same bits differing. */
  lemma {:induction false} Differ4(a: bv32, b: bv32)
    ensures var x := Differing(a, b, 4, 0x0f0f_0f0f);
            Differing(Xor(a, Raised(x, 4)), Xor(b, x), 4, 0x0f0f_0f0f) == x
  {
  }

  lemma {:induction false} Differ16(a: bv32, b: bv32)
    ensures var x := Differing(a, b, 16, 0x0000_ffff);
            Differing(Xor(a, Raised(x, 16)), Xor(b, x), 16, 0x0000_ffff) == x
  {
  }

  lemma {:induction false} Differ2(a: bv32, b: bv32)
    ensures var x := Differing(a, b, 2, 0x3333_3333);
            Differing(Xor(a, Raised(x, 2)), Xor(b, x), 2, 0x3333_3333) == x
  {
  }

  lemma {:induction false} Differ8(a: bv32, b: bv32)
    ensures var x := Differing(a, b, 8, 0x00ff_00ff);
            Differing(Xor(a, Raised(x, 8)), Xor(b, x), 8, 0x00ff_00ff) == x
  {
  }

  // ----- one round -----

  /** The sum of the table entries for the two round keys. */
  function F(b: Boxes, half: bv32, k0: bv32, k1: bv32): bv32 {
    var x := ((half << 28) | (half >> 4)) ^ k0;
    var y := half ^ k1;
    b.sp7((x & 0x3f) as bv6) | b.sp5(((x >> 8) & 0x3f) as bv6)
    | b.sp3(((x >> 16) & 0x3f) as bv6) | b.sp1(((x >> 24) & 0x3f) as bv6)
    | b.sp8((y & 0x3f) as bv6) | b.sp6(((y >> 8) & 0x3f) as bv6)
    | b.sp4(((y >> 16) & 0x3f) as bv6) | b.sp2(((y >> 24) & 0x3f) as bv6)
  }

  /** The eight tables by number. */
  function Table(b: Boxes, j: bv6): bv6 -> bv32
    requires 1 <= j <= 8
  {
    match j
    case 1 => b.sp1 case 2 => b.sp2 case 3 => b.sp3 case 4 => b.sp4
    case 5 => b.sp5 case 6 => b.sp6 case 7 => b.sp7 case _ => b.sp8
  }

  /** Turned right by n places. */
  function Turned(x: bv32, n: bv6): bv32
    requires n < 32
  {
    (x >> n) | (x << (32 - n))
  }

  /** The low six bits of a word, xored with six bits of a key word from the n-th up. */
  function Six(x: bv32, key: bv32, n: bv6): bv6
    requires n < 32
  {
    ((x ^ (key >> n)) & 0x3f) as bv6
  }

  /** What the j-th table adds.  Its index is six consecutive bits of the half, four bits further to the right for
      each table, xored with key bits: the odd tables use the first key word and the even ones the second, a byte for
      each table from the high one down. */
  function Share(b: Boxes, half: bv32, k0: bv32, k1: bv32, j: bv6): bv32
    requires 1 <= j <= 8
  {
    Table(b, j)(Six(Turned(half, 32 - 4 * j), if j % 2 == 1 then k0 else k1, 8 * ((8 - j) / 2)))
  }

  /** One law for all eight tables. */
  lemma {:induction false} RoundShares(b: Boxes, half: bv32, k0: bv32, k1: bv32)
    ensures F(b, half, k0, k1) ==
              Share(b, half, k0, k1, 1) | Share(b, half, k0, k1, 2) | Share(b, half, k0, k1, 3)
              | Share(b, half, k0, k1, 4) | Share(b, half, k0, k1, 5) | Share(b, half, k0, k1, 6)
              | Share(b, half, k0, k1, 7) | Share(b, half, k0, k1, 8)
  {
    hide Six, Turned;
    Indices(half, k0, k1);
  }

  lemma {:induction false} Indices(half: bv32, k0: bv32, k1: bv32)
    ensures var x := ((half << 28) | (half >> 4)) ^ k0;
            && Six(Turned(half, 4), k0, 0) == (x & 0x3f) as bv6
            && Six(Turned(half, 12), k0, 8) == ((x >> 8) & 0x3f) as bv6
            && Six(Turned(half, 20), k0, 16) == ((x >> 16) & 0x3f) as bv6
            && Six(Turned(half, 28), k0, 24) == ((x >> 24) & 0x3f) as bv6
    ensures var y := half ^ k1;
            && Six(Turned(half, 0), k1, 0) == (y & 0x3f) as bv6
            && Six(Turned(half, 8), k1, 8) == ((y >> 8) & 0x3f) as bv6
            && Six(Turned(half, 16), k1, 16) == ((y >> 16) & 0x3f) as bv6
            && Six(Turned(half, 24), k1, 24) == ((y >> 24) & 0x3f) as bv6
  {
    hide Six, Turned;
    OddIndex(half, k0, 0);
    OddIndex(half, k0, 8);
    OddIndex(half, k0, 16);
    OddIndex(half, k0, 24);
    EvenIndex(half, k1, 0);
    EvenIndex(half, k1, 8);
    EvenIndex(half, k1, 16);
    EvenIndex(half, k1, 24);
  }

  lemma {:induction false} OddIndex(half: bv32, k: bv32, n: bv6)
    requires n <= 24
    ensures var x := ((half << 28) | (half >> 4)) ^ k;
            Six(Turned(half, n + 4), k, n) == ((x >> n) & 0x3f) as bv6
  {
  }

  lemma {:induction false} EvenIndex(half: bv32, k: bv32, n: bv6)
    requires n <= 24
    ensures Six(Turned(half, n), k, n) == (((half ^ k) >> n) & 0x3f) as bv6
  {
  }

  /** A round and the exchange of the halves, as in the description of the algorithm. */
  function Round(b: Boxes, p: Pair, k: (bv32, bv32)): Pair {
    Pair(p.r, Xor(p.l, F(b, p.r, k.0, k.1)))
  }

  /** A round adds the shares of all tables to one half and exchanges the halves. */
  lemma {:induction false} RoundIs(b: Boxes, p: Pair, k0: bv32, k1: bv32)
    ensures Round(b, p, (k0, k1)).l == p.r
    ensures Round(b, p, (k0, k1)).r == p.l ^ (
              Share(b, p.r, k0, k1, 1) | Share(b, p.r, k0, k1, 2) | Share(b, p.r, k0, k1, 3)
              | Share(b, p.r, k0, k1, 4) | Share(b, p.r, k0, k1, 5) | Share(b, p.r, k0, k1, 6)
              | Share(b, p.r, k0, k1, 7) | Share(b, p.r, k0, k1, 8))
  {
    hide F, Share;
    RoundShares(b, p.r, k0, k1);
  }

  function Rounds(b: Boxes, p: Pair, ks: seq<(bv32, bv32)>): Pair {
    if ks == [] then p else Round(b, Rounds(b, p, ks[..|ks| - 1]), ks[|ks| - 1])
  }

  // ----- the swap networks -----

  /** Exchanges the bits of `m` in the second word with those n places higher in the first. */
  function Delta(p: Pair, n: bv6, m: bv32): Pair
    requires n < 32
  {
    var x := Differing(p.l, p.r, n, m);
    Pair(Xor(p.l, Raised(x, n)), Xor(p.r, x))
  }

  function Cross(p: Pair): Pair {
    var x := CrossMask(p.l, p.r);
    Pair(Xor(p.l, x), Xor(p.r, x))
  }

  function Initial(p: Pair): Pair {
    var a := Delta(p, 4, 0x0f0f_0f0f);
    var b := Delta(a, 16, 0x0000_ffff);
    var c := Swapped(Delta(Swapped(b), 2, 0x3333_3333));
    var d := Swapped(Delta(Swapped(c), 8, 0x00ff_00ff));
    var e := Cross(Pair(d.l, RotateLeft(d.r)));
    Pair(RotateLeft(e.l), e.r)
  }

  function Final(p: Pair): Pair {
    var e := Cross(Pair(p.l, RotateRight(p.r)));
    var d := Pair(RotateRight(e.l), e.r);
    var c := Delta(d, 8, 0x00ff_00ff);
    var b := Delta(c, 2, 0x3333_3333);
    var a := Swapped(Delta(Swapped(b), 16, 0x0000_ffff));
    Swapped(Delta(Swapped(a), 4, 0x0f0f_0f0f))
  }

  lemma {:induction false} DeltaTwice4(p: Pair)
    ensures Delta(Delta(p, 4, 0x0f0f_0f0f), 4, 0x0f0f_0f0f) == p
  {
    hide Xor, Differing, Raised;
    var x := Differing(p.l, p.r, 4, 0x0f0f_0f0f);
    Differ4(p.l, p.r);
    XorTwice(p.l, Raised(x, 4));
    XorTwice(p.r, x);
  }

  lemma {:induction false} DeltaTwice16(p: Pair)
    ensures Delta(Delta(p, 16, 0x0000_ffff), 16, 0x0000_ffff) == p
  {
    hide Xor, Differing, Raised;
    var x := Differing(p.l, p.r, 16, 0x0000_ffff);
    Differ16(p.l, p.r);
    XorTwice(p.l, Raised(x, 16));
    XorTwice(p.r, x);
  }

  lemma {:induction false} DeltaTwice2(p: Pair)
    ensures Delta(Delta(p, 2, 0x3333_3333), 2, 0x3333_3333) == p
  {
    hide Xor, Differing, Raised;
    var x := Differing(p.l, p.r, 2, 0x3333_3333);
    Differ2(p.l, p.r);
    XorTwice(p.l, Raised(x, 2));
    XorTwice(p.r, x);
  }

  lemma {:induction false} DeltaTwice8(p: Pair)
    ensures Delta(Delta(p, 8, 0x00ff_00ff), 8, 0x00ff_00ff) == p
  {
    hide Xor, Differing, Raised;
    var x := Differing(p.l, p.r, 8, 0x00ff_00ff);
    Differ8(p.l, p.r);
    XorTwice(p.l, Raised(x, 8));
    XorTwice(p.r, x);
  }

  lemma {:induction false} CrossTwice(p: Pair)
    ensures Cross(Cross(p)) == p && Cross(Swapped(p)) == Swapped(Cross(p))
  {
    hide Xor, CrossMask;
    var x := CrossMask(p.l, p.r);
    CrossMasks(p.l, p.r);
    XorTwice(p.l, x);
    XorTwice(p.r, x);
  }

  /** The final network undoes the initial one on exchanged halves, and the other way round. */
  lemma {:induction false} InitialFinal(p: Pair)
    ensures Initial(Swapped(Final(p))) == Swapped(p)
  {
    hide Delta, Cross, RotateLeft, RotateRight;
    var e := Cross(Pair(p.l, RotateRight(p.r)));
    var d := Pair(RotateRight(e.l), e.r);
    var c := Delta(d, 8, 0x00ff_00ff);
    var b := Delta(c, 2, 0x3333_3333);
    var a := Delta(Swapped(b), 16, 0x0000_ffff);
    var z := Delta(a, 4, 0x0f0f_0f0f);
    assert Swapped(Final(p)) == z;
    DeltaTwice4(a);
    DeltaTwice16(Swapped(b));
    DeltaTwice2(c);
    DeltaTwice8(d);
    RotateBack(e.l);
    CrossTwice(Pair(p.l, RotateRight(p.r)));
    CrossTwice(e);
    RotateBack(p.r);
  }

  lemma {:induction false} FinalInitial(p: Pair)
    ensures Final(Swapped(Initial(p))) == Swapped(p)
  {
    hide Delta, Cross, RotateLeft, RotateRight;
    var a := Delta(p, 4, 0x0f0f_0f0f);
    var b := Delta(a, 16, 0x0000_ffff);
    var c := Delta(Swapped(b), 2, 0x3333_3333);
    var d := Delta(c, 8, 0x00ff_00ff);
    var f := Pair(Swapped(d).l, RotateLeft(Swapped(d).r));
    var e := Cross(f);
    assert Initial(p) == Pair(RotateLeft(e.l), e.r);
    RotateBack(e.l);
    CrossTwice(e);
    CrossTwice(f);
    RotateBack(d.l);
    DeltaTwice8(c);
    DeltaTwice2(Swapped(b));
    DeltaTwice16(a);
    DeltaTwice4(p);
  }

  // ----- where the bits go -----

  /** The n-th bit of a word, and of a block, counted from zero on the left. */
  predicate WordBit(x: bv32, n: bv6)
    requires n < 32
  {
    (x >> (31 - n)) & 1 == 1
  }

  predicate Bit(p: Pair, n: bv6) {
    if n < 32 then WordBit(p.l, n) else WordBit(p.r, n - 32)
  }

  /** The initial permutation of FIPS PUB 46-3, as a rule for its row r and column c: the even bits of the eight
      bytes make the left half and the odd bits the right one, the last byte first. */
  predicate InPlace(q: Pair, p: Pair, r: bv6, c: bv6)
    requires r < 4 && c < 8
  {
    && WordBit(q.l, 8 * r + c) == Bit(p, 57 + 2 * r - 8 * c)
    && WordBit(q.r, 8 * r + c) == Bit(p, 56 + 2 * r - 8 * c)
  }

  ghost predicate Permuted(q: Pair, p: Pair) {
    forall r: bv6, c: bv6 :: r < 4 && c < 8 ==> InPlace(q, p, r, c)
  }

  /** The halves, which the program keeps rotated by one bit. */
  function Unrotated(p: Pair): Pair {
    Pair(RotateRight(p.l), RotateRight(p.r))
  }

  /** The position that a step of a network takes a bit from: where the digits for 32 and n of the position are the
      same, both change. */
  function Moved(i: bv6, n: bv6): bv6 {
    if (i & 32 == 0) == (i & n == 0) then i ^ 32 ^ n else i
  }

  lemma {:induction false} Moved4(p: Pair, i: bv6)
    ensures Bit(Delta(p, 4, 0x0f0f_0f0f), i) == Bit(p, Moved(i, 4))
  {
  }

  lemma {:induction false} Moved16(p: Pair, i: bv6)
    ensures Bit(Delta(p, 16, 0x0000_ffff), i) == Bit(p, Moved(i, 16))
  {
  }

  lemma {:induction false} Moved2(p: Pair, i: bv6)
    ensures Bit(Delta(p, 2, 0x3333_3333), i) == Bit(p, Moved(i, 2))
  {
  }

  lemma {:induction false} Moved8(p: Pair, i: bv6)
    ensures Bit(Delta(p, 8, 0x00ff_00ff), i) == Bit(p, Moved(i, 8))
  {
  }

  lemma {:induction false} Crossed(p: Pair, i: bv6)
    ensures Bit(Cross(p), i) == Bit(p, if i & 1 == 0 then i ^ 32 else i)
  {
  }

  lemma {:induction false} RotatedBit(x: bv32, n: bv6)
    requires n < 32
    ensures WordBit(RotateLeft(x), n) == WordBit(x, (n + 1) & 31)
    ensures WordBit(RotateRight(x), n) == WordBit(x, (n - 1) & 31)
  {
  }

  lemma {:induction false} SwappedBit(p: Pair, i: bv6)
    ensures Bit(Swapped(p), i) == Bit(p, i ^ 32)
  {
  }

  /** The four steps of the initial network before the halves are rotated. */
  function FourBack(i: bv6): bv6 {
    Moved(Moved(Moved(Moved(i, 8), 2) ^ 32, 16), 4)
  }

  lemma {:induction false} FourMoved(p: Pair, i: bv6)
    ensures var b := Delta(Delta(p, 4, 0x0f0f_0f0f), 16, 0x0000_ffff);
            var d := Delta(Delta(Swapped(b), 2, 0x3333_3333), 8, 0x00ff_00ff);
            Bit(d, i) == Bit(p, FourBack(i))
  {
    hide Delta, Bit, Moved;
    var a := Delta(p, 4, 0x0f0f_0f0f);
    var b := Delta(a, 16, 0x0000_ffff);
    var c := Delta(Swapped(b), 2, 0x3333_3333);
    var j := Moved(Moved(i, 8), 2) ^ 32;
    Moved8(c, i);
    Moved2(Swapped(b), Moved(i, 8));
    SwappedBit(b, Moved(Moved(i, 8), 2));
    Moved16(a, j);
    Moved4(p, Moved(j, 16));
  }

  /** Its last step, with the rotations around it. */
  lemma {:induction false} CrossMoved(d: Pair, i: bv6)
    requires i < 32
    ensures var e := Cross(Pair(d.r, RotateLeft(d.l)));
            && WordBit(e.l, i) == Bit(d, if i & 1 == 0 then i + 1 else i + 32)
            && WordBit(RotateRight(e.r), i) == Bit(d, if i & 1 == 0 then i else i + 31)
  {
    hide Cross, RotateLeft, RotateRight, WordBit;
    var f := Pair(d.r, RotateLeft(d.l));
    var e := Cross(f);
    Crossed(f, i);
    Crossed(f, ((i - 1) & 31) + 32);
    RotatedBit(e.r, i);
    RotatedBit(d.l, i);
    RotatedBit(d.l, (i - 1) & 31);
  }

  /** What the five steps come to. */
  lemma {:induction false} AllMoved(r: bv6, c: bv6)
    requires r < 4 && c < 8
    ensures var i := 8 * r + c;
            && i < 32
            && FourBack(if i & 1 == 0 then i + 1 else i + 32) == 57 + 2 * r - 8 * c
            && FourBack(if i & 1 == 0 then i else i + 31) == 56 + 2 * r - 8 * c
  {
  }

  lemma {:induction false} InitialSteps(p: Pair)
    ensures var b := Delta(Delta(p, 4, 0x0f0f_0f0f), 16, 0x0000_ffff);
            var d := Delta(Delta(Swapped(b), 2, 0x3333_3333), 8, 0x00ff_00ff);
            var e := Cross(Pair(d.r, RotateLeft(d.l)));
            Unrotated(Initial(p)) == Pair(e.l, RotateRight(e.r))
  {
    hide Delta, Cross, RotateLeft, RotateRight;
    var b := Delta(Delta(p, 4, 0x0f0f_0f0f), 16, 0x0000_ffff);
    var d := Delta(Delta(Swapped(b), 2, 0x3333_3333), 8, 0x00ff_00ff);
    RotateBack(Cross(Pair(d.r, RotateLeft(d.l))).l);
  }

  lemma {:induction false} InitialPlace(p: Pair, r: bv6, c: bv6)
    requires r < 4 && c < 8
    ensures InPlace(Unrotated(Initial(p)), p, r, c)
  {
    hide Delta, Cross, WordBit, Bit, RotateLeft, RotateRight, FourBack, Initial, Unrotated;
    var b := Delta(Delta(p, 4, 0x0f0f_0f0f), 16, 0x0000_ffff);
    var d := Delta(Delta(Swapped(b), 2, 0x3333_3333), 8, 0x00ff_00ff);
    var i := 8 * r + c;
    AllMoved(r, c);
    var x, y := if i & 1 == 0 then i + 1 else i + 32, if i & 1 == 0 then i else i + 31;
    InitialSteps(p);
    CrossMoved(d, i);
    FourMoved(p, x);
    FourMoved(p, y);
  }

  /** The initial network is the initial permutation. */
  lemma {:induction false} InitialBits(p: Pair)
    ensures Permuted(Unrotated(Initial(p)), p)
  {
    hide Unrotated, Initial, InPlace;
    forall r: bv6, c: bv6 | r < 4 && c < 8 ensures InPlace(Unrotated(Initial(p)), p, r, c) {
      InitialPlace(p, r, c);
    }
  }

  /** The final network is its inverse. */
  lemma {:induction false} FinalBits(p: Pair)
    ensures Permuted(Unrotated(Swapped(p)), Swapped(Final(p)))
  {
    hide Initial, Final, Permuted, RotateRight;
    InitialBits(Swapped(Final(p)));
    InitialFinal(p);
  }

  // ----- the rounds, backwards -----

  /** The keys in reverse order. */
  function Reversed(ks: seq<(bv32, bv32)>): seq<(bv32, bv32)> {
    if ks == [] then [] else [ks[|ks| - 1]] + Reversed(ks[..|ks| - 1])
  }

  lemma {:induction false} RoundBack(b: Boxes, p: Pair, k: (bv32, bv32))
    ensures Round(b, Swapped(Round(b, p, k)), k) == Swapped(p)
  {
    hide F, Xor;
    XorTwice(p.l, F(b, p.r, k.0, k.1));
  }

  lemma {:induction false} RoundsFirst(b: Boxes, p: Pair, k: (bv32, bv32), ks: seq<(bv32, bv32)>)
    ensures Rounds(b, p, [k] + ks) == Rounds(b, Round(b, p, k), ks)
  {
    hide Round;
    if ks == [] {
      assert [k] + ks == [k];
      assert Rounds(b, p, [k][..0]) == p;
    } else {
      assert ([k] + ks)[..|ks|] == [k] + ks[..|ks| - 1];
      RoundsFirst(b, p, k, ks[..|ks| - 1]);
    }
  }

  /** Any number of rounds is undone by as many with the keys reversed, on exchanged halves. */
  lemma {:induction false} RoundsBack(b: Boxes, p: Pair, ks: seq<(bv32, bv32)>)
    ensures Rounds(b, Swapped(Rounds(b, p, ks)), Reversed(ks)) == Swapped(p)
  {
    hide Round;
    if ks != [] {
      var k, rest := ks[|ks| - 1], ks[..|ks| - 1];
      var q := Rounds(b, p, rest);
      RoundsFirst(b, Swapped(Round(b, q, k)), k, Reversed(rest));
      RoundBack(b, q, k);
      RoundsBack(b, p, rest);
    }
  }

  // ----- blocks -----

  /** The round keys, two words each. */
  function KeyPairs(keys: seq<bv32>, n: nat): (ks: seq<(bv32, bv32)>)
    requires n <= 16 && |keys| == 32
    ensures |ks| == n
  {
    if n == 0 then [] else KeyPairs(keys, n - 1) + [(keys[n + n - 2], keys[n + n - 1])]
  }

  /** What one block of words is enciphered to. */
  function Cipher(b: Boxes, ks: seq<(bv32, bv32)>, p: Pair): Pair {
    Swapped(Final(Rounds(b, Initial(p), ks)))
  }

  /** A block is enciphered as the standard describes it: the initial permutation, the rounds, and the inverse of the
      initial permutation on exchanged halves. */
  lemma {:induction false} CipherByStandard(b: Boxes, ks: seq<(bv32, bv32)>, p: Pair)
    ensures exists first: Pair ::
      Permuted(Unrotated(first), p) && Permuted(Unrotated(Swapped(Rounds(b, first, ks))), Cipher(b, ks, p))
  {
    hide Permuted, Initial, Final, Rounds, Unrotated;
    InitialBits(p);
    FinalBits(Rounds(b, Initial(p), ks));
  }

  /** Deciphering is enciphering with the keys in reverse order. */
  lemma {:induction false} Deciphering(b: Boxes, ks: seq<(bv32, bv32)>, p: Pair)
    ensures Cipher(b, Reversed(ks), Cipher(b, ks, p)) == p
  {
    hide Initial, Final, Rounds, Reversed;
    InitialFinal(Rounds(b, Initial(p), ks));
    RoundsBack(b, Initial(p), ks);
    FinalInitial(p);
  }

  /** Four bytes as a word, and back. */
  function Word(a: bv8, b: bv8, c: bv8, d: bv8): bv32 {
    (a as bv32 << 24) | (b as bv32 << 16) | (c as bv32 << 8) | d as bv32
  }

  function ByteOf(x: bv32, i: nat): bv8
    requires i < 4
  {
    if i == 0 then ((x >> 24) & 0xff) as bv8
    else if i == 1 then ((x >> 16) & 0xff) as bv8
    else if i == 2 then ((x >> 8) & 0xff) as bv8
    else (x & 0xff) as bv8
  }

  lemma {:induction false} BytesOfWord(a: bv8, b: bv8, c: bv8, d: bv8)
    ensures var w := Word(a, b, c, d);
            ByteOf(w, 0) == a && ByteOf(w, 1) == b && ByteOf(w, 2) == c && ByteOf(w, 3) == d
  {
  }

  lemma {:induction false} WordBits(a: bv8, b: bv8, c: bv8, d: bv8, n: bv6)
    requires n < 8
    ensures WordBit(Word(a, b, c, d), n) == ByteBit(a, n)
    ensures WordBit(Word(a, b, c, d), 8 + n) == ByteBit(b, n)
    ensures WordBit(Word(a, b, c, d), 16 + n) == ByteBit(c, n)
    ensures WordBit(Word(a, b, c, d), 24 + n) == ByteBit(d, n)
  {
  }

  lemma {:induction false} WordOfBytes(w: bv32)
    ensures Word(ByteOf(w, 0), ByteOf(w, 1), ByteOf(w, 2), ByteOf(w, 3)) == w
  {
  }

  /** The n-th bit of a byte from the left. */
  predicate ByteBit(a: bv8, n: bv6)
    requires n < 8
  {
    (a >> (7 - n)) & 1 == 1
  }

  function Squash(t: seq<bv8>): Pair
    requires |t| == 8
  {
    Pair(Word(t[0], t[1], t[2], t[3]), Word(t[4], t[5], t[6], t[7]))
  }

  /** The bits of a block are those of its bytes in order, each from the high bit down. */
  lemma {:induction false} TextBits(t: seq<bv8>, n: bv6)
    requires |t| == 8 && n < 8
    ensures Bit(Squash(t), n) == ByteBit(t[0], n) && Bit(Squash(t), 8 + n) == ByteBit(t[1], n)
    ensures Bit(Squash(t), 16 + n) == ByteBit(t[2], n) && Bit(Squash(t), 24 + n) == ByteBit(t[3], n)
    ensures Bit(Squash(t), 32 + n) == ByteBit(t[4], n) && Bit(Squash(t), 40 + n) == ByteBit(t[5], n)
    ensures Bit(Squash(t), 48 + n) == ByteBit(t[6], n) && Bit(Squash(t), 56 + n) == ByteBit(t[7], n)
  {
    hide Word, WordBit, ByteBit;
    WordBits(t[0], t[1], t[2], t[3], n);
    WordBits(t[4], t[5], t[6], t[7], n);
  }

  function Spread(p: Pair): (t: seq<bv8>)
    ensures |t| == 8
  {
    [ByteOf(p.l, 0), ByteOf(p.l, 1), ByteOf(p.l, 2), ByteOf(p.l, 3), ByteOf(p.r, 0), ByteOf(p.r, 1), ByteOf(p.r, 2),
     ByteOf(p.r, 3)]
  }

  lemma {:induction false} SpreadSquash(t: seq<bv8>, p: Pair)
    requires |t| == 8
    ensures Spread(Squash(t)) == t && Squash(Spread(p)) == p
  {
    hide Word, ByteOf;
    BytesOfWord(t[0], t[1], t[2], t[3]);
    BytesOfWord(t[4], t[5], t[6], t[7]);
    WordOfBytes(p.l);
    WordOfBytes(p.r);
  }

  function Enciphered(b: Boxes, ks: seq<(bv32, bv32)>, t: seq<bv8>): (r: seq<bv8>)
    requires |t| == 8
    ensures |r| == 8
  {
    Spread(Cipher(b, ks, Squash(t)))
  }

  /** Reversing the key schedule recovers every block of text. */
  lemma {:induction false} BlockBack(b: Boxes, ks: seq<(bv32, bv32)>, t: seq<bv8>)
    requires |t| == 8
    ensures Enciphered(b, Reversed(ks), Enciphered(b, ks, t)) == t
  {
    hide Spread, Squash, Cipher;
    SpreadSquash(t, Cipher(b, ks, Squash(t)));
    Deciphering(b, ks, Squash(t));
  }

  lemma {:induction false} NextRound(b: Boxes, p: Pair, keys: seq<bv32>, n: nat)
    requires |keys| == 32 && n < 16
    ensures Rounds(b, p, KeyPairs(keys, n + 1)) == Round(b, Rounds(b, p, KeyPairs(keys, n)),
                                                         (keys[n + n], keys[n + n + 1]))
  {
    hide Round;
    var ks := KeyPairs(keys, n + 1);
    assert ks[..n] == KeyPairs(keys, n);
  }

  /** Two half rounds are two rounds: the halves are back in their places. */
  lemma {:induction false} TwoRounds(b: Boxes, p: Pair, keys: seq<bv32>, n: nat)
    requires |keys| == 32 && n + 2 <= 16
    ensures var q := Rounds(b, p, KeyPairs(keys, n));
            var l := Xor(q.l, F(b, q.r, keys[n + n], keys[n + n + 1]));
            Rounds(b, p, KeyPairs(keys, n + 2)) == Pair(l, Xor(q.r, F(b, l, keys[n + n + 2], keys[n + n + 3])))
  {
    hide F, Rounds, KeyPairs, Xor;
    NextRound(b, p, keys, n);
    NextRound(b, p, keys, n + 1);
  }

  /** `enc8` */
  method Enc8(b: Boxes, keys: seq<bv32>, text: seq<bv8>) returns (out: array<bv8>)
    requires |keys| == 32 && |text| == 8
    ensures fresh(out) && out[..] == Enciphered(b, KeyPairs(keys, 16), text)
  {
    hide F, Initial, Final, Rounds, ByteOf, Word, Xor, KeyPairs;
    var l, r, keysi := 0 as bv32, 0 as bv32, 0;
    l := Word(text[0], text[1], text[2], text[3]);
    r := Word(text[4], text[5], text[6], text[7]);
    ghost var p := Initial(Pair(l, r));
    l, r := InitialNetwork(l, r);
    NoRounds(b, p);
    for i := 0 to 8
      invariant keysi == 4 * i
      invariant Pair(l, r) == Rounds(b, p, KeyPairs(keys, i + i))
    {
      TwoRounds(b, p, keys, i + i);
      l := Xor(l, F(b, r, keys[keysi], keys[keysi + 1]));
      r := Xor(r, F(b, l, keys[keysi + 2], keys[keysi + 3]));
      keysi := keysi + 4;
    }
    l, r := FinalNetwork(l, r);
    out := ToBytes(r, l);
  }

  /** The two words as bytes. */
  method ToBytes(r: bv32, l: bv32) returns (out: array<bv8>)
    ensures fresh(out) && out[..] == Spread(Pair(r, l))
  {
    hide ByteOf;
    out := new bv8[8];
    var x := [r, l];
    for i := 0 to 8
      invariant forall j :: 0 <= j < i ==> out[j] == ByteOf(x[j / 4], j % 4)
    {
      out[i] := ByteOf(x[i / 4], i % 4);
    }
  }

  lemma {:induction false} NoRounds(b: Boxes, p: Pair)
    ensures Rounds(b, p, []) == p
  {
  }

  /** One step of a network. */
  method SwapBits(l0: bv32, r0: bv32, n: bv6, m: bv32) returns (l: bv32, r: bv32)
    requires n < 32
    ensures Pair(l, r) == Delta(Pair(l0, r0), n, m)
  {
    hide Xor, Differing, Raised;
    var x := Differing(l0, r0, n, m);
    r := Xor(r0, x);
    l := Xor(l0, Raised(x, n));
  }

  method CrossOver(l0: bv32, r0: bv32) returns (l: bv32, r: bv32)
    ensures Pair(l, r) == Cross(Pair(l0, r0))
  {
    hide Xor, CrossMask;
    var x := CrossMask(l0, r0);
    l := Xor(l0, x);
    r := Xor(r0, x);
  }

  method InitialNetwork(l0: bv32, r0: bv32) returns (l: bv32, r: bv32)
    ensures Pair(l, r) == Initial(Pair(l0, r0))
  {
    hide Delta, Cross, RotateLeft;
    l, r := SwapBits(l0, r0, 4, 0x0f0f_0f0f);
    l, r := SwapBits(l, r, 16, 0x0000_ffff);
    r, l := SwapBits(r, l, 2, 0x3333_3333);
    r, l := SwapBits(r, l, 8, 0x00ff_00ff);
    r := RotateLeft(r);
    l, r := CrossOver(l, r);
    l := RotateLeft(l);
  }

  method FinalNetwork(l0: bv32, r0: bv32) returns (l: bv32, r: bv32)
    ensures Pair(l, r) == Final(Pair(l0, r0))
  {
    hide Delta, Cross, RotateRight;
    r := RotateRight(r0);
    l, r := CrossOver(l0, r);
    l := RotateRight(l);
    l, r := SwapBits(l, r, 8, 0x00ff_00ff);
    l, r := SwapBits(l, r, 2, 0x3333_3333);
    r, l := SwapBits(r, l, 16, 0x0000_ffff);
    r, l := SwapBits(r, l, 4, 0x0f0f_0f0f);
  }

  /** `encrypt`: two blocks. */
  method Encrypt(b: Boxes, keys: seq<bv32>, t: seq<bv8>) returns (r: seq<bv8>)
    requires |keys| == 32 && |t| == 16
    ensures r == Enciphered(b, KeyPairs(keys, 16), t[..8]) + Enciphered(b, KeyPairs(keys, 16), t[8..])
  {
    var x := Enc8(b, keys, t[..8]);
    var y := Enc8(b, keys, t[8..16]);
    assert t[8..16] == t[8..];
    r := x[..] + y[..];
  }

  // ----- the key array -----

  /** The same words with the pairs in reverse order. */
  function ReversedKeys(keys: seq<bv32>): (r: seq<bv32>)
    requires |keys| == 32
    ensures |r| == 32
  {
    seq(32, i requires 0 <= i < 32 => if i % 2 == 0 then keys[30 - i] else keys[32 - i])
  }

  /** The pairs of an array from the n-th on, last first. */
  function PairsDown(keys: seq<bv32>, n: nat): seq<(bv32, bv32)>
    requires n <= 16 && |keys| == 32
  {
    if n == 0 then [] else [(keys[n + n - 2], keys[n + n - 1])] + PairsDown(keys, n - 1)
  }

  lemma {:induction false} ReversedPairs(keys: seq<bv32>, n: nat)
    requires n <= 16 && |keys| == 32
    ensures Reversed(KeyPairs(keys, n)) == PairsDown(keys, n)
  {
    if n > 0 {
      var ks := KeyPairs(keys, n);
      assert ks[..n - 1] == KeyPairs(keys, n - 1);
      ReversedPairs(keys, n - 1);
    }
  }

  lemma {:induction false} ReversedAt(keys: seq<bv32>, n: nat)
    requires 1 <= n <= 16 && |keys| == 32
    ensures |ReversedKeys(keys)| == 32
    ensures ReversedKeys(keys)[n + n - 2] == keys[32 - n - n] && ReversedKeys(keys)[n + n - 1] == keys[33 - n - n]
  {
  }

  lemma {:induction false} PairsOfReversed(keys: seq<bv32>, n: nat)
    requires n <= 16 && |keys| == 32
    ensures KeyPairs(ReversedKeys(keys), n) + PairsDown(keys, 16 - n) == PairsDown(keys, 16)
  {
    hide ReversedKeys;
    ReversedKeysLength(keys);
    if n == 0 {
      assert [] + PairsDown(keys, 16) == PairsDown(keys, 16);
    } else {
      PairsOfReversed(keys, n - 1);
      ReversedAt(keys, n);
      var pair, rest := [(keys[32 - n - n], keys[33 - n - n])], PairsDown(keys, 16 - n);
      assert PairsDown(keys, 17 - n) == pair + rest;
      PairsJoin(KeyPairs(ReversedKeys(keys), n - 1), pair, rest);
    }
  }

  lemma {:induction false} PairsJoin(a: seq<(bv32, bv32)>, b: seq<(bv32, bv32)>, c: seq<(bv32, bv32)>)
    ensures a + (b + c) == a + b + c
  {
  }

  /** Reversing the pairs in the array reverses the key schedule. */
  lemma {:induction false} KeysReversed(keys: seq<bv32>)
    requires |keys| == 32
    ensures KeyPairs(ReversedKeys(keys), 16) == Reversed(KeyPairs(keys, 16))
  {
    ReversedPairs(keys, 16);
    PairsOfReversed(keys, 16);
    assert KeyPairs(ReversedKeys(keys), 16) + [] == KeyPairs(ReversedKeys(keys), 16);
  }

  /** Enciphering twice, the second time with the array's pairs reversed, recovers the text. */
  method EncipherDecipher(b: Boxes, keys: seq<bv32>, text: seq<bv8>) returns (out: seq<bv8>)
    requires |keys| == 32 && |text| == 8
    ensures out == text
  {
    hide Enciphered, KeyPairs, Reversed, ReversedKeys;
    var x := Enc8(b, keys, text);
    EncipheredLength(b, KeyPairs(keys, 16), text);
    ReversedKeysLength(keys);
    var y := Enc8(b, ReversedKeys(keys), x[..]);
    KeysReversed(keys);
    BlockBack(b, KeyPairs(keys, 16), text);
    out := y[..];
  }

  lemma {:induction false} EncipheredLength(b: Boxes, ks: seq<(bv32, bv32)>, t: seq<bv8>)
    requires |t| == 8
    ensures |Enciphered(b, ks, t)| == 8
  {
  }

  lemma {:induction false} ReversedKeysLength(keys: seq<bv32>)
    requires |keys| == 32
    ensures |ReversedKeys(keys)| == 32
  {
  }
}
