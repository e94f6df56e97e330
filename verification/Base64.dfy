/** The base64 codec (section 4 of RFC 4648) and its round trip. */
module Base64 {
  import opened Bits

  const PAD: char := '='

  type sextet = v: nat | v < 64

  /** The alphabet, and the padding character behind it. */
  function Char(v: nat): char
    requires v <= 64
  {
    if v < 26 then (65 + v) as char
    else if v < 52 then (71 + v) as char
    else if v < 62 then (v - 4) as char
    else if v == 62 then '+' else if v == 63 then '/' else PAD
  }

  /** The value that the decoder gives a character, and -1 to one that is not legal.  Only seven bits of
      the character's code are looked at; padding counts as zero. */
  function Value(c: char): (v: int)
    ensures -1 <= v < 64
  {
    var i := c as int % 128;
    if 65 <= i <= 90 then i - 65
    else if 97 <= i <= 122 then i - 71
    else if 48 <= i <= 57 then i + 4
    else if i == 43 then 62 else if i == 47 then 63 else if i == 61 then 0 else -1
  }

  /** Table 1 of RFC 4648. */
  const ALPHABET: string :=
    "ABCDEFGHIJKLMNOPQRSTUVWXYZ" + "abcdefghijklmnopqrstuvwxyz" + "0123456789" + "+/"

  /** The encoder's characters are those of the table. */
  lemma {:induction false} CharsOfTable(v: nat)
    requires v < 64
    ensures |ALPHABET| == 64 && Char(v) == ALPHABET[v]
  {
  }

  /** The decoder inverts the table. */
  lemma {:induction false} ValuesOfTable(v: nat)
    requires v < 64
    ensures |ALPHABET| == 64 && Value(ALPHABET[v]) == v && Value('=') == 0
  {
    hide Char, Value;
    CharsOfTable(v);
    CharsLegal();
  }

  /** Up to the bits of a character's code that the decoder does not look at, only the characters of the table and the
      padding are legal. */
  lemma {:induction false} OnlyTable(c: char)
    ensures var d := (c as int % 128) as char;
            && Value(c) == Value(d)
            && (Value(d) == -1 || d == '=' || (Value(d) < |ALPHABET| && d == ALPHABET[Value(d)]))
  {
    hide Char, Value;
    var d := (c as int % 128) as char;
    SevenBits(c);
    if Value(d) != -1 && d != '=' {
      CharOfValue(d);
      CharsOfTable(Value(d));
    }
  }

  lemma {:induction false} SevenBits(c: char)
    ensures Value(c) == Value((c as int % 128) as char)
  {
  }

  lemma {:induction false} CharOfValue(c: char)
    requires c as int < 128 && Value(c) != -1 && c != '='
    ensures Char(Value(c)) == c
  {
  }

  // ----- what encoding and decoding mean -----

  /** The four sextets of three bytes. */
  function Split(a: byte, b: byte, c: byte): (q: (sextet, sextet, sextet, sextet)) {
    (a / 4, a % 4 * 16 + b / 16, b % 16 * 4 + c / 64, c % 64)
  }

  /** The sextets are the base-64 digits of the 24-bit group. */
  lemma {:induction false} SplitDigits(a: byte, b: byte, c: byte)
    ensures var q := Split(a, b, c);
            q.0 * 0x4_0000 + q.1 * 0x1000 + q.2 * 0x40 + q.3 == a * 0x1_0000 + b * 0x100 + c
  {
  }

  /** Three bytes make four characters; one or two remaining bytes are padded. */
  function Encoding(data: seq<byte>): string {
    if data == [] then []
    else if |data| == 1 then
      var q := Split(data[0], 0, 0);
      [Char(q.0), Char(q.1), PAD, PAD]
    else if |data| == 2 then
      var q := Split(data[0], data[1], 0);
      [Char(q.0), Char(q.1), Char(q.2), PAD]
    else
      var q := Split(data[0], data[1], data[2]);
      [Char(q.0), Char(q.1), Char(q.2), Char(q.3)] + Encoding(data[3..])
  }

  /** A legal character: its value, and whether it is padding. */
  datatype Legal = Legal(value: sextet, pad: bool)

  /** The legal characters of a string. */
  function Legals(s: string): (l: seq<Legal>)
    ensures |l| <= |s|
  {
    if s == [] then []
    else
      var v, rest := Value(s[|s| - 1]), Legals(s[..|s| - 1]);
      if v == -1 then rest else rest + [Legal(v, s[|s| - 1] == PAD)]
  }

  /** The bytes that are complete after these characters: each belongs to the character that completes it
      and is left out if that is padding. */
  function Bytes(l: seq<Legal>): seq<byte> {
    if l == [] then []
    else
      var n := |l| - 1;
      Bytes(l[..n]) + (if n % 4 == 0 || l[n].pad then [] else [Completed(l[n - 1].value, l[n].value, n % 4)])
  }

  /** The byte that ends in the k-th of four sextets `y`, after `x`. */
  function Completed(x: sextet, y: sextet, k: nat): byte
    requires 1 <= k <= 3
  {
    if k == 1 then x * 4 + y / 16 else if k == 2 then x % 16 * 16 + y / 4 else x % 4 * 64 + y
  }

  /** The bytes that were stored, and the length of the array that holds them. */
  datatype Result = Ok(bytes: seq<byte>, length: nat) | Corrupted

  /** Where the first padding character is, from an index on; -1 if there is none. */
  function IndexOfPad(s: string, from: nat): (i: int)
    requires from <= |s|
    ensures i == -1 || from <= i < |s|
    decreases |s| - from
  {
    if from == |s| then -1 else if s[from] == PAD then from else IndexOfPad(s, from + 1)
  }

  /** The length that the decoder reserves for the result. */
  function Reserved(s: string, offset: nat): nat
    requires offset <= |s|
  {
    var n := IndexOfPad(s, 0) - offset;
    var m := if n < 0 then |s| - offset else n;
    m / 4 * 3 + (if m % 4 == 3 then 2 else if m % 4 == 2 then 1 else 0)
  }

  function Max(a: nat, b: nat): nat {
    if a < b then b else a
  }

  /** Decoding fails exactly when the number of legal characters is not a multiple of four. */
  function Decoding(s: string, offset: nat): Result
    requires offset <= |s|
  {
    var l := Legals(s[offset..]);
    if |l| % 4 != 0 then Corrupted else Ok(Bytes(l), Max(Reserved(s, offset), |Bytes(l)|))
  }

  // ----- the loops -----

  lemma {:induction false} EncodingStep(data: seq<byte>, i: nat)
    requires i + 3 <= |data|
    ensures Encoding(data[i..]) ==
            [Char(data[i] / 4), Char(data[i] % 4 * 16 + data[i + 1] / 16),
             Char(data[i + 1] % 16 * 4 + data[i + 2] / 64),
             Char(data[i + 2] % 64)] + Encoding(data[i + 3..])
  {
    assert data[i..][3..] == data[i + 3..];
  }

  /** The characters of one or two bytes at the end. */
  lemma {:induction false} EncodingRest(data: seq<byte>, i: nat)
    requires i <= |data| < i + 3
    ensures i == |data| ==> Encoding(data[i..]) == []
    ensures i + 1 == |data| ==> Encoding(data[i..]) == [Char(data[i] / 4), Char(data[i] % 4 * 16), Char(64), Char(64)]
    ensures i + 2 == |data| ==>
              Encoding(data[i..]) == [Char(data[i] / 4), Char(data[i] % 4 * 16 + data[i + 1] / 16),
                                      Char(data[i + 1] % 16 * 4), Char(64)]
  {
  }

  lemma {:induction false} Thirds(n: nat, k: nat)
    requires 3 * k <= n < 3 * k + 3
    ensures n % 3 == n - 3 * k
  {
  }

  method Encode(data: seq<byte>) returns (result: string)
    ensures result == Encoding(data)
  {
    hide Encoding, Char;
    result := [];
    var i := 0;
    ghost var k := 0;
    assert data[0..] == data;
    while i < |data| - 2
      invariant i == 3 * k <= |data| && 0 <= i
      invariant result + Encoding(data[i..]) == Encoding(data)
    {
      EncodingStep(data, i);
      ghost var was := result;
      result := result + [Char(data[i] / 4)];
      result := result + [Char(data[i] % 4 * 16 + data[i + 1] / 16)];
      result := result + [Char(data[i + 1] % 16 * 4 + data[i + 2] / 64)];
      result := result + [Char(data[i + 2] % 64)];
      assert result + Encoding(data[i + 3..]) == was + Encoding(data[i..]);
      i := i + 3;
      k := k + 1;
    }
    EncodingRest(data, i);
    Thirds(|data|, k);
    ghost var was := result;
    var j := |data| - |data| % 3;
    if |data| % 3 == 2 {
      result := result + [Char(data[j] / 4)];
      result := result + [Char(data[j] % 4 * 16 + data[j + 1] / 16)];
      result := result + [Char(data[j + 1] % 16 * 4)];
      result := result + [Char(64)];
    } else if |data| % 3 == 1 {
      result := result + [Char(data[j] / 4)];
      result := result + [Char(data[j] % 4 * 16)];
      result := result + [Char(64)];
      result := result + [Char(64)];
    }
    assert result == was + Encoding(data[i..]);
  }

  /** The bits that wait to be appended: how many, and their value. */
  function LeftBits(k: nat): nat
    requires k < 4
  {
    if k == 0 then 0 else 8 - 2 * k
  }

  function LeftData(l: seq<Legal>): nat {
    if |l| % 4 == 0 then 0
    else
      var x := l[|l| - 1].value;
      if |l| % 4 == 1 then x else if |l| % 4 == 2 then x % 16 else x % 4
  }

  /** Collects one more sextet. */
  function Shifted(leftdata: nat, c: sextet): nat {
    leftdata * 64 + c
  }

  /** The sextet y leaves as the end of a byte that began in x; its other bits wait. */
  lemma {:induction false} ShiftOut(x: sextet, y: sextet, k: nat)
    requires 1 <= k <= 3
    ensures var data := Shifted(if k == 1 then x else if k == 2 then x % 16 else x % 4, y);
            var bits := LeftBits(k) + 6 - 8;
            && bits == 6 - 2 * k
            && data / Pow2(bits) % 256 == Completed(x, y, k)
            && data % Pow2(bits) == if k == 1 then y % 16 else if k == 2 then y % 4 else 0
  {
    hide Pow2;
    assert Pow2(4) == 16 && Pow2(2) == 4 && Pow2(0) == 1 by {
      Pow2Values();
    }
    if k == 1 {
      FourOut(x, y);
      SmallByte(x * 4 + y / 16);
    } else if k == 2 {
      TwoOut(x % 16, y);
      SmallByte(x % 16 * 16 + y / 4);
    } else {
      SmallByte(x % 4 * 64 + y);
    }
  }

  lemma {:induction false} SmallByte(n: nat)
    ensures n < 256 ==> n % 256 == n
  {
  }

  lemma {:induction false} FourOut(x: nat, y: sextet)
    ensures (x * 64 + y) / 16 == x * 4 + y / 16 && (x * 64 + y) % 16 == y % 16
  {
  }

  lemma {:induction false} TwoOut(x: nat, y: sextet)
    ensures (x * 64 + y) / 4 == x * 16 + y / 4 && (x * 64 + y) % 4 == y % 4
  {
  }

  lemma {:induction false} CollectOne(l: seq<Legal>, x: Legal)
    ensures var k := |l| % 4;
            var data, bits := Shifted(LeftData(l), x.value), LeftBits(k) + 6;
            var l' := l + [x];
            && |l'| % 4 == (if k == 3 then 0 else k + 1)
            && (k == 0 ==> bits < 8 && bits == LeftBits(1) && data == LeftData(l') && Bytes(l') == Bytes(l))
            && (k > 0 ==>
                  && bits >= 8 && bits - 8 == LeftBits(|l'| % 4)
                  && data % Pow2(bits - 8) == LeftData(l')
                  && data / Pow2(bits - 8) % 256 == Completed(l[|l| - 1].value, x.value, k)
                  && Bytes(l') == Bytes(l) + (if x.pad then [] else [Completed(l[|l| - 1].value, x.value, k)]))
  {
    hide Pow2, Bytes, Completed;
    BytesOn(l, x);
    NextPhase(|l|);
    if |l| % 4 > 0 {
      ShiftOut(l[|l| - 1].value, x.value, |l| % 4);
    }
  }

  lemma {:induction false} NextPhase(n: nat)
    ensures (n + 1) % 4 == if n % 4 == 3 then 0 else n % 4 + 1
  {
  }

  method Decode(data: string, offset: nat) returns (r: Result)
    requires offset <= |data|
    ensures r == Decoding(data, offset)
  {
    hide Value, Bytes, LeftData, Shifted, Completed, Pow2, Reserved;
    var leftbits, leftdata := 0, 0;
    var length := Reserved(data, offset);
    var result: seq<byte> := [];
    ghost var l: seq<Legal> := [];
    NoBytes();
    var i := offset;
    while i < |data|
      invariant offset <= i <= |data|
      invariant l == Legals(data[offset..i]) && result == Bytes(l)
      invariant leftbits == LeftBits(|l| % 4) && leftdata == LeftData(l)
    {
      var c := Value(data[i]);
      var padding := data[i] == PAD;
      assert data[offset..i + 1][..i - offset] == data[offset..i];
      ValueIs(data[i]);
      if c != -1 {
        CollectOne(l, Legal(c, padding));
        leftdata := Shifted(leftdata, c);
        leftbits := leftbits + 6;
        if leftbits >= 8 {
          leftbits := leftbits - 8;
          if !padding {
            result := result + [leftdata / Pow2(leftbits) % 256];
          }
          leftdata := leftdata % Pow2(leftbits);
        }
        l := l + [Legal(c, padding)];
      }
      i := i + 1;
    }
    assert data[offset..|data|] == data[offset..];
    if leftbits != 0 {
      return Corrupted;
    }
    r := Ok(result, Max(length, |result|));
  }

  lemma {:induction false} NoBytes()
    ensures Legals([]) == [] && Bytes([]) == [] && LeftData([]) == 0
  {
  }

  lemma {:induction false} ValueIs(c: char)
    ensures -1 <= Value(c) < 64
  {
  }

  // ----- round trip -----

  lemma {:induction false} LegalsConcat(a: string, b: string)
    ensures Legals(a + b) == Legals(a) + Legals(b)
  {
    hide Value;
    if b == [] {
      assert a + b == a;
    } else {
      assert (a + b)[..|a + b| - 1] == a + b[..|b| - 1];
      LegalsConcat(a, b[..|b| - 1]);
    }
  }

  lemma {:induction false} LegalsOn(s: string, c: char)
    ensures Legals(s + [c]) == Legals(s) + (if Value(c) == -1 then [] else [Legal(Value(c), c == PAD)])
  {
    hide Value;
    assert (s + [c])[..|s|] == s;
  }

  lemma {:induction false} BytesOn(l: seq<Legal>, x: Legal)
    ensures Bytes(l + [x]) ==
              Bytes(l) + (if |l| % 4 == 0 || x.pad then [] else [Completed(l[|l| - 1].value, x.value, |l| % 4)])
  {
    hide Completed;
    assert (l + [x])[..|l|] == l;
  }

  lemma {:induction false} BytesConcat(l: seq<Legal>, m: seq<Legal>)
    requires |l| % 4 == 0
    ensures Bytes(l + m) == Bytes(l) + Bytes(m)
  {
    NoBytes();
    if m == [] {
      assert l + m == l;
    } else {
      hide Completed, Bytes;
      var n, x := m[..|m| - 1], m[|m| - 1];
      BytesConcat(l, n);
      SamePhase(|l|, |n|);
      assert m == n + [x];
      assert l + m == (l + n) + [x];
      BytesOn(n, x);
      BytesOn(l + n, x);
    }
  }

  lemma {:induction false} SamePhase(a: nat, b: nat)
    requires a % 4 == 0
    ensures (a + b) % 4 == b % 4
  {
  }

  lemma {:induction false} LegalsOfFour(s: string)
    requires |s| == 4 && forall i :: 0 <= i < 4 ==> Value(s[i]) != -1
    ensures Legals(s) == [Legal(Value(s[0]), s[0] == PAD), Legal(Value(s[1]), s[1] == PAD),
                          Legal(Value(s[2]), s[2] == PAD),
                          Legal(Value(s[3]), s[3] == PAD)]
  {
    NoBytes();
    hide Value, Legals;
    LegalsOn([], s[0]);
    LegalsOn([s[0]], s[1]);
    LegalsOn([s[0], s[1]], s[2]);
    LegalsOn([s[0], s[1], s[2]], s[3]);
    assert [] + [s[0]] == [s[0]];
    assert [s[0]] + [s[1]] == [s[0], s[1]];
    assert [s[0], s[1]] + [s[2]] == [s[0], s[1], s[2]];
    assert [s[0], s[1], s[2]] + [s[3]] == s;
  }

  lemma {:induction false} BytesOfFour(l: seq<Legal>)
    requires |l| == 4 && !l[0].pad && !l[1].pad && (l[2].pad ==> l[3].pad)
    ensures Bytes(l) == [Completed(l[0].value, l[1].value, 1)]
                        + (if l[2].pad then [] else [Completed(l[1].value, l[2].value, 2)])
                        + (if l[3].pad then [] else [Completed(l[2].value, l[3].value, 3)])
  {
    NoBytes();
    hide Completed, Bytes;
    BytesOn([], l[0]);
    BytesOn([l[0]], l[1]);
    BytesOn([l[0], l[1]], l[2]);
    BytesOn([l[0], l[1], l[2]], l[3]);
    assert [] + [l[0]] == [l[0]];
    assert [l[0]] + [l[1]] == [l[0], l[1]];
    assert [l[0], l[1]] + [l[2]] == [l[0], l[1], l[2]];
    assert [l[0], l[1], l[2]] + [l[3]] == l;
  }

  /** A full group decodes to its three bytes. */
  lemma {:induction false} Joined(a: byte, b: byte, c: byte)
    ensures var q := Split(a, b, c);
            && Completed(q.0, q.1, 1) == a && Completed(q.1, q.2, 2) == b && Completed(q.2, q.3, 3) == c
  {
  }

  lemma {:induction false} CharsLegal()
    ensures forall v: sextet :: Value(Char(v)) == v && Char(v) != PAD
    ensures Char(64) == PAD && Value(PAD) == 0
  {
  }

  /** One group of characters: at most three bytes. */
  lemma {:induction false} GroupTrip(data: seq<byte>)
    requires 1 <= |data| <= 3
    ensures |Legals(Encoding(data))| == 4 && Bytes(Legals(Encoding(data))) == data
  {
    hide Value, Char, Legals, Bytes, Completed, Split;
    CharsLegal();
    var a, b, c := data[0], if |data| > 1 then data[1] else 0, if |data| > 2 then data[2] else 0;
    OneGroup(data);
    Joined(a, b, c);
    LegalsOfFour(Encoding(data));
    BytesOfFour(Legals(Encoding(data)));
  }

  lemma {:induction false} OneGroup(data: seq<byte>)
    requires 1 <= |data| <= 3
    ensures var q := Split(data[0], if |data| > 1 then data[1] else 0, if |data| > 2 then data[2] else 0);
            Encoding(data) == [Char(q.0), Char(q.1), if |data| > 1 then Char(q.2) else PAD,
                               if |data| > 2 then Char(q.3) else PAD]
  {
    if |data| == 3 {
      assert Encoding(data[3..]) == [];
    }
  }

  /** Encoding goes group by group. */
  lemma {:induction false} GroupFirst(data: seq<byte>)
    requires |data| >= 3
    ensures Encoding(data) == Encoding(data[..3]) + Encoding(data[3..]) && |Encoding(data[..3])| == 4
  {
    OneGroup(data[..3]);
  }

  lemma {:induction false} BytesTrip(data: seq<byte>)
    ensures |Legals(Encoding(data))| % 4 == 0 && Bytes(Legals(Encoding(data))) == data
  {
    hide Value, Legals, Bytes, Encoding;
    if data == [] {
      EmptyTrip();
    } else if |data| < 3 {
      GroupTrip(data);
    } else {
      GroupTrip(data[..3]);
      BytesTrip(data[3..]);
      GroupFirst(data);
      LegalsConcat(Encoding(data[..3]), Encoding(data[3..]));
      BytesConcat(Legals(Encoding(data[..3])), Legals(Encoding(data[3..])));
      assert data == data[..3] + data[3..];
    }
  }

  lemma {:induction false} EmptyTrip()
    ensures Encoding([]) == [] && Legals([]) == [] && Bytes([]) == []
  {
  }

  lemma {:induction false} EncodingLength(data: seq<byte>, k: nat)
    requires 3 * k <= |data| < 3 * k + 3
    ensures |Encoding(data)| == if |data| == 3 * k then 4 * k else 4 * k + 4
  {
    hide Char, Split;
    if k > 0 {
      EncodingLength(data[3..], k - 1);
    }
  }

  /** How many characters are padding. */
  function Pads(data: seq<byte>): (n: nat)
    ensures n <= 2
  {
    if |data| % 3 == 0 then 0 else 3 - |data| % 3
  }

  lemma {:induction false} PadAt(data: seq<byte>, i: nat)
    requires i < |Encoding(data)|
    ensures Encoding(data)[i] == PAD <==> i >= |Encoding(data)| - Pads(data)
  {
    hide Char, Split;
    CharsLegal();
    if |data| >= 3 && i >= 4 {
      hide Pads;
      PadsOn(data);
      PadAt(data[3..], i - 4);
    }
  }

  lemma {:induction false} PadsOn(data: seq<byte>)
    requires |data| >= 3
    ensures Pads(data) == Pads(data[3..]) && (|data| == 3 ==> Pads(data) == 0)
  {
  }

  /** Where the padding is. */
  lemma {:induction false} PadPlace(data: seq<byte>, from: nat)
    requires from <= |Encoding(data)|
    ensures var n := |Encoding(data)| - Pads(data);
            from <= n ==> IndexOfPad(Encoding(data), from) == if Pads(data) == 0 then -1 else n
    decreases |Encoding(data)| - from
  {
    hide Char, Encoding, Pads;
    if from < |Encoding(data)| {
      PadAt(data, from);
      PadPlace(data, from + 1);
    }
  }

  /** Decoding what was encoded gives it back, in an array of just its length. */
  lemma {:induction false} RoundTrip(data: seq<byte>)
    ensures Decoding(Encoding(data), 0) == Ok(data, |data|)
  {
    hide Encoding, Legals, Bytes, Reserved;
    var s := Encoding(data);
    BytesTrip(data);
    assert s[0..] == s;
    ReservedIs(data, |data| / 3);
  }

  lemma {:induction false} ReservedIs(data: seq<byte>, k: nat)
    requires 3 * k <= |data| < 3 * k + 3
    ensures Reserved(Encoding(data), 0) == |data|
  {
    hide Encoding;
    Thirds(|data|, k);
    EncodingLength(data, k);
    PadPlace(data, 0);
  }

  /** The first padding character, counted from the start, when there is none before the offset. */
  lemma {:induction false} PadBehind(s: string, offset: nat, from: nat)
    requires offset + from <= |s|
    ensures IndexOfPad(s, offset + from) ==
            if IndexOfPad(s[offset..], from) == -1 then -1 else offset + IndexOfPad(s[offset..], from)
    decreases |s| - from
  {
    if offset + from < |s| {
      PadBehind(s, offset, from + 1);
    }
  }

  lemma {:induction false} NoPadBefore(s: string, from: nat, offset: nat)
    requires from <= offset <= |s| && forall i :: from <= i < offset ==> s[i] != PAD
    ensures IndexOfPad(s, from) == IndexOfPad(s, offset)
    decreases offset - from
  {
    if from < offset {
      NoPadBefore(s, from + 1, offset);
    }
  }

  /** The same behind anything without padding. */
  lemma {:induction false} RoundTripAt(s: string, offset: nat, data: seq<byte>)
    requires offset <= |s| && s[offset..] == Encoding(data) && forall i :: 0 <= i < offset ==> s[i] != PAD
    ensures Decoding(s, offset) == Ok(data, |data|)
  {
    hide Encoding, Legals, Bytes;
    BytesTrip(data);
    NoPadBefore(s, 0, offset);
    PadBehind(s, offset, 0);
    ReservedIs(data, |data| / 3);
  }

  // ----- other input -----

  /** The legal characters of a string, as they are. */
  function Kept(s: string): string {
    if s == [] then [] else Kept(s[..|s| - 1]) + (if Value(s[|s| - 1]) == -1 then [] else [s[|s| - 1]])
  }

  lemma {:induction false} KeptLegals(s: string)
    ensures Legals(Kept(s)) == Legals(s)
  {
    hide Value;
    if s != [] {
      var c := s[|s| - 1];
      KeptLegals(s[..|s| - 1]);
      LegalsOn(Kept(s[..|s| - 1]), c);
      assert Kept(s[..|s| - 1]) + [] == Kept(s[..|s| - 1]);
    }
  }

  /** Characters that are not legal may come in between, and anything at all before the offset. */
  lemma {:induction false} RoundTripBetween(s: string, offset: nat, data: seq<byte>)
    requires offset <= |s| && Kept(s[offset..]) == Encoding(data)
    ensures Decoding(s, offset).Ok? && Decoding(s, offset).bytes == data
  {
    hide Encoding, Legals, Bytes, Kept, Reserved;
    KeptLegals(s[offset..]);
    BytesTrip(data);
  }
}
