/** The decoder's state: `ZStream` with its `InflateState`, and the primitives that move bits.

    The invariants are stated on records that view parts of the object as values: the bit reader, the
    output, the window, the control fields and the tables.
 */
module Streams {
  import opened Bits
  import opened Huffman
  import opened CodeTables
  import opened Adler
  import opened Outputs
  import Rfc = Rfc1951

  datatype Mode =
    | AtHead | AtDictId | AtDict | AtType | AtTypeDo | AtStored | AtCopyFirst | AtCopy
    | AtTable | AtLenLens | AtCodeLens
    | AtLenFirst | AtLen | AtLenExt | AtDist | AtDistExt | AtMatch | AtLit
    | AtCheck | AtDone | AtBad

  /** Modes in which literals and matches are decoded, so that both tables must be right. */
  predicate Decoding(m: Mode) {
    m.AtLenFirst? || m.AtLen? || m.AtLenExt? || m.AtDist? || m.AtDistExt? || m.AtMatch? || m.AtLit?
  }

  /** Modes that inflate() never leaves again. */
  predicate Final(m: Mode) {
    m.AtDone? || m.AtBad? || m.AtDict?
  }

  /** Counts down along the steps that neither read nor write. */
  function Height(m: Mode): nat {
    match m
    case AtLenExt => 16 case AtDist => 15 case AtDistExt => 14 case AtMatch => 13 case AtLit => 12
    case AtTable => 11 case AtLenLens => 10 case AtCodeLens => 9 case AtLenFirst => 8 case AtLen => 7
    case AtStored => 7 case AtCopyFirst => 6 case AtCopy => 5
    case AtHead => 5 case AtDictId => 4 case AtDict => 3
    case AtType => 4 case AtTypeDo => 3 case AtCheck => 2 case AtDone => 1 case AtBad => 0
  }

  const WSIZE: nat := 32768

  // ----- the bit reader -----

  /** The local variables of inflate(): held bits and unread input.

      `bytes` is the whole compressed stream, with what later calls will supply; `taken` of its bytes
      have been taken from the input; `stream` is its bits; `pos` is the position of the first bit that
      is held. */
  datatype Reader = Reader(hold: nat, bits: nat, input: seq<byte>, next: nat, have: nat,
                           ghost bytes: seq<byte>, ghost taken: nat, ghost stream: seq<bool>, ghost pos: nat)

  ghost predicate BitsOK(r: Reader) {
    && r.bits <= 32 && r.next + r.have <= |r.input| && r.taken + r.have <= |r.bytes|
    && r.input[r.next..r.next + r.have] == r.bytes[r.taken..r.taken + r.have]
    && r.stream == BytesBits(r.bytes) && r.pos + r.bits == Eight(r.taken) <= |r.stream|
    && r.hold == LVal(r.stream[r.pos..r.pos + r.bits])
  }

  /** The bits that are held. */
  ghost function Held(r: Reader): seq<bool>
    requires r.pos + r.bits <= |r.stream|
  {
    r.stream[r.pos..r.pos + r.bits]
  }

  /** Input is only consumed, from the front. */
  ghost predicate Consumed(r: Reader, r': Reader) {
    && r'.input == r.input && r'.bytes == r.bytes && r'.stream == r.stream && r'.pos >= r.pos
    && r'.next >= r.next && r'.next + r'.have == r.next + r.have
    && r'.taken + r'.have == r.taken + r.have
  }

  /** Fewer than eight bits are held, or no code can be read from those that are. */
  ghost predicate Tight(r: Reader, l: seq<nat>) {
    r.bits < 8 || (r.pos + r.bits <= |r.stream| && Lookup(l, Held(r)) == NeedMore)
  }

  /** A repeat code is held, but not all of the bits that go with it. */
  ghost predicate MidRepeat(r: Reader, l: seq<nat>) {
    r.pos + r.bits <= |r.stream| &&
    match Lookup(l, Held(r))
    case Found(v) => v < |l| && 16 <= v && r.bits < l[v] + Rfc.RepeatBits(v)
    case NeedMore => false
    case NoCode => false
  }

  predicate WholeBytes(bits: nat) {
    bits == 0 || bits == 8 || bits == 16 || bits == 24 || bits == 32
  }

  /** Moving one byte from the input to the held bits. */
  lemma {:induction false} PullLink(bytes: seq<byte>, pos: nat, bits: nat, i: nat)
    requires i < |bytes| && pos + bits == Eight(i)
    ensures Eight(i) + 8 == Eight(i + 1) <= |BytesBits(bytes)|
    ensures var s := BytesBits(bytes);
            LVal(s[pos..pos + bits]) + Scale(bytes[i], bits) == LVal(s[pos..pos + bits + 8])
  {
    hide LVal, LBits, Scale, BytesBits;
    var s := BytesBits(bytes);
    BytesBitsAt(bytes, i);
    assert s[pos..pos + bits + 8] == s[pos..pos + bits] + s[pos + bits..pos + bits + 8];
    LValConcat(s[pos..pos + bits], LBits(bytes[i], 8));
    Pow2Values();
    LValLBits(bytes[i], 8);
  }

  /** Masking and dropping held bits. */
  lemma {:induction false} DropLink(s: seq<bool>, pos: nat, bits: nat, n: nat)
    requires n <= bits && pos + bits <= |s|
    ensures Shr(LVal(s[pos..pos + bits]), n) == LVal(s[pos + n..pos + bits])
    ensures Low(LVal(s[pos..pos + bits]), n) == Rfc.Field(s, pos, n)
  {
    hide LVal, Low, Shr;
    var b := s[pos..pos + bits];
    LValSplit(b, n);
    assert b[n..] == s[pos + n..pos + bits];
    assert b[..n] == s[pos..pos + n];
  }

  /** The held bits before the next byte boundary. */
  function Spare(bits: nat): (n: nat)
    ensures n <= bits
  {
    bits % 8
  }

  lemma {:induction false} ToBoundary(pos: nat, bits: nat, k: nat)
    requires pos + bits == Eight(k)
    ensures Rfc.Aligned(pos) == pos + Spare(bits)
    ensures bits < 8 ==> Spare(bits) == bits
    ensures WholeBytes(bits) ==> Spare(bits) == 0
  {
    assert Eight(k) == 8 * k;
  }

  /** PULLBYTE, when there is input. */
  function PullByte(r: Reader): (r': Reader)
    requires BitsOK(r) && r.have > 0 && r.bits <= 24
    ensures BitsOK(r') && Consumed(r, r') && r'.bits == r.bits + 8 && r'.pos == r.pos && r'.have == r.have - 1
  {
    PullOK(r);
    r.(hold := r.hold + Scale(r.input[r.next], r.bits), bits := r.bits + 8, next := r.next + 1, have := r.have - 1,
       taken := r.taken + 1)
  }

  lemma {:induction false} PullOK(r: Reader)
    requires BitsOK(r) && r.have > 0 && r.bits <= 24
    ensures BitsOK(r.(hold := r.hold + Scale(r.input[r.next], r.bits), bits := r.bits + 8, next := r.next + 1,
                      have := r.have - 1, taken := r.taken + 1))
  {
    hide LVal, Scale, BytesBits, Eight;
    PullLink(r.bytes, r.pos, r.bits, r.taken);
    var i, b := r.input[r.next..r.next + r.have], r.bytes[r.taken..r.taken + r.have];
    assert r.input[r.next] == i[0] == b[0] == r.bytes[r.taken];
    assert r.input[r.next + 1..r.next + r.have] == i[1..];
    assert r.bytes[r.taken + 1..r.taken + r.have] == b[1..];
  }

  /** NEEDBITS(n): false when the input runs out first. */
  method NeedBits(r: Reader, n: nat) returns (ok: bool, r': Reader)
    requires BitsOK(r) && (n <= 25 || (n == 32 && WholeBytes(r.bits)))
    ensures BitsOK(r') && Consumed(r, r') && r'.pos == r.pos
    ensures r'.bits >= r.bits && (WholeBytes(r.bits) ==> WholeBytes(r'.bits))
    ensures ok ==> n <= r'.bits && (r'.bits == r.bits || r'.bits < n + 8)
    ensures !ok ==> r'.bits < n && r'.have == 0
  {
    hide BitsOK, PullByte;
    r' := r;
    while r'.bits < n
      invariant BitsOK(r') && Consumed(r, r') && r'.pos == r.pos
      invariant r'.bits >= r.bits && (WholeBytes(r.bits) ==> WholeBytes(r'.bits))
      invariant r'.bits == r.bits || r'.bits < n + 8
      decreases n - r'.bits
    {
      if r'.have == 0 {
        return false, r';
      }
      r' := PullByte(r');
    }
    ok := true;
  }

  /** NEEDBITS(n) and BITS(n): the field at the current position, without dropping it. */
  method Peek(r: Reader, n: nat) returns (ok: bool, r': Reader, v: nat)
    requires BitsOK(r) && (n <= 25 || (n == 32 && WholeBytes(r.bits)))
    ensures BitsOK(r') && Consumed(r, r') && r'.pos == r.pos
    ensures r'.bits >= r.bits && (WholeBytes(r.bits) ==> WholeBytes(r'.bits))
    ensures ok ==> n <= r'.bits && (r'.bits == r.bits || r'.bits < n + 8)
    ensures ok ==> r'.pos + r'.bits <= |r'.stream| && v == Rfc.Field(r'.stream, r'.pos, n)
    ensures !ok ==> r'.bits < n && r'.have == 0 && (r'.taken == |r'.bytes| ==> |r'.stream| < r'.pos + n)
  {
    hide LVal, Low, Eight, Rfc.Field, WholeBytes;
    v := 0;
    ok, r' := NeedBits(r, n);
    if ok {
      DropLink(r'.stream, r'.pos, r'.bits, n);
      v := Low(r'.hold, n);
    }
  }

  /** DROPBITS(n). */
  function DropBits(r: Reader, n: nat): (r': Reader)
    requires BitsOK(r) && n <= r.bits
    ensures BitsOK(r') && Consumed(r, r') && r'.bits == r.bits - n && r'.pos == r.pos + n
    ensures r'.next == r.next && r'.have == r.have
  {
    DropOK(r, n);
    r.(hold := Shr(r.hold, n), bits := r.bits - n, pos := r.pos + n)
  }

  lemma {:induction false} DropOK(r: Reader, n: nat)
    requires BitsOK(r) && n <= r.bits
    ensures BitsOK(r.(hold := Shr(r.hold, n), bits := r.bits - n, pos := r.pos + n))
  {
    hide LVal, Shr, Low, BytesBits, Eight;
    DropLink(r.stream, r.pos, r.bits, n);
  }

  /** INITBITS: drops everything that is held. */
  function InitBits(r: Reader): (r': Reader)
    requires BitsOK(r)
    ensures BitsOK(r') && Consumed(r, r') && r'.bits == 0 && r'.pos == r.pos + r.bits
  {
    r.(hold := 0, bits := 0, pos := r.pos + r.bits)
  }

  /** BYTEBITS: goes to the next byte boundary. */
  function ByteBits(r: Reader): (r': Reader)
    requires BitsOK(r)
    ensures BitsOK(r') && Consumed(r, r') && r'.bits <= r.bits && r'.pos == Rfc.Aligned(r.pos)
    ensures (r.bits < 8 ==> r'.bits == 0) && (WholeBytes(r.bits) ==> r'.bits == r.bits)
  {
    ToBoundary(r.pos, r.bits, r.taken);
    DropBits(r, Spare(r.bits))
  }

  /** The first n bits that are held, those from the i-th on, and a single one. */
  lemma {:induction false} HeldLow(r: Reader, n: nat)
    requires BitsOK(r) && n <= r.bits
    ensures r.pos + r.bits <= |r.stream| && Low(r.hold, n) == Rfc.Field(r.stream, r.pos, n)
  {
    hide LVal, Low, Shr, Eight, BytesBits;
    DropLink(r.stream, r.pos, r.bits, n);
  }

  lemma {:induction false} HeldHigh(r: Reader, i: nat)
    requires BitsOK(r) && i <= r.bits
    ensures r.pos + r.bits <= |r.stream| && Shr(r.hold, i) == Rfc.Field(r.stream, r.pos + i, r.bits - i)
  {
    hide LVal, Low, Shr, Eight, BytesBits;
    DropLink(r.stream, r.pos, r.bits, i);
  }

  lemma {:induction false} HeldBit(r: Reader, i: nat)
    requires BitsOK(r) && i < r.bits
    ensures r.pos + r.bits <= |r.stream| && (Shr(r.hold, i) % 2 == 1 <==> r.stream[r.pos + i])
  {
    hide LVal, Low, Shr, Eight, BytesBits;
    BitOf(r.stream[r.pos..r.pos + r.bits], i);
  }

  // ----- the window -----

  /** The sliding window; `ringed` is the history that it holds. */
  datatype Window = Window(wbits: nat, wsize: nat, whave: nat, wnext: nat, present: bool, buf: seq<byte>,
                           ringed: seq<byte>)

  /** The j-th most recent byte is just before the write position, going back around the ring. */
  function RingIndex(wsize: nat, wnext: nat, j: nat): int {
    if j <= wnext then wnext - j else wnext + wsize - j
  }

  /** The circular window holds the most recent bytes of the history `h`. */
  predicate Ring(w: seq<byte>, wsize: nat, whave: nat, wnext: nat, h: seq<byte>) {
    && |w| == wsize && wnext < wsize
    && whave == (if |h| < wsize then |h| else wsize)
    && (whave < wsize ==> wnext == whave)
    && forall j :: 1 <= j <= whave ==> 0 <= RingIndex(wsize, wnext,
                                                      j) < wsize && w[RingIndex(wsize, wnext, j)] == h[|h| - j]
  }

  predicate WindowOK(w: Window) {
    && w.wbits == 15
    && if w.wsize == 0 then !w.present && w.whave == 0 && w.wnext == 0 && w.ringed == []
       else w.wsize == WSIZE && w.present && Ring(w.buf, w.wsize, w.whave, w.wnext, w.ringed)
  }

  // ----- control -----

  /** The other fields of the state; `litLens` and `distLens` are the code lengths of the current tables,
      `codeLens` those of the code length code, `acc` the lengths read so far; `checked` once the checksum
      has been compared, after which the window is no longer kept up to date. */
  datatype Control = Control(mode: Mode, last: bool, dmax: nat, check: nat, checked: bool,
                             length: nat, offset: nat, extra: nat,
                             ncode: nat, nlen: nat, ndist: nat, have: nat,
                             litLens: seq<nat>, distLens: seq<nat>, codeLens: seq<nat>, acc: seq<nat>)

  predicate SizesOK(c: Control) {
    257 <= c.nlen <= 286 && 1 <= c.ndist <= 30 && 4 <= c.ncode <= 19
  }

  /** The sizes that make the outcome below meaningful. */
  predicate Shape(c: Control) {
    && |c.litLens| <= 288 && |c.distLens| <= 32 && |c.codeLens| == 19
    && (c.mode.AtLenLens? ==> SizesOK(c) && |c.acc| <= c.ncode)
    && (c.mode.AtCodeLens? ==> SizesOK(c) && |c.acc| <= c.nlen + c.ndist)
    && (c.mode.AtLit? ==> c.length < 256)
  }

  /** How many bits each mode may hold, and what its fields mean. */
  ghost predicate ModeOK(c: Control, r: Reader, past: seq<byte>) {
    && 256 <= c.dmax <= WSIZE
    && (c.checked ==> c.mode.AtDone? || c.mode.AtBad?)
    && match c.mode
       case AtHead => r.bits <= 16 && WholeBytes(r.bits) && past == [] && !c.last
       case AtDictId => WholeBytes(r.bits) && past == []
       case AtDict => past == []
       case AtType => r.bits < 8
       case AtTypeDo => r.bits < 8
       case AtStored => r.bits < 8 || WholeBytes(r.bits)
       case AtCopyFirst => r.bits == 0
       case AtCopy => r.bits == 0
       case AtTable => r.bits < 14
       case AtLenLens => r.bits < 8
       case AtCodeLens => r.bits < 8 || (c.have < c.nlen + c.ndist && MidRepeat(r, c.codeLens))
       case AtLenFirst => r.bits < 8
       case AtLen => Tight(r, c.litLens)
       case AtLenExt => (r.bits < 8 || r.bits < c.extra) && c.extra <= 5 && 3 <= c.length <= 258
       case AtDist => Tight(r, c.distLens) && 3 <= c.length
       case AtDistExt => (r.bits < 8 || r.bits < c.extra) && c.extra <= 13 && 3 <= c.length && 1 <= c.offset
       case AtMatch => r.bits < 8 && 1 <= c.length && 1 <= c.offset <= c.dmax
       case AtLit => r.bits < 8
       case AtCheck => WholeBytes(r.bits)
       case AtDone => true
       case AtBad => true
  }

  /** The checksum covers what was written before this call. */
  predicate CheckOK(c: Control, before: seq<byte>) {
    && (!c.mode.AtDict? ==> Legal(c.check))
    && (c.checked || c.mode.AtHead? || c.mode.AtDictId? || c.mode.AtDict? || c.mode.AtBad?
        || c.check == Checksum(before))
  }

  /** The outcome of the stream from here on. */
  ghost function Go(c: Control, past: seq<byte>, s: seq<bool>, p: nat): Rfc.Outcome
    requires Shape(c)
  {
    match c.mode
    case AtHead => Rfc.Header(Rfc.Program, s, p)
    case AtDictId => Rfc.DictId(s, p)
    case AtDict => Rfc.Outcome(Rfc.NeedDict, [], 0)
    case AtType => Rfc.Type(Rfc.Program, c.last, c.dmax, past, s, p)
    case AtTypeDo => Rfc.Type(Rfc.Program, c.last, c.dmax, past, s, p)
    case AtStored => Rfc.Stored(Rfc.Program, c.last, c.dmax, past, s, Rfc.Aligned(p))
    case AtCopyFirst => Rfc.Copy(Rfc.Program, c.length, c.last, c.dmax, past, s, p)
    case AtCopy => Rfc.Copy(Rfc.Program, c.length, c.last, c.dmax, past, s, p)
    case AtTable => Rfc.Table(Rfc.Program, c.last, c.dmax, past, s, p)
    case AtLenLens => Rfc.LenLens(Rfc.Program, c.nlen, c.ndist, c.ncode, c.acc, c.last, c.dmax, past, s, p)
    case AtCodeLens => Rfc.CodeLens(Rfc.Program, c.codeLens, c.nlen, c.ndist, c.acc, c.last, c.dmax, past, s, p)
    case AtLenFirst => Rfc.Symbols(Rfc.Program, c.litLens, c.distLens, c.last, c.dmax, past, s, p)
    case AtLen => Rfc.Symbols(Rfc.Program, c.litLens, c.distLens, c.last, c.dmax, past, s, p)
    case AtLenExt => Rfc.LengthBits(Rfc.Program, c.length, c.extra, c.litLens, c.distLens, c.last, c.dmax, past, s, p)
    case AtDist => Rfc.Distance(Rfc.Program, c.length, c.litLens, c.distLens, c.last, c.dmax, past, s, p)
    case AtDistExt => Rfc.DistanceBits(Rfc.Program, c.length, c.offset, c.extra, c.litLens, c.distLens, c.last, c.dmax,
                                       past, s, p)
    case AtMatch => Rfc.Match(Rfc.Program, c.length, c.offset, c.litLens, c.distLens, c.last, c.dmax, past, s, p)
    case AtLit => Rfc.Symbols(Rfc.Program, c.litLens, c.distLens, c.last, c.dmax, past + [c.length], s, p)
    case AtCheck => Rfc.Trailer(past, s, Rfc.Aligned(p))
    case AtDone => Rfc.Outcome(Rfc.Done, past, p)
    case AtBad => Rfc.Fails(past)
  }

  // ----- tables -----

  /** A table that decodes a code which is complete or has at most one bit. */
  ghost predicate Decodes(t: seq<Entry>, root: nat, m: seq<Sense>, lens: seq<nat>) {
    TableOK(t, root, m, lens) && Kraft(lens) <= FULL && Sound(lens) && NoLinks(m) && LensOK(lens) && root <= 15
  }

  /** Codes whose unused words are all recognised by their first bit. */
  predicate Sound(l: seq<nat>) {
    Kraft(l) == FULL || AtMostOneBit(l)
  }

  /** The contents of the current tables and of the array of code lengths. */
  datatype Tables = Tables(lencode: seq<Entry>, lenbits: nat, distcode: seq<Entry>, distbits: nat,
                           dynamic: bool, lens: seq<nat>)

  /** The tables and the code lengths are what the mode needs. */
  ghost predicate TablesOK(c: Control, t: Tables) {
    && |t.lens| == 320
    && (Decoding(c.mode) ==>
          && Decodes(t.lencode, t.lenbits, Senses(Lens), c.litLens)
          && Decodes(t.distcode, t.distbits, Senses(Dists), c.distLens))
    && (c.mode.AtLenLens? ==>
          c.have == |c.acc| <= 19 && forall i :: 0 <= i < c.have ==> c.acc[i] <= 7 && t.lens[Rfc.ORDER[i]] == c.acc[i])
    && (c.mode.AtCodeLens? ==>
          && c.have == |c.acc| <= 320 && t.lens[..c.have] == c.acc && LensOK(c.acc)
          && t.dynamic && t.lenbits <= 7 && (forall v :: 0 <= v < |c.codeLens| ==> c.codeLens[v] <= t.lenbits)
          && Decodes(t.lencode, t.lenbits, Senses(Codes), c.codeLens))
  }

  /** The tables of the fixed codes, once built. */
  datatype Fixed = Fixed(virgin: bool, lenfix: seq<Entry>, distfix: seq<Entry>)

  ghost predicate FixedOK(f: Fixed) {
    !f.virgin ==>
      Decodes(f.lenfix, 9, Senses(Lens), Rfc.FixedLens()) && Decodes(f.distfix, 5, Senses(Dists), Rfc.FixedDists())
  }

  /** What holds of the reader and the control fields between two steps; `before` had been written
      before this call. */
  ghost predicate ControlOK(r: Reader, past: seq<byte>, c: Control, before: seq<byte>) {
    BitsOK(r) && Shape(c) && ModeOK(c, r, past) && CheckOK(c, before) && |before| <= |past|
  }

  /** The window holds what had been written before this call, as long as matches can still refer to it. */
  predicate Synced(c: Control, ringed: seq<byte>, before: seq<byte>) {
    c.mode.AtCheck? || Final(c.mode) || ringed == before
  }

  /** Waiting for input: if there is no more to come, the stream is truncated here. */
  ghost predicate Waiting(r: Reader, past: seq<byte>, c: Control) {
    r.have == 0 && Shape(c) && (r.taken == |r.bytes| ==> Go(c, past, r.stream, r.pos) == Rfc.NeedsMore(past))
  }

  // ----- the object -----

  class Stream {
    // the caller's buffers
    var input: seq<byte>
    var nextIn: nat
    var availIn: nat
    var totalIn: nat
    var output: array<byte>
    var nextOut: nat
    var availOut: nat
    var totalOut: nat

    var mode: Mode
    var last: bool
    var dmax: nat
    var check: nat

    // the sliding window
    const wbits: nat
    var wsize: nat
    var whave: nat
    var wnext: nat
    var window: array?<byte>

    // the bit accumulator
    var hold: nat
    var bits: nat

    // for string and stored block copying, and for code decoding
    var length: nat
    var offset: nat
    var extra: nat
    var lencode: array<Entry>
    var distcode: array<Entry>
    var lenbits: nat
    var distbits: nat

    // for building tables
    var ncode: nat
    var nlen: nat
    var ndist: nat
    var have: nat
    const lens: array<nat>
    const work: array<nat>
    const lendyn: array<Entry>
    const distdyn: array<Entry>

    // the tables of the fixed codes, built on first use
    var virgin: bool
    const lenfix: array<Entry>
    const distfix: array<Entry>

    // what the records above add to these fields
    ghost const bytes: seq<byte>
    ghost var taken: nat
    ghost const stream: seq<bool>
    ghost var pos: nat
    ghost var past: seq<byte>
    ghost var ringed: seq<byte>
    ghost var checked: bool
    ghost var litLens: seq<nat>
    ghost var distLens: seq<nat>
    ghost var codeLens: seq<nat>
    ghost var acc: seq<nat>

    ghost function R(): Reader
      reads `hold, `bits, `input, `nextIn, `availIn, `taken, `pos
    {
      Reader(hold, bits, input, nextIn, availIn, bytes, taken, stream, pos)
    }

    ghost function O(): Writer
      reads `nextOut, `availOut, `past
    {
      Writer(nextOut, availOut, past)
    }

    ghost function W(): Window
      reads `wsize, `whave, `wnext, `window, `ringed, window
    {
      Window(wbits, wsize, whave, wnext, window != null, if window == null then [] else window[..], ringed)
    }

    ghost function C(): Control
      reads `mode, `last, `dmax, `check, `checked, `length, `offset, `extra, `ncode, `nlen, `ndist, `have,
            `litLens, `distLens, `codeLens, `acc
    {
      Control(mode, last, dmax, check, checked, length, offset, extra, ncode, nlen, ndist, have,
              litLens, distLens, codeLens, acc)
    }

    ghost function T(): Tables
      reads `lencode, `lenbits, `distcode, `distbits, lencode, distcode, lens
    {
      Tables(lencode[..], lenbits, distcode[..], distbits, lencode == lendyn, lens[..])
    }

    ghost function F(): Fixed
      reads `virgin, lenfix, distfix
    {
      Fixed(virgin, lenfix[..], distfix[..])
    }

    /** inflateInit: a stream that is about to read `bytes`, of which no byte has been supplied yet. */
    constructor (ghost bytes: seq<byte>)
      ensures this.bytes == bytes && stream == BytesBits(bytes) && wbits == 15
      ensures input == [] && nextIn == 0 && availIn == 0 && nextOut == 0 && availOut == 0 && totalIn == 0
      ensures totalOut == 0
      ensures hold == 0 && bits == 0 && taken == 0 && pos == 0 && past == []
      ensures mode == AtHead && !last && dmax == WSIZE && check == 0 && !checked && virgin
      ensures litLens == [] && distLens == [] && |codeLens| == 19
      ensures wsize == 0 && whave == 0 && wnext == 0 && window == null && ringed == []
      ensures ArraysOK()
      ensures fresh(output) && fresh(lens) && fresh(work) && fresh(lendyn) && fresh(distdyn) && fresh(lenfix)
      ensures fresh(distfix)
    {
      this.bytes, stream := bytes, BytesBits(bytes);
      input, nextIn, availIn, totalIn := [], 0, 0, 0;
      output, nextOut, availOut, totalOut := new byte[0], 0, 0, 0;
      mode, last, dmax, check := AtHead, false, WSIZE, 0;
      wbits, wsize, whave, wnext, window := 15, 0, 0, 0, null;
      hold, bits, length, offset, extra := 0, 0, 0, 0, 0;
      lenbits, distbits, ncode, nlen, ndist, have := 0, 0, 0, 0, 0, 0;
      lens, work := new nat[320](_ => 0), new nat[288](_ => 0);
      var l, d := new Entry[ENOUGH_LENS](_ => Entry(0, 0, 0)), new Entry[ENOUGH_DISTS](_ => Entry(0, 0, 0));
      lendyn, distdyn, lencode, distcode := l, d, l, d;
      virgin := true;
      lenfix, distfix := new Entry[512](_ => Entry(0, 0, 0)), new Entry[32](_ => Entry(0, 0, 0));
      taken, pos, past, ringed, checked := 0, 0, [], [], false;
      litLens, distLens, codeLens, acc := [], [], seq(19, i => 0), [];
    }

    /** The arrays have their sizes and do not share storage. */
    ghost predicate ArraysOK()
      reads `window, `output, `lencode, `distcode
    {
      && lens.Length == 320 && work.Length == 288 && lens != work
      && lendyn.Length == ENOUGH_LENS && distdyn.Length == ENOUGH_DISTS
      && lenfix.Length == 512 && distfix.Length == 32
      && window != output
      && (lencode == lendyn || lencode == lenfix) && (distcode == distdyn || distcode == distfix)
    }
  }
}
