/** Stored blocks: the STORED, COPY_ and COPY modes. */
module StepStoredBlocks {
  import opened Bits
  import opened Adler
  import opened Outputs
  import opened Streams
  import opened Steps
  import Rfc = Rfc1951

  lemma {:induction false} StoredWaits(r: Reader, o: Writer, c: Control, t: Tables, r': Reader, before: seq<byte>)
    requires Ready(r, o.past, c, t, before) && c.mode == AtStored
    requires BitsOK(r') && Consumed(r, r') && r'.pos == Rfc.Aligned(r.pos) && WholeBytes(r'.bits)
    requires r'.bits < 32 && r'.have == 0 && (r'.taken == |r'.bytes| ==> |r'.stream| < r'.pos + 32)
    ensures Stepped(r, o, c, r', o, c, t, before, true)
  {
    hide BitsOK, Legal, Checksum, Decodes, Stepped, Rfc.Copy;
    assert Rfc.Aligned(Rfc.Aligned(r.pos)) == Rfc.Aligned(r.pos);
    ToWait(r, o, c, t, r', before);
  }

  lemma {:induction false} StoredBad(r: Reader, o: Writer, c: Control, t: Tables, r': Reader, c': Control,
                                     before: seq<byte>)
    requires Ready(r, o.past, c, t, before) && c.mode == AtStored && BitsOK(r') && Consumed(r, r')
    requires r'.pos == Rfc.Aligned(r.pos) && r'.pos + 32 <= |r'.stream| && c' == c.(mode := AtBad)
    requires Rfc.Field(r.stream, r'.pos + 16, 16) != 65535 - Rfc.Field(r.stream, r'.pos, 16)
    ensures Stepped(r, o, c, r', o, c', t, before, false)
  {
    hide BitsOK, Legal, Checksum, Decodes, Stepped, Rfc.Copy, Rfc.Field;
    ToBad(r, o, c, t, r', c', t, before);
  }

  lemma {:induction false} StoredRead(r: Reader, o: Writer, c: Control, t: Tables, r': Reader, c': Control,
                                      before: seq<byte>)
    requires Ready(r, o.past, c, t, before) && c.mode == AtStored && BitsOK(r') && Consumed(r, r')
    requires var q := Rfc.Aligned(r.pos);
             && r'.pos == q + 32 <= |r.stream| && r'.bits == 0
             && Rfc.Field(r.stream, q + 16, 16) == 65535 - Rfc.Field(r.stream, q, 16)
             && c' == c.(mode := AtCopyFirst, length := Rfc.Field(r.stream, q, 16))
    ensures Stepped(r, o, c, r', o, c', t, before, false)
  {
    hide BitsOK, Legal, Checksum, Decodes, Rfc.Copy, Rfc.Field;
    TablesKept(c, c', t);
  }

  /** The two 16-bit numbers in 32 held bits. */
  lemma {:induction false} Halves(r: Reader)
    requires BitsOK(r) && r.bits == 32
    ensures r.pos + 32 <= |r.stream| && Low(r.hold, 16) == Rfc.Field(r.stream, r.pos, 16)
    ensures Shr(r.hold, 16) == Rfc.Field(r.stream, r.pos + 16, 16)
  {
    hide Low, Shr, BytesBits, Eight, Rfc.Field;
    HeldLow(r, 16);
    HeldHigh(r, 16);
  }

  method StepStored(s: Stream, r0: Reader, ghost o: Writer, ghost before: seq<byte>) returns (leave: bool, r: Reader)
    requires Ready(r0, o.past, s.C(), s.T(), before) && s.mode == AtStored
    modifies s`mode, s`length
    ensures Stepped(r0, o, old(s.C()), r, o, s.C(), s.T(), before, leave)
  {
    hide Low, Shr, BitsOK, Stepped, Rfc.Field, Rfc.Aligned, Go, Eight, BytesBits, TablesOK;
    ghost var c, t := s.C(), s.T();
    leave, r := false, ByteBits(r0);
    var ok, field;
    ok, r, field := Peek(r, 32);
    leave := !ok;
    if leave {
      StoredWaits(r0, o, c, t, r, before);
      return;
    }
    Halves(r);
    if Low(r.hold, 16) != 65535 - Shr(r.hold, 16) {
      s.mode := AtBad;
      StoredBad(r0, o, c, t, r, s.C(), before);
      return;
    }
    s.length := Low(r.hold, 16);
    r := InitBits(r);
    s.mode := AtCopyFirst;
    StoredRead(r0, o, c, t, r, s.C(), before);
  }

  /** COPY_ does nothing but go on to COPY. */
  method StepCopyFirst(s: Stream, r: Reader, ghost o: Writer, ghost before: seq<byte>)
    requires Ready(r, o.past, s.C(), s.T(), before) && s.mode == AtCopyFirst
    modifies s`mode
    ensures Stepped(r, o, old(s.C()), r, o, s.C(), s.T(), before, false)
  {
    hide BitsOK, Legal, Checksum, Decodes, Rfc.Copy, TablesOK;
    ghost var c := s.C();
    s.mode := AtCopy;
    TablesKept(c, s.C(), s.T());
  }

  // ----- copying -----

  lemma {:induction false} ByteAtIs(bytes: seq<byte>, i: nat)
    requires i < |bytes|
    ensures Eight(i) + 8 == Eight(i + 1) <= |BytesBits(bytes)|
    ensures Rfc.ByteAt(BytesBits(bytes), Eight(i)) == bytes[i]
  {
    hide BytesBits, LBits, LVal;
    BytesBitsAt(bytes, i);
    Pow2Values();
    LValLBits(bytes[i], 8);
  }

  /** Copying k bytes of a stored block. */
  lemma {:induction false} CopyRun(rules: Rfc.Rules, n: nat, k: nat, last: bool, dmax: nat, out: seq<byte>,
                                   bytes: seq<byte>, i: nat)
    requires k <= n && i + k <= |bytes|
    ensures Rfc.Copy(rules, n, last, dmax, out, BytesBits(bytes), Eight(i)) ==
            Rfc.Copy(rules, n - k, last, dmax, out + bytes[i..i + k], BytesBits(bytes), Eight(i + k))
    decreases k
  {
    hide BytesBits, Eight, Rfc.ByteAt, Rfc.Type;
    if k > 0 {
      ByteAtIs(bytes, i);
      CopyRun(rules, n - 1, k - 1, last, dmax, out + [bytes[i]], bytes, i + 1);
      assert out + [bytes[i]] + bytes[i + 1..i + k] == out + bytes[i..i + k];
    } else {
      assert out + bytes[i..i + k] == out;
    }
  }

  /** Taking n bytes from the input past the bit reader, which is empty. */
  function SkipBytes(r: Reader, n: nat): (r': Reader)
    requires BitsOK(r) && r.bits == 0 && n <= r.have
    ensures BitsOK(r') && Consumed(r, r') && r'.bits == 0 && r'.pos == r.pos + Eight(n) && r'.have == r.have - n
  {
    SkipOK(r, n);
    r.(next := r.next + n, have := r.have - n, taken := r.taken + n, pos := r.pos + Eight(n))
  }

  lemma {:induction false} SkipOK(r: Reader, n: nat)
    requires BitsOK(r) && r.bits == 0 && n <= r.have
    ensures BitsOK(r.(next := r.next + n, have := r.have - n, taken := r.taken + n, pos := r.pos + Eight(n)))
    ensures r.input[r.next..r.next + n] == r.bytes[r.taken..r.taken + n]
  {
    hide BytesBits, LVal, Eight;
    SkipSlices(r, n);
    SkipBits(r, n);
  }

  /** The bytes that are taken and those that remain are the stream's. */
  lemma {:induction false} SkipSlices(r: Reader, n: nat)
    requires n <= r.have && r.next + r.have <= |r.input| && r.taken + r.have <= |r.bytes|
    requires r.input[r.next..r.next + r.have] == r.bytes[r.taken..r.taken + r.have]
    ensures r.input[r.next + n..r.next + r.have] == r.bytes[r.taken + n..r.taken + r.have]
    ensures r.input[r.next..r.next + n] == r.bytes[r.taken..r.taken + n]
  {
    Parts(r.input, r.next, r.have, n);
    Parts(r.bytes, r.taken, r.have, n);
  }

  lemma {:induction false} Parts(s: seq<byte>, from: nat, m: nat, n: nat)
    requires n <= m && from + m <= |s|
    ensures s[from..from + m][n..] == s[from + n..from + m] && s[from..from + m][..n] == s[from..from + n]
  {
  }

  /** No bits are held before or after. */
  lemma {:induction false} SkipBits(r: Reader, n: nat)
    requires BitsOK(r) && r.bits == 0 && n <= r.have
    ensures var p := r.pos + Eight(n);
            p == Eight(r.taken + n) <= |r.stream| && r.hold == LVal(r.stream[p..p])
  {
    hide BytesBits, LVal;
    BitCount(r.bytes);
    assert r.taken + n <= |r.bytes|;
    var p := r.pos + Eight(n);
    assert p == Eight(r.taken + n) <= Eight(|r.bytes|);
    assert r.stream[p..p] == r.stream[r.pos..r.pos + 0];
  }

  /** utils.arraySet: copies part of `src` into `dst`. */
  method ArraySet(dst: array<byte>, src: seq<byte>, srcOffs: nat, len: nat, dstOffs: nat)
    requires srcOffs + len <= |src| && dstOffs + len <= dst.Length
    modifies dst
    ensures Stored(old(dst[..]), dstOffs, src[srcOffs..srcOffs + len], dst[..])
  {
    for i := 0 to len
      invariant forall k :: 0 <= k < dst.Length ==>
                  dst[k] == if dstOffs <= k < dstOffs + i then src[srcOffs + (k - dstOffs)] else old(dst[k])
    {
      dst[dstOffs + i] := src[srcOffs + i];
    }
  }

  lemma {:induction false} CopyRead(r: Reader, o: Writer, c: Control, t: Tables, n: nat, c': Control, before: seq<byte>)
    requires Ready(r, o.past, c, t, before) && c.mode == AtCopy && 0 < n <= c.length && n <= r.have && n <= o.left
    requires c' == c.(length := c.length - n)
    ensures Stepped(r, o, c, SkipBytes(r, n), Put(o, r.input[r.next..r.next + n]), c', t, before, false)
  {
    hide LVal, BytesBits, Legal, Checksum, Decodes, Rfc.Copy, TablesOK;
    SkipOK(r, n);
    assert r.bits == 0;
    CopyRun(Rfc.Program, c.length, n, c.last, c.dmax, o.past, r.bytes, r.taken);
    TablesKept(c, c', t);
  }

  lemma {:induction false} CopyWaits(r: Reader, o: Writer, c: Control, t: Tables, before: seq<byte>)
    requires Ready(r, o.past, c, t, before) && c.mode == AtCopy && c.length > 0 && (r.have == 0 || o.left == 0)
    ensures Stepped(r, o, c, r, o, c, t, before, true)
  {
    hide LVal, BytesBits, Legal, Checksum, Decodes, TablesOK;
  }

  lemma {:induction false} CopyDone(r: Reader, o: Writer, c: Control, t: Tables, c': Control, before: seq<byte>)
    requires Ready(r, o.past, c, t, before) && c.mode == AtCopy && c.length == 0 && c' == c.(mode := AtType)
    ensures Stepped(r, o, c, r, o, c', t, before, false)
  {
    hide BitsOK, Legal, Checksum, Decodes, Rfc.Type, TablesOK;
    TablesKept(c, c', t);
  }

  method StepCopy(s: Stream, r: Reader, o: Writer, ghost o0: Writer, ghost b0: seq<byte>)
    returns (leave: bool, r': Reader, o': Writer)
    requires Ready(r, o.past, s.C(), s.T(), o0.past) && s.mode == AtCopy && Wrote(o0, b0, o, s.output[..])
    modifies s`mode, s`length, s.output
    ensures Stepped(r, o, old(s.C()), r', o', s.C(), old(s.T()), o0.past, leave)
    ensures Wrote(o0, b0, o', s.output[..])
  {
    hide BitsOK, Stepped, Go, Eight, BytesBits, TablesOK, Wrote, Stored, Ready;
    ghost var c, t := s.C(), s.T();
    leave, r', o' := false, r, o;
    if s.length != 0 {
      var copy := s.length;
      if copy > r.have {
        copy := r.have;
      }
      if copy > o.left {
        copy := o.left;
      }
      if copy == 0 {
        CopyWaits(r, o, c, t, o0.past);
        leave := true;
        return;
      }
      ReadyBits(r, o.past, c, t, o0.past);
      r', o' := CopyBytes(s, r, o, copy, o0, b0);
      s.length := s.length - copy;
      CopyRead(r, o, c, t, copy, s.C(), o0.past);
      return;
    }
    s.mode := AtType;
    CopyDone(r, o, c, t, s.C(), o0.past);
  }

  /** Copies bytes of a stored block from the input to the output. */
  method CopyBytes(s: Stream, r: Reader, o: Writer, copy: nat, ghost o0: Writer, ghost b0: seq<byte>)
    returns (r': Reader, o': Writer)
    requires BitsOK(r) && r.bits == 0 && r.next + r.have <= |r.input| && copy <= r.have && copy <= o.left
    requires Wrote(o0, b0, o, s.output[..])
    modifies s.output
    ensures r' == SkipBytes(r, copy) && o' == Put(o, r.input[r.next..r.next + copy])
    ensures Wrote(o0, b0, o', s.output[..])
  {
    hide BitsOK, Eight, BytesBits, Wrote, Stored;
    ghost var b := s.output[..];
    WroteRoom(o0, b0, o, b);
    ArraySet(s.output, r.input, r.next, copy, o.put);
    WroteMore(o0, b0, o, b, r.input[r.next..r.next + copy], s.output[..]);
    r' := SkipBytes(r, copy);
    o' := Writer(o.put + copy, o.left - copy, o.past + r.input[r.next..r.next + copy]);
  }

  lemma {:induction false} ReadyBits(r: Reader, past: seq<byte>, c: Control, t: Tables, before: seq<byte>)
    requires Ready(r, past, c, t, before) && c.mode == AtCopy
    ensures BitsOK(r) && r.bits == 0 && r.next + r.have <= |r.input|
  {
  }
}
