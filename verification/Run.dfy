/** Whole runs: a stream read in any chunks and written in any pieces. */
module Runs {
  import opened Bits
  import opened Huffman
  import opened CodeTables
  import opened Adler
  import opened Outputs
  import opened Streams
  import opened Steps
  import opened Inflates
  import opened InflateFasts
  import opened OutputGrows
  import opened StoredStreams
  import opened Agreements
  import Rfc = Rfc1951

  /** What has been written is the beginning of what the stream means. */
  lemma {:induction false} GoGrows(r: Reader, past: seq<byte>, c: Control)
    requires Shape(c) && ModeOK(c, r, past)
    ensures past <= Go(c, past, r.stream, r.pos).out
  {
    hide Rfc.Type, Rfc.Stored, Rfc.Copy, Rfc.Table, Rfc.LenLens, Rfc.CodeLens, Rfc.Symbols, Rfc.LengthBits,
      Rfc.Distance, Rfc.DistanceBits, Rfc.Match, Rfc.Aligned, Checksum, Rfc.BigEndian, Lookup;
    var s, p := r.stream, r.pos;
    match c.mode {
      case AtHead =>
      case AtDictId =>
      case AtDict =>
      case AtType => TypeGrows(Rfc.Program, c.last, c.dmax, past, s, p);
      case AtTypeDo => TypeGrows(Rfc.Program, c.last, c.dmax, past, s, p);
      case AtStored => StoredGrows(Rfc.Program, c.last, c.dmax, past, s, Rfc.Aligned(p));
      case AtCopyFirst => CopyGrows(Rfc.Program, c.length, c.last, c.dmax, past, s, p);
      case AtCopy => CopyGrows(Rfc.Program, c.length, c.last, c.dmax, past, s, p);
      case AtTable => TableGrows(Rfc.Program, c.last, c.dmax, past, s, p);
      case AtLenLens => LenLensGrow(Rfc.Program, c.nlen, c.ndist, c.ncode, c.acc, c.last, c.dmax, past, s, p);
      case AtCodeLens => CodeLensGrow(Rfc.Program, c.codeLens, c.nlen, c.ndist, c.acc, c.last, c.dmax, past, s, p);
      case AtLenFirst => SymbolsGrow(Rfc.Program, c.litLens, c.distLens, c.last, c.dmax, past, s, p);
      case AtLen => SymbolsGrow(Rfc.Program, c.litLens, c.distLens, c.last, c.dmax, past, s, p);
      case AtLenExt => LengthBitsGrow(Rfc.Program, c.length, c.extra, c.litLens, c.distLens, c.last, c.dmax, past, s,
                                      p);
      case AtDist => DistanceGrows(Rfc.Program, c.length, c.litLens, c.distLens, c.last, c.dmax, past, s, p);
      case AtDistExt => DistanceBitsGrow(Rfc.Program, c.length, c.offset, c.extra, c.litLens, c.distLens, c.last,
                                         c.dmax, past, s, p);
      case AtMatch => MatchGrows(Rfc.Program, c.length, c.offset, c.litLens, c.distLens, c.last, c.dmax, past, s, p);
      case AtLit =>
        var x := past + [c.length];
        SymbolsGrow(Rfc.Program, c.litLens, c.distLens, c.last, c.dmax, x, s, p);
        Longer(past, x, Rfc.Symbols(Rfc.Program, c.litLens, c.distLens, c.last, c.dmax, x, s, p).out);
      case AtCheck =>
      case AtDone =>
      case AtBad =>
    }
  }

  /** In every state that can be reached, the output so far is the beginning of the decoded stream. */
  lemma {:induction false} PrefixAlways(s: Stream)
    requires Open(s)
    ensures s.past <= Rfc.Decode(Rfc.Program, s.bytes).out
  {
    hide Go, BitsOK, Shape, ModeOK, CheckOK, Rfc.Decode, TablesOK, FixedOK, WindowOK, ObjectOK, Rfc.Symbols, Checksum;
    GoGrows(s.R(), s.past, s.C());
  }

  /** Whenever LEN is to be dispatched, the bits that are held contain no complete code, or are fewer than eight. */
  lemma {:induction false} HeldAtLen(s: Stream)
    requires Open(s) && (s.mode.AtLen? || s.mode.AtLenFirst?)
    ensures s.pos + s.bits <= |s.stream| && s.hold == LVal(s.stream[s.pos..s.pos + s.bits])
    ensures s.bits < 8 || Lookup(s.litLens, s.stream[s.pos..s.pos + s.bits]) == NeedMore
    ensures s.bits <= 14
  {
    hide Go, Rfc.Decode, FixedOK, WindowOK, ObjectOK, Rfc.Symbols, Checksum, Lookup, LVal, BytesBits, Decodes;
    if s.mode.AtLen? {
      TightAtLen(s.R(), s.past, s.C(), s.T(), s.past);
    }
  }

  lemma {:induction false} TightAtLen(r: Reader, past: seq<byte>, c: Control, t: Tables, before: seq<byte>)
    requires Ready(r, past, c, t, before) && c.mode == AtLen
    ensures r.bits <= 14
  {
    hide Lookup, LVal, BytesBits, TableOK, Kraft, CheckOK;
    TightBits(r, c.litLens);
  }

  /** The end of a run: a final mode, or all input given and room left. */
  lemma {:induction false} RunEnds(s: Stream)
    requires Open(s)
    ensures s.mode.AtDone? ==> Rfc.Decode(Rfc.Program, s.bytes) == Rfc.Outcome(Rfc.Done, s.past, s.pos)
    ensures s.mode.AtBad? ==> Rfc.Decode(Rfc.Program, s.bytes) == Rfc.Outcome(Rfc.Bad, s.past, 0)
    ensures s.mode.AtDict? ==> Rfc.Decode(Rfc.Program, s.bytes) == Rfc.Outcome(Rfc.NeedDict, [], 0) && s.past == []
    ensures Waiting(s.R(), s.past, s.C()) && s.taken == |s.bytes| ==>
              Rfc.Decode(Rfc.Program, s.bytes) == Rfc.Outcome(Rfc.More, s.past, 0)
  {
    hide BitsOK, CheckOK, Rfc.Decode, TablesOK, FixedOK, WindowOK, ObjectOK, Rfc.Symbols, Checksum, Lookup;
  }

  // ----- between calls -----

  lemma {:induction false} SuppliedOK(r: Reader, past: seq<byte>, c: Control, t: Tables, chunk: seq<byte>)
    requires Ready(r, past, c, t, past) && Faithful(r, past, c)
    requires r.taken + |chunk| <= |r.bytes| && chunk == r.bytes[r.taken..r.taken + |chunk|]
    ensures var r' := r.(input := chunk, next := 0, have := |chunk|);
            Ready(r', past, c, t, past) && Faithful(r', past, c)
  {
    hide LVal, BytesBits, Go, Rfc.Decode, CheckOK, TablesOK, Lookup;
  }

  /** The caller supplies the next bytes of the stream. */
  method GiveInput(s: Stream, chunk: seq<byte>)
    requires Open(s) && s.taken + |chunk| <= |s.bytes| && chunk == s.bytes[s.taken..s.taken + |chunk|]
    modifies s`input, s`nextIn, s`availIn
    ensures Open(s) && s.availIn == |chunk|
  {
    hide Open, Ready, Faithful, FixedOK, WindowOK, Synced, ObjectOK, s.T, s.C, s.F, s.W;
    OpenParts(s);
    SuppliedOK(s.R(), s.past, s.C(), s.T(), chunk);
    s.input, s.nextIn, s.availIn := chunk, 0, |chunk|;
    OpenFrom(s);
  }

  /** The caller supplies a new buffer for output. */
  method GiveRoom(s: Stream, room: nat)
    requires Open(s)
    modifies s`output, s`nextOut, s`availOut
    ensures Open(s) && s.nextOut == 0 && s.availOut == room == s.output.Length && fresh(s.output)
  {
    hide Open, Ready, Faithful, FixedOK, WindowOK, Synced, s.T, s.C, s.F, s.W, s.R;
    OpenParts(s);
    var output := new byte[room](_ => 0);
    s.output, s.nextOut, s.availOut := output, 0, room;
    OpenFrom(s);
  }

  lemma {:induction false} InitReady(r: Reader, c: Control, t: Tables)
    requires r.hold == 0 && r.bits == 0 && r.next == 0 && r.have == 0 && r.taken == 0 && r.pos == 0
    requires r.stream == BytesBits(r.bytes)
    requires c.mode == AtHead && !c.last && c.dmax == WSIZE && c.check == 0 && !c.checked && c.litLens == []
    requires c.distLens == []
    requires |c.codeLens| == 19 && |t.lens| == 320
    ensures Ready(r, [], c, t, []) && Faithful(r, [], c)
  {
    hide BytesBits, Rfc.Header;
  }

  /** inflateInit */
  method Init(bytes: seq<byte>) returns (s: Stream)
    ensures Open(s) && fresh(s) && s.bytes == bytes && s.past == [] && s.taken == 0 && s.mode == AtHead
    ensures s.window == null
    ensures fresh(s.output) && fresh(s.lens) && fresh(s.work) && fresh(s.lendyn) && fresh(s.distdyn) && fresh(s.lenfix)
    ensures fresh(s.distfix)
  {
    hide Ready, Faithful, BytesBits;
    s := new Stream(bytes);
    InitReady(s.R(), s.C(), s.T());
  }

  // ----- any run -----

  /** The storage that a call may write to, apart from the stream itself. */
  ghost function Storage(s: Stream): set<object>
    reads s`output, s`window
  {
    {s.output as object, s.lens as object, s.work as object, s.lendyn as object, s.distdyn as object,
     s.lenfix as object, s.distfix as object} + (if s.window == null then {} else {s.window as object})
  }

  /** One call with the given input and room: what it writes is what is added to the output. */
  method Call(s: Stream, chunk: seq<byte>, room: nat) returns (ret: int, written: seq<byte>)
    requires Open(s) && s.taken + |chunk| <= |s.bytes| && chunk == s.bytes[s.taken..s.taken + |chunk|] && !Final(s.mode)
    modifies s, Storage(s)
    ensures Open(s) && fresh(Storage(s) - old(Storage(s)))
    ensures s.past == old(s.past) + written && s.taken >= old(s.taken)
    ensures Final(s.mode) || Waiting(s.R(), s.past, s.C()) || s.availOut == 0
    ensures ret == ReturnCode(s.mode, false, s.taken == old(s.taken) && written == [])
    ensures s.availIn + (s.taken - old(s.taken)) == |chunk| && s.availOut + |written| == room
  {
    hide Open, Waiting, Final, ReturnCode;
    GiveInput(s, chunk);
    GiveRoom(s, room);
    ghost var o, b, r := s.O(), s.output[..], s.R();
    ret := Inflate(s, false);
    WroteRoom(o, b, s.O(), s.output[..]);
    written := s.output[..s.nextOut];
    Appended(o, b, s.O(), s.output[..]);
  }

  /** The wrapper around the stream: one call with new data and the wrapper's own buffer, which is replaced only if
      more output is expected than it holds.  Input that is not taken is dropped, which happens only if the buffer is
      full or the run has ended; otherwise the stream is ready for the next piece of data. */
  method WrapperInflate(s: Stream, data: seq<byte>, expected: nat) returns (written: seq<byte>)
    requires Open(s) && s.taken + |data| <= |s.bytes| && data == s.bytes[s.taken..s.taken + |data|] && !Final(s.mode)
    modifies s, Storage(s)
    ensures Open(s) && fresh(Storage(s) - old(Storage(s)))
    ensures s.past == old(s.past) + written && s.availIn + (s.taken - old(s.taken)) == |data|
    ensures s.availIn == 0 || s.availOut == 0 || Final(s.mode)
    ensures |written| <= s.output.Length && expected <= s.output.Length
    ensures if expected > old(s.output.Length) then fresh(s.output) else s.output == old(s.output)
  {
    hide Open, Waiting, Final;
    GiveInput(s, data);
    if expected > s.output.Length {
      GiveRoom(s, expected);
    } else {
      ReuseRoom(s);
    }
    ghost var o, b, r := s.O(), s.output[..], s.R();
    var ret := Inflate(s, false);
    WroteRoom(o, b, s.O(), s.output[..]);
    written := s.output[..s.nextOut];
    Appended(o, b, s.O(), s.output[..]);
    if !Final(s.mode) && s.availOut != 0 {
      WaitingTakes(s);
    }
  }

  /** The whole buffer is free again. */
  method ReuseRoom(s: Stream)
    requires Open(s)
    modifies s`nextOut, s`availOut
    ensures Open(s) && s.nextOut == 0 && s.availOut == s.output.Length
  {
    hide Open, Ready, Faithful, FixedOK, WindowOK, Synced, ObjectOK, s.T, s.C, s.F, s.W, s.R;
    OpenParts(s);
    s.nextOut, s.availOut := 0, s.output.Length;
    OpenFrom(s);
  }

  lemma {:induction false} Appended(o0: Writer, b0: seq<byte>, o: Writer, b: seq<byte>)
    requires Wrote(o0, b0, o, b) && o0.put == 0
    ensures o.put <= |b| && o.past == o0.past + b[..o.put]
  {
    assert o.past == o.past[..|o0.past|] + o.past[|o0.past|..];
    assert b[0..o.put] == b[..o.put];
  }

  /** The status of a stream for the return code of its last call. */
  function StatusOf(ret: int): Rfc.Status {
    if ret == Z_STREAM_END then Rfc.Done else if ret == Z_DATA_ERROR then Rfc.Bad
    else if ret == Z_NEED_DICT then Rfc.NeedDict else Rfc.More
  }

  lemma {:induction false} CodesApart(m: Mode, idle: bool)
    ensures var ret := ReturnCode(m, false, idle);
            && (Final(m) <==> StatusOf(ret) != Rfc.More)
            && (m.AtDone? ==> StatusOf(ret) == Rfc.Done) && (m.AtBad? ==> StatusOf(ret) == Rfc.Bad)
            && (m.AtDict? ==> StatusOf(ret) == Rfc.NeedDict)
  {
  }

  /** What a run that has ended has produced. */
  lemma {:induction false} EndIs(s: Stream, ret: int, idle: bool)
    requires Open(s) && ret == ReturnCode(s.mode, false, idle)
    requires Final(s.mode) || (Waiting(s.R(), s.past, s.C()) && s.taken == |s.bytes|)
    ensures Rfc.Decode(Rfc.Program, s.bytes).status == StatusOf(ret) && Rfc.Decode(Rfc.Program, s.bytes).out == s.past
  {
    hide Open, Waiting, ReturnCode, StatusOf, Rfc.Decode;
    RunEnds(s);
    CodesApart(s.mode, idle);
  }

  lemma {:induction false} TakenBound(s: Stream)
    requires Open(s)
    ensures s.taken <= |s.bytes| && |s.past| <= |Rfc.Decode(Rfc.Program, s.bytes).out|
    ensures (!Final(s.mode) ==> s.totalIn == s.taken)
  {
    hide Go, Shape, ModeOK, CheckOK, Rfc.Decode, TablesOK, FixedOK, WindowOK, ObjectOK, Rfc.Symbols, Checksum;
    PrefixAlways(s);
  }

  /** A call that neither ends the run nor fills the output has taken all the input. */
  lemma {:induction false} WaitingTakes(s: Stream)
    requires Waiting(s.R(), s.past, s.C())
    ensures s.availIn == 0
  {
    hide Go;
  }

  /** Decodes a stream in any number of calls, the i-th with at most `chunks(i)` bytes of the input that is
      not taken yet and with room for `rooms(i)` bytes.

      Whatever the chunks and the rooms, the run ends, and its output and status are those of the whole stream
      under the program's rules. */
  method InflateAll(bytes: seq<byte>, chunks: nat -> nat, rooms: nat -> nat)
    returns (status: Rfc.Status, out: seq<byte>)
    requires forall i: nat :: chunks(i) >= 1 && rooms(i) >= 1
    ensures status == Rfc.Decode(Rfc.Program, bytes).status && out == Rfc.Decode(Rfc.Program, bytes).out
  {
    hide Open, Waiting, ReturnCode, StatusOf, Rfc.Decode, BytesBits;
    var s := Init(bytes);
    ghost var idle := false;
    var ret, full, i := Z_OK, true, 0;
    out := [];
    while !Final(s.mode) && (full || s.totalIn < |bytes|)
      invariant Open(s) && s.bytes == bytes && s.past == out
      invariant if i == 0 then s.mode == AtHead && full else ret == ReturnCode(s.mode, false, idle)
      invariant !full ==> Final(s.mode) || Waiting(s.R(), s.past, s.C())
      invariant fresh(s) && fresh(Storage(s))
      decreases !Final(s.mode), |bytes| - s.taken + |Rfc.Decode(Rfc.Program, bytes).out| - |s.past|, full
    {
      TakenBound(s);
      var rest := |bytes| - s.totalIn;
      var n := if chunks(i) < rest then chunks(i) else rest;
      var written;
      idle := false;
      ghost var taken := s.taken;
      ret, written := Call(s, bytes[s.totalIn..s.totalIn + n], rooms(i));
      idle := s.taken == taken && written == [];
      out := out + written;
      full := s.availOut == 0;
      i := i + 1;
      TakenBound(s);
      if !full && !Final(s.mode) {
        WaitingTakes(s);
      }
    }
    TakenBound(s);
    EndIs(s, ret, idle);
    status := StatusOf(ret);
  }

  /** The same against the standard: the run gives what the standard says, unless a header is reached on which the
      program departs from it; then the run has failed with the output up to there, or waits for input behind it. */
  method InflateByStandard(bytes: seq<byte>, chunks: nat -> nat, rooms: nat -> nat)
    returns (status: Rfc.Status, out: seq<byte>)
    requires forall i: nat :: chunks(i) >= 1 && rooms(i) >= 1
    ensures var shared, standard := Rfc.Decode(Rfc.Shared, bytes), Rfc.Decode(Rfc.Standard, bytes);
            match shared.status
            case ManyDists => status == Rfc.Bad && out == shared.out && out <= standard.out
            case NoLengths =>
              out == standard.out && status == if shared.used <= |BytesBits(bytes)| then Rfc.Bad else Rfc.More
            case _ => status == standard.status && out == standard.out
  {
    hide Rfc.Decode, BytesBits;
    status, out := InflateAll(bytes, chunks, rooms);
    ProgramAndStandard(bytes);
  }

  /** Data that was put into stored blocks is recovered, however the stream is cut up. */
  method InflateStored(data: seq<byte>, chunks: nat -> nat, rooms: nat -> nat)
    returns (status: Rfc.Status, out: seq<byte>)
    requires forall i: nat :: chunks(i) >= 1 && rooms(i) >= 1
    ensures status == Rfc.Done && out == data
  {
    hide Rfc.Decode, StoredStream;
    StoredRoundTrip(Rfc.Program, data);
    status, out := InflateAll(StoredStream(data), chunks, rooms);
  }
}
