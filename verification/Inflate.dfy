/** inflate(): the dispatch loop and what is done on leaving it. */
module Inflates {
  import opened Bits
  import opened Huffman
  import opened Adler
  import opened Outputs
  import opened Streams
  import opened Steps
  import opened StepTrailers
  import opened InflateFasts
  import opened Dispatches
  import opened UpdateWindows
  import opened StepCodeLensMode
  import Rfc = Rfc1951

  /** What holds of the object between two steps, beside the reader and the control fields. */
  ghost predicate ObjectOK(s: Stream)
    reads s`window, s`output, s`lencode, s`distcode,
          s`virgin, s`wsize, s`whave, s`wnext, s`ringed, s.window, s.lenfix, s.distfix
  {
    s.ArraysOK() && FixedOK(s.F()) && WindowOK(s.W())
  }

  /** Where this call began counting its output, and the count of all calls. */
  ghost predicate Counts(c: Control, start: nat, o0: Writer, o: Writer, totalOut: nat) {
    && o.left <= start <= o0.left && (c.checked || start == o0.left)
    && totalOut + (start - o.left) == |o.past|
  }

  lemma {:induction false} SyncedOn(r: Reader, o: Writer, c: Control, r': Reader, o': Writer, c': Control, t': Tables,
                                    ringed: seq<byte>, before: seq<byte>, leave: bool)
    requires Stepped(r, o, c, r', o', c', t', before, leave) && Synced(c, ringed, before) && !Final(c.mode)
    requires !c.mode.AtCheck? || c' == c || c'.checked
    ensures Synced(c', ringed, before)
  {
    hide Go, TablesOK, CheckOK, BitsOK;
  }

  /** Outside CHECK the counts just go on. */
  lemma {:induction false} CountsOn(c: Control, start: nat, o0: Writer, b0: seq<byte>, o: Writer, b: seq<byte>,
                                    o': Writer, b': seq<byte>, c': Control, totalOut: nat)
    requires Counts(c, start, o0, o, totalOut) && !c.checked && Wrote(o0, b0, o, b) && Wrote(o0, b0, o', b')
    ensures Counts(c', start, o0, o', totalOut)
  {
  }

  lemma {:induction false} ReadyChecked(r: Reader, past: seq<byte>, c: Control, t: Tables, before: seq<byte>)
    requires Ready(r, past, c, t, before) && !Final(c.mode)
    ensures !c.checked
  {
  }

  /** One step in any mode but CHECK. */
  method StepMode(s: Stream, r: Reader, o: Writer, start: nat, ghost o0: Writer, ghost b0: seq<byte>)
    returns (leave: bool, r': Reader, o': Writer)
    requires Ready(r, o.past, s.C(), s.T(), o0.past) && !Final(s.mode) && s.mode != AtCheck
    requires ObjectOK(s) && s.ringed == o0.past && start == o0.left && Wrote(o0, b0, o, s.output[..])
    modifies s`mode, s`last, s`dmax, s`check, s`length, s`offset, s`extra,
             s`ncode, s`nlen, s`ndist, s`have, s`acc, s`codeLens, s`litLens, s`distLens,
             s`virgin, s`lencode, s`lenbits, s`distcode, s`distbits,
             s.lens, s.work, s.lendyn, s.distdyn, s.lenfix, s.distfix, s.output
    ensures Stepped(r, o, old(s.C()), r', o', s.C(), s.T(), o0.past, leave)
    ensures ObjectOK(s) && Wrote(o0, b0, o', s.output[..])
  {
    hide Stepped, Ready, FixedOK, WindowOK, Wrote, s.F, s.T, s.C;
    leave, r', o' := false, r, o;
    WindowFits(s.W());
    if s.mode == AtLen && r.have >= 6 && o.left >= 258 {
      ghost var n;
      r', o', n := InflateFast(s, r, o, start, o0, b0);
    } else if WritesOutput(s.mode) {
      leave, r', o' := StepOutput(s, r, o, start, o0, b0);
    } else if BuildsTables(s.mode) {
      leave, r' := StepCodesOrType(s, r, o, o0.past);
    } else {
      leave, r' := StepInput(s, r, o, o0.past);
    }
  }

  /** One step, whatever the mode. */
  method Step(s: Stream, r: Reader, o: Writer, start: nat, ghost o0: Writer, ghost b0: seq<byte>)
    returns (leave: bool, r': Reader, o': Writer, start': nat)
    requires Ready(r, o.past, s.C(), s.T(), o0.past) && !Final(s.mode)
    requires ObjectOK(s) && Synced(s.C(), s.ringed, o0.past)
    requires Wrote(o0, b0, o, s.output[..]) && Counts(s.C(), start, o0, o, s.totalOut)
    modifies s`mode, s`last, s`dmax, s`check, s`checked, s`totalOut, s`length, s`offset, s`extra,
             s`ncode, s`nlen, s`ndist, s`have, s`acc, s`codeLens, s`litLens, s`distLens,
             s`virgin, s`lencode, s`lenbits, s`distcode, s`distbits,
             s.lens, s.work, s.lendyn, s.distdyn, s.lenfix, s.distfix, s.output
    ensures Stepped(r, o, old(s.C()), r', o', s.C(), s.T(), o0.past, leave)
    ensures ObjectOK(s) && Synced(s.C(), s.ringed, o0.past)
    ensures Wrote(o0, b0, o', s.output[..]) && Counts(s.C(), start', o0, o', s.totalOut)
  {
    hide Stepped, Ready, Wrote, Counts, ObjectOK, s.T;
    ghost var c, b := s.C(), s.output[..];
    ReadyChecked(r, o.past, c, s.T(), o0.past);
    StartIs(c, start, o0, o, s.totalOut);
    leave, r', o', start' := false, r, o, start;
    if s.mode == AtCheck {
      leave, r', start' := StepCheck(s, r, o, start, o0, b0);
      CountsAfterCheck(c, start, start', o0, o, s.C(), old(s.totalOut), s.totalOut, leave);
    } else {
      leave, r', o' := StepMode(s, r, o, start, o0, b0);
      CountsOn(c, start, o0, b0, o, b, o', s.output[..], s.C(), s.totalOut);
    }
    SyncedOn(r, o, c, r', o', s.C(), s.T(), s.ringed, o0.past, leave);
  }

  lemma {:induction false} CountsAfterCheck(c: Control, start: nat, start': nat, o0: Writer, o: Writer, c': Control,
                                            totalOut: nat, totalOut': nat, leave: bool)
    requires Counts(c, start, o0, o, totalOut)
    requires leave ==> start' == start && totalOut' == totalOut && c' == c
    requires !leave ==> start' == o.left && totalOut' == totalOut + (start - o.left) && c'.checked
    ensures Counts(c', start', o0, o, totalOut')
  {
  }

  lemma {:induction false} StartIs(c: Control, start: nat, o0: Writer, o: Writer, totalOut: nat)
    requires Counts(c, start, o0, o, totalOut)
    ensures o.left <= start <= o0.left && (!c.checked ==> start == o0.left)
    ensures totalOut + (start - o.left) == |o.past|
  {
  }

  // ----- the loop -----

  const Z_OK: int := 0
  const Z_STREAM_END: int := 1
  const Z_NEED_DICT: int := 2
  const Z_DATA_ERROR: int := -3
  const Z_BUF_ERROR: int := -5

  /** The return code that a final mode sets. */
  function FinalCode(m: Mode): int {
    if m.AtDone? then Z_STREAM_END else if m.AtBad? then Z_DATA_ERROR else if m.AtDict? then Z_NEED_DICT else Z_OK
  }

  lemma {:induction false} StepProgress(r: Reader, o: Writer, c: Control, r': Reader, o': Writer, c': Control,
                                        t': Tables, before: seq<byte>, leave: bool)
    requires Stepped(r, o, c, r', o', c', t', before, leave)
    ensures Ready(r', o'.past, c', t', before) && r'.pos <= |r'.stream| && r'.stream == r.stream
    ensures !leave ==> Progress(r, o.left, c, r', o'.left, c')
    ensures leave ==> Leaves(r', o'.past, o'.left, c')
    ensures Kept(r, o.past, c, r', o'.past, c', before)
  {
    hide Go, TablesOK, CheckOK, ModeOK, Height;
  }

  /** Steps until there is a reason to leave.  Every step makes progress, so the loop ends. */
  method Loop(s: Stream, r0: Reader, o0: Writer) returns (ret: int, r: Reader, o: Writer, start: nat)
    requires Ready(r0, o0.past, s.C(), s.T(), o0.past)
    requires ObjectOK(s) && Synced(s.C(), s.ringed, o0.past)
    requires o0.put + o0.left <= s.output.Length && s.totalOut == |o0.past|
    modifies s`mode, s`last, s`dmax, s`check, s`checked, s`totalOut, s`length, s`offset, s`extra,
             s`ncode, s`nlen, s`ndist, s`have, s`acc, s`codeLens, s`litLens, s`distLens,
             s`virgin, s`lencode, s`lenbits, s`distcode, s`distbits,
             s.lens, s.work, s.lendyn, s.distdyn, s.lenfix, s.distfix, s.output
    ensures Ready(r, o.past, s.C(), s.T(), o0.past) && Kept(r0, o0.past, old(s.C()), r, o.past, s.C(), o0.past)
    ensures ObjectOK(s) && Synced(s.C(), s.ringed, o0.past)
    ensures Wrote(o0, old(s.output[..]), o, s.output[..]) && Counts(s.C(), start, o0, o, s.totalOut)
    ensures Leaves(r, o.past, o.left, s.C()) && ret == FinalCode(s.mode)
    ensures old(s.mode).AtDict? ==> s.mode.AtDict?
  {
    hide Stepped, Ready, Wrote, Counts, ObjectOK, Kept, Leaves, Synced, s.T, s.C;
    ghost var c0, b0 := s.C(), s.output[..];
    r, o, start := r0, o0, o0.left;
    WroteNothing(o0, b0);
    CountsStart(c0, o0, s.totalOut);
    KeptStart(r, o.past, c0, s.T(), o0.past);
    ReaderOK(r, o.past, c0, s.T(), o0.past);
    var leave := false;
    while !leave && !Final(s.mode)
      invariant Ready(r, o.past, s.C(), s.T(), o0.past) && Kept(r0, o0.past, c0, r, o.past, s.C(), o0.past)
      invariant ObjectOK(s) && Synced(s.C(), s.ringed, o0.past)
      invariant Wrote(o0, b0, o, s.output[..]) && Counts(s.C(), start, o0, o, s.totalOut)
      invariant leave ==> Leaves(r, o.past, o.left, s.C())
      invariant r.pos <= |r.stream|
      invariant Final(old(s.mode)) ==> s.mode == old(s.mode)
      decreases !leave, |r.stream| - r.pos, o.left, Height(s.mode)
    {
      ghost var c, r1, o1 := s.C(), r, o;
      ModeIs(s);
      leave, r, o, start := Step(s, r, o, start, o0, b0);
      StepProgress(r1, o1, c, r, o, s.C(), s.T(), o0.past, leave);
      KeptOn(r0, o0.past, c0, r1, o1.past, c, r, o.past, s.C(), o0.past);
      ModeIs(s);
    }
    ret := FinalCode(s.mode);
    ModeIs(s);
    if !leave {
      LeavesFinal(r, o.past, o.left, s.C());
    }
  }

  lemma {:induction false} ModeIs(s: Stream)
    ensures s.C().mode == s.mode
  {
  }

  lemma {:induction false} LeavesFinal(r: Reader, past: seq<byte>, left: nat, c: Control)
    requires Final(c.mode)
    ensures Leaves(r, past, left, c)
  {
  }

  lemma {:induction false} CountsStart(c: Control, o: Writer, totalOut: nat)
    requires totalOut == |o.past|
    ensures Counts(c, o.left, o, o, totalOut)
  {
  }

  // ----- a whole call -----

  /** The outcome of the stream from here on is that of the whole stream. */
  ghost predicate Faithful(r: Reader, past: seq<byte>, c: Control) {
    Shape(c) && Go(c, past, r.stream, r.pos) == Rfc.Decode(Rfc.Program, r.bytes)
  }

  /** What holds of the object between two calls. */
  ghost predicate Open(s: Stream)
    reads s, s.window, s.lencode, s.distcode, s.lens, s.lenfix, s.distfix
  {
    && Ready(s.R(), s.past, s.C(), s.T(), s.past) && Faithful(s.R(), s.past, s.C())
    && ObjectOK(s) && Synced(s.C(), s.ringed, s.past)
    && s.nextOut + s.availOut <= s.output.Length
    && s.totalOut == |s.past| && (s.mode.AtDict? || s.totalIn == s.taken)
  }

  /** TYPE becomes TYPEDO, which is the same without the wish to stop at block ends. */
  lemma {:induction false} SkipCheck(r: Reader, past: seq<byte>, c: Control, t: Tables, ringed: seq<byte>)
    requires Ready(r, past, c, t, past) && Faithful(r, past, c) && c.mode == AtType && Synced(c, ringed, past)
    ensures var c' := c.(mode := AtTypeDo);
            Ready(r, past, c', t, past) && Faithful(r, past, c') && Synced(c', ringed, past)
  {
    hide BitsOK, Decodes, Rfc.Type, Rfc.Decode, Legal, Checksum;
  }

  lemma {:induction false} FaithfulOn(r0: Reader, past0: seq<byte>, c0: Control, r: Reader, past: seq<byte>, c: Control,
                                      before: seq<byte>)
    requires Faithful(r0, past0, c0) && Kept(r0, past0, c0, r, past, c, before)
    ensures Faithful(r, past, c)
  {
    hide Go, ModeOK, CheckOK, BitsOK, Rfc.Decode;
  }

  /** The invariant for the next call, with the checksum brought up to date. */
  lemma {:induction false} ReadyNext(r: Reader, past: seq<byte>, c: Control, t: Tables, before: seq<byte>, check: nat)
    requires Ready(r, past, c, t, before) && !c.mode.AtDict? && Legal(check)
    requires c.checked || (c.check == Checksum(before) ==> check == Checksum(past))
    ensures Ready(r, past, c.(check := check), t, past)
  {
    hide BitsOK, Decodes, Legal, Checksum, Lookup;
    var c' := c.(check := check);
    assert ModeOK(c', r, past);
    assert TablesOK(c', t);
  }

  lemma {:induction false} FaithfulCheck(r: Reader, past: seq<byte>, c: Control, check: nat)
    requires Faithful(r, past, c)
    ensures Faithful(r, past, c.(check := check))
  {
    hide Rfc.Decode;
  }

  // ----- leaving -----

  /** What was written since `start`, and nothing when that is nothing. */
  lemma {:induction false} SinceStart(c: Control, start: nat, o0: Writer, b0: seq<byte>, o: Writer, b: seq<byte>,
                                      totalOut: nat)
    requires Counts(c, start, o0, o, totalOut) && Wrote(o0, b0, o, b)
    ensures start - o.left <= o.put <= |b| && 0 <= start - o.left
    ensures !c.checked ==> start - o.left == o0.left - o.left && o0.past + b[o.put - (start - o.left)..o.put] == o.past
    ensures !c.checked && start == o.left ==> o.past == o0.past
  {
    if !c.checked {
      assert o.past == o.past[..|o0.past|] + o.past[|o0.past|..];
    }
  }

  /** The window still matches once it has been brought up to date, or need not. */
  lemma {:induction false} SyncedNext(c: Control, ringed: seq<byte>, before: seq<byte>, past: seq<byte>,
                                      ringed': seq<byte>, x: seq<byte>)
    requires Synced(c, ringed, before)
    requires c.mode.AtCheck? || Final(c.mode) || (before + x == past && ringed' == ringed + x)
    ensures Synced(c, ringed', past)
  {
  }

  /** The window is updated when it is in use, or when there is output that a later call may refer to. */
  method SaveWindow(s: Stream, o: Writer, start: nat, finish: bool, ghost o0: Writer, ghost b0: seq<byte>)
    requires ObjectOK(s) && Synced(s.C(), s.ringed, o0.past)
    requires s.checked ==> Final(s.mode)
    requires Wrote(o0, b0, o, s.output[..]) && Counts(s.C(), start, o0, o, s.totalOut)
    modifies s`wsize, s`whave, s`wnext, s`window, s`ringed, if s.window == null then {} else {s.window}
    ensures ObjectOK(s) && Synced(s.C(), s.ringed, o.past)
    ensures s.output[..] == old(s.output[..])
    ensures s.window == old(s.window) || (old(s.window) == null && fresh(s.window))
  {
    hide Counts, Wrote, FixedOK, WindowOK, s.F;
    ghost var c, h := s.C(), s.ringed;
    SinceStart(c, start, o0, b0, o, s.output[..], s.totalOut);
    ghost var x := s.output[o.put - (start - o.left)..o.put];
    WindowFits(s.W());
    if s.wsize != 0 || (start != o.left && s.mode != AtBad && (!(s.mode == AtCheck || s.mode == AtDone) || !finish)) {
      UpdateWindow(s, o.put, start - o.left);
      SyncedNext(c, h, o0.past, o.past, s.ringed, x);
    } else {
      if start == o.left {
        assert h == h + x;
      }
      SyncedNext(c, h, o0.past, o.past, s.ringed, x);
    }
  }

  /** The output of this call is added to the checksum. */
  method SaveCheck(s: Stream, o: Writer, n: nat, ghost o0: Writer, ghost b0: seq<byte>)
    requires Legal(s.check) && Wrote(o0, b0, o, s.output[..]) && n <= o.put && (!s.checked ==> n == o0.left - o.left)
    modifies s`check
    ensures Legal(s.check)
    ensures !s.checked && old(s.check) == Checksum(o0.past) ==> s.check == Checksum(o.past)
  {
    hide Wrote, Legal, Checksum, Update;
    WroteRoom(o0, b0, o, s.output[..]);
    CheckUpdated(o0, b0, o, s.output[..]);
    if n != 0 {
      assert !s.checked ==> s.output[..][o0.put..o.put] == s.output[o.put - n..o.put - n + n];
      s.check := Adler32(s.check, s.output, n, o.put - n);
    }
  }

  /** LOAD: the local variables take over from the fields. */
  method Load(s: Stream) returns (r: Reader, o: Writer)
    ensures r == s.R() && o == s.O()
    ensures r.have == s.availIn && r.taken == s.taken && r.input == s.input && r.bytes == s.bytes
    ensures r.stream == s.stream
    ensures o == Writer(s.nextOut, s.availOut, s.past)
  {
    r := Reader(s.hold, s.bits, s.input, s.nextIn, s.availIn, s.bytes, s.taken, s.stream, s.pos);
    o := Writer(s.nextOut, s.availOut, s.past);
  }

  /** RESTORE: the fields are brought up to date. */
  method Restore(s: Stream, r: Reader, o: Writer)
    modifies s`nextIn, s`availIn, s`nextOut, s`availOut, s`hold, s`bits, s`taken, s`pos, s`past
    requires r.input == s.input && r.bytes == s.bytes && r.stream == s.stream
    ensures s.R() == r && s.O() == o
  {
    s.nextOut, s.availOut := o.put, o.left;
    s.nextIn, s.availIn := r.next, r.have;
    s.hold, s.bits := r.hold, r.bits;
    s.taken, s.pos, s.past := r.taken, r.pos, o.past;
  }

  /** What a call returns: the code of a final mode, or whether anything was done. */
  function ReturnCode(m: Mode, finish: bool, idle: bool): int {
    if Final(m) then FinalCode(m) else if idle || finish then Z_BUF_ERROR else Z_OK
  }

  /** The return codes as numbers. */
  lemma {:induction false} ReturnCodes(m: Mode, finish: bool, idle: bool)
    ensures m.AtDone? ==> ReturnCode(m, finish, idle) == 1
    ensures m.AtDict? ==> ReturnCode(m, finish, idle) == 2
    ensures m.AtBad? ==> ReturnCode(m, finish, idle) == -3
    ensures !m.AtDone? && !m.AtDict? && !m.AtBad? ==> ReturnCode(m, finish, idle) == if finish || idle then -5 else 0
  {
  }

  lemma {:induction false} ConsumedFrom(r0: Reader, past0: seq<byte>, c0: Control, r: Reader, past: seq<byte>,
                                        c: Control, before: seq<byte>)
    requires Kept(r0, past0, c0, r, past, c, before)
    ensures Consumed(r0, r) && |before| <= |past|
  {
    hide Go, ModeOK, CheckOK, BitsOK;
  }

  lemma {:induction false} ReadyFacts(r: Reader, past: seq<byte>, c: Control, t: Tables, before: seq<byte>)
    requires Ready(r, past, c, t, before)
    ensures c.checked ==> Final(c.mode)
    ensures !c.mode.AtDict? ==> Legal(c.check)
  {
    hide Legal, BitsOK, Decodes;
  }

  /** The totals and the checksum, and what the call returns. */
  method SaveTotals(s: Stream, r: Reader, o: Writer, start: nat, ret0: int, have0: nat, finish: bool, ghost o0: Writer,
                    ghost b0: seq<byte>)
    returns (ret: int)
    requires Wrote(o0, b0, o, s.output[..]) && Counts(s.C(), start, o0, o, s.totalOut)
    requires Legal(s.check) && r.have <= have0 && ret0 == FinalCode(s.mode) && (s.checked ==> Final(s.mode))
    modifies s`totalIn, s`totalOut, s`check
    ensures s.totalIn == old(s.totalIn) + (have0 - r.have) && s.totalOut == |o.past|
    ensures s.C() == old(s.C()).(check := s.check) && Legal(s.check)
    ensures !s.checked && old(s.check) == Checksum(o0.past) ==> s.check == Checksum(o.past)
    ensures ret == ReturnCode(s.mode, finish, have0 == r.have && o0.left == o.left)
  {
    hide Wrote, Counts, Legal, Checksum;
    ghost var c := s.C();
    StartIs(c, start, o0, o, s.totalOut);
    SinceStart(c, start, o0, b0, o, s.output[..], s.totalOut);
    var took, gave := have0 - r.have, start - o.left;
    s.totalIn := s.totalIn + took;
    s.totalOut := s.totalOut + gave;
    SaveCheck(s, o, gave, o0, b0);
    ret := ret0;
    if ((took == 0 && gave == 0) || finish) && ret == Z_OK {
      ret := Z_BUF_ERROR;
    }
  }

  /** The end of a call that does not ask for a dictionary. */
  method EndCall(s: Stream, r: Reader, o: Writer, start: nat, ret0: int, have0: nat, finish: bool, ghost o0: Writer,
                 ghost b0: seq<byte>)
    returns (ret: int)
    requires Ready(r, o.past, s.C(), s.T(), o0.past) && Faithful(r, o.past, s.C()) && s.R() == r && s.O() == o
    requires ObjectOK(s) && Synced(s.C(), s.ringed, o0.past) && !s.mode.AtDict? && ret0 == FinalCode(s.mode)
    requires Wrote(o0, b0, o, s.output[..]) && Counts(s.C(), start, o0, o, s.totalOut)
    requires r.have <= have0 && s.totalIn + (have0 - r.have) == r.taken
    modifies s`wsize, s`whave, s`wnext, s`window, s`ringed, s`totalIn, s`totalOut, s`check,
             if s.window == null then {} else {s.window}
    ensures Ready(r, o.past, s.C(), s.T(), o.past) && Faithful(r, o.past, s.C())
    ensures ObjectOK(s) && Synced(s.C(), s.ringed, o.past) && s.totalOut == |o.past| && s.totalIn == r.taken
    ensures s.C() == old(s.C()).(check := s.check)
    ensures s.output[..] == old(s.output[..])
    ensures s.window == old(s.window) || (old(s.window) == null && fresh(s.window))
    ensures ret == ReturnCode(s.mode, finish, have0 == r.have && o0.left == o.left)
  {
    hide Ready, Faithful, ObjectOK, Synced, Wrote, Counts, Legal, Checksum, s.T, s.F, s.C;
    ghost var c, t := s.C(), s.T();
    CFields(s);
    ReadyFacts(r, o.past, c, t, o0.past);
    SaveWindow(s, o, start, finish, o0, b0);
    ret := SaveTotals(s, r, o, start, ret0, have0, finish, o0, b0);
    ReadyNext(r, o.past, c, t, o0.past, s.check);
    FaithfulCheck(r, o.past, c, s.check);
    SyncedCheck(c, s.ringed, o.past, s.check);
  }

  lemma {:induction false} ROFields(s: Stream)
    ensures s.R().taken == s.taken && s.R().have == s.availIn && s.O() == Writer(s.nextOut, s.availOut, s.past)
  {
  }

  lemma {:induction false} CFields(s: Stream)
    ensures s.C().mode == s.mode && s.C().check == s.check && s.C().checked == s.checked
  {
  }

  lemma {:induction false} SyncedCheck(c: Control, ringed: seq<byte>, before: seq<byte>, check: nat)
    requires Synced(c, ringed, before)
    ensures Synced(c.(check := check), ringed, before)
  {
  }

  lemma {:induction false} OpenParts(s: Stream)
    requires Open(s)
    ensures Ready(s.R(), s.past, s.C(), s.T(), s.past) && Faithful(s.R(), s.past, s.C())
    ensures ObjectOK(s) && Synced(s.C(), s.ringed, s.past)
    ensures s.nextOut + s.availOut <= s.output.Length && s.totalOut == |s.past|
    ensures (s.mode.AtDict? || s.totalIn == s.taken)
  {
    hide Ready, Faithful, ObjectOK, Synced, s.R, s.C, s.T;
  }

  lemma {:induction false} OpenFrom(s: Stream)
    requires Ready(s.R(), s.past, s.C(), s.T(), s.past) && Faithful(s.R(), s.past, s.C())
    requires ObjectOK(s) && Synced(s.C(), s.ringed, s.past)
    requires s.nextOut + s.availOut <= s.output.Length && s.totalOut == |s.past|
    requires (s.mode.AtDict? || s.totalIn == s.taken)
    ensures Open(s)
  {
    hide Ready, Faithful, ObjectOK, Synced, s.R, s.C, s.T;
  }

  /** A dictionary is asked for before there is any output. */
  lemma {:induction false} DictFacts(r: Reader, past: seq<byte>, c: Control, t: Tables, before: seq<byte>, start: nat,
                                     o0: Writer, o: Writer, totalOut: nat, ringed: seq<byte>)
    requires Ready(r, past, c, t, before) && c.mode.AtDict? && Counts(c, start, o0, o, totalOut) && o.past == past
    ensures Ready(r, past, c, t, past) && past == [] && totalOut == |past| && Synced(c, ringed, past)
  {
    hide Legal, BitsOK, Decodes, Checksum;
  }

  /** After the loop: RESTORE, and the rest unless a dictionary is asked for. */
  method Finish(s: Stream, r: Reader, o: Writer, start: nat, ret0: int, have0: nat, finish: bool, ghost o0: Writer,
                ghost b0: seq<byte>)
    returns (ret: int)
    requires Ready(r, o.past, s.C(), s.T(), o0.past) && Faithful(r, o.past, s.C())
    requires ObjectOK(s) && Synced(s.C(), s.ringed, o0.past) && ret0 == FinalCode(s.mode)
    requires Wrote(o0, b0, o, s.output[..]) && Counts(s.C(), start, o0, o, s.totalOut)
    requires r.have <= have0 && (s.mode.AtDict? || s.totalIn + (have0 - r.have) == r.taken)
    requires r.input == s.input && r.bytes == s.bytes && r.stream == s.stream
    modifies s`nextIn, s`availIn, s`nextOut, s`availOut, s`hold, s`bits, s`taken, s`pos, s`past,
             s`wsize, s`whave, s`wnext, s`window, s`ringed, s`totalIn, s`totalOut, s`check,
             if s.window == null then {} else {s.window}
    ensures Open(s) && s.R() == r && s.O() == o && s.mode == old(s.mode)
    ensures s.C() == old(s.C()).(check := s.check)
    ensures s.output[..] == old(s.output[..])
    ensures s.window == old(s.window) || (old(s.window) == null && fresh(s.window))
    ensures ret == ReturnCode(s.mode, finish, have0 == r.have && o0.left == o.left)
  {
    hide Open, Ready, Faithful, ObjectOK, Synced, Wrote, Counts, s.T, s.F, s.C, s.R, s.O;
    WroteRoom(o0, b0, o, s.output[..]);
    CFields(s);
    Restore(s, r, o);
    ret := ret0;
    CodeIsDict(s.mode);
    if ret == Z_NEED_DICT {
      DictFacts(r, o.past, s.C(), s.T(), o0.past, start, o0, o, s.totalOut, s.ringed);
    } else {
      ret := EndCall(s, r, o, start, ret, have0, finish, o0, b0);
    }
    ROFields(s);
    CFields(s);
    OpenFrom(s);
  }

  /** One call of inflate(), without a wish to stop at block boundaries.

      Output is only appended, within the space given, and input only taken from what is available.  The
      call ends in a final mode, or else with no room left, or with all input taken; in that last case a
      stream that ends there is incomplete.  The outcome of the stream, in `Open`, is kept throughout. */
  method Inflate(s: Stream, finish: bool) returns (ret: int)
    requires Open(s)
    modifies s, s.output, s.lens, s.work, s.lendyn, s.distdyn, s.lenfix, s.distfix,
             if s.window == null then {} else {s.window}
    ensures Open(s)
    ensures Consumed(old(s.R()), s.R())
    ensures s.output == old(s.output) && Wrote(old(s.O()), old(s.output[..]), s.O(), s.output[..])
    ensures Final(s.mode) || Waiting(s.R(), s.past, s.C()) || s.availOut == 0
    ensures ret == ReturnCode(s.mode, finish, s.availIn == old(s.availIn) && s.availOut == old(s.availOut))
    ensures s.window == old(s.window) || (old(s.window) == null && fresh(s.window))
  {
    hide Open, Ready, Faithful, ObjectOK, Synced, Wrote, Counts, Consumed, Waiting, Final, ReturnCode, s.T, s.F, s.C,
      s.R, s.O;
    ROFields(s);
    ghost var o0, b0 := s.O(), s.output[..];
    var r, o, start;
    ret, r, o, start := Work(s);
    ghost var c := s.C();
    ret := Finish(s, r, o, start, ret, s.availIn, finish, o0, b0);
    WaitingCheck(r, o.past, c, s.check);
    ROFields(s);
  }

  /** Everything up to RESTORE. */
  method Work(s: Stream) returns (ret: int, r: Reader, o: Writer, start: nat)
    requires Open(s)
    modifies s`mode, s`last, s`dmax, s`check, s`checked, s`totalOut, s`length, s`offset, s`extra,
             s`ncode, s`nlen, s`ndist, s`have, s`acc, s`codeLens, s`litLens, s`distLens,
             s`virgin, s`lencode, s`lenbits, s`distcode, s`distbits,
             s.lens, s.work, s.lendyn, s.distdyn, s.lenfix, s.distfix, s.output
    ensures Ready(r, o.past, s.C(), s.T(), s.past) && Faithful(r, o.past, s.C()) && Consumed(s.R(), r)
    ensures ObjectOK(s) && Synced(s.C(), s.ringed, s.past)
    ensures Wrote(s.O(), old(s.output[..]), o, s.output[..]) && Counts(s.C(), start, s.O(), o, s.totalOut)
    ensures Final(s.mode) || Waiting(r, o.past, s.C()) || o.left == 0
    ensures ret == FinalCode(s.mode)
    ensures r.input == s.input && r.bytes == s.bytes && r.stream == s.stream && r.have <= s.availIn
    ensures s.mode.AtDict? || s.totalIn + (s.availIn - r.have) == r.taken
  {
    hide Open, Ready, Faithful, ObjectOK, Synced, Wrote, Counts, Consumed, Waiting, Final, FinalCode, s.T, s.F, s.C,
      s.R, s.O;
    Enter(s);
    ret, r, o, start := LoadAndLoop(s);
  }

  /** LOAD and the loop. */
  method LoadAndLoop(s: Stream) returns (ret: int, r: Reader, o: Writer, start: nat)
    requires Ready(s.R(), s.past, s.C(), s.T(), s.past) && Faithful(s.R(), s.past, s.C())
    requires ObjectOK(s) && Synced(s.C(), s.ringed, s.past)
    requires s.nextOut + s.availOut <= s.output.Length && s.totalOut == |s.past|
    modifies s`mode, s`last, s`dmax, s`check, s`checked, s`totalOut, s`length, s`offset, s`extra,
             s`ncode, s`nlen, s`ndist, s`have, s`acc, s`codeLens, s`litLens, s`distLens,
             s`virgin, s`lencode, s`lenbits, s`distcode, s`distbits,
             s.lens, s.work, s.lendyn, s.distdyn, s.lenfix, s.distfix, s.output
    ensures Ready(r, o.past, s.C(), s.T(), s.past) && Faithful(r, o.past, s.C()) && Consumed(s.R(), r)
    ensures ObjectOK(s) && Synced(s.C(), s.ringed, s.past)
    ensures Wrote(s.O(), old(s.output[..]), o, s.output[..]) && Counts(s.C(), start, s.O(), o, s.totalOut)
    ensures Final(s.mode) || Waiting(r, o.past, s.C()) || o.left == 0
    ensures ret == FinalCode(s.mode) && (old(s.mode).AtDict? ==> s.mode.AtDict?)
    ensures r.input == s.input && r.bytes == s.bytes && r.stream == s.stream && r.have <= s.availIn
    ensures s.taken + (s.availIn - r.have) == r.taken
  {
    hide Ready, Faithful, ObjectOK, Synced, Wrote, Counts, Kept, Leaves, s.T, s.F, s.C, s.R, s.O, Waiting, Consumed,
      Final, FinalCode;
    var o0;
    r, o0 := Load(s);
    ghost var r0, c0 := r, s.C();
    ret, r, o, start := Loop(s, r, o0);
    ghost var c := s.C();
    ConsumedFrom(r0, o0.past, c0, r, o.past, c, o0.past);
    FaithfulOn(r0, o0.past, c0, r, o.past, c, o0.past);
    LeavesBecause(r, o.past, o.left, c);
    TakenGrows(r0, r);
    CFields(s);
  }

  lemma {:induction false} WaitingCheck(r: Reader, past: seq<byte>, c: Control, check: nat)
    ensures Waiting(r, past, c) ==> Waiting(r, past, c.(check := check))
  {
  }

  method Enter(s: Stream)
    requires Open(s)
    modifies s`mode
    ensures Ready(s.R(), s.past, s.C(), s.T(), s.past) && Faithful(s.R(), s.past, s.C())
    ensures ObjectOK(s) && Synced(s.C(), s.ringed, s.past)
    ensures s.nextOut + s.availOut <= s.output.Length && s.totalOut == |s.past|
    ensures s.mode == (if old(s.mode) == AtType then AtTypeDo else old(s.mode))
    ensures (s.mode.AtDict? || s.totalIn == s.taken)
    ensures s.R().taken == s.taken && s.R().have == s.availIn && s.O() == Writer(s.nextOut, s.availOut, s.past)
  {
    hide Open, Ready, Faithful, Synced, ObjectOK, s.T, s.F;
    OpenParts(s);
    if s.mode == AtType {
      SkipCheck(s.R(), s.past, s.C(), s.T(), s.ringed);
      s.mode := AtTypeDo;
    }
  }

  lemma {:induction false} CodeIsDict(m: Mode)
    ensures FinalCode(m) == Z_NEED_DICT <==> m.AtDict?
  {
  }

  lemma {:induction false} LeavesBecause(r: Reader, past: seq<byte>, left: nat, c: Control)
    requires Leaves(r, past, left, c)
    ensures Final(c.mode) || Waiting(r, past, c) || left == 0
  {
  }

  lemma {:induction false} TakenGrows(r0: Reader, r: Reader)
    requires Consumed(r0, r)
    ensures r.have <= r0.have && r0.taken + (r0.have - r.have) == r.taken
    ensures r.input == r0.input && r.bytes == r0.bytes && r.stream == r0.stream
  {
  }
}
