/** The dispatch on the mode in inflate(): one step, whatever the mode. */
module Dispatches {
  import opened Bits
  import opened Outputs
  import opened Streams
  import opened Steps
  import opened StepBlocks
  import opened StepStoredBlocks
  import opened StepTables
  import opened StepLenLensMode
  import opened StepBuilds
  import opened StepCodes
  import opened StepMatches

  /** Modes that only read input into fields. */
  predicate ReadsInput(m: Mode) {
    m.AtHead? || m.AtDictId? || m.AtStored? || m.AtCopyFirst? || m.AtTable? || m.AtLenFirst? || m.AtLen? || m.AtLenExt?
    || m.AtDist? || m.AtDistExt?
  }

  /** Modes that write output. */
  predicate WritesOutput(m: Mode) {
    m.AtCopy? || m.AtMatch? || m.AtLit?
  }

  /** Modes that build tables. */
  predicate BuildsTables(m: Mode) {
    m.AtType? || m.AtTypeDo? || m.AtLenLens? || m.AtCodeLens?
  }

  method StepInput(s: Stream, r0: Reader, ghost o: Writer, ghost before: seq<byte>) returns (leave: bool, r: Reader)
    requires Ready(r0, o.past, s.C(), s.T(), before) && ReadsInput(s.mode) && s.wbits == 15
    modifies s`mode, s`dmax, s`check, s`length, s`offset, s`extra, s`nlen, s`ndist, s`ncode, s`have, s`acc
    ensures Stepped(r0, o, old(s.C()), r, o, s.C(), s.T(), before, leave)
  {
    hide Stepped, Ready;
    leave, r := false, r0;
    match s.mode {
      case AtHead => leave, r := StepHead(s, r0, o, before);
      case AtDictId => leave, r := StepDictId(s, r0, o, before);
      case AtStored => leave, r := StepStored(s, r0, o, before);
      case AtCopyFirst => StepCopyFirst(s, r0, o, before);
      case AtTable => leave, r := StepTable(s, r0, o, before);
      case AtLenFirst => StepLenFirst(s, r0, o, before);
      case AtLen => leave, r := StepLen(s, r0, o, before);
      case AtLenExt => leave, r := StepLenExt(s, r0, o, before);
      case AtDist => leave, r := StepDist(s, r0, o, before);
      case AtDistExt => leave, r := StepDistExt(s, r0, o, before);
    }
  }

  method StepOutput(s: Stream, r: Reader, o: Writer, start: nat, ghost o0: Writer, ghost b0: seq<byte>)
    returns (leave: bool, r': Reader, o': Writer)
    requires Ready(r, o.past, s.C(), s.T(), o0.past) && WritesOutput(s.mode)
    requires Wrote(o0, b0, o, s.output[..]) && start == o0.left
    requires WindowOK(s.W()) && s.ringed == o0.past && s.window != s.output
    modifies s`mode, s`length, s.output
    ensures Stepped(r, o, old(s.C()), r', o', s.C(), old(s.T()), o0.past, leave)
    ensures Wrote(o0, b0, o', s.output[..])
  {
    hide Stepped, Ready, Wrote, WindowOK;
    r' := r;
    match s.mode {
      case AtCopy => leave, r', o' := StepCopy(s, r, o, o0, b0);
      case AtMatch => leave, o' := StepMatch(s, r, o, start, o0, b0);
      case AtLit => leave, o' := StepLit(s, r, o, o0, b0);
    }
  }

  method StepCodesOrType(s: Stream, r0: Reader, ghost o: Writer, ghost before: seq<byte>)
    returns (leave: bool, r: Reader)
    requires Ready(r0, o.past, s.C(), s.T(), before) && BuildsTables(s.mode) && s.ArraysOK() && FixedOK(s.F())
    modifies s`mode, s`last, s`have, s`acc, s`codeLens, s`litLens, s`distLens,
             s`virgin, s`lencode, s`lenbits, s`distcode, s`distbits,
             s.lens, s.work, s.lendyn, s.distdyn, s.lenfix, s.distfix
    ensures Stepped(r0, o, old(s.C()), r, o, s.C(), s.T(), before, leave)
    ensures s.ArraysOK() && FixedOK(s.F())
  {
    hide Stepped, Ready, FixedOK, s.F, s.T, s.ArraysOK;
    if s.mode == AtType || s.mode == AtTypeDo {
      leave, r := StepType(s, r0, o, before);
    } else {
      FixedApart(s);
      if s.mode == AtLenLens {
        leave, r := StepLenLens(s, r0, o, before);
      } else {
        leave, r := StepCodeLens(s, r0, o, before);
      }
    }
  }

  lemma {:induction false} FixedApart(s: Stream)
    requires s.ArraysOK()
    ensures s.lenfix != s.lendyn && s.lenfix != s.distdyn && s.distfix != s.lendyn && s.distfix != s.distdyn
  {
  }
}
