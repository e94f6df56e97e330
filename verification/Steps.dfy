/** What every step of inflate()'s dispatch loop does: it keeps the invariant and the outcome of the
    stream, and it either leaves for a good reason or makes progress.
 */
module Steps {
  import opened Bits
  import opened Adler
  import opened Outputs
  import opened Streams
  import Rfc = Rfc1951

  /** The invariant holds afterwards, and the outcome of the stream is the same. */
  ghost predicate Kept(r: Reader, past: seq<byte>, c: Control, r': Reader, past': seq<byte>, c': Control,
                       before: seq<byte>) {
    && Shape(c) && Consumed(r, r') && ControlOK(r', past', c', before)
    && Go(c', past', r'.stream, r'.pos) == Go(c, past, r.stream, r.pos)
  }

  /** What ends a call: waiting for input, no room for output, or a final mode. */
  ghost predicate Leaves(r: Reader, past: seq<byte>, left: nat, c: Control) {
    Waiting(r, past, c) || left == 0 || Final(c.mode)
  }

  /** A step that does not leave the loop reads, writes, or goes down in mode. */
  ghost predicate Progress(r: Reader, left: nat, c: Control, r': Reader, left': nat, c': Control) {
    || r'.pos > r.pos
    || (r'.pos == r.pos && left' < left)
    || (r'.pos == r.pos && left' == left && Height(c'.mode) < Height(c.mode))
  }

  /** A whole step, with the tables. */
  ghost predicate Stepped(r: Reader, o: Writer, c: Control, r': Reader, o': Writer, c': Control, t': Tables,
                          before: seq<byte>, leave: bool)
  {
    && Kept(r, o.past, c, r', o'.past, c', before) && TablesOK(c', t')
    && (leave ==> Leaves(r', o'.past, o'.left, c'))
    && (!leave ==> Progress(r, o.left, c, r', o'.left, c'))
  }

  /** The invariant of the dispatch loop, apart from output and window. */
  ghost predicate Ready(r: Reader, past: seq<byte>, c: Control, t: Tables, before: seq<byte>) {
    ControlOK(r, past, c, before) && TablesOK(c, t)
  }

  lemma {:induction false} GoBad(c: Control, past: seq<byte>, s: seq<bool>, p: nat)
    requires Shape(c) && c.mode == AtBad
    ensures Go(c, past, s, p) == Rfc.Fails(past)
  {
  }

  /** A step to the error mode. */
  lemma {:induction false} ToBad(r: Reader, o: Writer, c: Control, t: Tables, r': Reader, c': Control, t': Tables,
                                 before: seq<byte>)
    requires Ready(r, o.past, c, t, before) && BitsOK(r') && Consumed(r, r') && !Final(c.mode)
    requires Go(c, o.past, r.stream, r.pos) == Rfc.Fails(o.past)
    requires c'.mode == AtBad && Shape(c') && 256 <= c'.dmax <= WSIZE && (c'.check == c.check || Legal(c'.check))
    requires (t' == t || |t'.lens| == 320)
    ensures Stepped(r, o, c, r', o, c', t', before, false)
  {
    hide BitsOK, Legal, Checksum, Decodes, Rfc.Fails, Go, Shape;
    GoBad(c', o.past, r'.stream, r'.pos);
  }

  /** A step that waits for input; it may have dropped bits up to the next byte boundary. */
  lemma {:induction false} ToWait(r: Reader, o: Writer, c: Control, t: Tables, r': Reader, before: seq<byte>)
    requires Ready(r, o.past, c, t, before) && BitsOK(r') && Consumed(r, r')
    requires ModeOK(c, r', o.past) && r'.have == 0
    requires r'.pos == r.pos || Go(c, o.past, r'.stream, r'.pos) == Go(c, o.past, r.stream, r.pos)
    requires r'.taken == |r'.bytes| ==> Go(c, o.past, r'.stream, r'.pos) == Rfc.NeedsMore(o.past)
    ensures Stepped(r, o, c, r', o, c, t, before, true)
  {
    hide BitsOK, ModeOK, Go, Legal, Checksum, Decodes;
  }

  /** Steps to modes outside the tables' concern. */
  lemma {:induction false} TablesKept(c: Control, c': Control, t: Tables)
    requires TablesOK(c, t) && !c'.mode.AtLenLens? && !c'.mode.AtCodeLens?
    requires Decoding(c'.mode) ==> Decoding(c.mode) && c'.litLens == c.litLens && c'.distLens == c.distLens
    ensures TablesOK(c', t)
  {
    hide Decodes;
  }

  lemma {:induction false} KeptOn(r0: Reader, past0: seq<byte>, c0: Control, r: Reader, past: seq<byte>, c: Control,
                                  r': Reader, past': seq<byte>, c': Control, before: seq<byte>)
    requires Kept(r0, past0, c0, r, past, c, before) && Kept(r, past, c, r', past', c', before)
    ensures Kept(r0, past0, c0, r', past', c', before)
  {
    hide ControlOK, Go;
  }

  lemma {:induction false} KeptStart(r: Reader, past: seq<byte>, c: Control, t: Tables, before: seq<byte>)
    requires Ready(r, past, c, t, before)
    ensures Kept(r, past, c, r, past, c, before)
  {
    hide Go, ModeOK, CheckOK, BitsOK;
  }

  /** A step that follows on others in the same mode, which kept everything. */
  lemma {:induction false} SteppedOn(r0: Reader, o: Writer, c0: Control, r: Reader, c: Control, r': Reader, o': Writer,
                                     c': Control, t': Tables, before: seq<byte>, leave: bool)
    requires Kept(r0, o.past, c0, r, o.past, c, before) && c.mode == c0.mode
    requires Stepped(r, o, c, r', o', c', t', before, leave)
    ensures Stepped(r0, o, c0, r', o', c', t', before, leave)
    ensures Ready(r', o'.past, c', t', before) && Kept(r0, o.past, c0, r', o'.past, c', before)
  {
    hide ControlOK, Go, TablesOK, Leaves;
  }
}
