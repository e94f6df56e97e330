/** The receive queue of a WebSocket: a buffer that grows, shrinks and is compacted, and is a first-in,
    first-out queue throughout.
 */
module ReceiveQueues {
  import opened Bits

  const MAX_RQ_GROW_SIZE: nat := 40 * 1024 * 1024

  /** How a message was taken. */
  datatype Taken = Stored | Refused

  /** The size asked for when `fit` more bytes must go behind `unread` ones. */
  function Wanted(unread: nat, fit: nat): nat {
    (unread + fit) * 8
  }

  /** The size of the buffer after making room: eight times what is needed, or twice as much when only
      compacting a buffer that is more than half full, but never beyond the limit. */
  function NewSize(size: nat, unread: nat, fit: nat): nat {
    var asked := if fit > 0 then Wanted(unread, fit) else if unread > size / 2 then size * 2 else size;
    if asked > MAX_RQ_GROW_SIZE then MAX_RQ_GROW_SIZE else asked
  }

  /** The sizes in numbers: 40 MiB is the most. */
  lemma {:induction false} NewSizes(size: nat, unread: nat, fit: nat)
    requires size <= 41943040 && size % 8 == 0
    ensures fit > 0 && 8 * (unread + fit) <= 41943040 ==> NewSize(size, unread, fit) == 8 * (unread + fit)
    ensures fit > 0 && 8 * (unread + fit) > 41943040 ==> NewSize(size, unread, fit) == 41943040
    ensures fit == 0 && 2 * unread <= size ==> NewSize(size, unread, fit) == size
    ensures fit == 0 && 2 * unread > size ==>
      NewSize(size, unread, fit) == if 2 * size > 41943040 then 41943040 else 2 * size
  {
  }

  /** A message that finds no room is refused, by the program's own test: it counts the bytes that were
      read already twice, so that it refuses some messages that would fit. */
  predicate OverLimit(size: nat, i: nat, len: nat, fit: nat)
    requires i <= len
  {
    fit > size - len && Wanted(len - i, fit) > MAX_RQ_GROW_SIZE && MAX_RQ_GROW_SIZE - len - i < fit
  }

  function U16(a: nat, b: nat): nat {
    a * 0x100 + b
  }

  /** The first byte is the high one. */
  lemma {:induction false} HighFirst(a: byte, b: byte)
    ensures U16(a, b) / 256 == a && U16(a, b) % 256 == b
  {
  }

  /** The first byte is shifted into the sign of a 32-bit number. */
  function S32(a: nat, b: nat, c: nat, d: nat): int {
    (if a < 128 then a else a - 256) * 0x100_0000 + b * 0x1_0000 + c * 0x100 + d
  }

  /** A 32-bit number in two's complement, its first byte the high one. */
  lemma {:induction false} SignedHighFirst(a: byte, b: byte, c: byte, d: byte)
    ensures var n := S32(a, b, c, d);
            var m := n % 0x1_0000_0000;
            && -0x8000_0000 <= n < 0x8000_0000
            && m / 0x100_0000 == a && m / 0x1_0000 % 256 == b && m / 0x100 % 256 == c && m % 256 == d
  {
    var n := S32(a, b, c, d);
    var m := ((a * 256 + b) * 256 + c) * 256 + d;
    assert n == if a < 128 then m else m - 0x1_0000_0000;
    assert n % 0x1_0000_0000 == m;
    assert m / 0x100 == (a * 256 + b) * 256 + c;
    assert m / 0x1_0000 == a * 256 + b;
  }

  /** `set` of a typed array: the source, even if it is part of the same buffer, is read before it is written. */
  method Set(dst: array<byte>, src: seq<byte>, at: nat)
    requires at + |src| <= dst.Length
    modifies dst
    ensures dst[..] == old(dst[..at]) + src + old(dst[at + |src|..])
  {
    for k := 0 to |src|
      invariant forall j :: 0 <= j < dst.Length ==> dst[j] == if at <= j < at + k then src[j - at] else old(dst[j])
    {
      dst[at + k] := src[k];
    }
  }

  lemma {:induction false} Limit(size: nat, i: nat, len: nat, fit: nat)
    requires i <= len <= size && (fit > 0 ==> fit > size - len)
    ensures fit > 0 ==>
      (OverLimit(size, i, len, fit) <==> Wanted(len - i, fit) > MAX_RQ_GROW_SIZE && MAX_RQ_GROW_SIZE - len - i < fit)
  {
  }

  /** The new size has room for what is copied and for what comes. */
  lemma {:induction false} Roomy(size: nat, i: nat, len: nat, fit: nat, asked: nat, size': nat)
    requires i <= len <= size <= MAX_RQ_GROW_SIZE && size % 8 == 0 && (fit > 0 ==> fit > size - len)
    requires asked == (if fit > 0 then Wanted(len - i, fit) else if len - i > size / 2 then size * 2 else size)
    requires size' == if asked > MAX_RQ_GROW_SIZE then MAX_RQ_GROW_SIZE else asked
    requires asked > MAX_RQ_GROW_SIZE && fit > 0 ==> MAX_RQ_GROW_SIZE - len - i >= fit
    ensures size' == NewSize(size, len - i, fit)
    ensures size - i <= size' <= MAX_RQ_GROW_SIZE && size' % 8 == 0 && (len - i) + fit <= size'
  {
  }

  /** What a handler asks of the queue: to read n bytes, or to wait for `num` bytes and, if they are not there,
      to unread `goback` bytes. */
  datatype Op = Read(n: nat) | Wait(num: nat, goback: nat)

  /** A handler reads only what is there and goes back only over what it has read itself; `since` is how much. */
  predicate Proper(ops: seq<Op>, unread: nat, since: nat) {
    ops == [] ||
    match ops[0]
    case Read(n) => n <= unread && Proper(ops[1..], unread - n, since + n)
    case Wait(num, goback) =>
      if unread < num then goback <= since && Proper(ops[1..], unread + goback, since - goback)
      else Proper(ops[1..], unread, since)
  }

  /** How much it has read, less what it has unread, in the end. */
  function Since(ops: seq<Op>, unread: nat, since: nat): nat
    requires Proper(ops, unread, since)
  {
    if ops == [] then since
    else
      match ops[0]
      case Read(n) => Since(ops[1..], unread - n, since + n)
      case Wait(num, goback) =>
        if unread < num then Since(ops[1..], unread + goback, since - goback) else Since(ops[1..], unread, since)
  }

  class Websock {
    var rQ: array<byte>
    var rQi: nat
    var rQlen: nat
    var rQbufferSize: nat
    var rQmax: nat

    /** All bytes that were ever received, and the number of those that were dropped from the buffer. */
    ghost var received: seq<byte>
    ghost var base: nat

    /** How many bytes had been consumed when the message handler was last entered; nothing from there on is
        dropped from the buffer while the handler reads. */
    ghost var mark: nat

    ghost predicate Valid()
      reads this, rQ
    {
      && rQi <= rQlen <= rQbufferSize == rQ.Length <= MAX_RQ_GROW_SIZE
      && rQbufferSize % 8 == 0 && rQmax == rQbufferSize / 8
      && base + rQlen == |received| && rQ[..rQlen] == received[base..] && base <= mark
    }

    /** The number of bytes that the consumer has read. */
    ghost function Consumed(): nat
      reads this
    {
      base + rQi
    }

    /** What is still to be read. */
    ghost function Unread(): seq<byte>
      requires Valid()
      reads this, rQ
    {
      rQ[rQi..rQlen]
    }

    /** The unread region is what was received without what was consumed. */
    lemma {:induction false} IsFifo()
      requires Valid()
      ensures Consumed() <= |received| && Unread() == received[Consumed()..]
    {
      assert Unread() == rQ[..rQlen][rQi..];
      assert received[base..][rQi..] == received[Consumed()..];
    }

    constructor ()
      ensures Valid() && fresh(rQ) && received == [] && Consumed() == 0
    {
      rQi, rQlen, rQbufferSize := 0, 0, 1024 * 1024 * 4;
      rQmax := 1024 * 1024 * 4 / 8;
      rQ := new byte[1024 * 1024 * 4](_ => 0);
      received, base, mark := [], 0, 0;
    }

    // ----- reading -----

    method RQlen() returns (n: nat)
      requires Valid()
      ensures n == |Unread()|
    {
      n := rQlen - rQi;
    }

    method RQpeek8() returns (b: byte)
      requires Valid() && Unread() != []
      ensures b == received[Consumed()]
    {
      IsFifo();
      assert Unread()[0] == rQ[rQi];
      b := rQ[rQi];
    }

    method RQshift8() returns (b: byte)
      requires Valid() && Unread() != []
      modifies `rQi
      ensures Valid() && b == received[old(Consumed())] && Consumed() == old(Consumed()) + 1
    {
      b := RQpeek8();
      rQi := rQi + 1;
    }

    method RQshift16() returns (n: nat)
      requires Valid() && |Unread()| >= 2
      modifies `rQi
      ensures Valid() && Consumed() == old(Consumed()) + 2
      ensures n == U16(received[old(Consumed())], received[old(Consumed()) + 1])
      ensures n / 256 == received[old(Consumed())] && n % 256 == received[old(Consumed()) + 1]
    {
      var a := RQshift8();
      var b := RQshift8();
      n := U16(a, b);
      HighFirst(a, b);
    }

    method RQshift32() returns (n: int)
      requires Valid() && |Unread()| >= 4
      modifies `rQi
      ensures Valid() && Consumed() == old(Consumed()) + 4
      ensures var c := old(Consumed());
              n == S32(received[c], received[c + 1], received[c + 2], received[c + 3])
      ensures -0x8000_0000 <= n < 0x8000_0000
      ensures var c, m := old(Consumed()), n % 0x1_0000_0000;
              && m / 0x100_0000 == received[c] && m / 0x1_0000 % 256 == received[c + 1]
              && m / 0x100 % 256 == received[c + 2] && m % 256 == received[c + 3]
    {
      var a := RQshift8();
      var b := RQshift8();
      var c := RQshift8();
      var d := RQshift8();
      n := S32(a, b, c, d);
      SignedHighFirst(a, b, c, d);
    }

    method RQskipBytes(num: nat)
      requires Valid() && num <= |Unread()|
      modifies `rQi
      ensures Valid() && Consumed() == old(Consumed()) + num
    {
      rQi := rQi + num;
    }

    method RQshiftBytes(len: nat) returns (s: seq<byte>)
      requires Valid() && len <= |Unread()|
      modifies `rQi
      ensures Valid() && Consumed() == old(Consumed()) + len
      ensures s == received[old(Consumed())..old(Consumed()) + len]
    {
      IsFifo();
      assert rQ[rQi..rQi + len] == Unread()[..len];
      rQi := rQi + len;
      s := rQ[rQi - len..rQi];
    }

    /** Whether the consumer must wait for `num` bytes; if so, the last `goback` bytes that it has read are
        unread again, which fails if they are no longer in the buffer.  It does not fail for bytes that were
        read since the handler was entered. */
    method RQwait(num: nat, goback: nat) returns (wait: bool, failed: bool)
      requires Valid()
      modifies `rQi
      ensures Valid() && wait == (|old(Unread())| < num)
      ensures failed == (wait && old(rQi) < goback)
      ensures goback <= old(Consumed()) - mark ==> !failed
      ensures Consumed() == if wait && !failed then old(Consumed()) - goback else old(Consumed())
    {
      var len := rQlen - rQi;
      wait, failed := len < num, false;
      if wait && goback != 0 {
        if rQi < goback {
          failed := true;
        } else {
          rQi := rQi - goback;
        }
      }
    }

    /** What a message handler does with the queue, each step with the bytes that it has waited for. */
    method Handle(ops: seq<Op>) returns (failed: bool)
      requires Valid() && mark <= Consumed() && Proper(ops, |Unread()|, Consumed() - mark)
      modifies `rQi
      ensures Valid() && mark <= Consumed() && !failed
      ensures Consumed() == mark + Since(ops, |old(Unread())|, old(Consumed()) - mark)
    {
      failed := false;
      var i := 0;
      while i < |ops|
        invariant i <= |ops| && Valid() && mark <= Consumed()
        invariant Proper(ops[i..], |Unread()|, Consumed() - mark)
        invariant Since(ops[i..], |Unread()|, Consumed() - mark) == Since(ops, |old(Unread())|, old(Consumed()) - mark)
      {
        assert ops[i..][1..] == ops[i + 1..];
        match ops[i] {
          case Read(n) => RQskipBytes(n);
          case Wait(num, goback) =>
            var wait;
            wait, failed := RQwait(num, goback);
            if failed {
              return;
            }
        }
        i := i + 1;
      }
    }

    // ----- receiving -----

    /** Makes room for `min_fit` bytes, or only compacts the buffer if that is zero. */
    method ExpandCompact(min_fit: nat) returns (taken: Taken)
      requires Valid() && (min_fit > 0 ==> min_fit > rQbufferSize - rQlen)
      modifies this, rQ
      ensures received == old(received)
      ensures taken.Refused? <==> min_fit > 0 && OverLimit(old(rQbufferSize), old(rQi), old(rQlen), min_fit)
      ensures taken.Stored? ==>
        && Valid() && (rQ == old(rQ) || fresh(rQ))
        && rQi == 0 && Consumed() == old(Consumed()) && Unread() == old(Unread())
        && rQlen + min_fit <= rQbufferSize == NewSize(old(rQbufferSize), old(rQlen - rQi), min_fit)
    {
      hide Unread, OverLimit;
      var resizeNeeded := min_fit != 0 || rQlen - rQi > rQbufferSize / 2;
      var size := rQbufferSize;
      if resizeNeeded {
        if min_fit == 0 {
          size := size * 2;
        } else {
          size := Wanted(rQlen - rQi, min_fit);
        }
      }
      ghost var asked := size;
      Limit(rQbufferSize, rQi, rQlen, min_fit);
      if size > MAX_RQ_GROW_SIZE {
        size := MAX_RQ_GROW_SIZE;
        if min_fit != 0 && size - rQlen - rQi < min_fit {
          rQbufferSize := size;
          return Refused;
        }
      }
      Roomy(rQbufferSize, rQi, rQlen, min_fit, asked, size);
      Move(size, resizeNeeded);
      taken := Stored;
    }

    /** A new buffer of the given size, or the old one, takes the unread bytes. */
    method Relocate(size: nat, resizeNeeded: bool) returns (buffer: array<byte>)
      requires Valid() && rQbufferSize - rQi <= size && (!resizeNeeded ==> size == rQbufferSize)
      modifies rQ
      ensures buffer.Length == size && (buffer == rQ || fresh(buffer))
      ensures buffer[..rQlen - rQi] == old(Unread())
    {
      ghost var view := rQ[rQi..];
      MovedIs();
      if resizeNeeded {
        buffer := new byte[size](_ => 0);
      } else {
        buffer := rQ;
      }
      Set(buffer, rQ[rQi..], 0);
      assert buffer[..rQlen - rQi] == view[..rQlen - rQi];
    }

    /** The second half: the unread bytes move to the start. */
    method Move(size: nat, resizeNeeded: bool)
      requires Valid() && size % 8 == 0 && size <= MAX_RQ_GROW_SIZE && rQbufferSize - rQi <= size
      requires rQlen - rQi <= size && (!resizeNeeded ==> size == rQbufferSize)
      modifies this, rQ
      ensures received == old(received) && Valid() && (rQ == old(rQ) || fresh(rQ))
      ensures rQi == 0 && rQlen == old(rQlen) - old(rQi) && rQbufferSize == size
      ensures Consumed() == old(Consumed()) && Unread() == old(Unread())
    {
      MovedIs();
      var buffer := Relocate(size, resizeNeeded);
      rQ, rQbufferSize := buffer, size;
      if resizeNeeded {
        rQmax := size / 8;
      }
      base := base + rQi;
      mark := base;
      rQlen, rQi := rQlen - rQi, 0;
    }

    /** The unread bytes, as the start of what is moved and as the end of what was received. */
    lemma {:induction false} MovedIs()
      requires Valid()
      ensures rQ[rQi..][..rQlen - rQi] == Unread() == received[base + rQi..]
    {
      IsFifo();
    }

    /** `_decode_message`: the bytes of a message go to the end of the queue. */
    method DecodeMessage(u8: seq<byte>) returns (taken: Taken)
      requires Valid()
      modifies this, rQ
      ensures taken.Refused? <==> OverLimit(old(rQbufferSize), old(rQi), old(rQlen), |u8|)
      ensures taken.Stored? ==>
        && Valid() && (rQ == old(rQ) || fresh(rQ))
        && received == old(received) + u8 && Consumed() == old(Consumed()) && Unread() == old(Unread()) + u8
    {
      taken := Stored;
      if |u8| > rQbufferSize - rQlen {
        taken := ExpandCompact(|u8|);
        if taken.Refused? {
          return;
        }
      }
      Append(u8);
    }

    method Append(u8: seq<byte>)
      requires Valid() && rQlen + |u8| <= rQbufferSize
      modifies `rQlen, `received, rQ
      ensures Valid() && received == old(received) + u8 && Consumed() == old(Consumed())
      ensures Unread() == old(Unread()) + u8
    {
      ghost var before, unread := rQ[..rQlen], Unread();
      Set(rQ, u8, rQlen);
      rQlen := rQlen + |u8|;
      received := received + u8;
      assert rQ[..rQlen] == before + u8;
      assert unread == before[rQi..];
    }

    /** `_recv_message`: decode, handler, compaction.  The handler can always go back over what it has read itself,
        since the buffer is compacted only before and after it. */
    method RecvMessage(u8: seq<byte>, ops: seq<Op>) returns (taken: Taken, failed: bool)
      requires Valid() && Proper(ops, |Unread()| + |u8|, 0)
      modifies this, rQ
      ensures !failed
      ensures taken.Refused? <==> OverLimit(old(rQbufferSize), old(rQi), old(rQlen), |u8|)
      ensures taken.Stored? ==>
        && Valid() && (rQ == old(rQ) || fresh(rQ)) && received == old(received) + u8
        && var unread := |old(Unread())| + |u8|;
           Consumed() == old(Consumed()) + (if unread == 0 then 0 else Since(ops, unread, 0))
    {
      hide OverLimit, Proper, Since;
      failed := false;
      taken := DecodeMessage(u8);
      if taken.Refused? {
        return;
      }
      var len := RQlen();
      if len > 0 {
        mark := Consumed();
        failed := Handle(ops);
        AfterMessage();
      }
    }

    /** What `_recv_message` does once the handler has read what it wants. */
    method AfterMessage()
      requires Valid()
      modifies this, rQ
      ensures Valid() && (rQ == old(rQ) || fresh(rQ))
      ensures received == old(received) && Consumed() == old(Consumed()) && Unread() == old(Unread())
    {
      if rQlen == rQi {
        base := base + rQi;
        mark := base;
        rQlen := 0;
        rQi := 0;
      } else if rQlen > rQmax {
        var _ := ExpandCompact(0);
      }
    }
  }

  /** The test refuses exactly the messages that do not fit, unless bytes that were read are still in the
      buffer: then it also refuses messages within twice their number of the limit. */
  lemma {:induction false} RefusesTooMuch(size: nat, i: nat, len: nat, fit: nat)
    requires i <= len <= size <= MAX_RQ_GROW_SIZE
    ensures (len - i) + fit > MAX_RQ_GROW_SIZE ==> OverLimit(size, i, len, fit)
    ensures OverLimit(size, i, len, fit) && (len - i) + fit <= MAX_RQ_GROW_SIZE <==>
      && fit > size - len && (len - i) + fit > MAX_RQ_GROW_SIZE / 8
      && MAX_RQ_GROW_SIZE - 2 * i < (len - i) + fit <= MAX_RQ_GROW_SIZE
    ensures i == 0 ==> (OverLimit(size, i, len, fit) <==> (len - i) + fit > MAX_RQ_GROW_SIZE)
  {
  }

  /** One byte read and one unread, and a message that would just fit is refused. */
  lemma {:induction false} RefusesExample()
    ensures OverLimit(4194304, 1, 2, 41943038) && (2 - 1) + 41943038 <= MAX_RQ_GROW_SIZE == 41943040
  {
  }
}
