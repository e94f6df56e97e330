/** The key event pipeline: the queue that merges a keydown with the keypress behind it, and the tracker of
    the keys that are down.
 */
module Keyboard {
  datatype Option<T> = None | Some(value: T)

  datatype Kind = Stall | KeyDown | KeyPress | KeyUp | ReleaseAll

  /** A key event; a key identification of zero is none. */
  datatype Event = Event(kind: Kind, keyId: nat, keysym: Option<nat>, escape: Option<seq<nat>>)

  // ----- merging -----

  /** A keydown takes the keysym of the keypress, and its escape unless the keysym is the one that was guessed. */
  function Merge(down: Event, press: Event): Event {
    var escape :=
      if press.escape.Some? && (down.keysym.None? || down.keysym != press.keysym) then press.escape
      else down.escape;
    down.(keysym := press.keysym, escape := escape)
  }

  /** The merged event, field by field: the keydown of that key, with the character typed.  It is escaped like the
      keypress, if that is and gives another character than was guessed, and otherwise like the keydown. */
  lemma {:induction false} MergedFields(down: Event, press: Event)
    ensures var e := Merge(down, press);
            && e.kind == down.kind && e.keyId == down.keyId && e.keysym == press.keysym
            && (press.escape.Some? && (down.keysym.None? || down.keysym != press.keysym) ==> e.escape == press.escape)
            && (press.escape.None? || (down.keysym.Some? && down.keysym == press.keysym) ==> e.escape == down.escape)
  {
  }

  /** `out` is what `events` become: in order, without stalls, each event as it is or, for a keydown that is
      followed at once by a keypress, possibly merged with it. */
  ghost predicate Delivers(events: seq<Event>, out: seq<Event>) {
    if events == [] then out == []
    else
      var n, m := |events| - 1, |out| - 1;
      if events[n].kind == Stall then Delivers(events[..n], out)
      else
        || (out != [] && out[m] == events[n] && Delivers(events[..n], out[..m]))
        || (out != [] && n >= 1 && events[n - 1].kind == KeyDown && events[n].kind == KeyPress
            && out[m] == Merge(events[n - 1], events[n]) && Delivers(events[..n - 1], out[..m]))
  }

  /** The three ways in which processing goes on. */
  lemma {:induction false} DeliversStall(events: seq<Event>, out: seq<Event>, e: Event)
    requires Delivers(events, out) && e.kind == Stall
    ensures Delivers(events + [e], out)
  {
    assert (events + [e])[..|events|] == events;
  }

  lemma {:induction false} DeliversOne(events: seq<Event>, out: seq<Event>, e: Event)
    requires Delivers(events, out) && e.kind != Stall
    ensures Delivers(events + [e], out + [e])
  {
    assert (events + [e])[..|events|] == events && (out + [e])[..|out|] == out;
  }

  lemma {:induction false} DeliversMerged(events: seq<Event>, out: seq<Event>, e: Event, f: Event)
    requires Delivers(events, out) && e.kind == KeyDown && f.kind == KeyPress
    ensures Delivers(events + [e, f], out + [Merge(e, f)])
  {
    hide Merge;
    var all := events + [e, f];
    assert all[..|all| - 2] == events && (out + [Merge(e, f)])[..|out|] == out;
  }

  /** The events that are neither stalls nor part of typing a character. */
  function Others(events: seq<Event>): seq<Event> {
    if events == [] then []
    else
      var e := events[|events| - 1];
      Others(events[..|events| - 1]) + (if e.kind == KeyUp || e.kind == ReleaseAll then [e] else [])
  }

  function Count(events: seq<Event>, kind: Kind): nat {
    if events == [] then 0
    else Count(events[..|events| - 1], kind) + (if events[|events| - 1].kind == kind then 1 else 0)
  }

  /** No keyup is lost, changed or reordered; no keydown is lost; a keypress goes only into a keydown. */
  lemma {:induction false} NothingLost(events: seq<Event>, out: seq<Event>)
    requires Delivers(events, out)
    ensures Others(out) == Others(events)
    ensures Count(out, KeyDown) == Count(events, KeyDown) && Count(out, Stall) == 0
    ensures Count(out, KeyPress) <= Count(events, KeyPress) <= Count(out, KeyPress) + Count(out, KeyDown)
  {
    if events != [] {
      var n, m := |events| - 1, |out| - 1;
      if events[n].kind == Stall {
        NothingLost(events[..n], out);
      } else if out != [] && out[m] == events[n] && Delivers(events[..n], out[..m]) {
        NothingLost(events[..n], out[..m]);
      } else {
        NothingLost(events[..n - 1], out[..m]);
        assert events[..n][..n - 1] == events[..n - 1];
      }
    }
  }

  /** What one pass over the queue passes on, what it leaves in the queue, and whether it met a stall. */
  datatype Pass = Pass(out: seq<Event>, rest: seq<Event>, stalled: bool)

  function Batch(queue: seq<Event>): Pass {
    if queue == [] then Pass([], [], false)
    else if queue[0].kind == Stall then Pass([], queue[1..], true)
    else if queue[0].kind == KeyDown && |queue| > 1 && queue[1].kind == KeyPress then
      var p := Batch(queue[2..]);
      p.(out := [Merge(queue[0], queue[1])] + p.out)
    else
      var p := Batch(queue[1..]);
      p.(out := [queue[0]] + p.out)
  }

  lemma {:induction false} BatchFirst(d: seq<Event>, q: seq<Event>)
    requires q != []
    ensures q[0].kind == Stall ==> Batch(q) == Pass([], q[1..], true)
    ensures q[0].kind == KeyDown && |q| > 1 && q[1].kind == KeyPress ==>
      var p := Batch(q[2..]);
      Batch(q).rest == p.rest && Batch(q).stalled == p.stalled && d + Batch(q).out == (d + [Merge(q[0], q[1])]) + p.out
    ensures q[0].kind != Stall && !(q[0].kind == KeyDown && |q| > 1 && q[1].kind == KeyPress) ==>
      var p := Batch(q[1..]);
      Batch(q).rest == p.rest && Batch(q).stalled == p.stalled && d + Batch(q).out == (d + [q[0]]) + p.out
  {
    hide Merge;
  }

  /** What has been passed on and what the rest of the queue becomes are what the whole queue becomes. */
  predicate OnTheWay(d0: seq<Event>, q0: seq<Event>, d: seq<Event>, q: seq<Event>) {
    d + Batch(q).out == d0 + Batch(q0).out && Batch(q).rest == Batch(q0).rest && Batch(q).stalled == Batch(q0).stalled
  }

  lemma {:induction false} StillOnTheWay(d0: seq<Event>, q0: seq<Event>, d: seq<Event>, q: seq<Event>, d': seq<Event>,
                                         q': seq<Event>)
    requires OnTheWay(d0, q0, d, q) && OnTheWay(d, q, d', q')
    ensures OnTheWay(d0, q0, d', q')
  {
    hide Batch;
  }

  lemma {:induction false} BatchNone()
    ensures Batch([]) == Pass([], [], false)
  {
  }

  lemma {:induction false} BatchOne(e: Event)
    ensures Batch([e]).rest == [] && Batch([e]).stalled == (e.kind == Stall)
  {
    assert [e][1..] == [];
  }

  lemma {:induction false} BatchTwo(down: Event, press: Event)
    requires down.kind == KeyDown && press.kind == KeyPress
    ensures Batch([down, press]) == Pass([Merge(down, press)], [], false)
    ensures Batch([down]) == Pass([down], [], false) && Batch([press]) == Pass([press], [], false)
  {
    assert [down, press][2..] == [];
    assert [down][1..] == [] && [press][1..] == [];
  }

  /** What a pass delivers first of a queue that begins with a keydown and a keypress. */
  lemma {:induction false} BatchMerges(queue: seq<Event>)
    requires |queue| > 1 && queue[0].kind == KeyDown && queue[1].kind == KeyPress
    ensures var out, rest, down, press := Batch(queue).out, Batch(queue[2..]).out, queue[0], queue[1];
            && out != [] && out[1..] == rest
            && out[0].kind == KeyDown && out[0].keyId == down.keyId && out[0].keysym == press.keysym
            && out[0].escape == if press.escape.Some? && (down.keysym.None? || down.keysym != press.keysym)
                                then press.escape else down.escape
  {
    hide Merge;
    MergedFields(queue[0], queue[1]);
  }

  /** `VerifyCharModifier`: events queue up behind a stall until the timer fires. */
  class VerifyCharModifier {
    var queue: seq<Event>
    var timer: bool
    /** what arrived, what has left the queue, and what was passed on to the next stage */
    ghost var arrived: seq<Event>
    ghost var processed: seq<Event>
    var delivered: seq<Event>

    ghost predicate Valid()
      reads this
    {
      arrived == processed + queue && Delivers(processed, delivered)
    }

    /** Between steps, events wait only for the timer. */
    ghost predicate Idle()
      reads this
    {
      Valid() && (!timer ==> queue == [])
    }

    constructor ()
      ensures Idle() && arrived == [] && delivered == [] && !timer
    {
      queue, timer := [], false;
      arrived, processed, delivered := [], [], [];
    }

    method Next(evt: Event)
      modifies `delivered
      ensures delivered == old(delivered) + [evt]
    {
      delivered := delivered + [evt];
    }

    /** Passes events on until the queue is empty or a stall starts the timer. */
    method Process()
      requires Valid()
      modifies this
      ensures Idle() && arrived == old(arrived)
      ensures old(timer) ==> timer && delivered == old(delivered) && queue == old(queue)
      ensures !old(timer) ==>
        && delivered == old(delivered) + Batch(old(queue)).out
        && queue == Batch(old(queue)).rest && timer == Batch(old(queue)).stalled
    {
      hide Delivers, Merge, Batch;
      BatchNone();
      if timer {
        return;
      }
      ghost var d0, q0 := delivered, queue;
      while queue != []
        invariant Valid() && !timer && arrived == old(arrived)
        invariant OnTheWay(d0, q0, delivered, queue)
        decreases |queue|
      {
        ghost var d, q := delivered, queue;
        PassOne();
        if timer {
          return;
        }
        StillOnTheWay(d0, q0, d, q, delivered, queue);
      }
    }

    /** The loop body: a stall starts the timer, and anything else is passed on, merged if it can be. */
    method PassOne()
      requires Valid() && !timer && queue != []
      modifies this
      ensures Valid() && arrived == old(arrived) && |queue| < |old(queue)|
      ensures if timer then Batch(old(queue)) == Pass([], queue, true) && delivered == old(delivered)
              else OnTheWay(old(delivered), old(queue), delivered, queue)
    {
      hide Delivers, Merge, Batch;
      ghost var q, was, out := queue, processed, delivered;
      BatchFirst(out, q);
      var cur := Take();
      if cur.kind == Stall {
        timer := true;
        DeliversStall(was, out, cur);
        return;
      }
      if cur.kind == KeyDown && queue != [] && queue[0].kind == KeyPress {
        DeliversMerged(was, out, cur, queue[0]);
        var press := Take();
        assert processed == was + [cur, press] && queue == q[2..];
        cur := Merge(cur, press);
      } else {
        DeliversOne(was, out, cur);
      }
      Next(cur);
    }

    /** Removes the first event of the queue. */
    method Take() returns (cur: Event)
      requires queue != []
      modifies `queue, `processed
      ensures cur == old(queue)[0] && queue == old(queue)[1..] && processed == old(processed) + [cur]
      ensures processed + queue == old(processed) + old(queue)
    {
      cur := queue[0];
      queue := queue[1..];
      processed := processed + [cur];
    }

    /** An event arrives. */
    method Arrive(evt: Event)
      requires Idle()
      modifies this
      ensures Idle() && arrived == old(arrived) + [evt]
      ensures if old(timer) then timer && delivered == old(delivered) && queue == old(queue) + [evt]
              else delivered == old(delivered) + Batch([evt]).out && queue == [] && timer == (evt.kind == Stall)
    {
      hide Delivers, Batch;
      BatchOne(evt);
      queue := queue + [evt];
      assert !timer ==> queue == [evt];
      arrived := arrived + [evt];
      Process();
    }

    /** The timer fires. */
    method DelayProcess()
      requires Idle() && timer
      modifies this
      ensures Idle() && arrived == old(arrived) && delivered == old(delivered) + Batch(old(queue)).out
      ensures queue == Batch(old(queue)).rest && timer == Batch(old(queue)).stalled
    {
      hide Delivers, Batch;
      timer := false;
      Process();
    }
  }

  /** A character typed with a character modifier: a stall, a keydown and a keypress.  The keypress is merged into
      the keydown exactly if it arrives before the timer fires; otherwise both are passed on as they are. */
  method TypeCharacter(stall: Event, down: Event, press: Event, late: bool) returns (delivered: seq<Event>)
    requires stall.kind == Stall && down.kind == KeyDown && press.kind == KeyPress
    ensures late ==> delivered == [down, press]
    ensures !late ==>
      && |delivered| == 1
      && delivered[0].kind == KeyDown && delivered[0].keyId == down.keyId && delivered[0].keysym == press.keysym
      && delivered[0].escape == if press.escape.Some? && (down.keysym.None? || down.keysym != press.keysym)
                                then press.escape else down.escape
  {
    hide Batch, Merge, Delivers;
    BatchTwo(down, press);
    MergedFields(down, press);
    BatchStall(stall);
    var v := new VerifyCharModifier();
    v.Arrive(stall);
    v.Arrive(down);
    assert v.queue == [down] && v.delivered == [];
    if late {
      v.DelayProcess();
      assert v.delivered == [down];
      v.Arrive(press);
      assert [down] + [press] == [down, press];
    } else {
      v.Arrive(press);
      assert v.queue == [down, press];
      v.DelayProcess();
    }
    delivered := v.delivered;
  }

  lemma {:induction false} BatchStall(stall: Event)
    requires stall.kind == Stall
    ensures Batch([stall]) == Pass([], [], true)
  {
  }

  // ----- tracking -----

  /** A key that is believed to be down, and the keysyms that were sent down for it. */
  datatype Tracked = Tracked(keyId: nat, keysyms: set<nat>, ignoreKeyPress: bool)

  /** What the tracker sends: a keysym goes down or up. */
  datatype Sent = Sent(down: bool, keysym: nat)

  /** The last that was sent for this keysym is that it goes down. */
  predicate IsDown(sent: seq<Sent>, k: nat) {
    sent != [] && var e := sent[|sent| - 1]; if e.keysym == k then e.down else IsDown(sent[..|sent| - 1], k)
  }

  /** Some tracked key has this keysym. */
  predicate Held(state: seq<Tracked>, k: nat) {
    exists i :: 0 <= i < |state| && k in state[i].keysyms
  }

  /** Every keysym that is down is held by a tracked key. */
  ghost predicate NoneStuck(state: seq<Tracked>, sent: seq<Sent>) {
    forall k: nat :: IsDown(sent, k) ==> Held(state, k)
  }

  /** Nothing goes up that has not gone down before. */
  ghost predicate UpsAfterDowns(sent: seq<Sent>) {
    forall i :: 0 <= i < |sent| && !sent[i].down ==> Sent(true, sent[i].keysym) in sent[..i]
  }

  /** Every held keysym was sent down. */
  ghost predicate HeldWereSent(state: seq<Tracked>, sent: seq<Sent>) {
    forall i, k :: 0 <= i < |state| && k in state[i].keysyms ==> Sent(true, k) in sent
  }

  /** The keyups for a set of keysyms, in ascending order. */
  ghost predicate Releases(s: set<nat>, ups: seq<Sent>) {
    && (forall i :: 0 <= i < |ups| ==> !ups[i].down && ups[i].keysym in s)
    && (forall k :: k in s ==> Sent(false, k) in ups)
    && (forall i, j :: 0 <= i < j < |ups| ==> ups[i].keysym < ups[j].keysym)
  }

  lemma {:induction false} IsDownAfter(sent: seq<Sent>, e: Sent, k: nat)
    ensures IsDown(sent + [e], k) == if e.keysym == k then e.down else IsDown(sent, k)
  {
    assert (sent + [e])[..|sent|] == sent;
  }

  /** After keyups only, just the keysyms without one are still down. */
  lemma {:induction false} IsDownAfterUps(sent: seq<Sent>, ups: seq<Sent>, k: nat)
    requires forall i :: 0 <= i < |ups| ==> !ups[i].down
    ensures IsDown(sent + ups, k) ==> IsDown(sent, k) && Sent(false, k) !in ups
  {
    if ups == [] {
      assert sent + ups == sent;
    } else {
      var n := |ups| - 1;
      assert sent + ups == (sent + ups[..n]) + [ups[n]];
      IsDownAfter(sent + ups[..n], ups[n], k);
      IsDownAfterUps(sent, ups[..n], k);
    }
  }

  lemma {:induction false} HasLeast(s: set<nat>) returns (m: nat)
    requires s != {}
    ensures m in s && forall k :: k in s ==> m <= k
    decreases |s|
  {
    m :| m in s;
    var first, rest := m, s - {m};
    assert forall k :: k in s ==> k == first || k in rest;
    if rest != {} {
      var n := HasLeast(rest);
      if n < m {
        m := n;
      }
    }
  }

  lemma {:induction false} UpsOn(sent: seq<Sent>, ups: seq<Sent>)
    requires UpsAfterDowns(sent) && forall i :: 0 <= i < |ups| ==> Sent(true, ups[i].keysym) in sent
    ensures UpsAfterDowns(sent + ups)
  {
    var all := sent + ups;
    forall i | 0 <= i < |all| && !all[i].down ensures Sent(true, all[i].keysym) in all[..i] {
      if i < |sent| {
        assert all[..i] == sent[..i];
      } else {
        assert all[..i] == sent + ups[..i - |sent|];
      }
    }
  }

  /** The first tracked key with this identification, and otherwise the last one: a guess. */
  function Match(state: seq<Tracked>, keyId: nat): (i: nat)
    requires state != []
    ensures i < |state|
  {
    if state[0].keyId == keyId || |state| == 1 then 0 else 1 + Match(state[1..], keyId)
  }

  lemma {:induction false} MatchIs(state: seq<Tracked>, keyId: nat, i: nat)
    requires i < |state| && forall j :: 0 <= j < i ==> state[j].keyId != keyId
    requires state[i].keyId == keyId || i == |state| - 1
    ensures Match(state, keyId) == i
  {
    if i > 0 {
      MatchIs(state[1..], keyId, i - 1);
    }
  }

  /** Forgetting a key whose keysyms have all gone up. */
  lemma {:induction false} Forget(state: seq<Tracked>, i: nat, sent: seq<Sent>, ups: seq<Sent>)
    requires i < |state| && NoneStuck(state, sent) && HeldWereSent(state, sent) && UpsAfterDowns(sent)
    requires Releases(state[i].keysyms, ups)
    ensures var rest := state[..i] + state[i + 1..];
            NoneStuck(rest, sent + ups) && HeldWereSent(rest, sent + ups) && UpsAfterDowns(sent + ups)
  {
    var rest := state[..i] + state[i + 1..];
    forall k: nat | IsDown(sent + ups, k) ensures Held(rest, k) {
      IsDownAfterUps(sent, ups, k);
      var j :| 0 <= j < |state| && k in state[j].keysyms;
      var j' := if j < i then j else j - 1;
      assert rest[j'] == state[j];
    }
    forall j, k | 0 <= j < |rest| && k in rest[j].keysyms ensures Sent(true, k) in sent + ups {
      assert rest[j] == if j < i then state[j] else state[j + 1];
    }
    UpsOn(sent, ups);
  }

  /** `TrackKeyState` */
  class TrackKeyState {
    var state: seq<Tracked>
    ghost var sent: seq<Sent>

    ghost predicate Valid()
      reads this
    {
      NoneStuck(state, sent) && HeldWereSent(state, sent) && UpsAfterDowns(sent)
    }

    constructor ()
      ensures Valid() && state == [] && sent == []
    {
      state, sent := [], [];
    }

    method Next(down: bool, keysym: nat)
      modifies `sent
      ensures sent == old(sent) + [Sent(down, keysym)]
    {
      sent := sent + [Sent(down, keysym)];
    }

    /** Adds a keysym to the last tracked key and sends it down. */
    method Press(keysym: nat, ignore: bool)
      requires Valid() && state != []
      modifies this
      ensures Valid() && sent == old(sent) + [Sent(true, keysym)] && |state| == |old(state)|
      ensures var last := old(state)[|state| - 1];
              state == old(state)[|state| - 1 := last.(keysyms := last.keysyms + {keysym},
                                                       ignoreKeyPress := last.ignoreKeyPress || ignore)]
    {
      var n := |state| - 1;
      ghost var was, old_sent := state, sent;
      state := state[n := state[n].(keysyms := state[n].keysyms + {keysym},
                                    ignoreKeyPress := state[n].ignoreKeyPress || ignore)];
      Next(true, keysym);
      forall k: nat | IsDown(sent, k) ensures Held(state, k) {
        IsDownAfter(old_sent, Sent(true, keysym), k);
        if k == keysym {
          assert k in state[n].keysyms;
        } else {
          var i :| 0 <= i < |was| && k in was[i].keysyms;
          assert k in state[i].keysyms;
        }
      }
      forall i | 0 <= i < |sent| && !sent[i].down ensures Sent(true, sent[i].keysym) in sent[..i] {
        assert sent[..i] == old_sent[..i];
      }
    }

    /** A new tracked key without keysyms. */
    method Push(keyId: nat)
      requires Valid()
      modifies `state
      ensures Valid() && state == old(state) + [Tracked(keyId, {}, false)]
    {
      ghost var was := state;
      state := state + [Tracked(keyId, {}, false)];
      forall k: nat | IsDown(sent, k) ensures Held(state, k) {
        var i :| 0 <= i < |was| && k in was[i].keysyms;
        assert k in state[i].keysyms;
      }
    }

    /** Sends keyups for the keysyms of one tracked key. */
    method Release(keysyms: set<nat>) returns (ghost ups: seq<Sent>)
      modifies `sent
      ensures sent == old(sent) + ups && Releases(keysyms, ups)
    {
      var rest := keysyms;
      ups := [];
      while rest != {}
        invariant rest <= keysyms && sent == old(sent) + ups && Releases(keysyms - rest, ups)
        invariant forall i, k :: 0 <= i < |ups| && k in rest ==> ups[i].keysym < k
        decreases |rest|
      {
        ghost var m := HasLeast(rest);
        var key :| key in rest && forall k :: k in rest ==> key <= k;
        Next(false, key);
        ups := ups + [Sent(false, key)];
        rest := rest - {key};
      }
    }

    /** A keydown: a new entry, unless it repeats the last key. */
    method OnKeyDown(keyId: nat, keysym: Option<nat>)
      requires Valid()
      modifies this
      ensures Valid()
      ensures sent == old(sent) + (if keysym.Some? then [Sent(true, keysym.value)] else [])
      ensures var same := old(state) != [] && keyId != 0 && old(state)[|old(state)| - 1].keyId == keyId;
              var last := if same then old(state)[|old(state)| - 1] else Tracked(keyId, {}, false);
              && |state| == |old(state)| + (if same then 0 else 1)
              && state[..|state| - 1] == (if same then old(state)[..|state| - 1] else old(state))
              && state[|state| - 1] ==
                 if keysym.Some? then Tracked(keyId, last.keysyms + {keysym.value}, true) else last
    {
      if state == [] || keyId == 0 || state[|state| - 1].keyId != keyId {
        Push(keyId);
      }
      if keysym.Some? {
        Press(keysym.value, true);
      }
    }

    /** A keypress: sent as a keydown, unless the keydown before it has sent a keysym. */
    method OnKeyPress(keyId: nat, keysym: Option<nat>)
      requires Valid()
      modifies this
      ensures Valid()
      ensures var ignore := old(state) != [] && old(state)[|old(state)| - 1].ignoreKeyPress;
              sent == old(sent) + (if keysym.Some? && !ignore then [Sent(true, keysym.value)] else [])
      ensures |state| == (if old(state) == [] then 1 else |old(state)|)
      ensures old(state) != [] ==> state[..|state| - 1] == old(state)[..|state| - 1]
      ensures var last := if old(state) == [] then Tracked(keyId, {}, false) else old(state)[|state| - 1];
              state[|state| - 1] ==
                if keysym.Some? && !last.ignoreKeyPress then last.(keysyms := last.keysyms + {keysym.value}) else last
    {
      if state == [] {
        Push(keyId);
      }
      if keysym.Some? && !state[|state| - 1].ignoreKeyPress {
        Press(keysym.value, false);
      }
    }

    /** A keyup: the key that matches, or else the last one, is released with all its keysyms. */
    method OnKeyUp(keyId: nat) returns (ghost ups: seq<Sent>)
      requires Valid()
      modifies this
      ensures Valid() && sent == old(sent) + ups
      ensures if old(state) == [] then state == [] && ups == []
              else var i := Match(old(state), keyId);
                   state == old(state)[..i] + old(state)[i + 1..] && Releases(old(state)[i].keysyms, ups)
    {
      ups := [];
      if state == [] {
        return;
      }
      var i := 0;
      while i != |state| && state[i].keyId != keyId
        invariant i <= |state| && forall j :: 0 <= j < i ==> state[j].keyId != keyId
      {
        i := i + 1;
      }
      if i == |state| {
        i := |state| - 1;
      }
      MatchIs(state, keyId, i);
      ghost var was, before := state, sent;
      var item := state[i];
      state := state[..i] + state[i + 1..];
      ups := Release(item.keysyms);
      Forget(was, i, before, ups);
    }

    /** Everything is released: afterwards no keysym is down. */
    method OnReleaseAll()
      requires Valid()
      modifies this
      ensures Valid() && state == [] && old(sent) <= sent
      ensures forall k: nat :: !IsDown(sent, k)
      ensures forall i :: |old(sent)| <= i < |sent| ==> !sent[i].down
    {
      ghost var was := state;
      var i := 0;
      while i < |state|
        invariant i <= |state| && state == was && old(sent) <= sent
        invariant NoneStuck(state[i..], sent) && HeldWereSent(state[i..], sent) && UpsAfterDowns(sent)
        invariant forall j :: |old(sent)| <= j < |sent| ==> !sent[j].down
      {
        ghost var rest, before := state[i..], sent;
        ghost var ups := Release(state[i].keysyms);
        assert rest[0] == state[i];
        Forget(rest, 0, before, ups);
        assert rest[..0] + rest[0 + 1..] == state[i + 1..];
        i := i + 1;
      }
      state := [];
    }
  }
}
