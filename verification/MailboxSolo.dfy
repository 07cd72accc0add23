/** What the steps of one operation add up to when they run in a row: the closed forms that the driver's
    functions are proved against. With them, a run in which a message is overwritten. */
module MailboxSolo {
  import opened Basics
  import opened CText
  import opened LinkMessages
  import opened Mailbox

  /** `run` leads from st to end. */
  predicate Leads(st: State, run: seq<Step>, end: State)
  {
    ShapedState(st) && IsRun(st, run) && After(st, run) == end
  }

  lemma {:induction false} RunCons(st: State, a: Step, rest: seq<Step>)
    requires ShapedState(st) && Enabled(st.p, a) && IsRun(Next(st, a), rest)
    ensures IsRun(st, [a] + rest) && After(st, [a] + rest) == After(Next(st, a), rest)
  {
    assert ([a] + rest)[1..] == rest;
  }

  /** One step ahead of a run. */
  lemma {:induction false} StepFirst(st: State, a: Step, rest: seq<Step>, end: State)
    requires ShapedState(st) && Enabled(st.p, a) && Leads(Next(st, a), rest, end)
    ensures Leads(st, [a] + rest, end)
  {
    RunCons(st, a, rest);
  }

  lemma {:induction false} OneStep(st: State, a: Step)
    requires ShapedState(st) && Enabled(st.p, a)
    ensures Leads(st, [a], Next(st, a))
  {
    StepFirst(st, a, [], Next(st, a));
    assert [a] + [] == [a];
  }

  lemma {:induction false} RunUncons(st: State, run: seq<Step>, end: State)
    requires Leads(st, run, end) && run != []
    ensures Enabled(st.p, run[0]) && Leads(Next(st, run[0]), run[1..], end)
  {
  }

  lemma {:induction false} Regroup(x: seq<Step>, y: seq<Step>)
    requires x != []
    ensures [x[0]] + (x[1..] + y) == x + y
  {
  }

  lemma {:induction false} ThenFirst(st: State, x: seq<Step>, y: seq<Step>, end: State)
    requires x != [] && ShapedState(st) && Enabled(st.p, x[0]) && Leads(Next(st, x[0]), x[1..] + y, end)
    ensures Leads(st, x + y, end)
  {
    StepFirst(st, x[0], x[1..] + y, end);
    Regroup(x, y);
  }

  /** One run after another. */
  lemma {:induction false} Then(st: State, x: seq<Step>, mid: State, y: seq<Step>, end: State)
    requires Leads(st, x, mid) && Leads(mid, y, end)
    ensures Leads(st, x + y, end)
    decreases x
  {
    if x == [] {
      assert x + y == y;
    } else {
      RunUncons(st, x, mid);
      Then(Next(st, x[0]), x[1..], mid, y, end);
      ThenFirst(st, x, y, end);
    }
  }

  /** Three steps lead from st to t. */
  predicate InThree(st: State, a: Step, b: Step, c: Step, t: State)
  {
    ShapedState(st) && Enabled(st.p, a) && Enabled(Next(st, a).p, b) && Enabled(Next(Next(st, a), b).p, c) &&
    Next(Next(Next(st, a), b), c) == t
  }

  lemma {:induction false} ThreeSteps(st: State, a: Step, b: Step, c: Step, t: State)
    requires InThree(st, a, b, c, t)
    ensures Leads(st, [a, b, c], t)
  {
    var t1 := Next(st, a);
    OneStep(Next(t1, b), c);
    StepFirst(t1, b, [c], t);
    assert [b] + [c] == [b, c];
    StepFirst(st, a, [b, c], t);
    assert [a] + [b, c] == [a, b, c];
  }

  function Repeat(a: Step, k: nat): (run: seq<Step>)
    ensures |run| == k && forall i :: 0 <= i < k ==> run[i] == a
  {
    seq(k, _ => a)
  }

  lemma RepeatFirst(a: Step, k: nat, rest: seq<Step>)
    requires k > 0
    ensures [a] + (Repeat(a, k - 1) + rest) == Repeat(a, k) + rest
  {
    assert [a] + Repeat(a, k - 1) == Repeat(a, k);
  }

  // ---- Sending

  /** The steps of one send, from the last look at buflen to the doorbell, for a body of k bytes. */
  function SendSteps(s: nat, k: nat): seq<Step>
  {
    [BySender(s, Pass)] + [BySender(s, StoreLen), BySender(s, StoreNul), BySender(s, StoreResponder)] + CopySteps(s, k)
  }

  function CopySteps(s: nat, k: nat): seq<Step> { Repeat(BySender(s, CopyByte), k) + [BySender(s, Ring)] }

  /** A slot after the rest of a copy. */
  function Copied(b: Slot, k: nat, body: bytes): Slot
    requires k <= |body| <= |b.buf|
  {
    b.(buf := b.buf[..k] + body[k..] + b.buf[|body|..])
  }

  /** The state in which sender s has just rung for its message, with b in its slot. */
  function Rung(st: State, s: nat, b: Slot, dst: nat, body: bytes, reply: bool): (t: State)
    requires ShapedState(st) && s <= st.p.n
    ensures ShapedState(t)
  {
    State(st.p.(slots := st.p.slots[s := b], send := st.p.send[s := Idle],
                bells := st.p.bells + multiset{Bell(s, dst)}),
          st.h.(log := st.h.log + [Message(s, dst, body, reply)], cur := st.h.cur[s := |st.h.log|],
                owner := st.h.owner[s := Flying(dst)]))
  }

  predicate CopyingAt(st: State, s: nat)
  {
    ShapedState(st) && Node(st.p.n, s) && st.p.send[s].Publishing? && st.p.send[s].stage.Copying? &&
    st.p.send[s].stage.k <= |st.p.send[s].body| <= |st.p.slots[s].buf|
  }

  /** Where a copy in progress ends up. */
  function CopyEnd(st: State, s: nat): (t: State)
    requires CopyingAt(st, s)
    ensures ShapedState(t)
  {
    var w := st.p.send[s];
    Rung(st, s, Copied(st.p.slots[s], w.stage.k, w.body), w.dst, w.body, w.reply)
  }

  lemma CopyOne(b: Slot, k: nat, body: bytes)
    requires k < |body| <= |b.buf|
    ensures Copied(b.(buf := b.buf[k := body[k]]), k + 1, body) == Copied(b, k, body)
  {
    assert b.buf[k := body[k]][..k + 1] + body[k + 1..] == b.buf[..k] + body[k..];
    assert b.buf[k := body[k]][|body|..] == b.buf[|body|..];
  }

  lemma OneByteOn(st: State, s: nat)
    requires CopyingAt(st, s) && st.p.send[s].stage.k < |st.p.send[s].body|
    ensures SendEnabled(st.p, s, CopyByte) && CopyingAt(Next(st, BySender(s, CopyByte)), s)
    ensures CopyEnd(Next(st, BySender(s, CopyByte)), s) == CopyEnd(st, s)
    ensures Next(st, BySender(s, CopyByte)).p.send[s] == st.p.send[s].(stage := Copying(st.p.send[s].stage.k + 1))
  {
    var t := Next(st, BySender(s, CopyByte));
    CopyOne(st.p.slots[s], st.p.send[s].stage.k, st.p.send[s].body);
    var b := Copied(st.p.slots[s], st.p.send[s].stage.k, st.p.send[s].body);
    assert t.p.slots[s := b] == st.p.slots[s := b];
    assert t.p.send[s := Idle] == st.p.send[s := Idle];
  }

  lemma LastByteDone(st: State, s: nat)
    requires CopyingAt(st, s) && st.p.send[s].stage.k == |st.p.send[s].body|
    ensures SendEnabled(st.p, s, Ring) && Next(st, BySender(s, Ring)) == CopyEnd(st, s)
  {
    var b, k := st.p.slots[s], st.p.send[s].stage.k;
    assert b.buf[..k] + st.p.send[s].body[k..] + b.buf[k..] == b.buf;
    assert st.p.slots[s := b] == st.p.slots;
  }

  lemma {:induction false} CopyInARow(st: State, s: nat)
    requires CopyingAt(st, s)
    ensures Leads(st, CopySteps(s, |st.p.send[s].body| - st.p.send[s].stage.k), CopyEnd(st, s))
    decreases |st.p.send[s].body| - st.p.send[s].stage.k
  {
    var left := |st.p.send[s].body| - st.p.send[s].stage.k;
    if left == 0 {
      LastByteDone(st, s);
      OneStep(st, BySender(s, Ring));
      assert CopySteps(s, 0) == [BySender(s, Ring)];
    } else {
      OneByteOn(st, s);
      CopyInARow(Next(st, BySender(s, CopyByte)), s);
      StepFirst(st, BySender(s, CopyByte), CopySteps(s, left - 1), CopyEnd(st, s));
      RepeatFirst(BySender(s, CopyByte), left, [BySender(s, Ring)]);
    }
  }

  predicate ReadyToSend(st: State, s: nat)
  {
    ShapedState(st) && Node(st.p.n, s) && st.p.send[s].Polling? && st.p.slots[s].buflen == 0 &&
    |st.p.send[s].body| < |st.p.slots[s].buf|
  }

  /** The closed form of a whole send: exactly the slot that Published describes, one doorbell, one
      message logged. */
  function SendEnd(st: State, s: nat): (t: State)
    requires ReadyToSend(st, s)
    ensures ShapedState(t)
  {
    var w := st.p.send[s];
    Rung(st, s, Published(st.p.slots[s], w.dst, w.body), w.dst, w.body, w.reply)
  }

  lemma CopiedIsPublished(b: Slot, dst: nat, body: bytes)
    requires |body| < |b.buf|
    ensures Copied(Slot(|body|, dst, b.peerSid, b.peerCid, b.buf[|body| := NUL]), 0, body) == Published(b, dst, body)
  {
    var c := b.buf[|body| := NUL];
    assert c[..0] + body[0..] + c[|body|..] == body + [NUL] + b.buf[|body| + 1..];
  }

  /** The state once everything but the body has been stored. */
  function HeadStored(st: State, s: nat): (t: State)
    requires ReadyToSend(st, s)
    ensures CopyingAt(t, s)
  {
    var w, b := st.p.send[s], st.p.slots[s];
    State(st.p.(slots := st.p.slots[s := Slot(|w.body|, w.dst, b.peerSid, b.peerCid, b.buf[|w.body| := NUL])],
                send := st.p.send[s := Publishing(w.dst, w.body, w.reply, Copying(0))]), st.h)
  }

  lemma HeadStores(st: State, s: nat)
    requires ReadyToSend(st, s)
    ensures CopyEnd(HeadStored(st, s), s) == SendEnd(st, s)
  {
    var w, t := st.p.send[s], HeadStored(st, s);
    var p := Published(st.p.slots[s], w.dst, w.body);
    CopiedIsPublished(st.p.slots[s], w.dst, w.body);
    assert t.p.slots[s := p] == st.p.slots[s := p];
    assert t.p.send[s := Idle] == st.p.send[s := Idle];
  }

  lemma HeadSteps(st: State, s: nat)
    requires ShapedState(st) && Node(st.p.n, s) && st.p.send[s].Publishing? && st.p.send[s].stage.Passed?
    requires |st.p.send[s].body| < |st.p.slots[s].buf|
    ensures var w, b := st.p.send[s], st.p.slots[s];
            InThree(st, BySender(s, StoreLen), BySender(s, StoreNul), BySender(s, StoreResponder),
              State(st.p.(slots := st.p.slots[s := Slot(|w.body|, w.dst, b.peerSid, b.peerCid, b.buf[|w.body| := NUL])],
                          send := st.p.send[s := Publishing(w.dst, w.body, w.reply, Copying(0))]), st.h))
  {
    var t1 := Next(st, BySender(s, StoreLen));
    var t2 := Next(t1, BySender(s, StoreNul));
    var t3 := Next(t2, BySender(s, StoreResponder));
    assert t3.p.slots == st.p.slots[s := t3.p.slots[s]] && t3.p.send == st.p.send[s := t3.p.send[s]];
  }

  lemma HeadInThree(st: State, s: nat)
    requires ReadyToSend(st, s)
    ensures InThree(Next(st, BySender(s, Pass)), BySender(s, StoreLen), BySender(s, StoreNul),
              BySender(s, StoreResponder), HeadStored(st, s))
  {
    var t, h := Next(st, BySender(s, Pass)), HeadStored(st, s);
    HeadSteps(t, s);
    assert t.p.send[s := h.p.send[s]] == h.p.send;
  }

  /** The steps of one send in a row lead to its closed form. */
  lemma {:induction false} SendInARow(st: State, s: nat)
    requires ReadyToSend(st, s)
    ensures Leads(st, SendSteps(s, |st.p.send[s].body|), SendEnd(st, s))
  {
    var k, h := |st.p.send[s].body|, HeadStored(st, s);
    var stores := [BySender(s, StoreLen), BySender(s, StoreNul), BySender(s, StoreResponder)];
    HeadInThree(st, s);
    var t := Next(st, BySender(s, Pass));
    ThreeSteps(t, BySender(s, StoreLen), BySender(s, StoreNul), BySender(s, StoreResponder), h);
    StepFirst(st, BySender(s, Pass), stores, h);
    HeadStores(st, s);
    CopyInARow(h, s);
    Then(st, [BySender(s, Pass)] + stores, h, CopySteps(s, k), SendEnd(st, s));
  }

  // ---- Delivering

  predicate ReadyToDeliver(st: State, d: nat, s: nat)
  {
    ShapedState(st) && Node(st.p.n, d) && Node(st.p.n, s) &&
    Bell(s, d) in st.p.bells && st.p.lock[d].Unlocked? && Seen(st.p.slots[s]).None?
  }

  function DeliverSteps(d: nat, s: nat): seq<Step> { [ByHandler(d, Take(s)), ByHandler(d, Stamp), ByHandler(d, Post)] }

  /** The closed form of a delivery: the slot is stamped and pointed at, and the message that
      incoming_slot named before is overwritten. */
  function DeliverEnd(st: State, d: nat, s: nat): (t: State)
    requires ReadyToDeliver(st, d, s)
    ensures ShapedState(t)
  {
    var i := st.p.incoming[d];
    State(st.p.(bells := st.p.bells - multiset{Bell(s, d)}, incoming := st.p.incoming[d := Some(s)],
                slots := st.p.slots[s := st.p.slots[s].(peerSid := SID_DEFAULT, peerCid := s * 100)]),
          if i.Some? && Node(st.p.n, i.value) then
            st.h.(owner := st.h.owner[s := AtHandler(d)][i.value := Lost(d)][s := Held(d)],
                  overwritten := st.h.overwritten + {st.h.cur[i.value]})
          else st.h.(owner := st.h.owner[s := AtHandler(d)][s := Held(d)]))
  }

  lemma DeliverInThree(st: State, d: nat, s: nat)
    requires ReadyToDeliver(st, d, s)
    ensures InThree(st, ByHandler(d, Take(s)), ByHandler(d, Stamp), ByHandler(d, Post), DeliverEnd(st, d, s))
  {
    var t1 := Next(st, ByHandler(d, Take(s)));
    var t2 := Next(t1, ByHandler(d, Stamp));
    assert Seen(t2.p.slots[s]) == Seen(st.p.slots[s]);
    var t3 := Next(t2, ByHandler(d, Post));
    assert t3.p.lock == st.p.lock;
  }

  /** The steps of one delivery in a row lead to its closed form. */
  lemma DeliverInARow(st: State, d: nat, s: nat)
    requires ReadyToDeliver(st, d, s)
    ensures Leads(st, DeliverSteps(d, s), DeliverEnd(st, d, s))
  {
    DeliverInThree(st, d, s);
    ThreeSteps(st, ByHandler(d, Take(s)), ByHandler(d, Stamp), ByHandler(d, Post), DeliverEnd(st, d, s));
  }

  // ---- Both

  /** Sender s is free to send body to d, whose handlers are idle. */
  predicate ReadyForBoth(st: State, s: nat, d: nat, body: bytes)
  {
    ShapedState(st) && Node(st.p.n, d) && Node(st.p.n, s) && 0 < |body| < st.p.max &&
    st.p.send[s].Idle? && st.p.slots[s].buflen == 0 && |st.p.slots[s].buf| == st.p.max && st.p.lock[d].Unlocked?
  }

  /** One user's message from s to d, sent without interruption. */
  function UserSteps(s: nat, d: nat, body: bytes): seq<Step>
  {
    [BySender(s, UserBegin(d, body))] + SendSteps(s, |body|)
  }

  function UserEnd(st: State, s: nat, d: nat, body: bytes): (t: State)
    requires ReadyForBoth(st, s, d, body)
    ensures ShapedState(t)
  {
    SendEnd(Next(st, BySender(s, UserBegin(d, body))), s)
  }

  lemma UserInARow(st: State, s: nat, d: nat, body: bytes)
    requires ReadyForBoth(st, s, d, body)
    ensures Leads(st, UserSteps(s, d, body), UserEnd(st, s, d, body))
  {
    var t := Next(st, BySender(s, UserBegin(d, body)));
    SendInARow(t, s);
    StepFirst(st, BySender(s, UserBegin(d, body)), SendSteps(s, |body|), SendEnd(t, s));
  }

  /** What the receiver finds. */
  lemma UserEffect(st: State, s: nat, d: nat, body: bytes)
    requires ReadyForBoth(st, s, d, body)
    ensures var t := UserEnd(st, s, d, body);
            t.p == st.p.(slots := st.p.slots[s := Published(st.p.slots[s], d, body)],
                         bells := st.p.bells + multiset{Bell(s, d)}) &&
            t.h.log == st.h.log + [Message(s, d, body, false)] && t.h.cur == st.h.cur[s := |st.h.log|] &&
            t.h.owner == st.h.owner[s := Flying(d)] && t.h.overwritten == st.h.overwritten &&
            t.h.released == st.h.released && t.h.completed == st.h.completed && t.h.reading == st.h.reading &&
            Seen(t.p.slots[s]) == RequestIn(body)
  {
    StaleBytesNeverMatter(body, st.p.slots[s].buf[|body| + 1..]);
    var t := UserEnd(st, s, d, body);
    assert t.p.send == st.p.send;
  }

  function BothSteps(s: nat, d: nat, body: bytes): seq<Step> { UserSteps(s, d, body) + DeliverSteps(d, s) }

  /** The message sent, and delivered without interruption. */
  function BothEnd(st: State, s: nat, d: nat, body: bytes): (t: State)
    requires ReadyForBoth(st, s, d, body) && RequestIn(body).None?
    ensures ShapedState(t)
  {
    UserEffect(st, s, d, body);
    DeliverEnd(UserEnd(st, s, d, body), d, s)
  }

  lemma BothInARow(st: State, s: nat, d: nat, body: bytes)
    requires ReadyForBoth(st, s, d, body) && RequestIn(body).None?
    ensures Leads(st, BothSteps(s, d, body), BothEnd(st, s, d, body))
  {
    var t := UserEnd(st, s, d, body);
    UserEffect(st, s, d, body);
    UserInARow(st, s, d, body);
    DeliverInARow(t, d, s);
    Then(st, UserSteps(s, d, body), t, DeliverSteps(d, s), BothEnd(st, s, d, body));
  }

  function StampedBy(b: Slot, s: nat): Slot { b.(peerSid := SID_DEFAULT, peerCid := s * 100) }

  lemma BothEffect(st: State, s: nat, d: nat, body: bytes)
    requires ReadyForBoth(st, s, d, body) && RequestIn(body).None?
    ensures var t, i := BothEnd(st, s, d, body), st.p.incoming[d];
            t.p.n == st.p.n && t.p.max == st.p.max && t.p.send == st.p.send && t.p.lock == st.p.lock &&
            t.p.reader == st.p.reader && t.p.incoming == st.p.incoming[d := Some(s)] &&
            t.p.slots == st.p.slots[s := StampedBy(Published(st.p.slots[s], d, body), s)] &&
            t.h.cur == st.h.cur[s := |st.h.log|] && |t.h.log| == |st.h.log| + 1 &&
            t.h.released == st.h.released && t.h.completed == st.h.completed && t.h.reading == st.h.reading &&
            (i.Some? && Node(st.p.n, i.value) && i.value != s ==> st.h.cur[i.value] in t.h.overwritten)
  {
    UserEffect(st, s, d, body);
    var b := BothEnd(st, s, d, body).p.slots[s];
    assert st.p.slots[s := Published(st.p.slots[s], d, body)][s := b] == st.p.slots[s := b];
  }

  /** A one-byte message of no special meaning, sent and delivered: only what it changes. */
  lemma OneByte(st: State, s: nat, d: nat) returns (t: State)
    requires ReadyForBoth(st, s, d, "x")
    ensures Leads(st, BothSteps(s, d, "x"), t) && ShapedState(t) && t.p.n == st.p.n && t.p.max == st.p.max
    ensures t.p.send == st.p.send && t.p.lock == st.p.lock && t.p.reader == st.p.reader
    ensures t.p.incoming == st.p.incoming[d := Some(s)]
    ensures forall j :: 0 <= j <= st.p.n && j != s ==> t.p.slots[j] == st.p.slots[j]
    ensures |t.p.slots[s].buf| == st.p.max && t.p.slots[s].buflen == 1
    ensures t.p.slots[s].peerSid == SID_DEFAULT && t.p.slots[s].peerCid == s * 100
    ensures t.h.cur == st.h.cur[s := |st.h.log|] && |t.h.log| == |st.h.log| + 1
    ensures t.h.released == st.h.released && t.h.completed == st.h.completed && t.h.reading == st.h.reading
    ensures var i := st.p.incoming[d];
            i.Some? && Node(st.p.n, i.value) && i.value != s ==> st.h.cur[i.value] in t.h.overwritten
  {
    NotARequest("x");
    BothEffect(st, s, d, "x");
    BothInARow(st, s, d, "x");
    t := BothEnd(st, s, d, "x");
  }

  /** Overwriting does happen: two messages to one node that are not read in between. */
  lemma OverwriteHappens(st: State) returns (run: seq<Step>)
    requires Init(st) && st.p.n >= 3 && st.p.max >= 2
    ensures IsRun(st, run) && After(st, run).h.overwritten != {}
  {
    var t := OneByte(st, 1, 3);
    var u := OneByte(t, 2, 3);
    assert t.h.cur[1] in u.h.overwritten;
    Then(st, BothSteps(1, 3, "x"), t, BothSteps(2, 3, "x"), u);
    run := BothSteps(1, 3, "x") + BothSteps(2, 3, "x");
  }
}
