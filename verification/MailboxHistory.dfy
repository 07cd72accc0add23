/** What becomes of every accepted message, and what its slot holds meanwhile. */
module MailboxHistory {
  import opened CText
  import opened LinkMessages
  import opened Mailbox
  import opened MailboxOwnership

  // ---- Where each accepted message is

  predicate CurOK(h: Hist, s: nat)
    requires s < |h.owner| && s < |h.cur|
  {
    h.owner[s].Nobody? ||
    (h.cur[s] < |h.log| && h.log[h.cur[s]].src == s && h.log[h.cur[s]].dst == h.owner[s].at)
  }

  /** Message id is the one in its sender's slot, and the sender is not free. */
  predicate InSlot(h: Hist, id: nat)
    requires id < |h.log|
  {
    var s := h.log[id].src;
    s < |h.cur| && s < |h.owner| && id == h.cur[s] && !h.owner[s].Nobody?
  }

  predicate LogOK(p: Phys, h: Hist, id: nat)
    requires Shaped(p) && ShapedHist(p, h) && id < |h.log|
  {
    var m := h.log[id];
    Node(p.n, m.src) && Node(p.n, m.dst) && 0 < |m.body| < p.max && id <= h.cur[m.src] &&
    (id in h.overwritten <==> InSlot(h, id) && h.owner[m.src].Lost?) &&
    (InSlot(h, id) ==> id !in h.consumed && id !in h.released) &&
    (!InSlot(h, id) ==> (id in h.consumed) != (id in h.released))
  }

  ghost predicate Logged(st: State)
  {
    ShapedState(st) &&
    (forall s :: Node(st.p.n, s) ==> CurOK(st.h, s)) &&
    (forall id :: 0 <= id < |st.h.log| ==> LogOK(st.p, st.h, id)) &&
    RecordsOK(st.h)
  }

  /** The senders that a step at node i can touch have their current message logged. */
  predicate TouchedOK(st: State, i: nat)
    requires ShapedState(st) && Node(st.p.n, i) && LockOK(st.p, st.h, i)
  {
    var l, o := st.p.lock[i], st.p.incoming[i];
    CurOK(st.h, i) && (l.Handling? ==> CurOK(st.h, l.src)) && (o.Some? ==> CurOK(st.h, o.value))
  }

  lemma SenderKeepsCur(st: State, i: nat, o: SendOp, s: nat)
    requires ShapedState(st) && Node(st.p.n, i) && SendEnabled(st.p, i, o) && Node(st.p.n, s)
    requires CurOK(st.h, s)
    ensures CurOK(SendHist(st.p, st.h, i, o), s)
  {
  }

  lemma HandlerKeepsCur(st: State, i: nat, o: HandlerOp, s: nat)
    requires ShapedState(st) && Node(st.p.n, i) && HandlerEnabled(st.p, i, o) && Node(st.p.n, s)
    requires NodeOK(st, i) && CurOK(st.h, s) && (o.Take? ==> BellOK(st.p, st.h, Bell(o.s, i)))
    ensures CurOK(HandlerHist(st.p, st.h, i, o), s)
  {
  }

  lemma ReaderKeepsCur(st: State, i: nat, o: ReadOp, s: nat)
    requires ShapedState(st) && Node(st.p.n, i) && ReadEnabled(st.p, i, o) && Node(st.p.n, s)
    requires CurOK(st.h, s)
    ensures CurOK(ReadHist(st.p, st.h, i, o), s)
  {
  }

  lemma KeepsCur(st: State, a: Step, s: nat)
    requires ShapedState(st) && Enabled(st.p, a) && Node(st.p.n, s)
    requires NodeOK(st, a.at) && CurOK(st.h, s)
    requires a.ByHandler? && a.isr.Take? ==> BellOK(st.p, st.h, Bell(a.isr.s, a.at))
    ensures CurOK(Next(st, a).h, s)
  {
    match a {
      case BySender(i, o) => SenderKeepsCur(st, i, o, s);
      case ByHandler(i, o) => HandlerKeepsCur(st, i, o, s);
      case ByTail(_, _, _) =>
      case ByReader(i, o) => ReaderKeepsCur(st, i, o, s);
    }
  }

  lemma RingKeepsLog(st: State, i: nat, a: SendOp, id: nat)
    requires ShapedState(st) && Node(st.p.n, i) && SendEnabled(st.p, i, a)
    requires id < |Next(st, BySender(i, a)).h.log|
    requires NodeOK(st, i) && (id < |st.h.log| ==> LogOK(st.p, st.h, id))
    requires |st.h.log| !in st.h.consumed && |st.h.log| !in st.h.released && |st.h.log| !in st.h.overwritten
    ensures LogOK(Next(st, BySender(i, a)).p, Next(st, BySender(i, a)).h, id)
  {
  }

  lemma PostKeepsLog(st: State, i: nat, a: HandlerOp, id: nat)
    requires ShapedState(st) && Node(st.p.n, i) && HandlerEnabled(st.p, i, a) && id < |st.h.log|
    requires NodeOK(st, i) && TouchedOK(st, i) && LogOK(st.p, st.h, id)
    requires a.Take? ==> BellOK(st.p, st.h, Bell(a.s, i))
    ensures LogOK(Next(st, ByHandler(i, a)).p, Next(st, ByHandler(i, a)).h, id)
  {
  }

  lemma ReleaseKeepsLog(st: State, i: nat, a: ReadOp, id: nat)
    requires ShapedState(st) && Node(st.p.n, i) && ReadEnabled(st.p, i, a) && id < |st.h.log|
    requires NodeOK(st, i) && TouchedOK(st, i) && LogOK(st.p, st.h, id)
    ensures LogOK(Next(st, ByReader(i, a)).p, Next(st, ByReader(i, a)).h, id)
  {
  }

  /** What every accepted message and every record of one says, kept by one step. */
  lemma KeepsLog(st: State, a: Step, id: nat)
    requires ShapedState(st) && Enabled(st.p, a) && id < |Next(st, a).h.log|
    requires NodeOK(st, a.at) && TouchedOK(st, a.at) && (id < |st.h.log| ==> LogOK(st.p, st.h, id))
    requires a.ByHandler? && a.isr.Take? ==> BellOK(st.p, st.h, Bell(a.isr.s, a.at))
    requires |st.h.log| !in st.h.consumed && |st.h.log| !in st.h.released && |st.h.log| !in st.h.overwritten
    ensures LogOK(Next(st, a).p, Next(st, a).h, id)
  {
    match a {
      case BySender(i, o) => RingKeepsLog(st, i, o, id);
      case ByHandler(i, o) => PostKeepsLog(st, i, o, id);
      case ByTail(i, k, o) =>
      case ByReader(i, o) => ReleaseKeepsLog(st, i, o, id);
    }
  }

  /** Only ids of accepted messages are ever recorded. */
  ghost predicate RecordsOK(h: Hist)
  {
    forall id :: id in h.consumed || id in h.released || id in h.overwritten ==> id < |h.log|
  }

  lemma KeepsRecords(st: State, a: Step)
    requires ShapedState(st) && Enabled(st.p, a) && RecordsOK(st.h)
    requires NodeOK(st, a.at) && TouchedOK(st, a.at)
    ensures RecordsOK(Next(st, a).h)
  {
  }

  lemma StepKeepsLogged(st: State, a: Step)
    requires Owned(st) && Logged(st) && Enabled(st.p, a)
    ensures Logged(Next(st, a))
  {
    var t := Next(st, a);
    assert NodeOK(st, a.at);
    assert TouchedOK(st, a.at);
    assert a.ByHandler? && a.isr.Take? ==> BellOK(st.p, st.h, Bell(a.isr.s, a.at));
    KeepsRecords(st, a);
    forall s | Node(t.p.n, s) ensures CurOK(t.h, s) { KeepsCur(st, a, s); }
    forall id | 0 <= id < |t.h.log| ensures LogOK(t.p, t.h, id) { KeepsLog(st, a, id); }
  }

  // ---- What the slots hold

  /** Length, terminating NUL and exactly the bytes of the message. */
  predicate Holds(b: Slot, m: Message)
  {
    b.buflen == |m.body| && b.lastResponder == m.dst && |m.body| < |b.buf| &&
    b.buf[..|m.body|] == m.body && b.buf[|m.body|] == NUL
  }

  predicate IsStamped(b: Slot, s: nat) { b.peerSid == SID_DEFAULT && b.peerCid == s * 100 }

  /** A slot that is being filled is correct as far as the stores have got. */
  predicate Filling(b: Slot, w: Send)
  {
    w.Publishing? ==>
      (w.stage.NulStored? || w.stage.Copying? ==> |w.body| < |b.buf| && b.buf[|w.body|] == NUL) &&
      (w.stage.Copying? ==>
        w.stage.k <= |w.body| && b.lastResponder == w.dst && b.buf[..w.stage.k] == w.body[..w.stage.k])
  }

  predicate ContentOK(p: Phys, h: Hist, s: nat)
    requires Shaped(p) && ShapedHist(p, h) && Node(p.n, s)
  {
    var b, o := p.slots[s], h.owner[s];
    Filling(b, p.send[s]) &&
    (!o.Nobody? ==> h.cur[s] < |h.log| && Holds(b, h.log[h.cur[s]])) &&
    (o.Held? || o.Lost? ==> IsStamped(b, s)) &&
    (o.AtHandler? && Node(p.n, o.at) && p.lock[o.at].Handling? && p.lock[o.at].phase.Stamped? ==> IsStamped(b, s))
  }

  ghost predicate Filled(st: State)
  {
    ShapedState(st) && forall s :: Node(st.p.n, s) ==> ContentOK(st.p, st.h, s)
  }

  lemma SenderKeepsContent(st: State, i: nat, a: SendOp, s: nat)
    requires ShapedState(st) && Node(st.p.n, i) && SendEnabled(st.p, i, a) && Node(st.p.n, s)
    requires NodeOK(st, i) && NodeOK(st, s) && ContentOK(st.p, st.h, s)
    ensures ContentOK(Next(st, BySender(i, a)).p, Next(st, BySender(i, a)).h, s)
  {
    if s == i && a.CopyByte? {
      var w, b := st.p.send[s], st.p.slots[s];
      var k := w.stage.k;
      assert b.buf[k := w.body[k]][..k + 1] == b.buf[..k] + [w.body[k]];
      assert w.body[..k + 1] == w.body[..k] + [w.body[k]];
    }
  }

  lemma HandlerKeepsContent(st: State, i: nat, a: HandlerOp, s: nat)
    requires ShapedState(st) && Node(st.p.n, i) && HandlerEnabled(st.p, i, a) && Node(st.p.n, s)
    requires NodeOK(st, i) && NodeOK(st, s) && ContentOK(st.p, st.h, s)
    requires a.Take? ==> BellOK(st.p, st.h, Bell(a.s, i))
    ensures ContentOK(Next(st, ByHandler(i, a)).p, Next(st, ByHandler(i, a)).h, s)
  {
  }

  lemma TailKeepsContent(st: State, i: nat, k: nat, o: TailOp, s: nat)
    requires ShapedState(st) && Node(st.p.n, i) && TailEnabled(st.p, i, k, o) && Node(st.p.n, s)
    requires ContentOK(st.p, st.h, s)
    ensures ContentOK(Next(st, ByTail(i, k, o)).p, st.h, s)
  {
  }

  lemma ReaderKeepsContent(st: State, i: nat, a: ReadOp, s: nat)
    requires ShapedState(st) && Node(st.p.n, i) && ReadEnabled(st.p, i, a) && Node(st.p.n, s)
    requires NodeOK(st, i) && NodeOK(st, s) && ContentOK(st.p, st.h, s)
    ensures ContentOK(Next(st, ByReader(i, a)).p, Next(st, ByReader(i, a)).h, s)
  {
  }

  lemma KeepsContent(st: State, a: Step, s: nat)
    requires ShapedState(st) && Enabled(st.p, a) && Node(st.p.n, s)
    requires NodeOK(st, a.at) && NodeOK(st, s) && ContentOK(st.p, st.h, s)
    requires a.ByHandler? && a.isr.Take? ==> BellOK(st.p, st.h, Bell(a.isr.s, a.at))
    ensures ContentOK(Next(st, a).p, Next(st, a).h, s)
  {
    match a {
      case BySender(i, o) => SenderKeepsContent(st, i, o, s);
      case ByHandler(i, o) => HandlerKeepsContent(st, i, o, s);
      case ByTail(i, k, o) => TailKeepsContent(st, i, k, o, s);
      case ByReader(i, o) => ReaderKeepsContent(st, i, o, s);
    }
  }

  lemma StepKeepsFilled(st: State, a: Step)
    requires Owned(st) && Filled(st) && Enabled(st.p, a)
    ensures Filled(Next(st, a))
  {
    var t := Next(st, a);
    forall s | Node(t.p.n, s) ensures ContentOK(t.p, t.h, s) {
      assert NodeOK(st, a.at) && NodeOK(st, s) && ContentOK(st.p, st.h, s);
      assert a.ByHandler? && a.isr.Take? ==> BellOK(st.p, st.h, Bell(a.isr.s, a.at));
      KeepsContent(st, a, s);
    }
  }

  /** A slot that holds a message shows the handler exactly the request in that message. */
  lemma SeenIsSent(b: Slot, m: Message)
    requires Holds(b, m)
    ensures Seen(b) == RequestIn(m.body)
  {
    var rest := b.buf[|m.body| + 1..];
    assert b.buf == m.body + [NUL] + rest;
    StaleBytesNeverMatter(m.body, rest);
  }
}
