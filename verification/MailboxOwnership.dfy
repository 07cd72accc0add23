/** Who may touch which slot: the part of the protocol's invariant that names, for every sender,
    the one doorbell, handler or pointer that still has its message. */
module MailboxOwnership {
  import opened Basics
  import opened Mailbox

  /** A handler that still has the sender's message to deal with. */
  predicate Active(l: Lock) { l.Handling? && !l.phase.Cleared? }

  /** The handshake word of a sender, and the arguments of its current send. */
  predicate SlotOK(p: Phys, h: Hist, s: nat)
    requires Shaped(p) && ShapedHist(p, h) && Node(p.n, s)
  {
    var w, busy := p.send[s], p.slots[s].buflen;
    |p.slots[s].buf| == p.max &&
    (!w.Idle? ==> Node(p.n, w.dst) && 0 < |w.body| < p.max) &&
    (if w.Publishing? then
      h.owner[s].Nobody? &&
      busy == (if w.stage.Passed? then 0 else |w.body|) &&
      (w.stage.Copying? ==> w.stage.k <= |w.body|)
     else
      h.owner[s].Nobody? <==> busy == 0)
  }

  predicate OwnerOK(p: Phys, h: Hist, s: nat)
    requires Shaped(p) && ShapedHist(p, h) && Node(p.n, s)
  {
    var o := h.owner[s];
    (!o.Nobody? ==> Node(p.n, o.at)) &&
    (o.AtHandler? ==> Active(p.lock[o.at]) && p.lock[o.at].src == s) &&
    (o.Held? ==> p.incoming[o.at] == Some(s) && p.lock[o.at] != Releasing(true))
  }

  predicate BellOK(p: Phys, h: Hist, b: Bell)
    requires ShapedHist(p, h)
  {
    p.bells[b] == if Node(p.n, b.src) && h.owner[b.src] == Flying(b.dst) then 1 else 0
  }

  predicate LockOK(p: Phys, h: Hist, d: nat)
    requires Shaped(p) && ShapedHist(p, h) && Node(p.n, d)
  {
    var l, i := p.lock[d], p.incoming[d];
    (l.Handling? ==> Node(p.n, l.src)) &&
    (Active(l) ==> h.owner[l.src] == AtHandler(d)) &&
    (l.Releasing? ==> p.reader[d].Done?) &&
    (i.Some? ==> Node(p.n, i.value)) &&
    (i.Some? && l != Releasing(true) ==> h.owner[i.value] == Held(d)) &&
    (forall k :: 0 <= k < |p.replies[d]| ==>
      Node(p.n, p.replies[d][k].dst) && (p.replies[d][k].task.Ready? ==> p.replies[d][k].task.text != []))
  }

  /** A reader's slot stays put until that reader's own release has cleared a slot. */
  predicate ReaderOK(p: Phys, h: Hist, r: nat)
    requires Shaped(p) && ShapedHist(p, h) && Node(p.n, r)
  {
    var rd := p.reader[r];
    rd.Away? ||
    (p.incoming[r].Some? && Node(p.n, rd.src) &&
     (p.lock[r] != Releasing(true) ==> h.owner[rd.src] == Held(r) || h.owner[rd.src] == Lost(r)))
  }

  ghost predicate Owned(st: State)
  {
    ShapedState(st) &&
    (forall x :: Node(st.p.n, x) ==> NodeOK(st, x)) &&
    (forall b :: BellOK(st.p, st.h, b))
  }

  // ---- Every step keeps every part. `x` is any node, `i` the node that acts.

  predicate NodeOK(st: State, x: nat)
    requires ShapedState(st) && Node(st.p.n, x)
  {
    SlotOK(st.p, st.h, x) && OwnerOK(st.p, st.h, x) && LockOK(st.p, st.h, x) && ReaderOK(st.p, st.h, x)
  }

  lemma SenderKeepsSlots(st: State, i: nat, a: SendOp, x: nat)
    requires ShapedState(st) && Node(st.p.n, i) && SendEnabled(st.p, i, a) && Node(st.p.n, x)
    requires NodeOK(st, i) && NodeOK(st, x)
    ensures SlotOK(Next(st, BySender(i, a)).p, Next(st, BySender(i, a)).h, x)
    ensures OwnerOK(Next(st, BySender(i, a)).p, Next(st, BySender(i, a)).h, x)
  {
  }

  lemma SenderKeepsLocks(st: State, i: nat, a: SendOp, x: nat)
    requires ShapedState(st) && Node(st.p.n, i) && SendEnabled(st.p, i, a) && Node(st.p.n, x)
    requires NodeOK(st, i) && NodeOK(st, x)
    ensures LockOK(Next(st, BySender(i, a)).p, Next(st, BySender(i, a)).h, x)
    ensures ReaderOK(Next(st, BySender(i, a)).p, Next(st, BySender(i, a)).h, x)
  {
  }

  lemma HandlerKeepsSlots(st: State, i: nat, a: HandlerOp, x: nat)
    requires ShapedState(st) && Node(st.p.n, i) && HandlerEnabled(st.p, i, a) && Node(st.p.n, x)
    requires NodeOK(st, i) && NodeOK(st, x) && (a.Take? ==> BellOK(st.p, st.h, Bell(a.s, i)))
    ensures SlotOK(Next(st, ByHandler(i, a)).p, Next(st, ByHandler(i, a)).h, x)
    ensures OwnerOK(Next(st, ByHandler(i, a)).p, Next(st, ByHandler(i, a)).h, x)
  {
  }

  lemma HandlerKeepsLocks(st: State, i: nat, a: HandlerOp, x: nat)
    requires ShapedState(st) && Node(st.p.n, i) && HandlerEnabled(st.p, i, a) && Node(st.p.n, x)
    requires NodeOK(st, i) && NodeOK(st, x) && (a.Take? ==> BellOK(st.p, st.h, Bell(a.s, i)))
    ensures LockOK(Next(st, ByHandler(i, a)).p, Next(st, ByHandler(i, a)).h, x)
  {
  }

  lemma HandlerKeepsReaders(st: State, i: nat, a: HandlerOp, x: nat)
    requires ShapedState(st) && Node(st.p.n, i) && HandlerEnabled(st.p, i, a) && Node(st.p.n, x)
    requires NodeOK(st, i) && NodeOK(st, x) && (a.Take? ==> BellOK(st.p, st.h, Bell(a.s, i)))
    ensures ReaderOK(Next(st, ByHandler(i, a)).p, Next(st, ByHandler(i, a)).h, x)
  {
  }

  lemma ReaderKeepsSlots(st: State, i: nat, a: ReadOp, x: nat)
    requires ShapedState(st) && Node(st.p.n, i) && ReadEnabled(st.p, i, a) && Node(st.p.n, x)
    requires NodeOK(st, i) && NodeOK(st, x)
    ensures SlotOK(Next(st, ByReader(i, a)).p, Next(st, ByReader(i, a)).h, x)
    ensures OwnerOK(Next(st, ByReader(i, a)).p, Next(st, ByReader(i, a)).h, x)
  {
  }

  lemma ReaderKeepsLocks(st: State, i: nat, a: ReadOp, x: nat)
    requires ShapedState(st) && Node(st.p.n, i) && ReadEnabled(st.p, i, a) && Node(st.p.n, x)
    requires NodeOK(st, i) && NodeOK(st, x)
    ensures LockOK(Next(st, ByReader(i, a)).p, Next(st, ByReader(i, a)).h, x)
    ensures ReaderOK(Next(st, ByReader(i, a)).p, Next(st, ByReader(i, a)).h, x)
  {
  }

  lemma TailKeepsNode(st: State, i: nat, k: nat, o: TailOp, x: nat)
    requires ShapedState(st) && Node(st.p.n, i) && TailEnabled(st.p, i, k, o) && Node(st.p.n, x)
    requires NodeOK(st, i) && NodeOK(st, x)
    ensures NodeOK(Next(st, ByTail(i, k, o)), x)
  {
  }

  lemma KeepsBell(st: State, a: Step, b: Bell)
    requires ShapedState(st) && Enabled(st.p, a)
    requires NodeOK(st, a.at) && BellOK(st.p, st.h, b)
    requires a.ByHandler? && a.isr.Take? ==> BellOK(st.p, st.h, Bell(a.isr.s, a.at))
    ensures BellOK(Next(st, a).p, Next(st, a).h, b)
  {
  }

  lemma KeepsNode(st: State, a: Step, x: nat)
    requires Owned(st) && Enabled(st.p, a) && Node(st.p.n, x)
    ensures NodeOK(Next(st, a), x)
  {
    assert NodeOK(st, a.at) && NodeOK(st, x);
    match a {
      case BySender(i, o) =>
        SenderKeepsSlots(st, i, o, x);
        SenderKeepsLocks(st, i, o, x);
      case ByHandler(i, o) =>
        assert o.Take? ==> BellOK(st.p, st.h, Bell(o.s, i));
        HandlerKeepsSlots(st, i, o, x);
        HandlerKeepsLocks(st, i, o, x);
        HandlerKeepsReaders(st, i, o, x);
      case ByTail(i, k, o) =>
        TailKeepsNode(st, i, k, o, x);
      case ByReader(i, o) =>
        ReaderKeepsSlots(st, i, o, x);
        ReaderKeepsLocks(st, i, o, x);
    }
  }

  /** Every step keeps ownership single. */
  lemma StepKeepsOwned(st: State, a: Step)
    requires Owned(st) && Enabled(st.p, a)
    ensures Owned(Next(st, a))
  {
    var t := Next(st, a);
    forall x | Node(t.p.n, x) ensures NodeOK(t, x) { KeepsNode(st, a, x); }
    forall b ensures BellOK(t.p, t.h, b) {
      assert NodeOK(st, a.at);
      assert a.ByHandler? && a.isr.Take? ==> BellOK(st.p, st.h, Bell(a.isr.s, a.at));
      KeepsBell(st, a, b);
    }
  }

  lemma InitIsOwned(st: State)
    requires Init(st)
    ensures Owned(st)
  {
  }
}
