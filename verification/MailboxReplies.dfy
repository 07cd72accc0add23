/** Automatic replies: none is itself a request, and each is owed for one consumed request. */
module MailboxReplies {
  import opened Basics
  import opened CText
  import opened LinkMessages
  import opened Mailbox
  import opened MailboxOwnership
  import opened MailboxHistory

  /** What an unfinished reply will be made of is in range. */
  predicate TaskOK(t: Task)
  {
    match t
    case Storing(w, k) => w.CtlWrite? && ValidRequest(w) && k <= CORE_STORES
    case Loading(c, s) => (c.Some? ==> IsInt32(c.value)) && (s.Some? ==> IsInt32(s.value))
    case Ready(text) => IsReply(text)
  }

  /** The core that node i uses is valid, and the texts that it is going to send in answer are replies. */
  predicate TextsOK(p: Phys, i: nat)
    requires Shaped(p) && Node(p.n, i)
  {
    ValidCore(CoreAt(p, i)) &&
    (p.lock[i].Handling? && p.lock[i].phase.Cleared? ==> ValidRequest(p.lock[i].phase.request)) &&
    (!p.send[i].Idle? && p.send[i].reply ==> IsReply(p.send[i].body)) &&
    forall k :: 0 <= k < |p.replies[i]| ==> TaskOK(p.replies[i][k].task)
  }

  /** Only requests are consumed, and no reply is a request. */
  predicate KindOK(h: Hist, id: nat)
    requires id < |h.log|
  {
    (h.log[id].reply ==> RequestIn(h.log[id].body).None?) &&
    (id in h.consumed ==> RequestIn(h.log[id].body).Some?)
  }

  ghost predicate Typed(st: State)
  {
    ShapedState(st) &&
    (forall i :: Node(st.p.n, i) ==> TextsOK(st.p, i)) &&
    (forall id :: 0 <= id < |st.h.log| ==> KindOK(st.h, id))
  }

  lemma SenderKeepsTexts(st: State, i: nat, a: SendOp, x: nat)
    requires ShapedState(st) && Node(st.p.n, i) && SendEnabled(st.p, i, a) && Node(st.p.n, x)
    requires TextsOK(st.p, i) && TextsOK(st.p, x)
    ensures TextsOK(SendPhys(st.p, i, a), x)
  {
  }

  lemma HandlerKeepsTexts(st: State, i: nat, a: HandlerOp, x: nat)
    requires ShapedState(st) && Node(st.p.n, i) && HandlerEnabled(st.p, i, a) && Node(st.p.n, x)
    requires TextsOK(st.p, i) && TextsOK(st.p, x)
    ensures TextsOK(HandlerPhys(st.p, i, a), x)
  {
    if a.Consume? {
      var b := st.p.slots[st.p.lock[i].src];
      RequestsAreValid(b.buflen, b.buf, CoreAt(st.p, i));
    }
    PongIsReply();
  }

  /** Whatever a handler formats is a reply. */
  lemma NextTaskOK(p: Phys, d: nat, i: nat, o: TailOp)
    requires Shaped(p) && Node(p.n, d) && TailEnabled(p, d, i, o) && ValidCore(CoreAt(p, d))
    requires TaskOK(p.replies[d][i].task)
    ensures TaskOK(NextTask(p, d, i, o))
  {
    var t := p.replies[d][i].task;
    if o.Format? {
      if t.Loading? { AckIsReply(CoreAt(p, d).cclass, t.cid.value, t.sid.value); } else { StandaloneIsReply(t.w.tag); }
    }
  }

  lemma TailKeepsTexts(st: State, i: nat, k: nat, o: TailOp, x: nat)
    requires ShapedState(st) && Node(st.p.n, i) && TailEnabled(st.p, i, k, o) && Node(st.p.n, x)
    requires TextsOK(st.p, i) && TextsOK(st.p, x)
    ensures TextsOK(TailPhys(st.p, i, k, o), x)
  {
    NextTaskOK(st.p, i, k, o);
  }

  lemma ReaderKeepsTexts(st: State, i: nat, a: ReadOp, x: nat)
    requires ShapedState(st) && Node(st.p.n, i) && ReadEnabled(st.p, i, a) && Node(st.p.n, x) && TextsOK(st.p, x)
    ensures TextsOK(ReadPhys(st.p, i, a), x)
  {
  }

  lemma KeepsTexts(st: State, a: Step, x: nat)
    requires ShapedState(st) && Enabled(st.p, a) && Node(st.p.n, x) && TextsOK(st.p, a.at) && TextsOK(st.p, x)
    ensures TextsOK(NextPhys(st.p, a), x)
  {
    match a {
      case BySender(i, o) => SenderKeepsTexts(st, i, o, x);
      case ByHandler(i, o) => HandlerKeepsTexts(st, i, o, x);
      case ByTail(i, k, o) => TailKeepsTexts(st, i, k, o, x);
      case ByReader(i, o) => ReaderKeepsTexts(st, i, o, x);
    }
  }

  lemma ConsumedIsRequest(st: State, d: nat)
    requires Owned(st) && Logged(st) && Filled(st) && Node(st.p.n, d) && HandlerEnabled(st.p, d, Consume)
    ensures var s := st.p.lock[d].src;
            Node(st.p.n, s) && st.h.cur[s] < |st.h.log| && st.h.cur[s] !in st.h.consumed &&
            RequestIn(st.h.log[st.h.cur[s]].body).Some?
  {
    var s := st.p.lock[d].src;
    assert NodeOK(st, d) && CurOK(st.h, s) && ContentOK(st.p, st.h, s);
    assert LogOK(st.p, st.h, st.h.cur[s]);
    SeenIsSent(st.p.slots[s], st.h.log[st.h.cur[s]]);
  }

  lemma SenderKeepsKind(p: Phys, h: Hist, i: nat, o: SendOp, id: nat)
    requires Shaped(p) && ShapedHist(p, h) && Node(p.n, i) && SendEnabled(p, i, o) && id < |SendHist(p, h, i, o).log|
    requires TextsOK(p, i) && (id < |h.log| ==> KindOK(h, id)) && |h.log| !in h.consumed
    ensures KindOK(SendHist(p, h, i, o), id)
  {
  }

  lemma HandlerKeepsKind(p: Phys, h: Hist, i: nat, o: HandlerOp, id: nat)
    requires Shaped(p) && ShapedHist(p, h) && Node(p.n, i) && HandlerEnabled(p, i, o) && id < |h.log| && KindOK(h, id)
    requires o.Consume? ==> h.cur[p.lock[i].src] < |h.log| && RequestIn(h.log[h.cur[p.lock[i].src]].body).Some?
    ensures HandlerHist(p, h, i, o).log == h.log && KindOK(HandlerHist(p, h, i, o), id)
  {
  }

  lemma ReaderKeepsKind(p: Phys, h: Hist, i: nat, o: ReadOp)
    requires Shaped(p) && ShapedHist(p, h) && Node(p.n, i) && ReadEnabled(p, i, o)
    ensures ReadHist(p, h, i, o).log == h.log && ReadHist(p, h, i, o).consumed == h.consumed
  {
  }

  lemma StepKeepsKind(st: State, a: Step, id: nat)
    requires Owned(st) && Logged(st) && Filled(st) && Typed(st) && Enabled(st.p, a)
    requires id < |Next(st, a).h.log|
    ensures KindOK(Next(st, a).h, id)
  {
    assert id < |st.h.log| ==> KindOK(st.h, id);
    match a {
      case BySender(i, o) =>
        assert TextsOK(st.p, i);
        SenderKeepsKind(st.p, st.h, i, o, id);
      case ByHandler(i, o) =>
        if o.Consume? { ConsumedIsRequest(st, i); }
        HandlerKeepsKind(st.p, st.h, i, o, id);
      case ByTail(_, _, _) =>
      case ByReader(i, o) => ReaderKeepsKind(st.p, st.h, i, o);
    }
  }

  lemma StepKeepsTyped(st: State, a: Step)
    requires Owned(st) && Logged(st) && Filled(st) && Typed(st) && Enabled(st.p, a)
    ensures Typed(Next(st, a))
  {
    var t := Next(st, a);
    assert TextsOK(st.p, a.at);
    forall x | Node(t.p.n, x) ensures TextsOK(t.p, x) { KeepsTexts(st, a, x); }
    forall id | 0 <= id < |t.h.log| ensures KindOK(t.h, id) { StepKeepsKind(st, a, id); }
  }

  // ---- Bookkeeping of replies

  /** Replies that node i still owes: queued, being sent, or about to be queued. */
  function DebtAt(p: Phys, i: nat): nat
    requires Shaped(p) && i <= p.n
  {
    |p.replies[i]| +
    (if !p.send[i].Idle? && p.send[i].reply then 1 else 0) +
    (if p.lock[i].Handling? && p.lock[i].phase.Cleared? then 1 else 0)
  }

  function Debts(p: Phys): (t: seq<int>)
    requires Shaped(p)
    ensures |t| == p.n + 1 && forall i :: 0 <= i <= p.n ==> t[i] == DebtAt(p, i)
  {
    seq(p.n + 1, i requires 0 <= i <= p.n => DebtAt(p, i))
  }

  function ReplyCount(log: seq<Message>): nat
  {
    if log == [] then 0 else ReplyCount(log[..|log| - 1]) + (if log[|log| - 1].reply then 1 else 0)
  }

  /** Every consumed request has its reply owed, dropped or sent. */
  ghost predicate Settled(st: State)
  {
    ShapedState(st) && |st.h.consumed| == Total(Debts(st.p)) + st.h.dropped + ReplyCount(st.h.log)
  }

  /** The effect of one step on what the acting node owes, on drops and on sent replies. */
  lemma SenderDebt(p: Phys, h: Hist, i: nat, a: SendOp)
    requires Shaped(p) && ShapedHist(p, h) && Node(p.n, i) && SendEnabled(p, i, a)
    ensures var q, g := SendPhys(p, i, a), SendHist(p, h, i, a);
            Shaped(q) && g.consumed == h.consumed &&
            DebtAt(q, i) + g.dropped + ReplyCount(g.log) == DebtAt(p, i) + h.dropped + ReplyCount(h.log) &&
            forall j :: 0 <= j <= p.n && j != i ==> DebtAt(q, j) == DebtAt(p, j)
  {
    if a.Ring? {
      var g := SendHist(p, h, i, a);
      assert g.log[..|g.log| - 1] == h.log;
    }
  }

  lemma HandlerDebt(p: Phys, h: Hist, i: nat, a: HandlerOp)
    requires Shaped(p) && ShapedHist(p, h) && Node(p.n, i) && HandlerEnabled(p, i, a)
    ensures var q, g := HandlerPhys(p, i, a), HandlerHist(p, h, i, a);
            Shaped(q) && g.dropped == h.dropped && g.log == h.log &&
            DebtAt(q, i) == DebtAt(p, i) + (if a.Consume? then 1 else 0) &&
            (!a.Consume? ==> g.consumed == h.consumed) &&
            forall j :: 0 <= j <= p.n && j != i ==> DebtAt(q, j) == DebtAt(p, j)
  {
  }

  lemma TailDebt(p: Phys, i: nat, k: nat, o: TailOp)
    requires Shaped(p) && Node(p.n, i) && TailEnabled(p, i, k, o)
    ensures forall j :: 0 <= j <= p.n ==> DebtAt(TailPhys(p, i, k, o), j) == DebtAt(p, j)
  {
  }

  lemma ReaderDebt(p: Phys, h: Hist, i: nat, a: ReadOp)
    requires Shaped(p) && ShapedHist(p, h) && Node(p.n, i) && ReadEnabled(p, i, a)
    ensures var q, g := ReadPhys(p, i, a), ReadHist(p, h, i, a);
            Shaped(q) && g.dropped == h.dropped && g.log == h.log && g.consumed == h.consumed &&
            forall j :: 0 <= j <= p.n ==> DebtAt(q, j) == DebtAt(p, j)
  {
  }

  /** The step consumes nothing that has been consumed before. */
  predicate FreshConsume(st: State, a: Step)
    requires ShapedState(st) && Enabled(st.p, a)
  {
    a.ByHandler? && a.isr.Consume? ==> st.h.cur[st.p.lock[a.at].src] !in st.h.consumed
  }

  /** What a step consumes, drops and sends balances what its node owes after it. */
  lemma StepDebt(st: State, a: Step)
    requires ShapedState(st) && Enabled(st.p, a) && FreshConsume(st, a)
    ensures var q, g := Next(st, a).p, Next(st, a).h;
            Shaped(q) && q.n == st.p.n && Node(q.n, a.at) &&
            (forall j :: 0 <= j <= q.n && j != a.at ==> DebtAt(q, j) == DebtAt(st.p, j)) &&
            |st.h.consumed| - DebtAt(st.p, a.at) - st.h.dropped - ReplyCount(st.h.log)
              == |g.consumed| - DebtAt(q, a.at) - g.dropped - ReplyCount(g.log)
  {
    match a {
      case BySender(i, o) => SenderDebt(st.p, st.h, i, o);
      case ByHandler(i, o) => HandlerDebt(st.p, st.h, i, o);
      case ByTail(i, k, o) => TailDebt(st.p, i, k, o);
      case ByReader(i, o) => ReaderDebt(st.p, st.h, i, o);
    }
  }

  lemma KeepsSettled(st: State, a: Step)
    requires Settled(st) && Enabled(st.p, a) && FreshConsume(st, a)
    ensures Settled(Next(st, a))
  {
    StepDebt(st, a);
    TotalChange(Debts(st.p), Debts(Next(st, a).p), a.at);
  }

  /** Every step keeps the account of replies settled. */
  lemma StepKeepsSettled(st: State, a: Step)
    requires Owned(st) && Logged(st) && Filled(st) && Settled(st) && Enabled(st.p, a)
    ensures Settled(Next(st, a))
  {
    if a.ByHandler? && a.isr.Consume? { ConsumedIsRequest(st, a.at); }
    KeepsSettled(st, a);
  }

  function RequestIds(log: seq<Message>): (ids: set<nat>)
    ensures forall id :: id in ids <==> 0 <= id < |log| && !log[id].reply
  {
    set id: nat | 0 <= id < |log| && !log[id].reply
  }

  lemma {:induction false} RequestIdCount(log: seq<Message>)
    ensures |RequestIds(log)| == |log| - ReplyCount(log)
  {
    if log == [] {
      assert RequestIds(log) == {};
    } else {
      var k := |log| - 1;
      RequestIdCount(log[..k]);
      var rest := RequestIds(log[..k]);
      assert RequestIds(log) == if log[k].reply then rest else rest + {k};
    }
  }

  lemma SubsetSize<T>(a: set<T>, b: set<T>)
    requires a <= b
    ensures |a| <= |b|
  {
    assert b == a + (b - a);
  }

  /** Replies never outnumber the other messages. */
  lemma RepliesAreFew(st: State)
    requires Logged(st) && Typed(st) && Settled(st)
    ensures ReplyCount(st.h.log) <= |st.h.log| - ReplyCount(st.h.log)
  {
    var ids := RequestIds(st.h.log);
    forall id | id in st.h.consumed ensures id in ids { assert KindOK(st.h, id); }
    SubsetSize(st.h.consumed, ids);
    RequestIdCount(st.h.log);
    TotalNonNegative(Debts(st.p));
  }
}
