/** Releases against reads: every completed read has released exactly one message, though not always its own. */
module MailboxReleases {
  import opened Basics
  import opened Mailbox
  import opened MailboxOwnership
  import opened MailboxHistory

  /** Whether node i's release has cleared a slot and not yet returned. */
  function ClearingAt(p: Phys, i: nat): int
    requires Shaped(p) && i <= p.n
  {
    if Node(p.n, i) && p.lock[i] == Releasing(true) then 1 else 0
  }

  function Clearing(p: Phys): (t: seq<int>)
    requires Shaped(p)
    ensures |t| == p.n + 1 && forall i :: 0 <= i <= p.n ==> t[i] == ClearingAt(p, i)
  {
    seq(p.n + 1, i requires 0 <= i <= p.n => ClearingAt(p, i))
  }

  ghost predicate Balanced(st: State)
  {
    ShapedState(st) && |st.h.released| == |st.h.completed| + Total(Clearing(st.p))
  }

  /** A release clears a message that has not been released before. */
  predicate FreshClear(st: State, a: Step)
    requires ShapedState(st) && Enabled(st.p, a)
  {
    a == ByReader(a.at, Clear) ==> st.h.cur[st.p.incoming[a.at].value] !in st.h.released
  }

  lemma OthersDoNotClear(st: State, a: Step, i: nat)
    requires ShapedState(st) && Enabled(st.p, a) && i <= st.p.n && i != a.at
    ensures ClearingAt(Next(st, a).p, i) == ClearingAt(st.p, i)
  {
  }

  lemma SenderDoesNotClear(st: State, i: nat, o: SendOp)
    requires ShapedState(st) && Node(st.p.n, i) && SendEnabled(st.p, i, o)
    ensures SendPhys(st.p, i, o).lock == st.p.lock
    ensures var g := SendHist(st.p, st.h, i, o); g.released == st.h.released && g.completed == st.h.completed
  {
  }

  lemma HandlerDoesNotClear(st: State, i: nat, o: HandlerOp)
    requires ShapedState(st) && Node(st.p.n, i) && HandlerEnabled(st.p, i, o)
    ensures ClearingAt(HandlerPhys(st.p, i, o), i) == ClearingAt(st.p, i)
    ensures var g := HandlerHist(st.p, st.h, i, o); g.released == st.h.released && g.completed == st.h.completed
  {
  }

  lemma ReaderClears(st: State, r: nat, a: ReadOp)
    requires ShapedState(st) && Node(st.p.n, r) && ReadEnabled(st.p, r, a) && NodeOK(st, r)
    requires FreshClear(st, ByReader(r, a))
    ensures var t := Next(st, ByReader(r, a));
            |t.h.released| - |t.h.completed| - ClearingAt(t.p, r)
            == |st.h.released| - |st.h.completed| - ClearingAt(st.p, r)
  {
  }

  lemma KeepsBalanced(st: State, a: Step)
    requires Balanced(st) && Enabled(st.p, a) && NodeOK(st, a.at) && FreshClear(st, a)
    ensures Balanced(Next(st, a))
  {
    var t := Next(st, a);
    match a {
      case BySender(i, o) => SenderDoesNotClear(st, i, o);
      case ByHandler(i, o) => HandlerDoesNotClear(st, i, o);
      case ByTail(_, _, _) =>
      case ByReader(i, o) => ReaderClears(st, i, o);
    }
    forall i | 0 <= i <= st.p.n && i != a.at ensures Clearing(st.p)[i] == Clearing(t.p)[i] {
      OthersDoNotClear(st, a, i);
    }
    TotalChange(Clearing(st.p), Clearing(t.p), a.at);
  }

  lemma StepKeepsBalanced(st: State, a: Step)
    requires Owned(st) && Logged(st) && Balanced(st) && Enabled(st.p, a)
    ensures Balanced(Next(st, a))
  {
    assert NodeOK(st, a.at);
    if a == ByReader(a.at, Clear) {
      var s := st.p.incoming[a.at].value;
      assert CurOK(st.h, s) && LogOK(st.p, st.h, st.h.cur[s]);
    }
    KeepsBalanced(st, a);
  }
}
