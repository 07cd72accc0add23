/** The closed forms of answering a link request: taking it under the lock, then working on the core. */
module MailboxSoloLink {
  import opened Basics
  import opened LinkMessages
  import opened Mailbox
  import opened MailboxSolo

  // ---- Under the lock

  predicate ReadyToConsume(st: State, d: nat, s: nat)
  {
    ShapedState(st) && Node(st.p.n, d) && Node(st.p.n, s) &&
    Bell(s, d) in st.p.bells && st.p.lock[d].Unlocked? && Seen(st.p.slots[s]).Some?
  }

  function ConsumeSteps(d: nat, s: nat): seq<Step>
  {
    [ByHandler(d, Take(s))] + [ByHandler(d, Stamp), ByHandler(d, Consume), ByHandler(d, Unlock)]
  }

  /** The closed form of taking a link request: the slot is stamped and free, and a reply is owed. */
  function ConsumeEnd(st: State, d: nat, s: nat): (t: State)
    requires ReadyToConsume(st, d, s)
    ensures ShapedState(t)
  {
    var b := st.p.slots[s];
    State(st.p.(bells := st.p.bells - multiset{Bell(s, d)},
                slots := st.p.slots[s := b.(peerSid := SID_DEFAULT, peerCid := s * 100, buflen := 0)],
                replies := st.p.replies[d := st.p.replies[d] + [Pending(s, FirstTask(Seen(b).value))]]),
          st.h.(owner := st.h.owner[s := Nobody], consumed := st.h.consumed + {st.h.cur[s]}))
  }

  lemma ConsumeInThree(st: State, d: nat, s: nat)
    requires ReadyToConsume(st, d, s)
    ensures HandlerEnabled(st.p, d, Take(s))
    ensures InThree(Next(st, ByHandler(d, Take(s))), ByHandler(d, Stamp), ByHandler(d, Consume), ByHandler(d, Unlock),
                    ConsumeEnd(st, d, s))
  {
    var t1 := Next(st, ByHandler(d, Take(s)));
    var t2 := Next(t1, ByHandler(d, Stamp));
    assert Seen(t2.p.slots[s]) == Seen(st.p.slots[s]);
    var t3 := Next(t2, ByHandler(d, Consume));
    var t4 := Next(t3, ByHandler(d, Unlock));
    assert t4.p.lock == st.p.lock;
  }

  /** The steps under the lock in a row lead to their closed form. */
  lemma ConsumeInARow(st: State, d: nat, s: nat)
    requires ReadyToConsume(st, d, s)
    ensures Leads(st, ConsumeSteps(d, s), ConsumeEnd(st, d, s))
  {
    var t := Next(st, ByHandler(d, Take(s)));
    ConsumeInThree(st, d, s);
    ThreeSteps(t, ByHandler(d, Stamp), ByHandler(d, Consume), ByHandler(d, Unlock), ConsumeEnd(st, d, s));
    StepFirst(st, ByHandler(d, Take(s)), [ByHandler(d, Stamp), ByHandler(d, Consume), ByHandler(d, Unlock)],
              ConsumeEnd(st, d, s));
  }

  // ---- After it

  /** Handler i of node d has its task at t, and the core that the node uses is c. */
  function WithTask(st: State, d: nat, i: nat, c: Core, t: Task): (u: State)
    requires ShapedState(st) && Node(st.p.n, d) && i < |st.p.replies[d]|
    ensures ShapedState(u)
  {
    State(st.p.(core := st.p.core[CoreOf(st.p, d) := c],
                replies := st.p.replies[d := st.p.replies[d][i := st.p.replies[d][i].(task := t)]]),
          st.h)
  }

  lemma TailMoves(st: State, d: nat, i: nat, c: Core, t: Task, o: TailOp)
    requires ShapedState(st) && Node(st.p.n, d) && i < |st.p.replies[d]|
    requires TailEnabled(WithTask(st, d, i, c, t).p, d, i, o)
    ensures var c' := if o.StoreNext? then CoreStore(c, t.w, t.k) else c;
            Leads(WithTask(st, d, i, c, t), [ByTail(d, i, o)],
                  WithTask(st, d, i, c', NextTask(WithTask(st, d, i, c, t).p, d, i, o)))
  {
    var u := WithTask(st, d, i, c, t);
    var c' := if o.StoreNext? then CoreStore(c, t.w, t.k) else c;
    var v := WithTask(st, d, i, c', NextTask(u.p, d, i, o));
    OneStep(u, ByTail(d, i, o));
    assert Next(u, ByTail(d, i, o)).p.core == v.p.core;
    assert Next(u, ByTail(d, i, o)).p.replies[d] == v.p.replies[d];
    assert Next(u, ByTail(d, i, o)).p.replies == v.p.replies;
  }

  /** The core after the first k stores of a CTL-Write. */
  function CoreStored(c: Core, w: Request, k: nat): Core
    requires w.CtlWrite?
  {
    if k == 0 then c else CoreStore(CoreStored(c, w, k - 1), w, k - 1)
  }

  /** The five stores, in their order, are the update that a CTL-Write asks for. */
  lemma FiveStores(c: Core, w: Request)
    requires w.CtlWrite?
    ensures CoreStored(c, w, CORE_STORES) == CoreAfter(c, w)
  {
    assert CoreStored(c, w, 1) == CoreStore(c, w, 0);
    assert CoreStored(c, w, 2) == CoreStore(CoreStored(c, w, 1), w, 1);
    assert CoreStored(c, w, 3) == CoreStore(CoreStored(c, w, 2), w, 2);
    assert CoreStored(c, w, 4) == CoreStore(CoreStored(c, w, 3), w, 3);
  }

  /** A CTL-Write handler makes its first k stores. */
  lemma {:induction false} StoresInARow(st: State, d: nat, i: nat, w: Request, k: nat)
    requires ShapedState(st) && Node(st.p.n, d) && i < |st.p.replies[d]| && w.CtlWrite? && k <= CORE_STORES
    ensures Leads(WithTask(st, d, i, CoreAt(st.p, d), Storing(w, 0)), Repeat(ByTail(d, i, StoreNext), k),
                  WithTask(st, d, i, CoreStored(CoreAt(st.p, d), w, k), Storing(w, k)))
  {
    var c := CoreAt(st.p, d);
    if k == 0 {
      assert Repeat(ByTail(d, i, StoreNext), 0) == [];
    } else {
      StoresInARow(st, d, i, w, k - 1);
      var u := WithTask(st, d, i, CoreStored(c, w, k - 1), Storing(w, k - 1));
      TailMoves(st, d, i, CoreStored(c, w, k - 1), Storing(w, k - 1), StoreNext);
      Then(WithTask(st, d, i, c, Storing(w, 0)), Repeat(ByTail(d, i, StoreNext), k - 1), u, [ByTail(d, i, StoreNext)],
           WithTask(st, d, i, CoreStored(c, w, k), Storing(w, k)));
      assert Repeat(ByTail(d, i, StoreNext), k - 1) + [ByTail(d, i, StoreNext)] == Repeat(ByTail(d, i, StoreNext), k);
    }
  }

  /** What is left to do for request r once the lock has been dropped. */
  function TailSteps(d: nat, i: nat, r: Request): seq<Step>
  {
    match r
    case Ping => []
    case PeerAttribute => [ByTail(d, i, LoadCid)] + [ByTail(d, i, LoadSid)] + [ByTail(d, i, Format)]
    case CtlWrite(_, _, _, _, _) => Repeat(ByTail(d, i, StoreNext), CORE_STORES) + [ByTail(d, i, Format)]
  }

  lemma AckInARow(st: State, d: nat, i: nat)
    requires ShapedState(st) && Node(st.p.n, d) && i < |st.p.replies[d]|
    ensures var c := CoreAt(st.p, d);
            Leads(WithTask(st, d, i, c, Loading(None, None)), TailSteps(d, i, PeerAttribute),
                  WithTask(st, d, i, c, Ready(AckText(c.cclass, c.cid0, c.sid0))))
  {
    var c := CoreAt(st.p, d);
    var u := WithTask(st, d, i, c, Loading(None, None));
    var v := WithTask(st, d, i, c, Loading(Some(c.cid0), None));
    var w := WithTask(st, d, i, c, Loading(Some(c.cid0), Some(c.sid0)));
    TailMoves(st, d, i, c, Loading(None, None), LoadCid);
    TailMoves(st, d, i, c, Loading(Some(c.cid0), None), LoadSid);
    TailMoves(st, d, i, c, Loading(Some(c.cid0), Some(c.sid0)), Format);
    Then(u, [ByTail(d, i, LoadCid)], v, [ByTail(d, i, LoadSid)], w);
    Then(u, [ByTail(d, i, LoadCid)] + [ByTail(d, i, LoadSid)], w, [ByTail(d, i, Format)],
         WithTask(st, d, i, c, Ready(AckText(c.cclass, c.cid0, c.sid0))));
  }

  lemma CtlWriteInARow(st: State, d: nat, i: nat, w: Request)
    requires ShapedState(st) && Node(st.p.n, d) && i < |st.p.replies[d]| && w.CtlWrite?
    ensures var c := CoreAt(st.p, d);
            Leads(WithTask(st, d, i, c, Storing(w, 0)), TailSteps(d, i, w),
                  WithTask(st, d, i, CoreAfter(c, w), Ready(StandaloneText(w.tag))))
  {
    var c := CoreAt(st.p, d);
    StoresInARow(st, d, i, w, CORE_STORES);
    FiveStores(c, w);
    TailMoves(st, d, i, CoreAfter(c, w), Storing(w, CORE_STORES), Format);
    Then(WithTask(st, d, i, c, Storing(w, 0)), Repeat(ByTail(d, i, StoreNext), CORE_STORES),
         WithTask(st, d, i, CoreAfter(c, w), Storing(w, CORE_STORES)), [ByTail(d, i, Format)],
         WithTask(st, d, i, CoreAfter(c, w), Ready(StandaloneText(w.tag))));
  }

  /** Undisturbed, a handler leaves the core and the text that the request asks for. */
  lemma TailInARow(st: State, d: nat, i: nat, r: Request)
    requires ShapedState(st) && Node(st.p.n, d) && i < |st.p.replies[d]| && st.p.replies[d][i].task == FirstTask(r)
    ensures var c := CoreAt(st.p, d);
            Leads(st, TailSteps(d, i, r), WithTask(st, d, i, CoreAfter(c, r), Ready(ReplyTo(c, r))))
  {
    var c := CoreAt(st.p, d);
    var u := WithTask(st, d, i, c, FirstTask(r));
    assert u.p.core == st.p.core && u.p.replies[d] == st.p.replies[d];
    assert u == st;
    match r {
      case Ping =>
      case PeerAttribute => AckInARow(st, d, i);
      case CtlWrite(_, _, _, _, _) => CtlWriteInARow(st, d, i, r);
    }
  }

  // ---- Both

  function AnswerSteps(d: nat, s: nat, i: nat, r: Request): seq<Step> { ConsumeSteps(d, s) + TailSteps(d, i, r) }

  /** The closed form of answering a request up to the send: the core is as the request asks, and the
      reply is ready. */
  function AnswerEnd(st: State, d: nat, s: nat): (t: State)
    requires ReadyToConsume(st, d, s)
    ensures ShapedState(t)
  {
    var r, c := Seen(st.p.slots[s]).value, CoreAt(st.p, d);
    WithTask(ConsumeEnd(st, d, s), d, |st.p.replies[d]|, CoreAfter(c, r), Ready(ReplyTo(c, r)))
  }

  /** The steps of answering a request in a row lead to their closed form. */
  lemma AnswerInARow(st: State, d: nat, s: nat)
    requires ReadyToConsume(st, d, s)
    ensures Leads(st, AnswerSteps(d, s, |st.p.replies[d]|, Seen(st.p.slots[s]).value), AnswerEnd(st, d, s))
  {
    var r := Seen(st.p.slots[s]).value;
    var t, i := ConsumeEnd(st, d, s), |st.p.replies[d]|;
    ConsumeInARow(st, d, s);
    TailInARow(t, d, i, r);
    Then(st, ConsumeSteps(d, s), t, TailSteps(d, i, r), AnswerEnd(st, d, s));
  }
}
