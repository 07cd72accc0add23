/** What automatic replies report, over all runs: every reply answers the request that it was made for, and
    an ACK reports the pair of one CTL-Write exactly when no CTL-Write slipped in between its loads. */
module MailboxAcks {
  import opened Basics
  import opened CText
  import opened LinkMessages
  import opened Mailbox
  import opened MailboxOwnership
  import opened MailboxHistory
  import opened MailboxReading
  import opened MailboxRuns
  import opened MailboxCore
  import opened MailboxCoreOrder

  // ---- The acting node keeps what it has in hand

  lemma RingHands(p: Phys, log: seq<Message>, more: seq<Message>, c: Trail, s: nat)
    requires Shaped(p) && Along(p, c) && Node(p.n, s) && SendEnabled(p, s, Ring) && HandsOK(p, log, c, s)
    requires Carries(log, more, c, SenderTrail(p, c, s, Ring), s)
    ensures HandsOK(SendPhys(p, s, Ring), more, SenderTrail(p, c, s, Ring), s)
  {
    OthersStay(p, p, log, more, c, SenderTrail(p, c, s, Ring), s);
  }

  /** One reply less leaves the others right. */
  lemma DropTail(rs: seq<Pending>, log: seq<Message>, c: Trail, t: Trail, s: nat, k: nat)
    requires Carries(log, log, c, t, s) && k < |rs|
    requires TailsOK(rs, log, c, s) && t.made[s] == Without(c.made[s], k)
    ensures TailsOK(Without(rs, k), log, t, s)
  {
    forall i | 0 <= i < |rs| - 1 ensures TailOK(log, t, s, Without(rs, k)[i], t.made[s][i]) {
      WithoutAt(rs, k, i);
      WithoutAt(c.made[s], k, i);
      var j := if i < k then i else i + 1;
      TailStays(log, log, c, t, s, rs[j], c.made[s][j]);
    }
  }

  lemma WithoutAt<T>(s: seq<T>, k: nat, i: nat)
    requires k < |s| && i < |s| - 1
    ensures |Without(s, k)| == |s| - 1 && Without(s, k)[i] == s[if i < k then i else i + 1]
  {
  }

  lemma BeginHands(p: Phys, log: seq<Message>, c: Trail, s: nat, k: nat)
    requires Shaped(p) && Along(p, c) && Node(p.n, s) && SendEnabled(p, s, ReplyBegin(k)) && HandsOK(p, log, c, s)
    requires StoresOK(log, c, Where(c, s))
    ensures HandsOK(SendPhys(p, s, ReplyBegin(k)), log, SenderTrail(p, c, s, ReplyBegin(k)), s)
  {
    var t, r := SenderTrail(p, c, s, ReplyBegin(k)), p.replies[s][k];
    DropTail(p.replies[s], log, c, t, s, k);
    assert TailOK(log, c, s, r, c.made[s][k]);
    SaysStays(log, log, c, t, s, r.dst, c.made[s][k], r.task.text);
  }

  lemma RefuseHands(p: Phys, log: seq<Message>, c: Trail, s: nat, k: nat)
    requires Shaped(p) && Along(p, c) && Node(p.n, s) && SendEnabled(p, s, ReplyRefuse(k)) && HandsOK(p, log, c, s)
    requires StoresOK(log, c, Where(c, s))
    ensures HandsOK(SendPhys(p, s, ReplyRefuse(k)), log, SenderTrail(p, c, s, ReplyRefuse(k)), s)
  {
    var t := SenderTrail(p, c, s, ReplyRefuse(k));
    DropTail(p.replies[s], log, c, t, s, k);
    SendingStays(p.send[s], log, log, c, t, s);
  }

  /** The stores of a send leave the replies alone, and its text as it is. */
  lemma PublishHands(p: Phys, log: seq<Message>, c: Trail, s: nat, o: SendOp)
    requires Shaped(p) && Along(p, c) && Node(p.n, s) && SendEnabled(p, s, o) && HandsOK(p, log, c, s)
    requires !o.Ring? && !o.ReplyBegin? && !o.ReplyRefuse?
    ensures HandsOK(SendPhys(p, s, o), log, c, s)
  {
    var q := SendPhys(p, s, o);
    assert q.replies == p.replies && q.lock == p.lock;
    assert q.send[s].Idle? || !q.send[s].reply || (!p.send[s].Idle? && p.send[s].reply &&
           q.send[s].dst == p.send[s].dst && q.send[s].body == p.send[s].body);
  }

  lemma SenderHands(p: Phys, log: seq<Message>, c: Trail, s: nat, o: SendOp)
    requires Shaped(p) && Along(p, c) && Node(p.n, s) && SendEnabled(p, s, o) && !o.Ring? && HandsOK(p, log, c, s)
    requires StoresOK(log, c, Where(c, s))
    ensures HandsOK(SendPhys(p, s, o), log, SenderTrail(p, c, s, o), s)
  {
    match o {
      case ReplyBegin(k) => BeginHands(p, log, c, s, k);
      case ReplyRefuse(k) => RefuseHands(p, log, c, s, k);
      case _ => PublishHands(p, log, c, s, o);
    }
  }

  lemma FirstTaskOK(log: seq<Message>, c: Trail, d: nat, src: nat, m: Made, r: Request)
    requires Tables(c) && d < |c.host|
    requires Asked(log, d, src, m.request) && RequestIn(log[m.request].body) == Some(r)
    ensures TailOK(log, c, d, Pending(src, FirstTask(r)), m)
  {
  }

  lemma AddTail(rs: seq<Pending>, log: seq<Message>, c: Trail, t: Trail, d: nat, r: Pending, m: Made)
    requires Carries(log, log, c, t, d)
    requires TailsOK(rs, log, c, d) && t.made[d] == c.made[d] + [m] && TailOK(log, t, d, r, m)
    ensures TailsOK(rs + [r], log, t, d)
  {
    forall i | 0 <= i < |rs| ensures TailOK(log, t, d, rs[i], t.made[d][i]) {
      TailStays(log, log, c, t, d, rs[i], c.made[d][i]);
    }
  }

  lemma UnlockHands(p: Phys, h: Hist, c: Trail, d: nat)
    requires Shaped(p) && ShapedHist(p, h) && Along(p, c) && Node(p.n, d) && HandlerEnabled(p, d, Unlock)
    requires HandsOK(p, h.log, c, d) && StoresOK(h.log, c, Where(c, d))
    ensures HandsOK(HandlerPhys(p, d, Unlock), h.log, HandlerTrail(p, h, c, d, Unlock), d)
  {
    var t, l := HandlerTrail(p, h, c, d, Unlock), p.lock[d];
    var m := Made(c.handling[d], Snap(0, 0, 0), Snap(0, 0, 0));
    FirstTaskOK(h.log, t, d, l.src, m, l.phase.request);
    AddTail(p.replies[d], h.log, c, t, d, Pending(l.src, FirstTask(l.phase.request)), m);
    SendingStays(p.send[d], h.log, h.log, c, t, d);
  }

  /** A handler that consumes a request knows which one. */
  predicate KnowsRequest(p: Phys, h: Hist, d: nat)
    requires Shaped(p) && ShapedHist(p, h) && Node(p.n, d) && HandlerEnabled(p, d, Consume)
  {
    var s := p.lock[d].src;
    Asked(h.log, d, s, h.cur[s]) && RequestIn(h.log[h.cur[s]].body) == Seen(p.slots[s])
  }

  lemma LockedHands(p: Phys, h: Hist, c: Trail, d: nat, o: HandlerOp)
    requires Shaped(p) && ShapedHist(p, h) && Along(p, c) && Node(p.n, d) && HandlerEnabled(p, d, o) && !o.Unlock?
    requires HandsOK(p, h.log, c, d) && StoresOK(h.log, c, Where(c, d)) && (o.Consume? ==> KnowsRequest(p, h, d))
    ensures HandsOK(HandlerPhys(p, d, o), h.log, HandlerTrail(p, h, c, d, o), d)
  {
    var t := HandlerTrail(p, h, c, d, o);
    SendingStays(p.send[d], h.log, h.log, c, t, d);
    TailsStay(p.replies[d], h.log, h.log, c, t, d);
  }

  /** One reply in the making moves on. */
  lemma MoveTail(rs: seq<Pending>, log: seq<Message>, c: Trail, t: Trail, d: nat, i: nat, r: Pending, m: Made)
    requires Carries(log, log, c, t, d) && i < |rs|
    requires TailsOK(rs, log, c, d) && t.made[d] == c.made[d][i := m] && TailOK(log, t, d, r, m)
    ensures TailsOK(rs[i := r], log, t, d)
  {
    forall j | 0 <= j < |rs| ensures TailOK(log, t, d, rs[i := r][j], t.made[d][j]) {
      TailStays(log, log, c, t, d, rs[j], c.made[d][j]);
    }
  }

  lemma StoreHands(p: Phys, log: seq<Message>, c: Trail, d: nat, i: nat)
    requires Shaped(p) && Along(p, c) && Node(p.n, d) && TailEnabled(p, d, i, StoreNext) && HandsOK(p, log, c, d)
    requires StoresOK(log, c, Where(c, d))
    ensures HandsOK(TailPhys(p, d, i, StoreNext), log, TailTrail(p, c, d, i, StoreNext), d)
  {
    var q, t := TailPhys(p, d, i, StoreNext), TailTrail(p, c, d, i, StoreNext);
    assert Carries(log, log, c, t, d);
    TailStays(log, log, c, t, d, p.replies[d][i], c.made[d][i]);
    MoveTail(p.replies[d], log, c, t, d, i, q.replies[d][i], c.made[d][i]);
    SendingStays(p.send[d], log, log, c, t, d);
  }

  /** A load sees what was stored last, and formatting keeps what was loaded. */
  lemma LoadedTail(p: Phys, log: seq<Message>, c: Trail, d: nat, i: nat, o: TailOp)
    requires Shaped(p) && Along(p, c) && Node(p.n, d) && TailEnabled(p, d, i, o) && !o.StoreNext?
    requires HandsOK(p, log, c, d) && CellsOK(CoreAt(p, d), log, c, CoreOf(p, d)) && CountOK(p, c, CoreOf(p, d))
    ensures var t := TailTrail(p, c, d, i, o);
            Carries(log, log, c, t, d) && |t.made[d]| == |c.made[d]| && t.made[d] == c.made[d][i := t.made[d][i]] &&
            TailOK(log, t, d, TailPhys(p, d, i, o).replies[d][i], t.made[d][i])
  {
    var t := TailTrail(p, c, d, i, o);
    assert TailOK(log, c, d, p.replies[d][i], c.made[d][i]);
    TailStays(log, log, c, t, d, p.replies[d][i], c.made[d][i]);
    assert SnapOK(c, CoreOf(p, d), SnapNow(p, c, CoreOf(p, d)));
  }

  lemma LoadHands(p: Phys, log: seq<Message>, c: Trail, d: nat, i: nat, o: TailOp)
    requires Shaped(p) && Along(p, c) && Node(p.n, d) && TailEnabled(p, d, i, o) && !o.StoreNext?
    requires HandsOK(p, log, c, d) && CellsOK(CoreAt(p, d), log, c, CoreOf(p, d)) && CountOK(p, c, CoreOf(p, d))
    ensures HandsOK(TailPhys(p, d, i, o), log, TailTrail(p, c, d, i, o), d)
  {
    var q, t := TailPhys(p, d, i, o), TailTrail(p, c, d, i, o);
    LoadedTail(p, log, c, d, i, o);
    MoveTail(p.replies[d], log, c, t, d, i, q.replies[d][i], t.made[d][i]);
    SendingStays(p.send[d], log, log, c, t, d);
  }

  /** The core cells after one more store. */
  lemma StoreCells(p: Phys, log: seq<Message>, c: Trail, d: nat, i: nat)
    requires Shaped(p) && Along(p, c) && Node(p.n, d) && TailEnabled(p, d, i, StoreNext) && HandsOK(p, log, c, d)
    requires CellsOK(CoreAt(p, d), log, c, CoreOf(p, d))
    ensures CellsOK(CoreAt(TailPhys(p, d, i, StoreNext), d), log, TailTrail(p, c, d, i, StoreNext), CoreOf(p, d))
  {
    var t, k := TailTrail(p, c, d, i, StoreNext), CoreOf(p, d);
    assert TailOK(log, c, d, p.replies[d][i], c.made[d][i]);
    assert WriteIn(log, c.made[d][i].request) == Some(p.replies[d][i].task.w);
    CidStays(log, log, c, t, k, |c.cidBy[k]|);
    SidStays(log, log, c, t, k, |c.sidBy[k]|);
  }

  // ---- Every step keeps it for every node and every core

  /** Core k holds what was stored last, and the books of its stores are right. */
  predicate CoreTracked(st: State, c: Trail, k: nat)
    requires ShapedState(st) && Along(st.p, c) && k <= st.p.n
  {
    CellsOK(st.p.core[k], st.h.log, c, k) && CountOK(st.p, c, k)
  }

  predicate IdTracked(st: State, c: Trail, k: nat, id: nat)
    requires ShapedState(st) && Along(st.p, c) && k <= st.p.n
  {
    OrderOK(st.p, c, k, id) && UniqueOK(st.p, st.h, c, k, id)
  }

  ghost predicate Tracked(st: State, c: Trail)
  {
    ShapedState(st) && Along(st.p, c) && |c.sent| == |st.h.log| &&
    (forall d :: Node(st.p.n, d) ==> HandsOK(st.p, st.h.log, c, d)) &&
    (forall k :: 0 <= k <= st.p.n ==> CoreTracked(st, c, k)) &&
    (forall k, id :: 0 <= k <= st.p.n ==> IdTracked(st, c, k, id)) &&
    (forall id :: 0 <= id < |st.h.log| ==> SentOK(st.h.log, c, id))
  }

  /** What a step finds: the request that it consumes, which nobody has consumed before. */
  predicate Finds(st: State, a: Step)
    requires ShapedState(st) && Enabled(st.p, a)
  {
    a.ByHandler? && a.isr.Consume? ==>
      KnowsRequest(st.p, st.h, a.at) && st.h.cur[st.p.lock[a.at].src] !in st.h.consumed
  }

  lemma StepFinds(st: State, a: Step)
    requires Inv(st) && Enabled(st.p, a)
    ensures Finds(st, a)
  {
    if a.ByHandler? && a.isr.Consume? {
      var s := st.p.lock[a.at].src;
      assert NodeOK(st, a.at) && CurOK(st.h, s) && ContentOK(st.p, st.h, s);
      assert LogOK(st.p, st.h, st.h.cur[s]);
      SeenIsSent(st.p.slots[s], st.h.log[st.h.cur[s]]);
    }
  }

  lemma TrailGrows(st: State, c: Trail, a: Step, k: nat)
    requires ShapedState(st) && Along(st.p, c) && Enabled(st.p, a) && k <= st.p.n
    ensures Grown(c, NextTrail(st, c, a), k) && c.sent <= NextTrail(st, c, a).sent
  {
  }

  lemma StepCarries(st: State, c: Trail, a: Step, d: nat)
    requires ShapedState(st) && Along(st.p, c) && Enabled(st.p, a) && d <= st.p.n
    requires StoresOK(st.h.log, c, Where(c, d))
    ensures Carries(st.h.log, Next(st, a).h.log, c, NextTrail(st, c, a), d)
  {
    TrailGrows(st, c, a, Where(c, d));
    HistoryGrows(st, a);
  }

  lemma SenderTracked(st: State, c: Trail, s: nat, o: SendOp)
    requires ShapedState(st) && Along(st.p, c) && Node(st.p.n, s) && SendEnabled(st.p, s, o)
    requires HandsOK(st.p, st.h.log, c, s) && StoresOK(st.h.log, c, Where(c, s))
    ensures HandsOK(SendPhys(st.p, s, o), SendHist(st.p, st.h, s, o).log, SenderTrail(st.p, c, s, o), s)
  {
    if o.Ring? {
      StepCarries(st, c, BySender(s, o), s);
      RingHands(st.p, st.h.log, SendHist(st.p, st.h, s, o).log, c, s);
    } else {
      SenderHands(st.p, st.h.log, c, s, o);
    }
  }

  lemma ReaderTracked(st: State, c: Trail, r: nat, o: ReadOp)
    requires ShapedState(st) && Along(st.p, c) && Node(st.p.n, r) && ReadEnabled(st.p, r, o)
    requires HandsOK(st.p, st.h.log, c, r) && StoresOK(st.h.log, c, Where(c, r))
    ensures HandsOK(ReadPhys(st.p, r, o), ReadHist(st.p, st.h, r, o).log, c, r)
  {
    StepCarries(st, c, ByReader(r, o), r);
    OthersStay(st.p, ReadPhys(st.p, r, o), st.h.log, ReadHist(st.p, st.h, r, o).log, c, c, r);
  }

  /** What the acting node has in hand afterwards. */
  lemma ActorTracked(st: State, c: Trail, a: Step)
    requires ShapedState(st) && Along(st.p, c) && Enabled(st.p, a) && HandsOK(st.p, st.h.log, c, a.at) && Finds(st, a)
    requires CoreTracked(st, c, CoreOf(st.p, a.at))
    ensures HandsOK(Next(st, a).p, Next(st, a).h.log, NextTrail(st, c, a), a.at)
  {
    match a {
      case BySender(s, o) => SenderTracked(st, c, s, o);
      case ByHandler(d, o) =>
        if o.Unlock? { UnlockHands(st.p, st.h, c, d); } else { LockedHands(st.p, st.h, c, d, o); }
        assert HandlerHist(st.p, st.h, d, o).log == st.h.log;
      case ByTail(d, i, o) =>
        if o.StoreNext? { StoreHands(st.p, st.h.log, c, d, i); } else { LoadHands(st.p, st.h.log, c, d, i, o); }
      case ByReader(r, o) => ReaderTracked(st, c, r, o);
    }
  }

  lemma OtherTracked(st: State, c: Trail, a: Step, x: nat)
    requires ShapedState(st) && Along(st.p, c) && Enabled(st.p, a) && Node(st.p.n, x) && x != a.at
    requires HandsOK(st.p, st.h.log, c, x) && StoresOK(st.h.log, c, Where(c, x))
    ensures HandsOK(Next(st, a).p, Next(st, a).h.log, NextTrail(st, c, a), x)
  {
    OthersUntouched(st, c, a, x);
    StepCarries(st, c, a, x);
    OthersStay(st.p, Next(st, a).p, st.h.log, Next(st, a).h.log, c, NextTrail(st, c, a), x);
  }

  /** The step stores into the core. */
  predicate IsStore(a: Step) { a.ByTail? && a.job.StoreNext? }

  lemma OnlyStoresStore(st: State, c: Trail, a: Step)
    requires ShapedState(st) && Along(st.p, c) && Enabled(st.p, a) && !IsStore(a)
    ensures var t := NextTrail(st, c, a);
            t.cidBy == c.cidBy && t.sidBy == c.sidBy && Next(st, a).p.core == st.p.core
  {
  }

  lemma StepKeepsCells(st: State, c: Trail, a: Step, k: nat)
    requires ShapedState(st) && Along(st.p, c) && Enabled(st.p, a) && k <= st.p.n
    requires HandsOK(st.p, st.h.log, c, a.at) && CellsOK(st.p.core[k], st.h.log, c, k)
    ensures CellsOK(Next(st, a).p.core[k], Next(st, a).h.log, NextTrail(st, c, a), k)
  {
    if IsStore(a) && k == CoreOf(st.p, a.at) {
      StoreCells(st.p, st.h.log, c, a.at, a.which);
    } else {
      if IsStore(a) { OtherCoresUntouched(st, c, a, k); } else { OnlyStoresStore(st, c, a); }
      TrailGrows(st, c, a, k);
      HistoryGrows(st, a);
      CellsStay(st.p.core[k], st.h.log, Next(st, a).h.log, c, NextTrail(st, c, a), k);
    }
  }

  lemma OldSent(st: State, c: Trail, a: Step, id: nat)
    requires ShapedState(st) && Along(st.p, c) && Enabled(st.p, a) && id < |st.h.log| == |c.sent|
    requires SentOK(st.h.log, c, id) && Node(st.p.n, st.h.log[id].src)
    requires StoresOK(st.h.log, c, Where(c, st.h.log[id].src))
    ensures id < |NextTrail(st, c, a).sent| && id < |Next(st, a).h.log|
    ensures SentOK(Next(st, a).h.log, NextTrail(st, c, a), id)
  {
    var m, t := st.h.log[id], NextTrail(st, c, a);
    StepCarries(st, c, a, m.src);
    TrailGrows(st, c, a, m.src);
    if m.reply { SaysStays(st.h.log, Next(st, a).h.log, c, t, m.src, m.dst, c.sent[id].value, m.body); }
  }

  lemma NewSent(st: State, c: Trail, s: nat)
    requires ShapedState(st) && Along(st.p, c) && Node(st.p.n, s) && SendEnabled(st.p, s, Ring)
    requires |c.sent| == |st.h.log| && HandsOK(st.p, st.h.log, c, s) && StoresOK(st.h.log, c, Where(c, s))
    ensures SentOK(Next(st, BySender(s, Ring)).h.log, SenderTrail(st.p, c, s, Ring), |st.h.log|)
  {
    var w, more := st.p.send[s], Next(st, BySender(s, Ring)).h.log;
    StepCarries(st, c, BySender(s, Ring), s);
    if w.reply { SaysStays(st.h.log, more, c, SenderTrail(st.p, c, s, Ring), s, w.dst, c.sending[s], w.body); }
  }

  lemma SentGrows(st: State, c: Trail, a: Step)
    requires ShapedState(st) && Along(st.p, c) && Enabled(st.p, a)
    ensures |NextTrail(st, c, a).sent| - |c.sent| == |Next(st, a).h.log| - |st.h.log|
         == if a == BySender(a.at, Ring) then 1 else 0
  {
  }

  lemma StepKeepsSent(st: State, c: Trail, a: Step, id: nat)
    requires Tracked(st, c) && Enabled(st.p, a) && id < |Next(st, a).h.log|
    requires id < |st.h.log| ==> Node(st.p.n, st.h.log[id].src)
    ensures id < |NextTrail(st, c, a).sent| && SentOK(Next(st, a).h.log, NextTrail(st, c, a), id)
  {
    SentGrows(st, c, a);
    if id < |st.h.log| {
      assert SentOK(st.h.log, c, id);
      assert CoreTracked(st, c, Where(c, st.h.log[id].src));
      OldSent(st, c, a, id);
    } else {
      assert HandsOK(st.p, st.h.log, c, a.at) && CoreTracked(st, c, Where(c, a.at));
      NewSent(st, c, a.at);
    }
  }

  lemma StepKeepsHands(st: State, c: Trail, a: Step, d: nat)
    requires Tracked(st, c) && Enabled(st.p, a) && Finds(st, a) && Node(st.p.n, d)
    ensures HandsOK(Next(st, a).p, Next(st, a).h.log, NextTrail(st, c, a), d)
  {
    assert HandsOK(st.p, st.h.log, c, d) && CoreTracked(st, c, Where(c, d));
    if d == a.at { ActorTracked(st, c, a); } else { OtherTracked(st, c, a, d); }
  }

  lemma StepKeepsCore(st: State, c: Trail, a: Step, k: nat, id: nat)
    requires Tracked(st, c) && Enabled(st.p, a) && Finds(st, a) && k <= st.p.n
    ensures CoreTracked(Next(st, a), NextTrail(st, c, a), k) && IdTracked(Next(st, a), NextTrail(st, c, a), k, id)
  {
    assert HandsOK(st.p, st.h.log, c, a.at) && CoreTracked(st, c, k) && IdTracked(st, c, k, id);
    HistoryGrows(st, a);
    StepKeepsCells(st, c, a, k);
    StepKeepsBooks(st, c, a, k, id);
  }

  /** Every step keeps the trail in step with the state. */
  lemma StepKeepsTracked(st: State, c: Trail, a: Step)
    requires Inv(st) && Tracked(st, c) && Enabled(st.p, a)
    ensures Tracked(Next(st, a), NextTrail(st, c, a))
  {
    var u, t := Next(st, a), NextTrail(st, c, a);
    StepFinds(st, a);
    SentGrows(st, c, a);
    forall d | Node(u.p.n, d) ensures HandsOK(u.p, u.h.log, t, d) { StepKeepsHands(st, c, a, d); }
    forall k | 0 <= k <= u.p.n ensures CoreTracked(u, t, k) { StepKeepsCore(st, c, a, k, 0); }
    forall k, id: nat | 0 <= k <= u.p.n ensures IdTracked(u, t, k, id) { StepKeepsCore(st, c, a, k, id); }
    forall id | 0 <= id < |u.h.log| ensures SentOK(u.h.log, t, id) {
      assert id < |st.h.log| ==> LogOK(st.p, st.h, id);
      StepKeepsSent(st, c, a, id);
    }
  }

  lemma {:induction false} RunKeepsTracked(st: State, c: Trail, steps: seq<Step>)
    requires Inv(st) && Tracked(st, c) && IsRun(st, steps)
    ensures Tracked(After(st, steps), TrailAfter(st, c, steps))
    decreases steps
  {
    if steps != [] {
      StepKeepsTracked(st, c, steps[0]);
      StepKeepsInv(st, steps[0]);
      RunKeepsTracked(Next(st, steps[0]), NextTrail(st, c, steps[0]), steps[1..]);
    }
  }

  lemma StartTracked(st: State)
    requires Init(st)
    ensures Tracked(st, Start(st.p))
  {
    var c := Start(st.p);
    forall d: nat | Node(st.p.n, d) ensures HandsOK(st.p, st.h.log, c, d) {
      assert st.p.replies[d] == [] && c.made[d] == [];
    }
    forall k | 0 <= k <= st.p.n ensures CoreTracked(st, c, k) { NothingStored(st, k, 0); }
    forall k, id: nat | 0 <= k <= st.p.n ensures IdTracked(st, c, k, id) { NothingStored(st, k, id); }
  }

  lemma NothingStored(st: State, k: nat, id: nat)
    requires Init(st) && k <= st.p.n
    ensures CoreTracked(st, Start(st.p), k) && IdTracked(st, Start(st.p), k, id)
  {
    var c := Start(st.p);
    forall i | 0 <= i <= st.p.n
      ensures MidwayTable(st.p, k)[i] == 0 && MidTable(st.p, c, k, id)[i] == 0 && EarlyTable(st.p, c, k, id)[i] == 0
    {
      assert st.p.replies[i] == [] && c.made[i] == [];
    }
    ZeroTotal(MidwayTable(st.p, k));
    ZeroTotal(MidTable(st.p, c, k, id));
    ZeroTotal(EarlyTable(st.p, c, k, id));
  }

  lemma {:induction false} Traced(st: State, steps: seq<Step>)
    requires Init(st) && IsRun(st, steps)
    ensures Inv(After(st, steps)) && Tracked(After(st, steps), Trace(st, steps))
  {
    Reachable(st, steps);
    InitHolds(st);
    StartTracked(st);
    RunKeepsTracked(st, Start(st.p), steps);
  }

  // ---- The results

  /** The numbers of all CTL-Writes, and of the cores at the start, are ints. */
  lemma NumbersAreInts(log: seq<Message>, c: Trail, k: nat, m: nat, n: nat)
    requires Tables(c) && k < |c.host| && StoresOK(log, c, k) && IsInt32(c.first[k].cid0) && IsInt32(c.first[k].sid0)
    requires m <= |c.cidBy[k]| && n <= |c.sidBy[k]|
    ensures IsInt32(CidOf(log, c, k, m)) && IsInt32(SidOf(log, c, k, n))
  {
    if m > 0 { WriteIsInt(log, c.cidBy[k][m - 1]); }
    if n > 0 { WriteIsInt(log, c.sidBy[k][n - 1]); }
  }

  lemma WriteIsInt(log: seq<Message>, id: nat)
    requires WriteIn(log, id).Some?
    ensures IsInt32(WriteIn(log, id).value.cid) && IsInt32(WriteIn(log, id).value.sid)
  {
    ScanGivesInts(CTL_WRITE, CStr(log[id].body));
  }

  /** A reply in plain words: "pong", the tag in its sentence, or an ACK from which CID0 and SID0 are read
      back after their names. */
  predicate InWords(log: seq<Message>, c: Trail, d: nat, m: Made, text: bytes)
    requires Tables(c) && d < |c.host| && m.request < |log|
  {
    var k := Where(c, d);
    match RequestIn(log[m.request].body)
    case None => false
    case Some(Ping) => text == "pong"
    case Some(PeerAttribute) =>
      "Link CTL ACK C-Class=" + c.first[k].cclass + ",CID0=" <= text &&
      Scan(AckFormat(c.first[k].cclass), text) == [CidOf(log, c, k, m.cidAt.cids), SidOf(log, c, k, m.sidAt.sids)]
    case Some(CtlWrite(_, _, _, _, tag)) => text == "Standalone Acknowledgment Tag=" + DecInt(tag) + ",Reason=OK"
  }

  lemma SaysInWords(log: seq<Message>, c: Trail, d: nat, src: nat, m: Made, text: bytes)
    requires Tables(c) && d < |c.host| && Says(log, c, d, src, m, text) && StoresOK(log, c, Where(c, d))
    requires ValidCore(c.first[Where(c, d)])
    ensures InWords(log, c, d, m, text)
  {
    var k := Where(c, d);
    if RequestIn(log[m.request].body) == Some(PeerAttribute) {
      NumbersAreInts(log, c, k, m.cidAt.cids, m.sidAt.sids);
      AckReadsBack(c.first[k].cclass, CidOf(log, c, k, m.cidAt.cids), SidOf(log, c, k, m.sidAt.sids));
      AckBegins(c.first[k].cclass, CidOf(log, c, k, m.cidAt.cids), SidOf(log, c, k, m.sidAt.sids));
    }
  }

  lemma AckBegins(cclass: bytes, cid: int, sid: int)
    ensures "Link CTL ACK C-Class=" + cclass + ",CID0=" <= AckText(cclass, cid, sid)
  {
  }

  /** Every automatic reply in any run answers a request that its receiver had sent to its sender, with the
      text that this request asks for: pong for a ping, its own tag for a CTL-Write, and for a
      Peer-Attribute the class, CID0 as of the CID load and SID0 as of the SID load. */
  lemma {:induction false} RepliesAnswer(st: State, steps: seq<Step>, id: nat)
    requires Init(st) && IsRun(st, steps) && id < |After(st, steps).h.log| && After(st, steps).h.log[id].reply
    ensures var log, c := After(st, steps).h.log, Trace(st, steps);
            id < |c.sent| && c.sent[id].Some? && Node(st.p.n, log[id].src) && c.first == st.p.core &&
            Says(log, c, log[id].src, log[id].dst, c.sent[id].value, log[id].body) &&
            InWords(log, c, log[id].src, c.sent[id].value, log[id].body)
  {
    Traced(st, steps);
    var t, c := After(st, steps), Trace(st, steps);
    assert SentOK(t.h.log, c, id) && LogOK(t.p, t.h, id);
    var m := t.h.log[id];
    assert CoreTracked(t, c, Where(c, m.src));
    FirstStays(st, Start(st.p), steps);
    SaysInWords(t.h.log, c, m.src, m.dst, c.sent[id].value, m.body);
  }

  /** The two loads of a reply, on core k, saw the stores of one CTL-Write, or none at all. */
  predicate IsWhole(c: Trail, k: nat, m: Made)
    requires Tables(c) && k < |c.host| && SnapOK(c, k, m.cidAt) && SnapOK(c, k, m.sidAt)
  {
    var a, b := m.cidAt.cids, m.sidAt.sids;
    if a == 0 || b == 0 then a == b else c.cidBy[k][a - 1] == c.sidBy[k][b - 1]
  }

  /** The handlers on core k have stored SID0 in the order in which they stored CID0. */
  predicate InStep(c: Trail, k: nat)
    requires Tables(c) && k < |c.host|
  {
    c.sidBy[k] <= c.cidBy[k]
  }

  /** At no time in the run are two handlers, of whichever nodes, between their stores on core k. */
  predicate OneAtATime(st: State, steps: seq<Step>, k: nat)
    requires ShapedState(st) && IsRun(st, steps) && k <= st.p.n
    decreases steps
  {
    MidwayOn(st.p, k) <= 1 && (steps == [] || OneAtATime(Next(st, steps[0]), steps[1..], k))
  }

  lemma LastStorer(cs: seq<nat>, ss: seq<nat>, id: nat)
    requires ss <= cs && |cs| == |ss| + 1 && Occurs(cs, id) > Occurs(ss, id)
    ensures ss + [id] <= cs
  {
    var z := cs[|ss|];
    assert cs == ss + [z];
    OccursAppend(ss, z, id);
  }

  /** The step stores SID0 into core k. */
  predicate StoresSid(p: Phys, a: Step, k: nat)
    requires Shaped(p) && Enabled(p, a)
  {
    IsStore(a) && CoreOf(p, a.at) == k && p.replies[a.at][a.which].task.k == 3
  }

  lemma OtherStepsKeepSid(st: State, c: Trail, a: Step, k: nat)
    requires ShapedState(st) && Along(st.p, c) && Enabled(st.p, a) && k <= st.p.n && !StoresSid(st.p, a, k)
    ensures NextTrail(st, c, a).sidBy[k] == c.sidBy[k] && c.cidBy[k] <= NextTrail(st, c, a).cidBy[k]
  {
    if !IsStore(a) { OnlyStoresStore(st, c, a); }
  }

  /** The only handler between its stores is the one that stored CID0 last. */
  lemma SidInStep(p: Phys, c: Trail, d: nat, i: nat)
    requires Shaped(p) && Along(p, c) && Node(p.n, d) && i < |p.replies[d]| == |c.made[d]|
    requires IsMidway(p.replies[d][i].task) && MidwayOn(p, CoreOf(p, d)) <= 1 && InStep(c, CoreOf(p, d))
    requires CountOK(p, c, CoreOf(p, d)) && OrderOK(p, c, CoreOf(p, d), c.made[d][i].request)
    ensures c.sidBy[CoreOf(p, d)] + [c.made[d][i].request] <= c.cidBy[CoreOf(p, d)]
  {
    var k, id := CoreOf(p, d), c.made[d][i].request;
    MidwayAt(p.replies[d], c.made[d], i);
    TotalNonNegative(MidwayTable(p, k));
    TotalNonNegative(MidTable(p, c, k, id));
    assert MidwayTable(p, k)[d] >= 1 && MidTable(p, c, k, id)[d] >= 1;
    LastStorer(c.cidBy[k], c.sidBy[k], id);
  }

  lemma StepKeepsInStep(st: State, c: Trail, a: Step, k: nat)
    requires Tracked(st, c) && Enabled(st.p, a) && k <= st.p.n
    requires InStep(c, k) && MidwayOn(st.p, k) <= 1
    ensures InStep(NextTrail(st, c, a), k)
  {
    if StoresSid(st.p, a, k) {
      assert HandsOK(st.p, st.h.log, c, a.at);
      assert CoreTracked(st, c, k) && IdTracked(st, c, k, c.made[a.at][a.which].request);
      SidInStep(st.p, c, a.at, a.which);
    } else {
      OtherStepsKeepSid(st, c, a, k);
    }
  }

  lemma {:induction false} OneAtATimeInStep(st: State, c: Trail, steps: seq<Step>, k: nat)
    requires Inv(st) && Tracked(st, c) && IsRun(st, steps) && k <= st.p.n
    requires InStep(c, k) && OneAtATime(st, steps, k)
    ensures InStep(TrailAfter(st, c, steps), k)
    decreases steps
  {
    if steps != [] {
      StepKeepsInStep(st, c, steps[0], k);
      StepKeepsTracked(st, c, steps[0]);
      StepKeepsInv(st, steps[0]);
      OneAtATimeInStep(Next(st, steps[0]), NextTrail(st, c, steps[0]), steps[1..], k);
    }
  }

  lemma NoWriterTwice(st: State, c: Trail, k: nat, i: nat, j: nat)
    requires Tracked(st, c) && k <= st.p.n && i < |c.cidBy[k]| && j < |c.cidBy[k]| && c.cidBy[k][i] == c.cidBy[k][j]
    ensures i == j
  {
    var id := c.cidBy[k][i];
    assert IdTracked(st, c, k, id);
    TotalNonNegative(EarlyTable(st.p, c, k, id));
    if i < j { OnePlace(c.cidBy[k], i, j); } else if j < i { OnePlace(c.cidBy[k], j, i); }
  }

  lemma NoSidTwice(st: State, c: Trail, k: nat, i: nat, j: nat)
    requires Tracked(st, c) && k <= st.p.n && i < |c.sidBy[k]| && j < |c.sidBy[k]| && c.sidBy[k][i] == c.sidBy[k][j]
    ensures i == j
  {
    var id := c.sidBy[k][i];
    assert IdTracked(st, c, k, id);
    TotalNonNegative(EarlyTable(st.p, c, k, id));
    TotalNonNegative(MidTable(st.p, c, k, id));
    if i < j { OnePlace(c.sidBy[k], i, j); } else if j < i { OnePlace(c.sidBy[k], j, i); }
  }

  /** The message is a reply to a Peer-Attribute request. */
  predicate IsAck(log: seq<Message>, c: Trail, id: nat)
  {
    id < |log| && id < |c.sent| && c.sent[id].Some? && c.sent[id].value.request < |log| &&
    RequestIn(log[c.sent[id].value.request].body) == Some(PeerAttribute)
  }

  /** What an ACK by node d reports. */
  predicate Reports(log: seq<Message>, c: Trail, d: nat, m: Made, text: bytes)
    requires Tables(c) && d < |c.host|
  {
    var k := Where(c, d);
    SnapOK(c, k, m.cidAt) && SnapOK(c, k, m.sidAt) && text == AckOf(log, c, k, m) &&
    (IsWhole(c, k, m) && m.cidAt.cids > 0 ==>
      var w := WriteIn(log, c.cidBy[k][m.cidAt.cids - 1]);
      w.Some? && w.value.cid == CidOf(log, c, k, m.cidAt.cids) && w.value.sid == SidOf(log, c, k, m.sidAt.sids))
  }

  /** Every ACK of any run, however handlers of its node and of other nodes on the same core overlap, carries
      CID0 of the last CTL-Write to any of them that had stored it before the ACK's CID load, and SID0 of
      the last one before its SID load. If those are the same, the two numbers are its pair. */
  lemma {:induction false} AcksReport(st: State, steps: seq<Step>, id: nat)
    requires Init(st) && IsRun(st, steps) && IsAck(After(st, steps).h.log, Trace(st, steps), id)
    ensures var log, c := After(st, steps).h.log, Trace(st, steps);
            Node(st.p.n, log[id].src) && c.first == st.p.core && c.host == st.p.host &&
            Reports(log, c, log[id].src, c.sent[id].value, log[id].body) &&
            InWords(log, c, log[id].src, c.sent[id].value, log[id].body)
  {
    Traced(st, steps);
    var t, c := After(st, steps), Trace(st, steps);
    assert SentOK(t.h.log, c, id) && LogOK(t.p, t.h, id);
    RepliesAnswer(st, steps, id);
    assert CoreTracked(t, c, Where(c, t.h.log[id].src));
    FirstStays(st, Start(st.p), steps);
    AckSays(t.h.log, c, id);
  }

  lemma {:induction false} AckSays(log: seq<Message>, c: Trail, id: nat)
    requires IsAck(log, c, id) && SentOK(log, c, id) && Tables(c) && log[id].src < |c.host|
    requires StoresOK(log, c, Where(c, log[id].src))
    ensures Reports(log, c, log[id].src, c.sent[id].value, log[id].body)
  {
    var k, m := Where(c, log[id].src), c.sent[id].value;
    if IsWhole(c, k, m) && m.cidAt.cids > 0 { WholePair(log, c, k, m); }
  }

  /** A whole reply reports the two numbers of one CTL-Write. */
  lemma WholePair(log: seq<Message>, c: Trail, k: nat, m: Made)
    requires Tables(c) && k < |c.host| && StoresOK(log, c, k)
    requires SnapOK(c, k, m.cidAt) && SnapOK(c, k, m.sidAt) && IsWhole(c, k, m) && m.cidAt.cids > 0
    ensures var w := WriteIn(log, c.cidBy[k][m.cidAt.cids - 1]);
            w.Some? && w.value.cid == CidOf(log, c, k, m.cidAt.cids) && w.value.sid == SidOf(log, c, k, m.sidAt.sids)
  {
  }

  lemma {:induction false} FirstStays(st: State, c: Trail, steps: seq<Step>)
    requires ShapedState(st) && Along(st.p, c) && IsRun(st, steps)
    ensures TrailAfter(st, c, steps).first == c.first
    decreases steps
  {
    if steps != [] {
      assert NextTrail(st, c, steps[0]).first == c.first;
      FirstStays(Next(st, steps[0]), NextTrail(st, c, steps[0]), steps[1..]);
    }
  }

  lemma WholeIffEven(t: State, c: Trail, k: nat, m: Made)
    requires Tracked(t, c) && k <= t.p.n && InStep(c, k) && SnapOK(c, k, m.cidAt) && SnapOK(c, k, m.sidAt)
    ensures IsWhole(c, k, m) <==> m.cidAt.cids == m.sidAt.sids
  {
    var a, b := m.cidAt.cids, m.sidAt.sids;
    if a > 0 && b > 0 && IsWhole(c, k, m) { NoWriterTwice(t, c, k, a - 1, b - 1); }
  }

  /** Where no two handlers are between their stores on a core at once, nobody overtakes. */
  lemma {:induction false} OneAtATimeStaysInStep(st: State, steps: seq<Step>, k: nat)
    requires Init(st) && IsRun(st, steps) && k <= st.p.n && OneAtATime(st, steps, k)
    ensures InStep(Trace(st, steps), k)
  {
    InitHolds(st);
    StartTracked(st);
    OneAtATimeInStep(st, Start(st.p), steps, k);
  }

  /** Exactly when an ACK is whole, in every run: when the CTL-Write that had stored CID0 last before the
      CID load had also stored SID0 before the SID load, and no SID0 store came after that and before the
      load; or when there had been no store before either load. */
  lemma {:induction false} AckIsWholeExactly(st: State, steps: seq<Step>, id: nat)
    requires Init(st) && IsRun(st, steps) && IsAck(After(st, steps).h.log, Trace(st, steps), id)
    ensures var log, c := After(st, steps).h.log, Trace(st, steps);
            Node(st.p.n, log[id].src) && Reports(log, c, log[id].src, c.sent[id].value, log[id].body) &&
            var k, m := Where(c, log[id].src), c.sent[id].value;
            (IsWhole(c, k, m) <==> LastToBoth(c, k, m.cidAt.cids, m.sidAt.sids))
  {
    AcksReport(st, steps, id);
    Traced(st, steps);
    var t, c := After(st, steps), Trace(st, steps);
    WholeIffLast(t, c, Where(c, t.h.log[id].src), c.sent[id].value);
  }

  /** The a-th CTL-Write to store CID0 is among the first b to store SID0, and none of them came after it. */
  predicate LastToBoth(c: Trail, k: nat, a: nat, b: nat)
    requires Tables(c) && k < |c.host| && a <= |c.cidBy[k]| && b <= |c.sidBy[k]|
  {
    if a == 0 || b == 0 then a == b
    else
      var w := c.cidBy[k][a - 1];
      w in c.sidBy[k][..b] && w !in c.sidBy[k][..b - 1]
  }

  lemma WholeIffLast(t: State, c: Trail, k: nat, m: Made)
    requires Tracked(t, c) && k <= t.p.n && SnapOK(c, k, m.cidAt) && SnapOK(c, k, m.sidAt)
    ensures IsWhole(c, k, m) <==> LastToBoth(c, k, m.cidAt.cids, m.sidAt.sids)
  {
    var a, b := m.cidAt.cids, m.sidAt.sids;
    if a > 0 && b > 0 {
      var w, last := c.cidBy[k][a - 1], c.sidBy[k][b - 1];
      assert c.sidBy[k][..b] == c.sidBy[k][..b - 1] + [last];
      forall i | 0 <= i < b - 1 && c.sidBy[k][i] == last ensures false { NoSidTwice(t, c, k, i, b - 1); }
    }
  }

  /** The same as a count, in every run in which the CTL-Writes on the core do not overtake each other: an
      ACK is whole when the SID0 stores between its CID load and its SID load are as many as the
      handlers, of all nodes on the core, that were between their two stores at the CID load. With no
      SID0 store between the loads: when no handler was. */
  lemma {:induction false} AckIsWholeIff(st: State, steps: seq<Step>, id: nat)
    requires Init(st) && IsRun(st, steps) && IsAck(After(st, steps).h.log, Trace(st, steps), id)
    requires var d := After(st, steps).h.log[id].src;
             Node(st.p.n, d) ==> InStep(Trace(st, steps), Where(Trace(st, steps), d))
    ensures var log, c := After(st, steps).h.log, Trace(st, steps);
            Node(st.p.n, log[id].src) && Reports(log, c, log[id].src, c.sent[id].value, log[id].body) &&
            var k, m := Where(c, log[id].src), c.sent[id].value;
            (IsWhole(c, k, m) <==> m.sidAt.sids == m.cidAt.sids + m.cidAt.midway) &&
            (m.sidAt.sids == m.cidAt.sids ==> (IsWhole(c, k, m) <==> m.cidAt.midway == 0))
  {
    AcksReport(st, steps, id);
    Traced(st, steps);
    var t, c := After(st, steps), Trace(st, steps);
    WholeIffEven(t, c, Where(c, t.h.log[id].src), c.sent[id].value);
  }
}
