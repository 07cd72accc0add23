/** Every CTL-Write stores CID0 once and then SID0 once: what the trail's two lists have to do with the
    handlers that are at work. */
module MailboxCoreOrder {
  import opened Basics
  import opened Mailbox
  import opened MailboxCore

  // ---- Counting

  /** How often id occurs in s. */
  function Occurs(s: seq<nat>, id: nat): nat
  {
    if s == [] then 0 else Occurs(s[..|s| - 1], id) + (if s[|s| - 1] == id then 1 else 0)
  }

  lemma OccursAppend(s: seq<nat>, x: nat, id: nat)
    ensures Occurs(s + [x], id) == Occurs(s, id) + (if x == id then 1 else 0)
  {
    assert (s + [x])[..|s|] == s;
  }

  lemma {:induction false} OccursAt(s: seq<nat>, k: nat)
    requires k < |s|
    ensures Occurs(s, s[k]) >= 1
  {
    var n := |s| - 1;
    if k < n { OccursAt(s[..n], k); }
  }

  /** What occurs once at most is in one place at most. */
  lemma {:induction false} OnePlace(s: seq<nat>, j: nat, k: nat)
    requires j < k < |s| && s[j] == s[k]
    ensures Occurs(s, s[j]) >= 2
  {
    var n := |s| - 1;
    if k < n { OnePlace(s[..n], j, k); } else { OccursAt(s[..n], j); }
  }

  predicate AtStage(early: bool, t: Task) { if early then IsEarly(t) else IsMidway(t) }

  function Serves(r: Pending, m: Made, early: bool, id: nat): nat
  {
    if AtStage(early, r.task) && m.request == id then 1 else 0
  }

  /** How many of the handlers that have yet to store CID0, or that are between CID0 and SID0, serve id. */
  function Serving(rs: seq<Pending>, ms: seq<Made>, early: bool, id: nat): nat
    requires |rs| == |ms|
  {
    if rs == [] then 0
    else
      var k := |rs| - 1;
      Serving(rs[..k], ms[..k], early, id) + Serves(rs[k], ms[k], early, id)
  }

  lemma {:induction false} ServingWithout(rs: seq<Pending>, ms: seq<Made>, i: nat, early: bool, id: nat)
    requires i < |rs| == |ms|
    ensures Serving(rs, ms, early, id)
         == Serving(Without(rs, i), Without(ms, i), early, id) + Serves(rs[i], ms[i], early, id)
  {
    var k := |rs| - 1;
    if i == k {
      assert Without(rs, i) == rs[..k] && Without(ms, i) == ms[..k];
    } else {
      ServingWithout(rs[..k], ms[..k], i, early, id);
      var vs, ns := Without(rs, i), Without(ms, i);
      assert vs[..k - 1] == Without(rs[..k], i) && vs[k - 1] == rs[k];
      assert ns[..k - 1] == Without(ms[..k], i) && ns[k - 1] == ms[k];
    }
  }

  lemma {:induction false} ServingUpdate(rs: seq<Pending>, ms: seq<Made>, i: nat, r: Pending, m: Made, early: bool,
                                         id: nat)
    requires i < |rs| == |ms|
    ensures Serving(rs[i := r], ms[i := m], early, id)
         == Serving(rs, ms, early, id) - Serves(rs[i], ms[i], early, id) + Serves(r, m, early, id)
  {
    var k := |rs| - 1;
    if i == k {
      assert rs[i := r][..k] == rs[..k] && ms[i := m][..k] == ms[..k];
    } else {
      ServingUpdate(rs[..k], ms[..k], i, r, m, early, id);
      assert rs[i := r][..k] == rs[..k][i := r] && ms[i := m][..k] == ms[..k][i := m];
    }
  }

  lemma ServingAppend(rs: seq<Pending>, ms: seq<Made>, r: Pending, m: Made, early: bool, id: nat)
    requires |rs| == |ms|
    ensures Serving(rs + [r], ms + [m], early, id) == Serving(rs, ms, early, id) + Serves(r, m, early, id)
  {
    assert (rs + [r])[..|rs|] == rs && (ms + [m])[..|ms|] == ms;
  }

  lemma {:induction false} MidwayWithout(rs: seq<Pending>, i: nat)
    requires i < |rs|
    ensures MidwayCount(rs) == MidwayCount(Without(rs, i)) + (if IsMidway(rs[i].task) then 1 else 0)
  {
    var k := |rs| - 1;
    if i == k {
      assert Without(rs, i) == rs[..k];
    } else {
      MidwayWithout(rs[..k], i);
      var vs := Without(rs, i);
      assert vs[..k - 1] == Without(rs[..k], i) && vs[k - 1] == rs[k];
    }
  }

  lemma {:induction false} MidwayUpdate(rs: seq<Pending>, i: nat, r: Pending)
    requires i < |rs|
    ensures MidwayCount(rs[i := r])
         == MidwayCount(rs) - (if IsMidway(rs[i].task) then 1 else 0) + (if IsMidway(r.task) then 1 else 0)
  {
    var k := |rs| - 1;
    if i == k {
      assert rs[i := r][..k] == rs[..k];
    } else {
      MidwayUpdate(rs[..k], i, r);
      assert rs[i := r][..k] == rs[..k][i := r];
    }
  }

  lemma {:induction false} MidwayAt(rs: seq<Pending>, ms: seq<Made>, i: nat)
    requires i < |rs| == |ms| && IsMidway(rs[i].task)
    ensures MidwayCount(rs) >= 1 && Serving(rs, ms, false, ms[i].request) >= 1
  {
    var k := |rs| - 1;
    if i < k { MidwayAt(rs[..k], ms[..k], i); }
  }

  lemma MidwayAppend(rs: seq<Pending>, r: Pending)
    ensures MidwayCount(rs + [r]) == MidwayCount(rs) + (if IsMidway(r.task) then 1 else 0)
  {
    assert (rs + [r])[..|rs|] == rs;
  }

  // ---- The nodes of a core

  /** The handlers of node i that are between CID0 and SID0 for request id. */
  function MidAt(p: Phys, c: Trail, i: nat, id: nat): nat
    requires Shaped(p) && Along(p, c) && i <= p.n
  {
    if |c.made[i]| == |p.replies[i]| then Serving(p.replies[i], c.made[i], false, id) else 0
  }

  /** Those that may still store CID0 for it. */
  function EarlyAt(p: Phys, c: Trail, i: nat, id: nat): nat
    requires Shaped(p) && Along(p, c) && i <= p.n
  {
    (if |c.made[i]| == |p.replies[i]| then Serving(p.replies[i], c.made[i], true, id) else 0) +
    (if p.lock[i].Handling? && p.lock[i].phase.Cleared? && c.handling[i] == id then 1 else 0)
  }

  function MidTable(p: Phys, c: Trail, k: nat, id: nat): (t: seq<int>)
    requires Shaped(p) && Along(p, c)
    ensures |t| == p.n + 1
    ensures forall i :: 0 <= i <= p.n ==> t[i] == if CoreOf(p, i) == k then MidAt(p, c, i, id) else 0
  {
    seq(p.n + 1, i requires 0 <= i <= p.n => if CoreOf(p, i) == k then MidAt(p, c, i, id) else 0)
  }

  function EarlyTable(p: Phys, c: Trail, k: nat, id: nat): (t: seq<int>)
    requires Shaped(p) && Along(p, c)
    ensures |t| == p.n + 1
    ensures forall i :: 0 <= i <= p.n ==> t[i] == if CoreOf(p, i) == k then EarlyAt(p, c, i, id) else 0
  {
    seq(p.n + 1, i requires 0 <= i <= p.n => if CoreOf(p, i) == k then EarlyAt(p, c, i, id) else 0)
  }

  // ---- The invariant

  /** As many CID0 stores as SID0 stores and handlers between the two. */
  predicate CountOK(p: Phys, c: Trail, k: nat)
    requires Shaped(p) && Along(p, c) && k <= p.n
  {
    |c.cidBy[k]| == |c.sidBy[k]| + MidwayOn(p, k)
  }

  /** The same for each request: who has stored CID0 has stored SID0 too or is between the two. */
  predicate OrderOK(p: Phys, c: Trail, k: nat, id: nat)
    requires Shaped(p) && Along(p, c) && k <= p.n
  {
    Occurs(c.cidBy[k], id) == Occurs(c.sidBy[k], id) + Total(MidTable(p, c, k, id))
  }

  /** Request id has stored CID0, or may still do so, once at most, and only when it has been consumed. */
  predicate UniqueOK(p: Phys, h: Hist, c: Trail, k: nat, id: nat)
    requires Shaped(p) && Along(p, c) && k <= p.n
  {
    Occurs(c.cidBy[k], id) + Total(EarlyTable(p, c, k, id)) <= if id in h.consumed then 1 else 0
  }

  // ---- What the acting node does

  /** From (p, c) to (q, t) node d has done its own bookkeeping on core k: its entries have changed as the
      lists have. `taken` says whether it has just consumed request id. */
  predicate Booked(p: Phys, c: Trail, q: Phys, t: Trail, d: nat, k: nat, id: nat, taken: bool)
    requires Shaped(p) && Along(p, c) && Shaped(q) && Along(q, t) && q.n == p.n && d <= p.n && k <= p.n
  {
    |t.cidBy[k]| - |t.sidBy[k]| - MidwayCount(q.replies[d])
      == |c.cidBy[k]| - |c.sidBy[k]| - MidwayCount(p.replies[d]) &&
    Occurs(t.cidBy[k], id) - Occurs(t.sidBy[k], id) - MidAt(q, t, d, id)
      == Occurs(c.cidBy[k], id) - Occurs(c.sidBy[k], id) - MidAt(p, c, d, id) &&
    Occurs(t.cidBy[k], id) + EarlyAt(q, t, d, id)
      <= Occurs(c.cidBy[k], id) + EarlyAt(p, c, d, id) + (if taken then 1 else 0)
  }

  lemma SenderBooks(p: Phys, c: Trail, s: nat, o: SendOp, id: nat)
    requires Shaped(p) && Along(p, c) && Node(p.n, s) && SendEnabled(p, s, o) && |c.made[s]| == |p.replies[s]|
    ensures Booked(p, c, SendPhys(p, s, o), SenderTrail(p, c, s, o), s, CoreOf(p, s), id, false)
  {
    if o.ReplyBegin? || o.ReplyRefuse? {
      MidwayWithout(p.replies[s], o.i);
      ServingWithout(p.replies[s], c.made[s], o.i, false, id);
      ServingWithout(p.replies[s], c.made[s], o.i, true, id);
    }
  }

  lemma HandlerBooks(p: Phys, h: Hist, c: Trail, d: nat, o: HandlerOp, id: nat)
    requires Shaped(p) && ShapedHist(p, h) && Along(p, c) && Node(p.n, d) && HandlerEnabled(p, d, o)
    requires |c.made[d]| == |p.replies[d]|
    ensures Booked(p, c, HandlerPhys(p, d, o), HandlerTrail(p, h, c, d, o), d, CoreOf(p, d), id,
                   o.Consume? && h.cur[p.lock[d].src] == id)
  {
    if o.Unlock? {
      var r := Pending(p.lock[d].src, FirstTask(p.lock[d].phase.request));
      var m := Made(c.handling[d], Snap(0, 0, 0), Snap(0, 0, 0));
      MidwayAppend(p.replies[d], r);
      ServingAppend(p.replies[d], c.made[d], r, m, false, id);
      ServingAppend(p.replies[d], c.made[d], r, m, true, id);
    }
  }

  /** What a step after the lock has been dropped leaves of the trail. */
  predicate TailLeaves(p: Phys, c: Trail, d: nat, i: nat, o: TailOp, q: Phys, t: Trail)
    requires Shaped(p) && Along(p, c) && Node(p.n, d) && TailEnabled(p, d, i, o) && i < |c.made[d]|
    requires Shaped(q) && Along(q, t) && q.n == p.n
  {
    var k, n := CoreOf(p, d), if o.StoreNext? then p.replies[d][i].task.k else 0;
    |q.replies[d]| == |p.replies[d]| && q.replies[d] == p.replies[d][i := q.replies[d][i]] &&
    |t.made[d]| == |c.made[d]| && t.made[d] == c.made[d][i := t.made[d][i]] &&
    t.made[d][i].request == c.made[d][i].request && q.replies[d][i].task == NextTask(p, d, i, o) &&
    t.cidBy[k] == c.cidBy[k] + (if n == 2 then [c.made[d][i].request] else []) &&
    t.sidBy[k] == c.sidBy[k] + (if n == 3 then [c.made[d][i].request] else []) &&
    q.lock == p.lock && t.handling == c.handling
  }

  lemma TailEffect(p: Phys, c: Trail, d: nat, i: nat, o: TailOp)
    requires Shaped(p) && Along(p, c) && Node(p.n, d) && TailEnabled(p, d, i, o) && i < |c.made[d]|
    ensures TailLeaves(p, c, d, i, o, TailPhys(p, d, i, o), TailTrail(p, c, d, i, o))
  {
  }

  lemma StoreOccurs(s: seq<nat>, t: seq<nat>, stored: bool, x: nat, id: nat)
    requires t == s + (if stored then [x] else [])
    ensures Occurs(t, id) == Occurs(s, id) + (if stored && x == id then 1 else 0)
  {
    if stored { OccursAppend(s, x, id); } else { assert t == s; }
  }

  lemma TailArithmetic(p: Phys, c: Trail, d: nat, i: nat, o: TailOp, id: nat, q: Phys, t: Trail)
    requires Shaped(p) && Along(p, c) && Node(p.n, d) && TailEnabled(p, d, i, o) && |c.made[d]| == |p.replies[d]|
    requires Shaped(q) && Along(q, t) && q.n == p.n && TailLeaves(p, c, d, i, o, q, t)
    ensures Booked(p, c, q, t, d, CoreOf(p, d), id, false)
  {
    var rs, ms, k := p.replies[d], c.made[d], CoreOf(p, d);
    var n := if o.StoreNext? then rs[i].task.k else 0;
    MidwayUpdate(rs, i, q.replies[d][i]);
    ServingUpdate(rs, ms, i, q.replies[d][i], t.made[d][i], false, id);
    ServingUpdate(rs, ms, i, q.replies[d][i], t.made[d][i], true, id);
    StoreOccurs(c.cidBy[k], t.cidBy[k], n == 2, ms[i].request, id);
    StoreOccurs(c.sidBy[k], t.sidBy[k], n == 3, ms[i].request, id);
  }

  lemma TailBooks(p: Phys, c: Trail, d: nat, i: nat, o: TailOp, id: nat)
    requires Shaped(p) && Along(p, c) && Node(p.n, d) && TailEnabled(p, d, i, o) && |c.made[d]| == |p.replies[d]|
    ensures Booked(p, c, TailPhys(p, d, i, o), TailTrail(p, c, d, i, o), d, CoreOf(p, d), id, false)
  {
    TailEffect(p, c, d, i, o);
    TailArithmetic(p, c, d, i, o, id, TailPhys(p, d, i, o), TailTrail(p, c, d, i, o));
  }

  lemma ReaderBooks(p: Phys, c: Trail, r: nat, o: ReadOp, id: nat)
    requires Shaped(p) && Along(p, c) && Node(p.n, r) && ReadEnabled(p, r, o)
    ensures Booked(p, c, ReadPhys(p, r, o), c, r, CoreOf(p, r), id, false)
  {
  }

  /** The step is the consumption of request id. */
  predicate Consumes(st: State, a: Step, id: nat)
    requires ShapedState(st) && Enabled(st.p, a)
  {
    a.ByHandler? && a.isr.Consume? && st.h.cur[st.p.lock[a.at].src] == id
  }

  lemma ActorBooks(st: State, c: Trail, a: Step, id: nat)
    requires ShapedState(st) && Along(st.p, c) && Enabled(st.p, a) && |c.made[a.at]| == |st.p.replies[a.at]|
    ensures Booked(st.p, c, Next(st, a).p, NextTrail(st, c, a), a.at, CoreOf(st.p, a.at), id, Consumes(st, a, id))
  {
    match a {
      case BySender(s, o) => SenderBooks(st.p, c, s, o, id);
      case ByHandler(d, o) => HandlerBooks(st.p, st.h, c, d, o, id);
      case ByTail(d, i, o) => TailBooks(st.p, c, d, i, o, id);
      case ByReader(r, o) => ReaderBooks(st.p, c, r, o, id);
    }
  }

  // ---- What it leaves alone

  /** What of node x neither a step of another node nor the trail of that step touches. */
  predicate Untouched(p: Phys, q: Phys, c: Trail, t: Trail, x: nat)
    requires Shaped(p) && Shaped(q) && q.n == p.n && Along(p, c) && Along(q, t) && x <= p.n
  {
    q.lock[x] == p.lock[x] && q.send[x] == p.send[x] && q.replies[x] == p.replies[x] &&
    t.handling[x] == c.handling[x] && t.made[x] == c.made[x] && t.sending[x] == c.sending[x]
  }

  lemma OthersPhysUntouched(p: Phys, a: Step, x: nat)
    requires Shaped(p) && Enabled(p, a) && x <= p.n && x != a.at
    ensures var q := NextPhys(p, a);
            q.lock[x] == p.lock[x] && q.send[x] == p.send[x] && q.replies[x] == p.replies[x]
  {
  }

  lemma OthersUntouched(st: State, c: Trail, a: Step, x: nat)
    requires ShapedState(st) && Along(st.p, c) && Enabled(st.p, a) && x <= st.p.n && x != a.at
    ensures Untouched(st.p, Next(st, a).p, c, NextTrail(st, c, a), x)
  {
    OthersPhysUntouched(st.p, a, x);
  }

  lemma OtherCoresUntouched(st: State, c: Trail, a: Step, k: nat)
    requires ShapedState(st) && Along(st.p, c) && Enabled(st.p, a) && k <= st.p.n && k != CoreOf(st.p, a.at)
    ensures var t := NextTrail(st, c, a);
            t.cidBy[k] == c.cidBy[k] && t.sidBy[k] == c.sidBy[k] && Next(st, a).p.core[k] == st.p.core[k]
  {
  }

  // ---- Every core keeps it

  /** The three sums over the nodes of core k, before and after a step of node d. */
  predicate SumsMove(p: Phys, c: Trail, q: Phys, t: Trail, d: nat, k: nat, id: nat)
    requires Shaped(p) && Along(p, c) && Shaped(q) && Along(q, t) && q.n == p.n && d <= p.n && k <= p.n
  {
    var own := CoreOf(p, d) == k;
    MidwayOn(q, k) - MidwayOn(p, k)
      == (if own then MidwayCount(q.replies[d]) - MidwayCount(p.replies[d]) else 0) &&
    Total(MidTable(q, t, k, id)) - Total(MidTable(p, c, k, id))
      == (if own then MidAt(q, t, d, id) - MidAt(p, c, d, id) else 0) &&
    Total(EarlyTable(q, t, k, id)) - Total(EarlyTable(p, c, k, id))
      == (if own then EarlyAt(q, t, d, id) - EarlyAt(p, c, d, id) else 0)
  }

  lemma OneNodeMoves(p: Phys, c: Trail, q: Phys, t: Trail, d: nat, k: nat, id: nat)
    requires Shaped(p) && Along(p, c) && Shaped(q) && Along(q, t) && q.n == p.n && q.host == p.host
    requires d <= p.n && k <= p.n && forall x: nat :: x <= p.n && x != d ==> Untouched(p, q, c, t, x)
    ensures SumsMove(p, c, q, t, d, k, id)
  {
    forall x: nat | x <= p.n && x != d
      ensures MidwayTable(q, k)[x] == MidwayTable(p, k)[x] && MidTable(q, t, k, id)[x] == MidTable(p, c, k, id)[x] &&
              EarlyTable(q, t, k, id)[x] == EarlyTable(p, c, k, id)[x]
    {
      assert Untouched(p, q, c, t, x);
    }
    TotalChange(MidwayTable(p, k), MidwayTable(q, k), d);
    TotalChange(MidTable(p, c, k, id), MidTable(q, t, k, id), d);
    TotalChange(EarlyTable(p, c, k, id), EarlyTable(q, t, k, id), d);
  }

  lemma StepSums(st: State, c: Trail, a: Step, k: nat, id: nat)
    requires ShapedState(st) && Along(st.p, c) && Enabled(st.p, a) && k <= st.p.n
    ensures SumsMove(st.p, c, Next(st, a).p, NextTrail(st, c, a), a.at, k, id)
  {
    forall x: nat | x <= st.p.n && x != a.at ensures Untouched(st.p, Next(st, a).p, c, NextTrail(st, c, a), x) {
      OthersUntouched(st, c, a, x);
    }
    OneNodeMoves(st.p, c, Next(st, a).p, NextTrail(st, c, a), a.at, k, id);
  }

  lemma StepKeepsBooks(st: State, c: Trail, a: Step, k: nat, id: nat)
    requires ShapedState(st) && Along(st.p, c) && Enabled(st.p, a) && k <= st.p.n
    requires |c.made[a.at]| == |st.p.replies[a.at]|
    requires CountOK(st.p, c, k) && OrderOK(st.p, c, k, id) && UniqueOK(st.p, st.h, c, k, id)
    requires st.h.consumed <= Next(st, a).h.consumed
    requires Consumes(st, a, id) ==> id !in st.h.consumed && id in Next(st, a).h.consumed
    ensures var q, t := Next(st, a).p, NextTrail(st, c, a);
            CountOK(q, t, k) && OrderOK(q, t, k, id) && UniqueOK(q, Next(st, a).h, t, k, id)
  {
    StepSums(st, c, a, k, id);
    ActorBooks(st, c, a, id);
    if k != CoreOf(st.p, a.at) { OtherCoresUntouched(st, c, a, k); }
  }
}
