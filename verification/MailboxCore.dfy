/** What the automatic replies say. Handlers work on a Core Structure after they have dropped the lock, and
    the adapters of one host share one core, so the loads and stores of many handlers interleave on it.
    A trail beside the run records, for every core, which CTL-Writes have stored CID0 and SID0, in which
    order, and for every reply what it was made of. */
module MailboxCore {
  import opened Basics
  import opened CText
  import opened LinkMessages
  import opened Mailbox

  // ---- The trail

  /** What had happened at a load: CID0 stores, SID0 stores, and handlers between the two. */
  datatype Snap = Snap(cids: nat, sids: nat, midway: nat)

  /** What a reply is made of: the request, and the moments of its two loads, if it makes any. */
  datatype Made = Made(request: nat, cidAt: Snap, sidAt: Snap)

  datatype Trail = Trail(
    host: seq<nat>,                  // Phys.host
    first: seq<Core>,                // the cores at the start
    cidBy: seq<seq<nat>>,            // by core: CTL-Writes that have stored CID0, in order
    sidBy: seq<seq<nat>>,            // by core: CTL-Writes that have stored SID0, in order
    handling: seq<nat>,              // by node: request that the handler under the lock has consumed
    made: seq<seq<Made>>,            // by node, beside Phys.replies
    sending: seq<Made>,              // by node, beside Phys.send
    sent: seq<Option<Made>>)         // beside Hist.log

  predicate Tables(c: Trail)
  {
    var k := |c.host|;
    |c.first| == k && |c.cidBy| == k && |c.sidBy| == k && |c.handling| == k && |c.made| == k && |c.sending| == k
  }

  predicate Along(p: Phys, c: Trail) { Tables(c) && c.host == p.host }

  /** The core that node d uses. */
  function Where(c: Trail, d: nat): (k: nat)
    requires d < |c.host|
    ensures k < |c.host|
  {
    CoreIn(c.host, d)
  }

  /** CID0 is store 2 of a CTL-Write and SID0 store 3. */
  predicate IsMidway(t: Task) { t.Storing? && t.k == 3 }
  predicate IsEarly(t: Task) { t.Storing? && t.k <= 2 }

  function MidwayCount(rs: seq<Pending>): nat
  {
    if rs == [] then 0 else MidwayCount(rs[..|rs| - 1]) + (if IsMidway(rs[|rs| - 1].task) then 1 else 0)
  }

  function MidwayTable(p: Phys, k: nat): (t: seq<int>)
    requires Shaped(p)
    ensures |t| == p.n + 1
    ensures forall i :: 0 <= i <= p.n ==> t[i] == if CoreOf(p, i) == k then MidwayCount(p.replies[i]) else 0
  {
    seq(p.n + 1, i requires 0 <= i <= p.n => if CoreOf(p, i) == k then MidwayCount(p.replies[i]) else 0)
  }

  /** The handlers, of all nodes that use core k, that are between their CID0 and SID0 stores. */
  function MidwayOn(p: Phys, k: nat): (m: nat)
    requires Shaped(p)
    ensures m == Total(MidwayTable(p, k))
  {
    TotalNonNegative(MidwayTable(p, k));
    Total(MidwayTable(p, k))
  }

  function SnapNow(p: Phys, c: Trail, k: nat): Snap
    requires Shaped(p) && Along(p, c) && k <= p.n
  {
    Snap(|c.cidBy[k]|, |c.sidBy[k]|, MidwayOn(p, k))
  }

  function Drop(c: Trail, d: nat, i: nat): Trail
    requires d < |c.made|
  {
    if i < |c.made[d]| then c.(made := c.made[d := Without(c.made[d], i)]) else c
  }

  function SenderTrail(p: Phys, c: Trail, s: nat, o: SendOp): (t: Trail)
    requires Shaped(p) && Along(p, c) && Node(p.n, s) && SendEnabled(p, s, o)
    ensures Along(p, t)
  {
    match o
    case ReplyBegin(i) =>
      if i < |c.made[s]| then Drop(c, s, i).(sending := c.sending[s := c.made[s][i]]) else c
    case ReplyRefuse(i) => Drop(c, s, i)
    case Ring => c.(sent := c.sent + [if p.send[s].reply then Some(c.sending[s]) else None])
    case _ => c
  }

  function HandlerTrail(p: Phys, h: Hist, c: Trail, d: nat, o: HandlerOp): (t: Trail)
    requires Shaped(p) && ShapedHist(p, h) && Along(p, c) && Node(p.n, d) && HandlerEnabled(p, d, o)
    ensures Along(p, t)
  {
    match o
    case Consume => c.(handling := c.handling[d := h.cur[p.lock[d].src]])
    case Unlock =>
      c.(made := c.made[d := c.made[d] + [Made(c.handling[d], Snap(0, 0, 0), Snap(0, 0, 0))]])
    case _ => c
  }

  function TailTrail(p: Phys, c: Trail, d: nat, i: nat, o: TailOp): (t: Trail)
    requires Shaped(p) && Along(p, c) && Node(p.n, d) && TailEnabled(p, d, i, o)
    ensures Along(p, t)
  {
    if i >= |c.made[d]| then c
    else
      var m, k := c.made[d][i], CoreOf(p, d);
      var now := SnapNow(p, c, k);
      match o
      case StoreNext =>
        if p.replies[d][i].task.k == 2 then c.(cidBy := c.cidBy[k := c.cidBy[k] + [m.request]])
        else if p.replies[d][i].task.k == 3 then c.(sidBy := c.sidBy[k := c.sidBy[k] + [m.request]])
        else c
      case LoadCid => c.(made := c.made[d := c.made[d][i := m.(cidAt := now)]])
      case LoadSid => c.(made := c.made[d := c.made[d][i := m.(sidAt := now)]])
      case Format => c
  }

  function NextTrail(st: State, c: Trail, a: Step): (t: Trail)
    requires ShapedState(st) && Along(st.p, c) && Enabled(st.p, a)
    ensures Along(st.p, t)
  {
    match a
    case BySender(s, o) => SenderTrail(st.p, c, s, o)
    case ByHandler(d, o) => HandlerTrail(st.p, st.h, c, d, o)
    case ByTail(d, i, o) => TailTrail(st.p, c, d, i, o)
    case ByReader(_, _) => c
  }

  function Start(p: Phys): (c: Trail)
    requires Shaped(p)
    ensures Along(p, c)
  {
    var k := p.n + 1;
    var nothing := Made(0, Snap(0, 0, 0), Snap(0, 0, 0));
    Trail(p.host, p.core, seq(k, _ => []), seq(k, _ => []), seq(k, _ => 0), seq(k, _ => []), seq(k, _ => nothing), [])
  }

  function TrailAfter(st: State, c: Trail, steps: seq<Step>): (t: Trail)
    requires ShapedState(st) && Along(st.p, c) && IsRun(st, steps)
    ensures Along(st.p, t)
    decreases steps
  {
    if steps == [] then c else TrailAfter(Next(st, steps[0]), NextTrail(st, c, steps[0]), steps[1..])
  }

  /** The trail of a run. */
  function Trace(st: State, steps: seq<Step>): (c: Trail)
    requires ShapedState(st) && IsRun(st, steps)
    ensures Along(st.p, c)
  {
    TrailAfter(st, Start(st.p), steps)
  }

  // ---- What replies say

  /** The CTL-Write that message id carries. */
  function WriteIn(log: seq<Message>, id: nat): Option<Request>
  {
    if id < |log| && RequestIn(log[id].body).Some? && RequestIn(log[id].body).value.CtlWrite?
    then RequestIn(log[id].body) else None
  }

  /** What CID0 of core k holds after n stores: what the n-th CTL-Write carried, at first what it held. */
  function CidOf(log: seq<Message>, c: Trail, k: nat, n: nat): int
    requires Tables(c) && k < |c.host|
  {
    if n == 0 || n > |c.cidBy[k]| then c.first[k].cid0
    else match WriteIn(log, c.cidBy[k][n - 1]) case Some(w) => w.cid case None => 0
  }

  function SidOf(log: seq<Message>, c: Trail, k: nat, n: nat): int
    requires Tables(c) && k < |c.host|
  {
    if n == 0 || n > |c.sidBy[k]| then c.first[k].sid0
    else match WriteIn(log, c.sidBy[k][n - 1]) case Some(w) => w.sid case None => 0
  }

  /** Message id is a request from src to d. */
  predicate Asked(log: seq<Message>, d: nat, src: nat, id: nat)
  {
    id < |log| && log[id].src == src && log[id].dst == d && RequestIn(log[id].body).Some?
  }

  predicate SnapOK(c: Trail, k: nat, s: Snap)
    requires Tables(c) && k < |c.host|
  {
    s.cids <= |c.cidBy[k]| && s.sids <= |c.sidBy[k]| && s.cids == s.sids + s.midway
  }

  /** The ACK that core k gives at the two loads of m. */
  function AckOf(log: seq<Message>, c: Trail, k: nat, m: Made): bytes
    requires Tables(c) && k < |c.host|
  {
    AckText(c.first[k].cclass, CidOf(log, c, k, m.cidAt.cids), SidOf(log, c, k, m.sidAt.sids))
  }

  /** The text of a reply by node d to src is the one that its request asks for. An ACK reports CID0 of the
      node's core as of its CID load and SID0 as of its SID load. */
  predicate Says(log: seq<Message>, c: Trail, d: nat, src: nat, m: Made, text: bytes)
    requires Tables(c) && d < |c.host|
  {
    var k := Where(c, d);
    Asked(log, d, src, m.request) &&
    match RequestIn(log[m.request].body).value
    case Ping => text == PONG
    case PeerAttribute =>
      SnapOK(c, k, m.cidAt) && SnapOK(c, k, m.sidAt) && text == AckOf(log, c, k, m)
    case CtlWrite(_, _, _, _, tag) => text == StandaloneText(tag)
  }

  /** A reply in the making is right as far as it has got. */
  predicate TailOK(log: seq<Message>, c: Trail, d: nat, r: Pending, m: Made)
    requires Tables(c) && d < |c.host|
  {
    var k := Where(c, d);
    Asked(log, d, r.dst, m.request) &&
    match r.task
    case Storing(w, _) => RequestIn(log[m.request].body) == Some(w) && w.CtlWrite?
    case Loading(x, y) =>
      RequestIn(log[m.request].body) == Some(PeerAttribute) &&
      (x.Some? ==> SnapOK(c, k, m.cidAt) && x.value == CidOf(log, c, k, m.cidAt.cids)) &&
      (y.Some? ==> SnapOK(c, k, m.sidAt) && y.value == SidOf(log, c, k, m.sidAt.sids))
    case Ready(text) => Says(log, c, d, r.dst, m, text)
  }

  /** The stores recorded for core k are those of CTL-Writes in the log. */
  predicate StoresOK(log: seq<Message>, c: Trail, k: nat)
    requires Tables(c) && k < |c.host|
  {
    (forall i :: 0 <= i < |c.cidBy[k]| ==> WriteIn(log, c.cidBy[k][i]).Some?) &&
    (forall i :: 0 <= i < |c.sidBy[k]| ==> WriteIn(log, c.sidBy[k][i]).Some?)
  }

  /** Core k holds what was stored last. */
  predicate CellsOK(core: Core, log: seq<Message>, c: Trail, k: nat)
    requires Tables(c) && k < |c.host|
  {
    core.cclass == c.first[k].cclass && StoresOK(log, c, k) &&
    core.cid0 == CidOf(log, c, k, |c.cidBy[k]|) && core.sid0 == SidOf(log, c, k, |c.sidBy[k]|)
  }

  predicate HandlingOK(l: Lock, log: seq<Message>, c: Trail, d: nat)
    requires d < |c.handling|
  {
    l.Handling? && l.phase.Cleared? ==>
      Asked(log, d, l.src, c.handling[d]) && RequestIn(log[c.handling[d]].body) == Some(l.phase.request)
  }

  predicate SendingOK(w: Send, log: seq<Message>, c: Trail, d: nat)
    requires Tables(c) && d < |c.host|
  {
    !w.Idle? && w.reply ==> Says(log, c, d, w.dst, c.sending[d], w.body)
  }

  predicate TailsOK(rs: seq<Pending>, log: seq<Message>, c: Trail, d: nat)
    requires Tables(c) && d < |c.host|
  {
    |c.made[d]| == |rs| && forall i :: 0 <= i < |rs| ==> TailOK(log, c, d, rs[i], c.made[d][i])
  }

  /** Everything that node d has in hand. */
  predicate HandsOK(p: Phys, log: seq<Message>, c: Trail, d: nat)
    requires Shaped(p) && Along(p, c) && Node(p.n, d)
  {
    HandlingOK(p.lock[d], log, c, d) && SendingOK(p.send[d], log, c, d) && TailsOK(p.replies[d], log, c, d)
  }

  predicate SentOK(log: seq<Message>, c: Trail, id: nat)
    requires id < |log| && id < |c.sent|
  {
    var m := log[id];
    (c.sent[id].Some? <==> m.reply) &&
    (m.reply ==> Tables(c) && m.src < |c.host| && Says(log, c, m.src, m.dst, c.sent[id].value, m.body))
  }

  // ---- Growth changes nothing that has been said

  /** The trail of core k has only grown. */
  predicate Grown(c: Trail, t: Trail, k: nat)
  {
    Tables(c) && Tables(t) && t.host == c.host && k < |c.host| &&
    t.first[k] == c.first[k] && c.cidBy[k] <= t.cidBy[k] && c.sidBy[k] <= t.sidBy[k]
  }

  lemma CidStays(log: seq<Message>, more: seq<Message>, c: Trail, t: Trail, k: nat, n: nat)
    requires log <= more && Grown(c, t, k) && StoresOK(log, c, k) && n <= |c.cidBy[k]|
    ensures CidOf(more, t, k, n) == CidOf(log, c, k, n)
  {
  }

  lemma SidStays(log: seq<Message>, more: seq<Message>, c: Trail, t: Trail, k: nat, n: nat)
    requires log <= more && Grown(c, t, k) && StoresOK(log, c, k) && n <= |c.sidBy[k]|
    ensures SidOf(more, t, k, n) == SidOf(log, c, k, n)
  {
  }

  /** What was said with trail c and log is still said with t and more. */
  predicate Carries(log: seq<Message>, more: seq<Message>, c: Trail, t: Trail, d: nat)
  {
    log <= more && Tables(c) && d < |c.host| && Grown(c, t, Where(c, d)) && StoresOK(log, c, Where(c, d))
  }

  lemma SaysStays(log: seq<Message>, more: seq<Message>, c: Trail, t: Trail, d: nat, src: nat, m: Made, text: bytes)
    requires Carries(log, more, c, t, d) && Says(log, c, d, src, m, text)
    ensures Says(more, t, d, src, m, text)
  {
    if RequestIn(log[m.request].body).value.PeerAttribute? {
      CidStays(log, more, c, t, Where(c, d), m.cidAt.cids);
      SidStays(log, more, c, t, Where(c, d), m.sidAt.sids);
    }
  }

  lemma TailStays(log: seq<Message>, more: seq<Message>, c: Trail, t: Trail, d: nat, r: Pending, m: Made)
    requires Carries(log, more, c, t, d) && TailOK(log, c, d, r, m)
    ensures TailOK(more, t, d, r, m)
  {
    match r.task {
      case Storing(_, _) =>
      case Loading(x, y) =>
        if x.Some? { CidStays(log, more, c, t, Where(c, d), m.cidAt.cids); }
        if y.Some? { SidStays(log, more, c, t, Where(c, d), m.sidAt.sids); }
      case Ready(text) => SaysStays(log, more, c, t, d, r.dst, m, text);
    }
  }

  lemma CellsStay(core: Core, log: seq<Message>, more: seq<Message>, c: Trail, t: Trail, k: nat)
    requires log <= more && Grown(c, t, k) && t.cidBy[k] == c.cidBy[k] && t.sidBy[k] == c.sidBy[k]
    requires CellsOK(core, log, c, k)
    ensures CellsOK(core, more, t, k)
  {
    CidStays(log, more, c, t, k, |c.cidBy[k]|);
    SidStays(log, more, c, t, k, |c.sidBy[k]|);
  }

  lemma TailsStay(rs: seq<Pending>, log: seq<Message>, more: seq<Message>, c: Trail, t: Trail, d: nat)
    requires Carries(log, more, c, t, d) && TailsOK(rs, log, c, d) && t.made[d] == c.made[d]
    ensures TailsOK(rs, more, t, d)
  {
    forall i | 0 <= i < |rs| ensures TailOK(more, t, d, rs[i], t.made[d][i]) {
      TailStays(log, more, c, t, d, rs[i], c.made[d][i]);
    }
  }

  lemma SendingStays(w: Send, log: seq<Message>, more: seq<Message>, c: Trail, t: Trail, d: nat)
    requires Carries(log, more, c, t, d) && SendingOK(w, log, c, d) && t.sending[d] == c.sending[d]
    ensures SendingOK(w, more, t, d)
  {
    if !w.Idle? && w.reply { SaysStays(log, more, c, t, d, w.dst, c.sending[d], w.body); }
  }

  /** A node that does not act itself, whatever others store into its core. */
  lemma OthersStay(p: Phys, q: Phys, log: seq<Message>, more: seq<Message>, c: Trail, t: Trail, d: nat)
    requires Shaped(p) && Shaped(q) && q.n == p.n && Along(p, c) && Along(q, t) && Node(p.n, d)
    requires Carries(log, more, c, t, d) && HandsOK(p, log, c, d)
    requires q.lock[d] == p.lock[d] || !q.lock[d].Handling?
    requires q.send[d] == p.send[d] && q.replies[d] == p.replies[d]
    requires t.handling[d] == c.handling[d] && t.made[d] == c.made[d] && t.sending[d] == c.sending[d]
    ensures HandsOK(q, more, t, d)
  {
    SendingStays(p.send[d], log, more, c, t, d);
    TailsStay(p.replies[d], log, more, c, t, d);
  }
}
