/** Runs in which handlers of one node overlap on its core: a torn ACK, an ACK that is whole although a
    handler was between its stores at a load, and a core that stays mixed after all handlers are done. */
module MailboxAckRuns {
  import opened Basics
  import opened CText
  import opened LinkMessages
  import opened Mailbox
  import opened MailboxSolo
  import opened MailboxSoloLink
  import opened MailboxCore

  function RequestSteps(s: nat, d: nat, text: bytes): seq<Step> { UserSteps(s, d, text) + ConsumeSteps(d, s) }

  /** A request sent from s to d and taken there: only what it changes. */
  lemma TakeRequest(st: State, s: nat, d: nat, text: bytes) returns (t: State)
    requires ReadyForBoth(st, s, d, text) && RequestIn(text).Some?
    ensures Leads(st, RequestSteps(s, d, text), t) && ShapedState(t) && t.p.n == st.p.n && t.p.max == st.p.max
    ensures t.p.send == st.p.send && t.p.lock == st.p.lock && t.p.core == st.p.core
    ensures t.p.replies == st.p.replies[d := st.p.replies[d] + [Pending(s, FirstTask(RequestIn(text).value))]]
    ensures t.p.host == st.p.host && forall j :: 0 <= j <= st.p.n && j != s ==> t.p.slots[j] == st.p.slots[j]
  {
    UserEffect(st, s, d, text);
    UserInARow(st, s, d, text);
    var u := UserEnd(st, s, d, text);
    ConsumeInARow(u, d, s);
    t := ConsumeEnd(u, d, s);
    Then(st, UserSteps(s, d, text), u, ConsumeSteps(d, s), t);
  }

  /** Node 3 has taken requests from 1 and 2, and both handlers have dropped the lock. */
  predicate Both(st: State, t: State, one: Task, two: Task)
  {
    ShapedState(t) && t.p.n >= 3 && t.p.n == st.p.n && t.p.max == st.p.max && ShapedState(st) &&
    t.p.replies[3] == [Pending(1, one), Pending(2, two)] && t.p.core == st.p.core && t.p.host == st.p.host &&
    t.p.send[3].Idle? && t.p.slots[3] == st.p.slots[3]
  }

  lemma TwoRequests(st: State, one: bytes, two: bytes) returns (run: seq<Step>, t: State)
    requires Init(st) && st.p.n >= 3 && 0 < |one| < st.p.max && 0 < |two| < st.p.max
    requires RequestIn(one).Some? && RequestIn(two).Some?
    ensures Leads(st, run, t) && Both(st, t, FirstTask(RequestIn(one).value), FirstTask(RequestIn(two).value))
  {
    var u := TakeRequest(st, 1, 3, one);
    t := TakeRequest(u, 2, 3, two);
    Then(st, RequestSteps(1, 3, one), u, RequestSteps(2, 3, two), t);
    run := RequestSteps(1, 3, one) + RequestSteps(2, 3, two);
  }

  /** Node d sends the reply that is ready at place i. */
  lemma ReplyOut(st: State, d: nat, i: nat) returns (run: seq<Step>, t: State)
    requires ShapedState(st) && Node(st.p.n, d) && st.p.send[d].Idle? && IsReady(st.p, d, i)
    requires st.p.slots[d].buflen == 0 && |st.p.replies[d][i].task.text| < st.p.max == |st.p.slots[d].buf|
    ensures Leads(st, run, t)
    ensures t.h.log == st.h.log + [Message(d, st.p.replies[d][i].dst, st.p.replies[d][i].task.text, true)]
  {
    var u := Next(st, BySender(d, ReplyBegin(i)));
    SendInARow(u, d);
    t := SendEnd(u, d);
    var k := |u.p.send[d].body|;
    StepFirst(st, BySender(d, ReplyBegin(i)), SendSteps(d, k), t);
    run := [BySender(d, ReplyBegin(i))] + SendSteps(d, k);
  }

  /** The requests are what they should be. */
  lemma RequestTexts(w: Request)
    requires w.CtlWrite? && ValidRequest(w)
    ensures RequestIn(PEER_ATTRIBUTE) == Some(PeerAttribute) && |PEER_ATTRIBUTE| == 23
    ensures RequestIn(CtlWriteText(w)) == Some(w) && CtlWriteText(w) != []
  {
    PeerAttributeText();
    CtlWriteRoundTrip(w);
    PrintedHead(CTL_WRITE, [w.pfmcid, w.pfmsid, w.cid, w.sid, w.tag]);
  }

  lemma PeerAttributeText()
    ensures RequestIn(PEER_ATTRIBUTE) == Some(PeerAttribute) && |PEER_ATTRIBUTE| == 23
  {
    assert PING != PEER_ATTRIBUTE by { assert |PING| == 4; }
  }

  /** Handler i of node 3 makes the first k stores of its CTL-Write: only what they change. */
  lemma StoreSome(t: State, i: nat, w: Request, k: nat) returns (u: State)
    requires ShapedState(t) && t.p.n >= 3 && i < |t.p.replies[3]| && w.CtlWrite? && k <= CORE_STORES
    requires t.p.replies[3][i].task == Storing(w, 0)
    ensures Leads(t, Repeat(ByTail(3, i, StoreNext), k), u) && ShapedState(u) && u.p.n == t.p.n && u.p.max == t.p.max
    ensures u.p.host == t.p.host && u.p.replies[3] == t.p.replies[3][i := t.p.replies[3][i].(task := Storing(w, k))]
    ensures CoreAt(u.p, 3) == CoreStored(CoreAt(t.p, 3), w, k) && u.p.send == t.p.send && u.p.slots == t.p.slots
  {
    assert WithTask(t, 3, i, CoreAt(t.p, 3), Storing(w, 0)).p.replies[3] == t.p.replies[3];
    assert WithTask(t, 3, i, CoreAt(t.p, 3), Storing(w, 0)) == t;
    StoresInARow(t, 3, i, w, k);
    u := WithTask(t, 3, i, CoreStored(CoreAt(t.p, 3), w, k), Storing(w, k));
  }

  /** A Peer-Attribute request from 1 and CTL-Write w from 2 are at work; the CTL-Write has stored CID0 and
      not yet SID0. */
  lemma HalfWritten(st: State, w: Request) returns (run: seq<Step>, t: State)
    requires Init(st) && st.p.n >= 3 && w.CtlWrite? && ValidRequest(w) && 128 <= st.p.max
    requires |CtlWriteText(w)| < st.p.max
    ensures Leads(st, run, t) && ShapedState(t) && t.p.n == st.p.n && t.p.max == st.p.max
    ensures t.p.replies[3] == [Pending(1, Loading(None, None)), Pending(2, Storing(w, 3))]
    ensures CoreAt(t.p, 3).cclass == CoreAt(st.p, 3).cclass && CoreAt(t.p, 3).cid0 == w.cid
    ensures CoreAt(t.p, 3).sid0 == CoreAt(st.p, 3).sid0
    ensures t.p.send[3].Idle? && t.p.slots[3] == st.p.slots[3]
  {
    RequestTexts(w);
    var first, u := TwoRequests(st, PEER_ATTRIBUTE, CtlWriteText(w));
    t := StoreSome(u, 1, w, 3);
    HalfStored(CoreAt(u.p, 3), w);
    Then(st, first, u, Repeat(ByTail(3, 1, StoreNext), 3), t);
    run := first + Repeat(ByTail(3, 1, StoreNext), 3);
  }

  lemma HalfStored(c: Core, w: Request)
    requires w.CtlWrite?
    ensures CoreStored(c, w, 3) == c.(pfmcid := w.pfmcid, pfmsid := w.pfmsid, cid0 := w.cid)
  {
    assert CoreStored(c, w, 1) == CoreStore(c, w, 0);
    assert CoreStored(c, w, 2) == CoreStore(CoreStored(c, w, 1), w, 1);
  }

  /** A torn ACK: for any CTL-Write there is a run in which it is the only one, and the ACK reports its CID
      with the SID from before. */
  lemma TornAckHappens(st: State, w: Request) returns (run: seq<Step>)
    requires Init(st) && st.p.n >= 3 && w.CtlWrite? && ValidRequest(w) && 128 <= st.p.max
    requires |CtlWriteText(w)| < st.p.max
    ensures IsRun(st, run)
    ensures var log, c := After(st, run).h.log, CoreAt(st.p, 3);
            log != [] && log[|log| - 1] == Message(3, 1, AckText(c.cclass, w.cid, c.sid0), true)
  {
    var first, t := HalfWritten(st, w);
    var c := CoreAt(t.p, 3);
    TailInARow(t, 3, 0, PeerAttribute);
    var u := WithTask(t, 3, 0, c, Ready(AckText(c.cclass, c.cid0, c.sid0)));
    AckIsReply(c.cclass, c.cid0, c.sid0);
    var last, v := ReplyOut(u, 3, 0);
    Then(st, first, t, TailSteps(3, 0, PeerAttribute), u);
    Then(st, first + TailSteps(3, 0, PeerAttribute), u, last, v);
    run := first + TailSteps(3, 0, PeerAttribute) + last;
  }

  /** A handler between its stores at a load need not tear an ACK: here the CID load comes while the CTL-Write
      is half done, the SID load after it, and the ACK reports its pair. */
  lemma MidwayYetWhole(st: State, w: Request) returns (first: seq<Step>, t: State, rest: seq<Step>, end: State)
    requires Init(st) && st.p.n >= 3 && w.CtlWrite? && ValidRequest(w) && 128 <= st.p.max
    requires |CtlWriteText(w)| < st.p.max
    ensures Leads(st, first, t) && t.p.n == st.p.n && MidwayCount(t.p.replies[3]) == 1
    ensures rest != [] && rest[0] == ByTail(3, 0, LoadCid) && Leads(t, rest, end)
    ensures end.p.n == st.p.n && ShapedState(end) && end.p.replies[3] != []
    ensures end.p.replies[3][0] == Pending(1, Ready(AckText(CoreAt(st.p, 3).cclass, w.cid, w.sid)))
  {
    first, t := HalfWritten(st, w);
    var c := CoreAt(t.p, 3);
    assert t.p.replies[3][..1] == [Pending(1, Loading(None, None))];
    assert MidwayCount(t.p.replies[3]) == MidwayCount(t.p.replies[3][..1]) + 1;
    assert t.p.replies[3][..1][..0] == [];
    var t1 := Next(t, ByTail(3, 0, LoadCid));
    OneStep(t, ByTail(3, 0, LoadCid));
    var t2 := Next(t1, ByTail(3, 1, StoreNext));
    OneStep(t1, ByTail(3, 1, StoreNext));
    Then(t, [ByTail(3, 0, LoadCid)], t1, [ByTail(3, 1, StoreNext)], t2);
    assert CoreAt(t2.p, 3) == c.(sid0 := w.sid) && t2.p.replies[3][0] == Pending(1, Loading(Some(w.cid), None));
    var t3 := Next(t2, ByTail(3, 0, LoadSid));
    OneStep(t2, ByTail(3, 0, LoadSid));
    assert CoreAt(t3.p, 3) == CoreAt(t2.p, 3) && t3.p.replies[3][0] == Pending(1, Loading(Some(w.cid), Some(w.sid)));
    end := Next(t3, ByTail(3, 0, Format));
    OneStep(t3, ByTail(3, 0, Format));
    Then(t2, [ByTail(3, 0, LoadSid)], t3, [ByTail(3, 0, Format)], end);
    rest := [ByTail(3, 0, LoadCid)] + [ByTail(3, 1, StoreNext)] + ([ByTail(3, 0, LoadSid)] + [ByTail(3, 0, Format)]);
    Then(t, [ByTail(3, 0, LoadCid)] + [ByTail(3, 1, StoreNext)], t2, [ByTail(3, 0, LoadSid)] + [ByTail(3, 0, Format)],
         end);
  }

  /** Two CTL-Writes that overtake each other leave the core mixed for good: all their stores are done, no
      handler is at work on it, and it holds the CID of one with the SID of the other. */
  lemma CoreStaysMixed(st: State, v: Request, w: Request) returns (run: seq<Step>, end: State)
    requires Init(st) && st.p.n >= 3 && v.CtlWrite? && ValidRequest(v) && w.CtlWrite? && ValidRequest(w)
    requires |CtlWriteText(v)| < st.p.max && |CtlWriteText(w)| < st.p.max
    ensures Leads(st, run, end) && end.p.n == st.p.n
    ensures end.p.replies[3] == [Pending(1, Storing(v, CORE_STORES)), Pending(2, Storing(w, CORE_STORES))]
    ensures CoreAt(end.p, 3).cid0 == w.cid && CoreAt(end.p, 3).sid0 == v.sid
  {
    RequestTexts(v);
    RequestTexts(w);
    var first, t := TwoRequests(st, CtlWriteText(v), CtlWriteText(w));
    var u := StoreSome(t, 0, v, 3);
    Then(st, first, t, Repeat(ByTail(3, 0, StoreNext), 3), u);
    var rest;
    rest, end := Overtaken(u, v, w);
    Then(st, first + Repeat(ByTail(3, 0, StoreNext), 3), u, rest, end);
    run := first + Repeat(ByTail(3, 0, StoreNext), 3) + rest;
  }

  /** CTL-Write w makes all its stores while v is between CID0 and SID0; then v goes on. */
  lemma Overtaken(u: State, v: Request, w: Request) returns (run: seq<Step>, end: State)
    requires ShapedState(u) && u.p.n >= 3 && v.CtlWrite? && w.CtlWrite?
    requires u.p.replies[3] == [Pending(1, Storing(v, 3)), Pending(2, Storing(w, 0))]
    ensures Leads(u, run, end) && end.p.n == u.p.n
    ensures end.p.replies[3] == [Pending(1, Storing(v, CORE_STORES)), Pending(2, Storing(w, CORE_STORES))]
    ensures CoreAt(end.p, 3).cid0 == w.cid && CoreAt(end.p, 3).sid0 == v.sid
  {
    var t := StoreSome(u, 1, w, CORE_STORES);
    FiveStores(CoreAt(u.p, 3), w);
    var t1 := Next(t, ByTail(3, 0, StoreNext));
    OneStep(t, ByTail(3, 0, StoreNext));
    assert CoreAt(t1.p, 3) == CoreAt(t.p, 3).(sid0 := v.sid);
    end := Next(t1, ByTail(3, 0, StoreNext));
    OneStep(t1, ByTail(3, 0, StoreNext));
    Then(t, [ByTail(3, 0, StoreNext)], t1, [ByTail(3, 0, StoreNext)], end);
    Then(u, Repeat(ByTail(3, 1, StoreNext), CORE_STORES), t, [ByTail(3, 0, StoreNext)] + [ByTail(3, 0, StoreNext)],
         end);
    run := Repeat(ByTail(3, 1, StoreNext), CORE_STORES) + ([ByTail(3, 0, StoreNext)] + [ByTail(3, 0, StoreNext)]);
  }

  /** A CTL-Write that is sent to one adapter of a host shows in the ACK of another: nodes 3 and 4 share a core,
      w is sent to 4 alone, and the ACK of 3 reports the pair that w carried. */
  lemma SharedCoreReports(st: State, w: Request) returns (run: seq<Step>)
    requires Init(st) && st.p.n >= 4 && CoreOf(st.p, 3) == CoreOf(st.p, 4)
    requires w.CtlWrite? && ValidRequest(w) && 128 <= st.p.max && |CtlWriteText(w)| < st.p.max
    ensures IsRun(st, run)
    ensures var log := After(st, run).h.log;
            log != [] && log[|log| - 1] == Message(3, 1, AckText(CoreAt(st.p, 3).cclass, w.cid, w.sid), true)
  {
    RequestTexts(w);
    var t := TakeRequest(st, 2, 4, CtlWriteText(w));
    TailInARow(t, 4, 0, w);
    var u := WithTask(t, 4, 0, CoreAfter(CoreAt(t.p, 4), w), Ready(StandaloneText(w.tag)));
    Then(st, RequestSteps(2, 4, CtlWriteText(w)), t, TailSteps(4, 0, w), u);
    var rest, end := AckOfNodeThree(u);
    Then(st, RequestSteps(2, 4, CtlWriteText(w)) + TailSteps(4, 0, w), u, rest, end);
    run := RequestSteps(2, 4, CtlWriteText(w)) + TailSteps(4, 0, w) + rest;
  }

  /** Node 1 asks node 3, which answers without interruption. */
  lemma AckOfNodeThree(u: State) returns (run: seq<Step>, end: State)
    requires ShapedState(u) && u.p.n >= 3 && u.p.send[1].Idle? && u.p.slots[1].buflen == 0 && 128 <= u.p.max
    requires |u.p.slots[1].buf| == u.p.max && u.p.lock[3].Unlocked? && u.p.replies[3] == [] && u.p.send[3].Idle?
    requires u.p.slots[3].buflen == 0 && |u.p.slots[3].buf| == u.p.max && ValidCore(CoreAt(u.p, 3))
    ensures Leads(u, run, end) && end.h.log != []
    ensures var c := CoreAt(u.p, 3);
            end.h.log[|end.h.log| - 1] == Message(3, 1, AckText(c.cclass, c.cid0, c.sid0), true)
  {
    var c := CoreAt(u.p, 3);
    PeerAttributeText();
    var v := TakeRequest(u, 1, 3, PEER_ATTRIBUTE);
    TailInARow(v, 3, 0, PeerAttribute);
    var x := WithTask(v, 3, 0, c, Ready(AckText(c.cclass, c.cid0, c.sid0)));
    AckIsReply(c.cclass, c.cid0, c.sid0);
    var last;
    last, end := ReplyOut(x, 3, 0);
    Then(u, RequestSteps(1, 3, PEER_ATTRIBUTE), v, TailSteps(3, 0, PeerAttribute), x);
    Then(u, RequestSteps(1, 3, PEER_ATTRIBUTE) + TailSteps(3, 0, PeerAttribute), x, last, end);
    run := RequestSteps(1, 3, PEER_ATTRIBUTE) + TailSteps(3, 0, PeerAttribute) + last;
  }
}
