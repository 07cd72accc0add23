/** The driver's methods are runs of the protocol: whatever a method's contract allows it to do to the
    shared memory, the steps of the protocol can do to the slots that the memory stands for, with the
    same doorbells, pointers and results. Where a method waits, or is overtaken, the other nodes' steps
    in that time are a run of their own, given as `env`. */
module DriverRuns {
  import opened Basics
  import opened CText
  import opened LinkMessages
  import opened Mailbox
  import opened MailboxSolo
  import opened MailboxSoloReading
  import opened MailboxSoloLink
  import opened FlatMemory
  import opened Addressing
  import opened Driver

  /** The slots of p are the ones that memory m holds, and every slot has its own number for its peer id. */
  ghost predicate Pictures(p: Phys, m: seq<byte>, l: Layout)
  {
    ValidLayout(l, |m|) && Shaped(p) && p.n == l.serverId && p.max == MaxBuflen(l) &&
    forall i: nat :: Node(p.n, i) ==> p.slots[i] == SlotAt(m, l, i) && IdentAt(m, l, i) == i
  }

  /** A change that is confined to slot s needs to be right there only. */
  lemma PicturesAfter(p: Phys, q: Phys, m: seq<byte>, m': seq<byte>, l: Layout, s: nat)
    requires Pictures(p, m, l) && Node(p.n, s) && Confined(m, m', l, s)
    requires q.n == p.n && q.max == p.max && Shaped(q) && q.slots == p.slots[s := SlotAt(m', l, s)]
    requires IdentAt(m', l, s) == s
    ensures Pictures(q, m', l)
  {
    forall i: nat | Node(q.n, i) ensures q.slots[i] == SlotAt(m', l, i) && IdentAt(m', l, i) == i {
      if i != s { ConfinedToSlot(m, m', l, s, i); }
    }
  }

  // ---- Steps of others

  /** None of the steps is one of the sender, or of the reader, at node i. */
  predicate NoSendBy(env: seq<Step>, i: nat) { forall k :: 0 <= k < |env| ==> !(env[k].BySender? && env[k].at == i) }
  predicate NoReadBy(env: seq<Step>, i: nat) { forall k :: 0 <= k < |env| ==> !(env[k].ByReader? && env[k].at == i) }

  lemma OthersKeepSend(st: State, a: Step, i: nat)
    requires ShapedState(st) && Enabled(st.p, a) && i <= st.p.n && !(a.BySender? && a.at == i)
    ensures Next(st, a).p.send[i] == st.p.send[i]
  {
  }

  lemma OthersKeepReader(st: State, a: Step, i: nat)
    requires ShapedState(st) && Enabled(st.p, a) && i <= st.p.n && !(a.ByReader? && a.at == i)
    ensures Next(st, a).p.reader[i] == st.p.reader[i] && Next(st, a).h.reading[i] == st.h.reading[i]
  {
  }

  lemma {:induction false} EnvKeepsSend(st: State, env: seq<Step>, i: nat)
    requires ShapedState(st) && IsRun(st, env) && i <= st.p.n && NoSendBy(env, i)
    ensures After(st, env).p.send[i] == st.p.send[i]
    decreases env
  {
    if env != [] {
      OthersKeepSend(st, env[0], i);
      EnvKeepsSend(Next(st, env[0]), env[1..], i);
    }
  }

  lemma {:induction false} EnvKeepsReader(st: State, env: seq<Step>, i: nat)
    requires ShapedState(st) && IsRun(st, env) && i <= st.p.n && NoReadBy(env, i)
    ensures After(st, env).p.reader[i] == st.p.reader[i] && After(st, env).h.reading[i] == st.h.reading[i]
    decreases env
  {
    if env != [] {
      OthersKeepReader(st, env[0], i);
      EnvKeepsReader(Next(st, env[0]), env[1..], i);
    }
  }

  // ---- Sending

  /** The steps that end a send: what is left from the last look at buflen on. */
  function LastSteps(my: nat, body: bytes, ret: Result<nat>): seq<Step>
  {
    if ret.Ok? then SendSteps(my, |body|) else [BySender(my, GiveUp)]
  }

  /** The protocol's state after the last look in state e, given what FEE_create_outgoing returned. */
  predicate SentAs(e: State, end: State, my: nat, peer: nat, body: bytes, reply: bool, ret: Result<nat>)
  {
    end.p.incoming == e.p.incoming && end.p.core == e.p.core &&
    if ret.Ok? then
      end.p.bells == e.p.bells + multiset{Bell(my, peer)} && end.h.log == e.h.log + [Message(my, peer, body, reply)]
    else
      end.p.bells == e.p.bells && end.h.log == e.h.log && end.p.slots == e.p.slots
  }

  /** The last look and what follows it, for users and replies alike. */
  lemma LookAndSend(e: State, my: nat, l: Layout, mid: seq<byte>, m': seq<byte>, ret: Result<nat>) returns (end: State)
    requires ShapedState(e) && Pictures(e.p, mid, l) && Node(e.p.n, my) && e.p.send[my].Polling?
    requires Node(e.p.n, e.p.send[my].dst) && |e.p.send[my].body| < MaxBuflen(l)
    requires if ret.Ok? then e.p.slots[my].buflen == 0 && m' == SendMem(mid, l, my, e.p.send[my].dst, e.p.send[my].body)
             else e.p.slots[my].buflen != 0 && m' == mid
    ensures var w := e.p.send[my];
            Leads(e, LastSteps(my, w.body, ret), end) && Pictures(end.p, m', l) &&
            SentAs(e, end, my, w.dst, w.body, w.reply, ret)
  {
    var w := e.p.send[my];
    if ret.Ok? {
      end := SendEnd(e, my);
      SendInARow(e, my);
      PicturesAfter(e.p, end.p, mid, m', l, my);
    } else {
      end := Next(e, BySender(my, GiveUp));
      OneStep(e, BySender(my, GiveUp));
    }
  }

  /** A send that has begun to poll in state b: others' steps, then the last look. */
  lemma PollAndSend(b: State, my: nat, l: Layout, env: seq<Step>, e: State, mid: seq<byte>, m': seq<byte>,
                    ret: Result<nat>)
    returns (end: State)
    requires ShapedState(b) && Node(b.p.n, my) && b.p.send[my].Polling? && b.p.n == l.serverId
    requires Node(b.p.n, b.p.send[my].dst) && OFF_BUF < l.slotsize && |b.p.send[my].body| < MaxBuflen(l)
    requires Leads(b, env, e) && NoSendBy(env, my) && Pictures(e.p, mid, l)
    requires if ret.Ok? then e.p.slots[my].buflen == 0 && m' == SendMem(mid, l, my, b.p.send[my].dst, b.p.send[my].body)
             else e.p.slots[my].buflen != 0 && m' == mid
    ensures var w := b.p.send[my];
            Leads(b, env + LastSteps(my, w.body, ret), end) && Pictures(end.p, m', l) &&
            SentAs(e, end, my, w.dst, w.body, w.reply, ret)
  {
    EnvKeepsSend(b, env, my);
    end := LookAndSend(e, my, l, mid, m', ret);
    Then(b, env, e, LastSteps(my, b.p.send[my].body, ret), end);
  }

  /** FEE_create_outgoing, called for a user, is a run of the protocol, however long it waits: `env` is any run
      of the other nodes between the first look at buflen and the last, which finds the memory as the
      method finds it. One message is accepted and one doorbell rung if the method returns a length,
      nothing else happens if it returns an error. */
  lemma SendIsRun(st: State, my: nat, l: Layout, m: seq<byte>, mid: seq<byte>, m': seq<byte>, rings: seq<nat>,
                  rings': seq<nat>, t: Target, body: bytes, ret: Result<nat>, env: seq<Step>, e: State)
    returns (run: seq<Step>, end: State)
    requires ShapedState(st) && Pictures(st.p, m, l) && Node(st.p.n, my) && st.p.send[my].Idle?
    requires SendOutcome(l, my, m, mid, m', rings, rings', t, body, ret)
    requires ArgError(l, t, |body|).None? ==>
      Leads(Next(st, BySender(my, UserBegin(PeerOf(t), body))), env, e) && NoSendBy(env, my) && Pictures(e.p, mid, l)
    ensures Leads(st, run, end) && Pictures(end.p, m', l)
    ensures if ArgError(l, t, |body|).Some? then end == st
            else run == [BySender(my, UserBegin(PeerOf(t), body))] + (env + LastSteps(my, body, ret)) &&
                 SentAs(e, end, my, PeerOf(t), body, false, ret)
  {
    if ArgError(l, t, |body|).Some? {
      run, end := [], st;
    } else {
      var begin := BySender(my, UserBegin(PeerOf(t), body));
      var b := Next(st, begin);
      end := PollAndSend(b, my, l, env, e, mid, m', ret);
      run := [begin] + (env + LastSteps(my, body, ret));
      StepFirst(st, begin, env + LastSteps(my, body, ret), end);
    }
  }

  // ---- Handling an interrupt

  /** Ids of 16 bits survive all conversions. */
  lemma SmallIds(s: nat)
    requires s < 0x1_0000
    ensures s * 100 % U64 == s * 100 && PeerOf(Target(Wrap32(s), SID_IS_PEER_ID)) == s
  {
  }

  /** A reply to node s that fits passes all argument checks. */
  lemma ReplyAccepted(l: Layout, s: nat, m: seq<byte>, len: nat)
    requires ValidLayout(l, |m|) && 1 <= s <= l.serverId && IdentAt(m, l, s) == s && len > 0
    ensures PeerOf(ReplyTarget(m, l, s)) == s
    ensures ArgError(l, ReplyTarget(m, l, s), len) == if len >= MaxBuflen(l) then Some(E2BIG) else None
  {
    SmallIds(s);
  }

  /** The sender's slot once a handler has done with it. */
  lemma TakenSlot(m: seq<byte>, l: Layout, s: nat)
    requires ValidLayout(l, |m|) && 1 <= s <= l.serverId && IdentAt(m, l, s) == s
    ensures IdentAt(TakenMem(m, l, s), l, s) == s
    ensures var b := SlotAt(m, l, s);
            SlotAt(TakenMem(m, l, s), l, s)
            == b.(peerSid := SID_DEFAULT, peerCid := s * 100, buflen := if Seen(b).Some? then 0 else b.buflen)
  {
    SmallIds(s);
    var stamped := StampMem(m, l, s);
    assert SlotAt(stamped, l, s) == SlotAt(m, l, s).(peerSid := SID_DEFAULT, peerCid := s * 100);
  }

  lemma DeliveryIsRun(st: State, d: nat, s: nat, l: Layout, m: seq<byte>)
    requires Pictures(st.p, m, l) && ReadyToDeliver(st, d, s)
    ensures Leads(st, DeliverSteps(d, s), DeliverEnd(st, d, s))
    ensures Pictures(DeliverEnd(st, d, s).p, TakenMem(m, l, s), l)
  {
    DeliverInARow(st, d, s);
    TakenSlot(m, l, s);
    PicturesAfter(st.p, DeliverEnd(st, d, s).p, m, TakenMem(m, l, s), l, s);
  }

  /** The slot of an answered request in memory and in the protocol. */
  lemma AnswerPictures(st: State, d: nat, s: nat, l: Layout, m: seq<byte>)
    requires Pictures(st.p, m, l) && ReadyToConsume(st, d, s)
    ensures Pictures(AnswerEnd(st, d, s).p, TakenMem(m, l, s), l)
  {
    TakenSlot(m, l, s);
    PicturesAfter(st.p, AnswerEnd(st, d, s).p, m, TakenMem(m, l, s), l, s);
  }

  /** The state in which the reply to s has begun to poll. */
  function ReplyBegun(st: State, d: nat, s: nat): (b: State)
    requires ReadyToConsume(st, d, s) && st.p.send[d].Idle?
    requires st.p.max > |ReplyTo(CoreAt(st.p, d), Seen(st.p.slots[s]).value)|
    ensures ShapedState(b)
  {
    Next(AnswerEnd(st, d, s), BySender(d, ReplyBegin(|st.p.replies[d]|)))
  }

  function ReplySteps(st: State, d: nat, s: nat): seq<Step>
    requires ReadyToConsume(st, d, s)
  {
    AnswerSteps(d, s, |st.p.replies[d]|, Seen(st.p.slots[s]).value) + [BySender(d, ReplyBegin(|st.p.replies[d]|))]
  }

  lemma ReplyBegins(st: State, d: nat, s: nat)
    requires ReadyToConsume(st, d, s) && st.p.send[d].Idle?
    requires st.p.max > |ReplyTo(CoreAt(st.p, d), Seen(st.p.slots[s]).value)|
    ensures var r, c, b := Seen(st.p.slots[s]).value, CoreAt(st.p, d), ReplyBegun(st, d, s);
            Leads(st, ReplySteps(st, d, s), b) && b.p.n == st.p.n && b.p.max == st.p.max &&
            b.p.send[d] == Polling(s, ReplyTo(c, r), true) && CoreAt(b.p, d) == CoreAfter(c, r) &&
            b.p.replies[d] == st.p.replies[d] && b.p.incoming == st.p.incoming && b.h.log == st.h.log &&
            b.p.bells == st.p.bells - multiset{Bell(s, d)} && b.p.slots == AnswerEnd(st, d, s).p.slots
  {
    var k, a := |st.p.replies[d]|, AnswerEnd(st, d, s);
    AnswerInARow(st, d, s);
    OneStep(a, BySender(d, ReplyBegin(k)));
    Then(st, AnswerSteps(d, s, k, Seen(st.p.slots[s]).value), a, [BySender(d, ReplyBegin(k))], ReplyBegun(st, d, s));
    assert Without(a.p.replies[d], k) == st.p.replies[d];
  }

  /** What an interrupt for s does at d, in the protocol. */
  predicate InterruptedAs(st: State, e: State, end: State, d: nat, s: nat, sent: Result<nat>)
    requires ShapedState(st) && Node(st.p.n, d) && Node(st.p.n, s)
  {
    match Seen(st.p.slots[s])
    case None =>
      end.p.incoming == st.p.incoming[d := Some(s)] && end.p.bells == st.p.bells - multiset{Bell(s, d)} &&
      end.h.log == st.h.log && end.p.core == st.p.core
    case Some(r) =>
      if st.p.max <= |ReplyTo(CoreAt(st.p, d), r)| then
        end.p.incoming == st.p.incoming && end.p.bells == st.p.bells - multiset{Bell(s, d)} &&
        end.h.log == st.h.log && end.p.core == st.p.core[CoreOf(st.p, d) := CoreAfter(CoreAt(st.p, d), r)]
      else
        SentAs(e, end, d, s, ReplyTo(CoreAt(st.p, d), r), true, sent)
  }

  /** What is given of the time in which the reply waits. */
  ghost predicate Waits(st: State, d: nat, s: nat, l: Layout, env: seq<Step>, e: State, mid: seq<byte>)
    requires ShapedState(st) && Node(st.p.n, d) && Node(st.p.n, s)
    requires Bell(s, d) in st.p.bells && st.p.lock[d].Unlocked? && st.p.send[d].Idle?
  {
    Seen(st.p.slots[s]).Some? && st.p.max > |ReplyTo(CoreAt(st.p, d), Seen(st.p.slots[s]).value)| ==>
      Leads(ReplyBegun(st, d, s), env, e) && NoSendBy(env, d) && Pictures(e.p, mid, l)
  }

  /** A request whose reply does not fit the slot. */
  lemma RefusedIsRun(st: State, d: nat, s: nat, l: Layout, m: seq<byte>) returns (run: seq<Step>, end: State)
    requires Pictures(st.p, m, l) && ReadyToConsume(st, d, s)
    requires st.p.max <= |ReplyTo(CoreAt(st.p, d), Seen(st.p.slots[s]).value)|
    ensures Leads(st, run, end) && Pictures(end.p, TakenMem(m, l, s), l)
    ensures InterruptedAs(st, st, end, d, s, Err(E2BIG))
  {
    var k, a := |st.p.replies[d]|, AnswerEnd(st, d, s);
    AnswerInARow(st, d, s);
    AnswerPictures(st, d, s, l, m);
    end := Next(a, BySender(d, ReplyRefuse(k)));
    OneStep(a, BySender(d, ReplyRefuse(k)));
    run := AnswerSteps(d, s, k, Seen(st.p.slots[s]).value) + [BySender(d, ReplyRefuse(k))];
    Then(st, AnswerSteps(d, s, k, Seen(st.p.slots[s]).value), a, [BySender(d, ReplyRefuse(k))], end);
  }

  /** What a reply that fits does to memory. */
  lemma ReplyOutcome(l: Layout, d: nat, s: nat, m: seq<byte>, taken: seq<byte>, mid: seq<byte>, m': seq<byte>,
                     rings: seq<nat>, rings': seq<nat>, text: bytes, sent: Result<nat>)
    requires ValidLayout(l, |m|) && |taken| == |m| && 1 <= d <= l.serverId && 1 <= s <= l.serverId
    requires IdentAt(m, l, s) == s
    requires 0 < |text| < MaxBuflen(l)
    requires SendOutcome(l, d, taken, mid, m', rings, rings', ReplyTarget(m, l, s), text, sent)
    ensures |mid| == |m|
    ensures if sent.Ok? then SlotAt(mid, l, d).buflen == 0 && m' == SendMem(mid, l, d, s, text)
            else SlotAt(mid, l, d).buflen != 0 && m' == mid
  {
    ReplyAccepted(l, s, m, |text|);
  }

  /** A request whose reply is sent, or given up after five seconds. */
  lemma RequestIsRun(st: State, d: nat, s: nat, l: Layout, m: seq<byte>, mid: seq<byte>, m': seq<byte>, rings: seq<nat>,
                     rings': seq<nat>, sent: Result<nat>, env: seq<Step>, e: State)
    returns (run: seq<Step>, end: State)
    requires Pictures(st.p, m, l) && ReadyToConsume(st, d, s) && st.p.send[d].Idle? && ValidCore(CoreAt(st.p, d))
    requires st.p.max > |ReplyTo(CoreAt(st.p, d), Seen(st.p.slots[s]).value)| && Waits(st, d, s, l, env, e, mid)
    requires SendOutcome(l, d, TakenMem(m, l, s), mid, m', rings, rings', ReplyTarget(m, l, s),
                         ReplyTo(CoreAt(st.p, d), Seen(st.p.slots[s]).value), sent)
    ensures Leads(st, run, end) && Pictures(end.p, m', l) && InterruptedAs(st, e, end, d, s, sent)
    ensures CoreAt(ReplyBegun(st, d, s).p, d) == CoreAfter(CoreAt(st.p, d), Seen(st.p.slots[s]).value)
  {
    var b, text := ReplyBegun(st, d, s), ReplyTo(CoreAt(st.p, d), Seen(st.p.slots[s]).value);
    ReplyBegins(st, d, s);
    RequestsAreValid(st.p.slots[s].buflen, st.p.slots[s].buf, CoreAt(st.p, d));
    ReplyOutcome(l, d, s, m, TakenMem(m, l, s), mid, m', rings, rings', text, sent);
    end := PollAndSend(b, d, l, env, e, mid, m', sent);
    run := ReplySteps(st, d, s) + (env + LastSteps(d, text, sent));
    Then(st, ReplySteps(st, d, s), b, env + LastSteps(d, text, sent), end);
  }

  /** all_msix with FEE_link_request is a run of the protocol: a link request is consumed, the core updated and
      the reply sent or dropped, however long it waits; anything else becomes the message that
      incoming_slot names. */
  lemma InterruptIsRun(st: State, d: nat, s: nat, l: Layout, m: seq<byte>, mid: seq<byte>, m': seq<byte>,
                       rings: seq<nat>, rings': seq<nat>, core': Core, sent: Result<nat>, env: seq<Step>, e: State)
    returns (run: seq<Step>, end: State)
    requires ShapedState(st) && Pictures(st.p, m, l) && Node(st.p.n, d) && Node(st.p.n, s) && ValidCore(CoreAt(st.p, d))
    requires Bell(s, d) in st.p.bells && st.p.lock[d].Unlocked? && st.p.send[d].Idle?
    requires LinkOutcome(l, d, s, m, mid, m', rings, rings', CoreAt(st.p, d), core', sent)
    requires Waits(st, d, s, l, env, e, mid)
    ensures Leads(st, run, end) && Pictures(end.p, m', l) && InterruptedAs(st, e, end, d, s, sent)
    ensures Seen(st.p.slots[s]).Some? && st.p.max > |ReplyTo(CoreAt(st.p, d), Seen(st.p.slots[s]).value)| ==>
      CoreAt(ReplyBegun(st, d, s).p, d) == core'
  {
    var seen := Seen(st.p.slots[s]);
    if seen.None? {
      end, run := DeliverEnd(st, d, s), DeliverSteps(d, s);
      DeliveryIsRun(st, d, s, l, m);
    } else if st.p.max <= |ReplyTo(CoreAt(st.p, d), seen.value)| {
      ReplyAccepted(l, s, m, |ReplyTo(CoreAt(st.p, d), seen.value)|);
      run, end := RefusedIsRun(st, d, s, l, m);
    } else {
      run, end := RequestIsRun(st, d, s, l, m, mid, m', rings, rings', sent, env, e);
    }
  }

  // ---- Reading

  /** The result that the method returns is the one that the protocol records. */
  lemma SameResult(b: Slot, cap: nat, faults: (bool, bool), ret: Result<nat>, data: bytes)
    requires b.buflen <= |b.buf| && CopyResult(b, cap, faults, ret, data)
    ensures ReadOutcome(b, cap, faults.0 || faults.1)
         == if ret.Ok? then Delivered(data, ret.value) else Failed(ret.errno)
  {
  }

  lemma ReleasePictures(e: State, r: nat, l: Layout, m: seq<byte>)
    requires Pictures(e.p, m, l) && ReadyToRelease(e, r)
    ensures Pictures(Released(e, r).p, ClearMem(m, l, e.p.incoming[r].value), l)
  {
    var s := e.p.incoming[r].value;
    PicturesAfter(e.p, Released(e, r).p, m, ClearMem(m, l, s), l, s);
  }

  /** What is given of the time between a read's last copy and its release. */
  ghost predicate Goes(q: State, r: nat, l: Layout, m: seq<byte>, j: Interim, env: seq<Step>, e: State)
    requires ShapedState(q) && Node(q.p.n, r)
  {
    Leads(q, env, e) && NoReadBy(env, r) && e.p.n == q.p.n && e.p.lock[r].Unlocked? &&
    Pictures(e.p, if j.Quiet? then m else j.memory, l) &&
    e.p.incoming[r] == if j.Quiet? then q.p.incoming[r] else Some(j.slot)
  }

  /** A read that has its slot. */
  lemma SlotReadIsRun(st: State, r: nat, l: Layout, m: seq<byte>, m': seq<byte>, cap: nat, faults: (bool, bool),
                      j: Interim, ret: Result<nat>, data: bytes, env: seq<Step>, e: State)
    returns (run: seq<Step>, end: State)
    requires Pictures(st.p, m, l) && ReadyToRead(st, r) && ValidInterim(l, m, st.p.incoming[r].value, j)
    requires ReadDone(l, st.p.incoming[r].value, m, m', cap, faults, j, ret, data)
    requires Goes(Looked(st, r, cap, faults.0 || faults.1), r, l, m, j, env, e)
    ensures Leads(st, run, end) && Pictures(end.p, m', l) && end.p.incoming == e.p.incoming[r := None]
    ensures end.h.completed == e.h.completed + [RecordOf(st, r, cap, ret, data)]
  {
    var s, faulty := st.p.incoming[r].value, faults.0 || faults.1;
    var q := Looked(st, r, cap, faulty);
    SameResult(SlotAt(m, l, s), cap, faults, ret, data);
    LookInARow(st, r, cap, faulty);
    EnvKeepsReader(q, env, r);
    ReleaseInARow(e, r);
    ReleasePictures(e, r, l, if j.Quiet? then m else j.memory);
    end := Released(e, r);
    var look := LookSteps(r, st.p.slots[s], cap, faulty);
    Then(st, look, q, env, e);
    Then(st, look + env, e, ReleaseSteps(r), end);
    run := look + env + ReleaseSteps(r);
  }

  /** What the protocol records of a read that r begins in state w. */
  function RecordOf(w: State, r: nat, cap: nat, ret: Result<nat>, data: bytes): ReadRecord
    requires ReadyToRead(w, r)
  {
    ReadRecord(r, w.h.cur[w.p.incoming[r].value],
               if ret.Ok? then Delivered(data, ret.value) else Failed(ret.errno), cap)
  }

  /** What is given of a wait: the other nodes' run `pre` leads to the state w in which it ends. */
  ghost predicate Arrives(st: State, r: nat, l: Layout, m: seq<byte>, wait: Wait, pre: seq<Step>, w: State)
    requires ShapedState(st) && Node(st.p.n, r)
  {
    if st.p.incoming[r].Some? then pre == [] && w == st
    else
      wait.Woken? && Leads(st, pre, w) && NoReadBy(pre, r) && w.p.n == st.p.n && Pictures(w.p, wait.memory, l) &&
      w.p.incoming[r] == Some(wait.slot)
  }

  /** The read can begin in w, and the other nodes do `env` before its release. */
  ghost predicate GoesOn(w: State, r: nat, cap: nat, faults: (bool, bool), l: Layout, m: seq<byte>, j: Interim,
                         env: seq<Step>, e: State)
  {
    ReadyToRead(w, r) && Goes(Looked(w, r, cap, faults.0 || faults.1), r, l, m, j, env, e)
  }

  /** gf_bridge_read with FEE_release_incoming is a run of the protocol. A call that ends with the error of its
      wait is the empty run. Any other records exactly the data and the length, or the error, that the
      method returns, after whatever the other nodes do while it waits (`pre`), and even if they replace
      incoming_slot before the release (`env`). */
  lemma ReadIsRun(st: State, r: nat, l: Layout, m: seq<byte>, m': seq<byte>, cap: nat, nonblocking: bool, wait: Wait,
                  faults: (bool, bool), j: Interim, ret: Result<nat>, data: bytes, pre: seq<Step>, w: State,
                  env: seq<Step>, e: State)
    returns (run: seq<Step>, end: State)
    requires ShapedState(st) && Pictures(st.p, m, l) && Node(st.p.n, r) && ValidWait(l, |m|, wait)
    requires st.p.incoming[r].Some? ==> Node(st.p.n, st.p.incoming[r].value)
    requires Readable(l, st.p.incoming[r], nonblocking, wait, m, j)
    requires ReadCall(l, st.p.incoming[r], nonblocking, wait, m, m', cap, faults, j, ret, data)
    requires Awaited(st.p.incoming[r], nonblocking, wait).Ok? ==>
      Arrives(st, r, l, m, wait, pre, w) &&
      GoesOn(w, r, cap, faults, l, FoundMem(st.p.incoming[r], wait, m), j, env, e)
    ensures Leads(st, run, end) && Pictures(end.p, m', l)
    ensures match Awaited(st.p.incoming[r], nonblocking, wait)
            case Err(err) => run == [] && end == st && ret == Err(err)
            case Ok(s) =>
              end.p.incoming == e.p.incoming[r := None] &&
              end.h.completed == e.h.completed + [RecordOf(w, r, cap, ret, data)]
  {
    if Awaited(st.p.incoming[r], nonblocking, wait).Err? {
      run, end := [], st;
    } else {
      var rest;
      rest, end := SlotReadIsRun(w, r, l, FoundMem(st.p.incoming[r], wait, m), m', cap, faults, j, ret, data, env, e);
      Then(st, pre, w, rest, end);
      run := pre + rest;
    }
  }
}
