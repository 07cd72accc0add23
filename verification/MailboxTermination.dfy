/** Left alone, the system comes to rest: without new user sends every run is finite, however the
    nodes are scheduled, and where it stops every busy slot belongs to an overwritten sender. */
module MailboxTermination {
  import opened Basics
  import opened LinkMessages
  import opened Mailbox
  import opened MailboxOwnership
  import opened MailboxHistory
  import opened MailboxReading
  import opened MailboxReplies
  import opened MailboxRuns
  import opened MailboxSolo

  // ---- A measure that every step but a new user send decreases

  /** Cost of one whole read, of a handler, and of a flight, for replies and for other messages. */
  function ReadCost(max: nat): nat { max + 9 }
  function HandlerCost(max: nat, reply: bool): nat
  {
    if reply then ReadCost(max) + 1 else ReadCost(max) + 1 + OwedCost(max)
  }
  function OwedCost(max: nat): nat { 142 + ReadCost(max) + 3 }
  function FlightCost(max: nat, reply: bool): nat { HandlerCost(max, reply) + 2 }

  function SendWeight(max: nat, w: Send): nat
  {
    match w
    case Idle => 0
    case Polling(_, body, reply) => |body| + 6 + FlightCost(max, reply)
    case Publishing(_, body, reply, stage) =>
      FlightCost(max, reply) +
      match stage
      case Passed => |body| + 5
      case LenStored => |body| + 4
      case NulStored => |body| + 3
      case Copying(k) => if k <= |body| then |body| - k + 2 else 0
  }

  function LockWeight(max: nat, l: Lock): nat
  {
    if l.Handling? then (match l.phase case Matched => 1 case Stamped => 0 case Cleared(_) => OwedCost(max)) else 0
  }

  function ReaderWeight(max: nat, rd: Reader, l: Lock, i: Option<nat>): nat
  {
    match rd
    case Away => if i.Some? then ReadCost(max) else 0
    case Got(_) => max + 8
    case Headed(_, _) => max + 7
    case Guarded(_, _, _) => max + 6
    case Reading(_, _, _, len, got) => if |got| <= len then 5 + len - |got| else 5
    case Done(_, _, _) => if l == Releasing(true) then 1 else if l == Releasing(false) then 2 else 3
  }

  /** What is left to do for a reply before it is sent; its text will be shorter than 128 bytes. */
  function TaskWeight(t: Task): nat
  {
    match t
    case Storing(_, k) => if k <= CORE_STORES then 129 + CORE_STORES - k else 0
    case Loading(c, s) => 129 + (if c.None? then 1 else 0) + (if s.None? then 1 else 0)
    case Ready(text) => |text|
  }

  function ReplyWeight(max: nat, r: Pending): nat { TaskWeight(r.task) + 7 + FlightCost(max, true) }

  function PendingWeight(max: nat, rs: seq<Pending>): nat
  {
    if rs == [] then 0 else PendingWeight(max, rs[..|rs| - 1]) + ReplyWeight(max, rs[|rs| - 1])
  }

  function NodeWeight(p: Phys, i: nat): nat
    requires Shaped(p) && i <= p.n
  {
    SendWeight(p.max, p.send[i]) + LockWeight(p.max, p.lock[i]) +
    ReaderWeight(p.max, p.reader[i], p.lock[i], p.incoming[i]) + PendingWeight(p.max, p.replies[i])
  }

  function OwnerWeight(max: nat, h: Hist, s: nat): nat
    requires s < |h.owner| && s < |h.cur|
  {
    if 0 < s && h.cur[s] < |h.log| then
      var reply := h.log[h.cur[s]].reply;
      (match h.owner[s]
       case Flying(_) => FlightCost(max, reply)
       case AtHandler(_) => HandlerCost(max, reply)
       case _ => 0)
    else 0
  }

  function NodeWeights(p: Phys): (t: seq<int>)
    requires Shaped(p)
    ensures |t| == p.n + 1 && forall i :: 0 <= i <= p.n ==> t[i] == NodeWeight(p, i)
  {
    seq(p.n + 1, i requires 0 <= i <= p.n => NodeWeight(p, i))
  }

  function OwnerWeights(p: Phys, h: Hist): (t: seq<int>)
    requires ShapedHist(p, h)
    ensures |t| == p.n + 1 && forall i :: 0 <= i <= p.n ==> t[i] == OwnerWeight(p.max, h, i)
  {
    seq(p.n + 1, i requires 0 <= i <= p.n => OwnerWeight(p.max, h, i))
  }

  function Measure(st: State): (m: nat)
    requires ShapedState(st)
  {
    TotalNonNegative(NodeWeights(st.p));
    TotalNonNegative(OwnerWeights(st.p, st.h));
    Total(NodeWeights(st.p)) + Total(OwnerWeights(st.p, st.h))
  }

  lemma {:induction false} PendingWithout(max: nat, rs: seq<Pending>, i: nat)
    requires i < |rs|
    ensures PendingWeight(max, rs) == PendingWeight(max, Without(rs, i)) + ReplyWeight(max, rs[i])
  {
    var k := |rs| - 1;
    if i == k {
      assert Without(rs, i) == rs[..k];
    } else {
      PendingWithout(max, rs[..k], i);
      var w := Without(rs, i);
      assert w[..|w| - 1] == Without(rs[..k], i) && w[|w| - 1] == rs[k];
    }
  }

  lemma {:induction false} PendingUpdate(max: nat, rs: seq<Pending>, i: nat, r: Pending)
    requires i < |rs|
    ensures PendingWeight(max, rs[i := r]) == PendingWeight(max, rs) - ReplyWeight(max, rs[i]) + ReplyWeight(max, r)
  {
    var k := |rs| - 1;
    if i == k {
      assert rs[i := r][..k] == rs[..k];
    } else {
      PendingUpdate(max, rs[..k], i, r);
      assert rs[i := r][..k] == rs[..k][i := r];
    }
  }

  predicate Internal(a: Step) { !(a.BySender? && a.put.UserBegin?) }

  lemma SenderWeight(st: State, i: nat, a: SendOp)
    requires ShapedState(st) && Node(st.p.n, i) && SendEnabled(st.p, i, a) && NodeOK(st, i) && !a.UserBegin?
    ensures var q, g := SendPhys(st.p, i, a), SendHist(st.p, st.h, i, a);
            Shaped(q) && ShapedHist(q, g) &&
            NodeWeight(q, i) + OwnerWeight(q.max, g, i) < NodeWeight(st.p, i) + OwnerWeight(st.p.max, st.h, i)
  {
    if a.ReplyBegin? || a.ReplyRefuse? { PendingWithout(st.p.max, st.p.replies[i], a.i); }
  }

  lemma SenderFrame(st: State, i: nat, a: SendOp, j: nat)
    requires ShapedState(st) && Node(st.p.n, i) && SendEnabled(st.p, i, a) && j <= st.p.n && j != i
    requires 1 <= j ==> CurOK(st.h, j)
    ensures var q, g := SendPhys(st.p, i, a), SendHist(st.p, st.h, i, a);
            Shaped(q) && ShapedHist(q, g) &&
            NodeWeight(q, j) == NodeWeight(st.p, j) && OwnerWeight(q.max, g, j) == OwnerWeight(st.p.max, st.h, j)
  {
  }

  /** The sender whose message a handler's step concerns. */
  function Subject(p: Phys, d: nat, a: HandlerOp): nat
    requires Shaped(p) && Node(p.n, d) && HandlerEnabled(p, d, a)
  {
    if a.Take? then a.s else p.lock[d].src
  }

  lemma HandlerWeight(st: State, i: nat, a: HandlerOp)
    requires ShapedState(st) && Node(st.p.n, i) && HandlerEnabled(st.p, i, a) && NodeOK(st, i) && !a.Unlock?
    requires a.Take? ==> BellOK(st.p, st.h, Bell(a.s, i))
    requires var s := Subject(st.p, i, a);
             Node(st.p.n, s) && CurOK(st.h, s) && (a.Consume? ==> !st.h.log[st.h.cur[s]].reply)
    ensures var q, g, s := HandlerPhys(st.p, i, a), HandlerHist(st.p, st.h, i, a), Subject(st.p, i, a);
            Shaped(q) && ShapedHist(q, g) &&
            NodeWeight(q, i) + OwnerWeight(q.max, g, s) < NodeWeight(st.p, i) + OwnerWeight(st.p.max, st.h, s)
  {
  }

  lemma UnlockWeight(st: State, i: nat, a: HandlerOp)
    requires ShapedState(st) && Node(st.p.n, i) && HandlerEnabled(st.p, i, a) && NodeOK(st, i) && a.Unlock?
    ensures var q := HandlerPhys(st.p, i, a);
            Shaped(q) && NodeWeight(q, i) < NodeWeight(st.p, i) && HandlerHist(st.p, st.h, i, a) == st.h
  {
    var rs := HandlerPhys(st.p, i, a).replies[i];
    assert rs[..|rs| - 1] == st.p.replies[i];
  }

  lemma HandlerFrame(st: State, i: nat, a: HandlerOp, j: nat)
    requires ShapedState(st) && Node(st.p.n, i) && HandlerEnabled(st.p, i, a) && NodeOK(st, i) && j <= st.p.n
    ensures var q, g := HandlerPhys(st.p, i, a), HandlerHist(st.p, st.h, i, a);
            Shaped(q) && ShapedHist(q, g) &&
            (j != i ==> NodeWeight(q, j) == NodeWeight(st.p, j)) &&
            (j != Subject(st.p, i, a) ==> OwnerWeight(q.max, g, j) == OwnerWeight(st.p.max, st.h, j))
  {
  }

  lemma TaskShrinks(p: Phys, d: nat, k: nat, o: TailOp)
    requires Shaped(p) && Node(p.n, d) && TailEnabled(p, d, k, o) && TextsOK(p, d)
    ensures TaskWeight(NextTask(p, d, k, o)) < TaskWeight(p.replies[d][k].task)
  {
    NextTaskOK(p, d, k, o);
  }

  lemma TailWeight(p: Phys, d: nat, k: nat, o: TailOp)
    requires Shaped(p) && Node(p.n, d) && TailEnabled(p, d, k, o) && TextsOK(p, d)
    ensures NodeWeight(TailPhys(p, d, k, o), d) < NodeWeight(p, d)
    ensures forall j :: 0 <= j <= p.n && j != d ==> NodeWeight(TailPhys(p, d, k, o), j) == NodeWeight(p, j)
  {
    TaskShrinks(p, d, k, o);
    PendingUpdate(p.max, p.replies[d], k, p.replies[d][k].(task := NextTask(p, d, k, o)));
  }

  lemma ReaderWeightDrops(st: State, i: nat, a: ReadOp)
    requires ShapedState(st) && Node(st.p.n, i) && ReadEnabled(st.p, i, a) && NodeOK(st, i)
    requires a.CopyStart? ==> st.p.slots[st.p.reader[i].src].buflen < st.p.max
    ensures var q := ReadPhys(st.p, i, a);
            Shaped(q) && NodeWeight(q, i) < NodeWeight(st.p, i)
  {
  }

  lemma ReaderFrame(st: State, i: nat, a: ReadOp, j: nat)
    requires ShapedState(st) && Node(st.p.n, i) && ReadEnabled(st.p, i, a) && NodeOK(st, i) && j <= st.p.n
    ensures var q, g := ReadPhys(st.p, i, a), ReadHist(st.p, st.h, i, a);
            Shaped(q) && ShapedHist(q, g) &&
            (j != i ==> NodeWeight(q, j) == NodeWeight(st.p, j)) &&
            OwnerWeight(q.max, g, j) == OwnerWeight(st.p.max, st.h, j)
  {
  }

  lemma SenderMeasure(st: State, i: nat, a: SendOp)
    requires ShapedState(st) && Node(st.p.n, i) && SendEnabled(st.p, i, a) && NodeOK(st, i) && !a.UserBegin?
    requires forall j: nat :: Node(st.p.n, j) ==> CurOK(st.h, j)
    ensures Measure(Next(st, BySender(i, a))) < Measure(st)
  {
    var t := Next(st, BySender(i, a));
    SenderWeight(st, i, a);
    forall j | 0 <= j <= st.p.n && j != i
      ensures NodeWeights(t.p)[j] == NodeWeights(st.p)[j] && OwnerWeights(t.p, t.h)[j] == OwnerWeights(st.p, st.h)[j]
    {
      assert 1 <= j ==> Node(st.p.n, j) && CurOK(st.h, j);
      SenderFrame(st, i, a, j);
    }
    TotalChange(NodeWeights(st.p), NodeWeights(t.p), i);
    TotalChange(OwnerWeights(st.p, st.h), OwnerWeights(t.p, t.h), i);
  }

  lemma SenderDecreases(st: State, i: nat, a: SendOp)
    requires Inv(st) && Node(st.p.n, i) && SendEnabled(st.p, i, a) && !a.UserBegin?
    ensures Measure(Next(st, BySender(i, a))) < Measure(st)
  {
    assert NodeOK(st, i);
    SenderMeasure(st, i, a);
  }

  lemma ConsumedIsNoReply(st: State, d: nat)
    requires Inv(st) && Node(st.p.n, d) && HandlerEnabled(st.p, d, Consume)
    ensures var s := st.p.lock[d].src;
            Node(st.p.n, s) && st.h.cur[s] < |st.h.log| && !st.h.log[st.h.cur[s]].reply
  {
    ConsumedIsRequest(st, d);
    assert KindOK(st.h, st.h.cur[st.p.lock[d].src]);
  }

  /** What a handler's step finds, read off the invariant. */
  predicate HandlerFinds(st: State, i: nat, a: HandlerOp)
    requires ShapedState(st) && Node(st.p.n, i) && HandlerEnabled(st.p, i, a)
  {
    var s := Subject(st.p, i, a);
    NodeOK(st, i) && Node(st.p.n, s) && CurOK(st.h, s) && (a.Take? ==> BellOK(st.p, st.h, Bell(a.s, i))) &&
    (a.Consume? ==> !st.h.log[st.h.cur[s]].reply)
  }

  lemma HandlerSees(st: State, i: nat, a: HandlerOp)
    requires Inv(st) && Node(st.p.n, i) && HandlerEnabled(st.p, i, a)
    ensures HandlerFinds(st, i, a)
  {
    assert NodeOK(st, i);
    assert a.Take? ==> BellOK(st.p, st.h, Bell(a.s, i));
    var s := Subject(st.p, i, a);
    assert Node(st.p.n, s) && CurOK(st.h, s);
    if a.Consume? { ConsumedIsNoReply(st, i); }
  }

  lemma HandlerMeasure(st: State, i: nat, a: HandlerOp)
    requires ShapedState(st) && Node(st.p.n, i) && HandlerEnabled(st.p, i, a) && HandlerFinds(st, i, a)
    ensures Measure(Next(st, ByHandler(i, a))) < Measure(st)
  {
    var t := Next(st, ByHandler(i, a));
    var s := Subject(st.p, i, a);
    if a.Unlock? { UnlockWeight(st, i, a); } else { HandlerWeight(st, i, a); }
    forall j | 0 <= j <= st.p.n
      ensures (j != i ==> NodeWeights(t.p)[j] == NodeWeights(st.p)[j]) &&
              (j != s ==> OwnerWeights(t.p, t.h)[j] == OwnerWeights(st.p, st.h)[j])
    {
      HandlerFrame(st, i, a, j);
    }
    TotalChange(NodeWeights(st.p), NodeWeights(t.p), i);
    TotalChange(OwnerWeights(st.p, st.h), OwnerWeights(t.p, t.h), s);
  }

  lemma HandlerDecreases(st: State, i: nat, a: HandlerOp)
    requires Inv(st) && Node(st.p.n, i) && HandlerEnabled(st.p, i, a)
    ensures Measure(Next(st, ByHandler(i, a))) < Measure(st)
  {
    HandlerSees(st, i, a);
    HandlerMeasure(st, i, a);
  }

  lemma TailDecreases(st: State, i: nat, k: nat, o: TailOp)
    requires ShapedState(st) && Node(st.p.n, i) && TailEnabled(st.p, i, k, o) && TextsOK(st.p, i)
    ensures Measure(Next(st, ByTail(i, k, o))) < Measure(st)
  {
    var t := Next(st, ByTail(i, k, o));
    TailWeight(st.p, i, k, o);
    TotalChange(NodeWeights(st.p), NodeWeights(t.p), i);
    assert OwnerWeights(t.p, t.h) == OwnerWeights(st.p, st.h);
  }

  lemma ReaderTotals(st: State, i: nat, a: ReadOp)
    requires ShapedState(st) && Node(st.p.n, i) && ReadEnabled(st.p, i, a) && NodeOK(st, i)
    ensures var q, g := ReadPhys(st.p, i, a), ReadHist(st.p, st.h, i, a);
            OwnerWeights(q, g) == OwnerWeights(st.p, st.h) &&
            Total(NodeWeights(q)) == Total(NodeWeights(st.p)) - NodeWeight(st.p, i) + NodeWeight(q, i)
  {
    var q, g := ReadPhys(st.p, i, a), ReadHist(st.p, st.h, i, a);
    forall j | 0 <= j <= st.p.n
      ensures (j != i ==> NodeWeights(q)[j] == NodeWeights(st.p)[j]) &&
              OwnerWeights(q, g)[j] == OwnerWeights(st.p, st.h)[j]
    {
      ReaderFrame(st, i, a, j);
    }
    TotalChange(NodeWeights(st.p), NodeWeights(q), i);
  }

  lemma ReaderMeasure(st: State, i: nat, a: ReadOp)
    requires ShapedState(st) && Node(st.p.n, i) && ReadEnabled(st.p, i, a) && NodeOK(st, i)
    requires a.CopyStart? ==> st.p.slots[st.p.reader[i].src].buflen < st.p.max
    ensures Measure(Next(st, ByReader(i, a))) < Measure(st)
  {
    ReaderTotals(st, i, a);
    ReaderWeightDrops(st, i, a);
  }

  lemma ReaderDecreases(st: State, i: nat, a: ReadOp)
    requires Inv(st) && Node(st.p.n, i) && ReadEnabled(st.p, i, a)
    ensures Measure(Next(st, ByReader(i, a))) < Measure(st)
  {
    assert NodeOK(st, i);
    if a.CopyStart? {
      var s := st.p.reader[i].src;
      assert NodeOK(st, s) && CurOK(st.h, s) && ContentOK(st.p, st.h, s);
    }
    ReaderMeasure(st, i, a);
  }

  lemma StepDecreases(st: State, a: Step)
    requires Inv(st) && Enabled(st.p, a) && Internal(a)
    ensures Measure(Next(st, a)) < Measure(st)
  {
    match a {
      case BySender(i, o) => SenderDecreases(st, i, o);
      case ByHandler(i, o) => HandlerDecreases(st, i, o);
      case ByTail(i, k, o) =>
        assert TextsOK(st.p, i);
        TailDecreases(st, i, k, o);
      case ByReader(i, o) => ReaderDecreases(st, i, o);
    }
  }

  lemma {:induction false} RunDecreases(st: State, more: seq<Step>)
    requires Inv(st) && IsRun(st, more)
    requires forall i :: 0 <= i < |more| ==> Internal(more[i])
    ensures |more| + Measure(After(st, more)) <= Measure(st)
    decreases more
  {
    if more != [] {
      StepDecreases(st, more[0]);
      StepKeepsInv(st, more[0]);
      RunDecreases(Next(st, more[0]), more[1..]);
    }
  }

  /** Interrupt cascades and everything they set off end: from any reachable state, a run without new
      user sends has a bounded number of steps, in whatever order the nodes take them. */
  lemma CascadesTerminate(st: State, steps: seq<Step>, more: seq<Step>)
    requires Init(st) && IsRun(st, steps) && IsRun(After(st, steps), more)
    requires forall i :: 0 <= i < |more| ==> Internal(more[i])
    ensures |more| <= Measure(After(st, steps))
  {
    Reachable(st, steps);
    RunDecreases(After(st, steps), more);
  }

  // ---- Where it stops

  ghost predicate Quiescent(p: Phys)
    requires Shaped(p)
  {
    forall a :: Enabled(p, a) ==> !Internal(a)
  }

  /** A send that is under way can go on, and so can the first reply that is owed. */
  lemma SenderCanMove(st: State, i: nat) returns (a: Step)
    requires ShapedState(st) && Node(st.p.n, i) && NodeOK(st, i) && TextsOK(st.p, i)
    requires !st.p.send[i].Idle? || st.p.replies[i] != []
    ensures Enabled(st.p, a) && Internal(a)
  {
    var w := st.p.send[i];
    match w {
      case Idle => a := ReplyCanMove(st.p, i);
      case Polling(_, _, _) => a := BySender(i, if st.p.slots[i].buflen == 0 then Pass else GiveUp);
      case Publishing(_, body, _, stage) =>
        match stage {
          case Passed => a := BySender(i, StoreLen);
          case LenStored => a := BySender(i, StoreNul);
          case NulStored => a := BySender(i, StoreResponder);
          case Copying(k) => a := BySender(i, if k < |body| then CopyByte else Ring);
        }
    }
  }

  lemma ReplyCanMove(p: Phys, i: nat) returns (a: Step)
    requires Shaped(p) && Node(p.n, i) && p.send[i].Idle? && p.replies[i] != [] && TextsOK(p, i)
    ensures Enabled(p, a) && Internal(a)
  {
    var t := p.replies[i][0].task;
    assert TaskOK(t);
    match t {
      case Ready(text) => a := BySender(i, if |text| < p.max then ReplyBegin(0) else ReplyRefuse(0));
      case Storing(_, k) => a := ByTail(i, 0, if k < CORE_STORES then StoreNext else Format);
      case Loading(c, s) => a := ByTail(i, 0, if c.None? then LoadCid else if s.None? then LoadSid else Format);
    }
  }

  lemma LockCanMove(st: State, i: nat) returns (a: Step)
    requires ShapedState(st) && Node(st.p.n, i) && NodeOK(st, i) && !st.p.lock[i].Unlocked?
    ensures Enabled(st.p, a) && Internal(a)
  {
    var l := st.p.lock[i];
    if l.Releasing? {
      a := ByReader(i, if l.cleared then Null else Clear);
    } else if l.phase.Matched? {
      a := ByHandler(i, Stamp);
    } else if l.phase.Stamped? {
      a := ByHandler(i, if Seen(st.p.slots[l.src]).Some? then Consume else Post);
    } else {
      a := ByHandler(i, Unlock);
    }
  }

  lemma ReaderCanMove(st: State, i: nat) returns (a: ReadOp)
    requires ShapedState(st) && Node(st.p.n, i) && NodeOK(st, i) && ReadingOK(st.p, st.h, i)
    requires st.p.lock[i].Unlocked? && (!st.p.reader[i].Away? || st.p.incoming[i].Some?)
    requires !st.p.reader[i].Away? ==>
      NodeOK(st, st.p.reader[i].src) && |st.h.log[st.h.reading[i]].body| < st.p.max
    ensures ReadEnabled(st.p, i, a)
  {
    match st.p.reader[i] {
      case Away => a := Await;
      case Got(_) => a := Head;
      case Headed(_, _) => a := Guard(0);
      case Guarded(_, _, _) => a := CopyStart;
      case Reading(_, _, _, len, got) => a := if |got| < len then ReadByte else Finish;
      case Done(_, _, _) => a := LockRelease;
    }
  }

  lemma SenderRests(st: State, i: nat)
    requires Inv(st) && Quiescent(st.p) && Node(st.p.n, i)
    ensures st.p.send[i].Idle? && st.p.replies[i] == []
  {
    assert NodeOK(st, i) && TextsOK(st.p, i);
    if !st.p.send[i].Idle? || st.p.replies[i] != [] {
      var a := SenderCanMove(st, i);
    }
  }

  lemma HandlerRests(st: State, i: nat)
    requires Inv(st) && Quiescent(st.p) && Node(st.p.n, i)
    ensures st.p.lock[i].Unlocked?
  {
    assert NodeOK(st, i);
    if !st.p.lock[i].Unlocked? {
      var a := LockCanMove(st, i);
    }
  }

  lemma ReaderRests(st: State, i: nat)
    requires Inv(st) && Quiescent(st.p) && Node(st.p.n, i)
    ensures st.p.reader[i].Away? && st.p.incoming[i].None?
  {
    HandlerRests(st, i);
    assert NodeOK(st, i) && ReadingOK(st.p, st.h, i);
    var rd := st.p.reader[i];
    if !rd.Away? { assert NodeOK(st, rd.src) && LogOK(st.p, st.h, st.h.reading[i]); }
    if !rd.Away? || st.p.incoming[i].Some? {
      var a := ReaderCanMove(st, i);
      assert Enabled(st.p, ByReader(i, a));
    }
  }

  /** At rest no lock is held, no pointer is set, no doorbell is pending; and a slot is busy exactly
      when its sender's message was overwritten. */
  lemma AtRest(st: State, i: nat)
    requires Inv(st) && Quiescent(st.p) && Node(st.p.n, i)
    ensures st.p.send[i].Idle? && st.p.replies[i] == [] && st.p.lock[i].Unlocked?
    ensures st.p.reader[i].Away? && st.p.incoming[i].None?
    ensures forall d :: Bell(i, d) !in st.p.bells
    ensures st.p.slots[i].buflen == 0 <==> !st.h.owner[i].Lost?
  {
    SenderRests(st, i);
    HandlerRests(st, i);
    ReaderRests(st, i);
    assert NodeOK(st, i);
    forall d ensures Bell(i, d) !in st.p.bells && st.h.owner[i] != Flying(d) {
      assert BellOK(st.p, st.h, Bell(i, d));
      if st.h.owner[i] == Flying(d) {
        HandlerRests(st, d);
        assert Enabled(st.p, ByHandler(d, Take(i)));
      }
    }
    if !st.h.owner[i].Nobody? {
      HandlerRests(st, st.h.owner[i].at);
      ReaderRests(st, st.h.owner[i].at);
    }
  }

  predicate AllInternal(more: seq<Step>) { forall i :: 0 <= i < |more| ==> Internal(more[i]) }

  /** A run without user sends from st to a state of rest. */
  ghost predicate Rests(st: State, more: seq<Step>)
    requires ShapedState(st)
  {
    IsRun(st, more) && AllInternal(more) && Quiescent(After(st, more).p)
  }

  lemma InternalFirst(st: State, a: Step, rest: seq<Step>)
    requires ShapedState(st) && Enabled(st.p, a) && Internal(a) && Rests(Next(st, a), rest)
    ensures Rests(st, [a] + rest)
  {
    RunCons(st, a, rest);
  }

  lemma SomeStep(p: Phys) returns (a: Step)
    requires Shaped(p) && !Quiescent(p)
    ensures Enabled(p, a) && Internal(a)
  {
    a :| Enabled(p, a) && Internal(a);
  }

  /** From any state the system can be left alone until it rests. */
  lemma {:induction false} ComesToRest(st: State) returns (more: seq<Step>)
    requires Inv(st)
    ensures Rests(st, more)
    decreases Measure(st)
  {
    if Quiescent(st.p) {
      more := [];
    } else {
      var a := SomeStep(st.p);
      StepDecreases(st, a);
      StepKeepsInv(st, a);
      var rest := ComesToRest(Next(st, a));
      InternalFirst(st, a, rest);
      more := [a] + rest;
    }
  }

  lemma DealtWith(t: State, id: nat)
    requires Inv(t) && Quiescent(t.p) && id < |t.h.log|
    ensures id in t.h.consumed || id in t.h.released || id in t.h.overwritten
  {
    assert LogOK(t.p, t.h, id);
    var s := t.h.log[id].src;
    AtRest(t, s);
    assert NodeOK(t, s);
  }

  /** The last message that s has sent was overwritten. */
  predicate LastOverwritten(h: Hist, s: nat)
    requires s < |h.cur|
  {
    h.cur[s] < |h.log| && h.log[h.cur[s]].src == s && h.cur[s] in h.overwritten
  }

  lemma BusyIsOverwritten(t: State, s: nat)
    requires Inv(t) && Quiescent(t.p) && Node(t.p.n, s)
    ensures t.p.slots[s].buflen != 0 <==> LastOverwritten(t.h, s)
  {
    AtRest(t, s);
    assert CurOK(t.h, s);
    assert t.h.cur[s] < |t.h.log| ==> LogOK(t.p, t.h, t.h.cur[s]);
  }

  /** Every run that is left alone until nothing more can happen has dealt with every accepted message:
      consumed, released or overwritten. A slot is then busy exactly when its sender's last message
      was overwritten. */
  lemma EveryMessageIsDealtWith(st: State, steps: seq<Step>)
    requires Init(st) && IsRun(st, steps) && Quiescent(After(st, steps).p)
    ensures var t := After(st, steps);
            (forall id :: 0 <= id < |t.h.log| ==> id in t.h.consumed || id in t.h.released || id in t.h.overwritten) &&
            (forall s: nat :: Node(t.p.n, s) ==> (t.p.slots[s].buflen != 0 <==> LastOverwritten(t.h, s)))
  {
    Reachable(st, steps);
    var t := After(st, steps);
    forall id | 0 <= id < |t.h.log| ensures id in t.h.consumed || id in t.h.released || id in t.h.overwritten {
      DealtWith(t, id);
    }
    forall s: nat | Node(t.p.n, s) ensures t.p.slots[s].buflen != 0 <==> LastOverwritten(t.h, s) {
      BusyIsOverwritten(t, s);
    }
  }
}
