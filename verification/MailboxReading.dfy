/** What readers get: untorn messages, each at most once, in the order of each sender. */
module MailboxReading {
  import opened Basics
  import opened Mailbox
  import opened MailboxOwnership
  import opened MailboxHistory

  /** The data of a successful read: the sender's header, then exactly the message. */
  predicate Untorn(m: Message, res: ReadResult)
  {
    res.Delivered? ==>
      res.data == Header(m.src * 100, SID_DEFAULT) + m.body && res.count == |res.data|
  }

  /** The guard of read() turns message m away from a buffer of cap bytes. */
  predicate TooBig(m: Message, cap: nat)
  {
    var header := Header(m.src * 100, SID_DEFAULT);
    |header| >= 32 || |header| + |m.body| > cap + 1
  }

  /** A read fails with E2BIG exactly when the guard turns its message away. */
  predicate Judged(m: Message, res: ReadResult, cap: nat) { res == Failed(E2BIG) <==> TooBig(m, cap) }

  /** Completed read k was by reader r, of a message from s. */
  predicate SameLane(h: Hist, k: nat, r: nat, s: nat)
    requires k < |h.completed|
  {
    h.completed[k].reader == r && h.completed[k].id < |h.log| && h.log[h.completed[k].id].src == s
  }

  /** Every earlier read by r of a message from s was of an older message than id. */
  predicate Newest(h: Hist, r: nat, s: nat, id: nat, upto: nat)
    requires upto <= |h.completed|
  {
    forall k :: 0 <= k < upto && SameLane(h, k, r, s) ==> h.completed[k].id < id
  }

  /** What a reader has gathered so far is right for the message it has got hold of. */
  predicate Gathered(rd: Reader, m: Message)
  {
    match rd
    case Away => true
    case Got(_) => true
    case Headed(s, hd) => hd == Header(s * 100, SID_DEFAULT)
    case Guarded(s, hd, cap) => hd == Header(s * 100, SID_DEFAULT) && !TooBig(m, cap)
    case Reading(s, hd, cap, len, got) =>
      hd == Header(s * 100, SID_DEFAULT) && !TooBig(m, cap) && len == |m.body| && got <= m.body
    case Done(_, res, cap) => Untorn(m, res) && Judged(m, res, cap)
  }

  predicate ReadingOK(p: Phys, h: Hist, r: nat)
    requires Shaped(p) && ShapedHist(p, h) && Node(p.n, r)
  {
    var rd, id := p.reader[r], h.reading[r];
    rd.Away? ||
    (id < |h.log| && h.log[id].dst == r && h.log[id].src == rd.src && Node(p.n, rd.src) &&
     (if p.lock[r] == Releasing(true) then id in h.released || id in h.overwritten else id == h.cur[rd.src]) &&
     Gathered(rd, h.log[id]))
  }

  predicate InOrder(p: Phys, h: Hist, r: nat)
    requires Shaped(p) && ShapedHist(p, h) && Node(p.n, r)
  {
    !p.reader[r].Away? ==> Newest(h, r, p.reader[r].src, h.reading[r], |h.completed|)
  }

  predicate RecordOK(h: Hist, k: nat)
    requires k < |h.completed|
  {
    var c := h.completed[k];
    c.id < |h.log| && h.log[c.id].dst == c.reader && Untorn(h.log[c.id], c.result) &&
    Judged(h.log[c.id], c.result, c.cap) &&
    (c.id in h.released || c.id in h.overwritten) && Newest(h, c.reader, h.log[c.id].src, c.id, k)
  }

  ghost predicate Readable(st: State)
  {
    ShapedState(st) &&
    (forall r :: Node(st.p.n, r) ==> ReadingOK(st.p, st.h, r)) &&
    (forall r :: Node(st.p.n, r) ==> InOrder(st.p, st.h, r)) &&
    (forall k :: 0 <= k < |st.h.completed| ==> RecordOK(st.h, k))
  }

  lemma SenderKeepsReading(st: State, i: nat, a: SendOp, r: nat)
    requires ShapedState(st) && Node(st.p.n, i) && SendEnabled(st.p, i, a) && Node(st.p.n, r)
    requires NodeOK(st, i) && NodeOK(st, r) && ReadingOK(st.p, st.h, r)
    ensures ReadingOK(Next(st, BySender(i, a)).p, Next(st, BySender(i, a)).h, r)
  {
  }

  lemma HandlerKeepsReading(st: State, i: nat, a: HandlerOp, r: nat)
    requires ShapedState(st) && Node(st.p.n, i) && HandlerEnabled(st.p, i, a) && Node(st.p.n, r)
    requires NodeOK(st, i) && NodeOK(st, r) && ReadingOK(st.p, st.h, r)
    ensures ReadingOK(Next(st, ByHandler(i, a)).p, Next(st, ByHandler(i, a)).h, r)
  {
  }

  lemma TailKeepsReading(st: State, i: nat, k: nat, o: TailOp, r: nat)
    requires ShapedState(st) && Node(st.p.n, i) && TailEnabled(st.p, i, k, o) && Node(st.p.n, r)
    requires ReadingOK(st.p, st.h, r)
    ensures ReadingOK(Next(st, ByTail(i, k, o)).p, st.h, r)
  {
  }

  /** One step of a reader on the message m that it has got hold of. */
  lemma ReaderGathers(st: State, r: nat, a: ReadOp, m: Message)
    requires ShapedState(st) && Node(st.p.n, r) && ReadEnabled(st.p, r, a)
    requires !(a.Await? || a.LockRelease? || a.Clear? || a.Null?)
    requires Node(st.p.n, m.src) && st.p.reader[r].src == m.src && Gathered(st.p.reader[r], m)
    requires Holds(st.p.slots[m.src], m) && IsStamped(st.p.slots[m.src], m.src)
    ensures Gathered(NextReader(st.p, r, a), m) && NextReader(st.p, r, a).src == m.src
  {
    var rd, b := st.p.reader[r], st.p.slots[m.src];
    if a.ReadByte? {
      assert b.buf[|rd.got|] == m.body[|rd.got|];
    } else if a.Finish? {
      assert rd.got == m.body;
    }
  }

  lemma ClearKeepsReading(st: State, i: nat, r: nat)
    requires ShapedState(st) && Node(st.p.n, i) && ReadEnabled(st.p, i, Clear) && Node(st.p.n, r)
    requires NodeOK(st, i) && NodeOK(st, r) && ReadingOK(st.p, st.h, r) && CurOK(st.h, st.p.incoming[i].value)
    requires !st.p.reader[r].Away? && st.p.lock[r] != Releasing(true) ==>
      NodeOK(st, st.p.reader[r].src) && LogOK(st.p, st.h, st.h.reading[r])
    ensures ReadingOK(Next(st, ByReader(i, Clear)).p, Next(st, ByReader(i, Clear)).h, r)
  {
  }

  lemma AwaitKeepsReading(st: State, i: nat, r: nat)
    requires ShapedState(st) && Node(st.p.n, i) && ReadEnabled(st.p, i, Await) && Node(st.p.n, r)
    requires NodeOK(st, i) && ReadingOK(st.p, st.h, r) && CurOK(st.h, st.p.incoming[i].value)
    ensures ReadingOK(Next(st, ByReader(i, Await)).p, Next(st, ByReader(i, Await)).h, r)
  {
  }

  /** The steps that move a reader on through its message. */
  lemma CopyKeepsReading(st: State, i: nat, a: ReadOp, r: nat)
    requires ShapedState(st) && Node(st.p.n, i) && ReadEnabled(st.p, i, a) && Node(st.p.n, r)
    requires !(a.Await? || a.LockRelease? || a.Clear? || a.Null?)
    requires NodeOK(st, i) && ReadingOK(st.p, st.h, r)
    requires r == i ==> ContentOK(st.p, st.h, st.p.reader[r].src)
    ensures ReadingOK(Next(st, ByReader(i, a)).p, Next(st, ByReader(i, a)).h, r)
  {
    if r == i { ReaderGathers(st, r, a, st.h.log[st.h.reading[r]]); }
  }

  lemma ReaderKeepsReading(st: State, i: nat, a: ReadOp, r: nat)
    requires Owned(st) && Logged(st) && Filled(st)
    requires Node(st.p.n, i) && ReadEnabled(st.p, i, a) && Node(st.p.n, r)
    requires ReadingOK(st.p, st.h, r)
    ensures ReadingOK(Next(st, ByReader(i, a)).p, Next(st, ByReader(i, a)).h, r)
  {
    assert NodeOK(st, i) && NodeOK(st, r);
    var rd := st.p.reader[r];
    if a.Clear? {
      assert CurOK(st.h, st.p.incoming[i].value);
      if !rd.Away? && st.p.lock[r] != Releasing(true) {
        assert NodeOK(st, rd.src) && LogOK(st.p, st.h, st.h.reading[r]);
      }
      ClearKeepsReading(st, i, r);
    } else if a.Await? {
      assert CurOK(st.h, st.p.incoming[i].value);
      AwaitKeepsReading(st, i, r);
    } else if a.LockRelease? || a.Null? {
      LocksKeepReading(st, i, a, r);
    } else {
      assert r == i ==> ContentOK(st.p, st.h, rd.src);
      CopyKeepsReading(st, i, a, r);
    }
  }

  lemma LocksKeepReading(st: State, i: nat, a: ReadOp, r: nat)
    requires ShapedState(st) && Node(st.p.n, i) && ReadEnabled(st.p, i, a) && Node(st.p.n, r)
    requires (a.LockRelease? || a.Null?) && ReadingOK(st.p, st.h, r)
    ensures ReadingOK(Next(st, ByReader(i, a)).p, Next(st, ByReader(i, a)).h, r)
  {
  }

  lemma StepKeepsReading(st: State, a: Step, r: nat)
    requires Owned(st) && Logged(st) && Filled(st) && Enabled(st.p, a) && Node(st.p.n, r)
    requires ReadingOK(st.p, st.h, r)
    ensures ReadingOK(Next(st, a).p, Next(st, a).h, r)
  {
    assert NodeOK(st, a.at) && NodeOK(st, r);
    match a {
      case BySender(i, o) => SenderKeepsReading(st, i, o, r);
      case ByHandler(i, o) => HandlerKeepsReading(st, i, o, r);
      case ByTail(i, k, o) => TailKeepsReading(st, i, k, o, r);
      case ByReader(i, o) => ReaderKeepsReading(st, i, o, r);
    }
  }

  /** g remembers everything that h does. */
  predicate Extends(g: Hist, h: Hist)
  {
    h.log <= g.log && h.completed <= g.completed &&
    h.consumed <= g.consumed && h.released <= g.released && h.overwritten <= g.overwritten
  }

  lemma SenderExtends(p: Phys, h: Hist, i: nat, a: SendOp)
    requires Shaped(p) && ShapedHist(p, h) && Node(p.n, i) && SendEnabled(p, i, a)
    ensures Extends(SendHist(p, h, i, a), h)
  {
  }

  lemma HandlerExtends(p: Phys, h: Hist, i: nat, a: HandlerOp)
    requires Shaped(p) && ShapedHist(p, h) && Node(p.n, i) && HandlerEnabled(p, i, a)
    ensures Extends(HandlerHist(p, h, i, a), h)
  {
  }

  lemma ReaderExtends(p: Phys, h: Hist, i: nat, a: ReadOp)
    requires Shaped(p) && ShapedHist(p, h) && Node(p.n, i) && ReadEnabled(p, i, a)
    ensures Extends(ReadHist(p, h, i, a), h)
  {
  }

  /** Steps only ever add to the records of the past. */
  lemma HistoryGrows(st: State, a: Step)
    requires ShapedState(st) && Enabled(st.p, a)
    ensures Extends(Next(st, a).h, st.h)
  {
    match a {
      case BySender(i, o) => SenderExtends(st.p, st.h, i, o);
      case ByHandler(i, o) => HandlerExtends(st.p, st.h, i, o);
      case ByTail(_, _, _) =>
      case ByReader(i, o) => ReaderExtends(st.p, st.h, i, o);
    }
  }

  lemma NewestGrows(h: Hist, g: Hist, r: nat, s: nat, id: nat, upto: nat)
    requires upto <= |h.completed| && h.log <= g.log && h.completed <= g.completed
    requires forall k :: 0 <= k < upto ==> h.completed[k].id < |h.log|
    requires Newest(h, r, s, id, upto)
    ensures Newest(g, r, s, id, upto)
  {
    forall k | 0 <= k < upto && SameLane(g, k, r, s) ensures g.completed[k].id < id {
      assert SameLane(h, k, r, s);
    }
  }

  /** When a reader picks a message up, it is newer than all it has had from that sender. */
  lemma AwaitIsNewest(st: State, r: nat)
    requires Owned(st) && Logged(st) && Readable(st)
    requires Node(st.p.n, r) && ReadEnabled(st.p, r, Await)
    ensures Newest(st.h, r, st.p.incoming[r].value, st.h.cur[st.p.incoming[r].value], |st.h.completed|)
  {
    var s := st.p.incoming[r].value;
    assert NodeOK(st, r) && CurOK(st.h, s);
    assert LogOK(st.p, st.h, st.h.cur[s]);
    forall k | 0 <= k < |st.h.completed| && SameLane(st.h, k, r, s) ensures st.h.completed[k].id < st.h.cur[s] {
      assert RecordOK(st.h, k) && LogOK(st.p, st.h, st.h.completed[k].id);
    }
  }

  /** Senders and handlers leave every reader's hold, and the completed reads, alone. */
  lemma OnlyReadersRead(st: State, a: Step)
    requires ShapedState(st) && Enabled(st.p, a) && !a.ByReader?
    ensures var t := Next(st, a);
            t.p.reader == st.p.reader && t.h.reading == st.h.reading && t.h.completed == st.h.completed
  {
    match a {
      case BySender(i, o) => SendersDoNotRead(st, i, o);
      case ByHandler(i, o) => HandlersDoNotRead(st, i, o);
      case ByTail(_, _, _) =>
    }
  }

  lemma SendersDoNotRead(st: State, i: nat, o: SendOp)
    requires ShapedState(st) && Node(st.p.n, i) && SendEnabled(st.p, i, o)
    ensures var q, g := SendPhys(st.p, i, o), SendHist(st.p, st.h, i, o);
            q.reader == st.p.reader && g.reading == st.h.reading && g.completed == st.h.completed
  {
  }

  lemma HandlersDoNotRead(st: State, i: nat, o: HandlerOp)
    requires ShapedState(st) && Node(st.p.n, i) && HandlerEnabled(st.p, i, o)
    ensures var q, g := HandlerPhys(st.p, i, o), HandlerHist(st.p, st.h, i, o);
            q.reader == st.p.reader && g.reading == st.h.reading && g.completed == st.h.completed
  {
  }

  /** A reader's hold changes only by its own Await; a completed read is added only by Null. */
  lemma HoldChanges(st: State, i: nat, a: ReadOp, r: nat)
    requires ShapedState(st) && Node(st.p.n, i) && ReadEnabled(st.p, i, a) && Node(st.p.n, r) && NodeOK(st, r)
    requires !(i == r && a.Await?) && !ReadPhys(st.p, i, a).reader[r].Away?
    ensures var q, g := ReadPhys(st.p, i, a), ReadHist(st.p, st.h, i, a);
            !st.p.reader[r].Away? && q.reader[r].src == st.p.reader[r].src && g.reading[r] == st.h.reading[r] &&
            (g.completed == st.h.completed ||
             (i != r && |g.completed| == |st.h.completed| + 1 && g.completed[|st.h.completed|].reader == i))
  {
  }

  /** A step that does not pick a message up for r keeps r's hold the newest. */
  lemma KeepsOrder(st: State, a: Step, r: nat)
    requires ShapedState(st) && Enabled(st.p, a) && Node(st.p.n, r) && NodeOK(st, r) && InOrder(st.p, st.h, r)
    requires forall k :: 0 <= k < |st.h.completed| ==> st.h.completed[k].id < |st.h.log|
    requires a != ByReader(r, Await) && !Next(st, a).p.reader[r].Away?
    ensures InOrder(Next(st, a).p, Next(st, a).h, r)
  {
    HistoryGrows(st, a);
    if a.ByReader? { HoldChanges(st, a.at, a.get, r); } else { OnlyReadersRead(st, a); }
    NewestGrows(st.h, Next(st, a).h, r, st.p.reader[r].src, st.h.reading[r], |st.h.completed|);
  }

  lemma StepKeepsOrder(st: State, a: Step, r: nat)
    requires Owned(st) && Logged(st) && Readable(st) && Enabled(st.p, a) && Node(st.p.n, r)
    ensures InOrder(Next(st, a).p, Next(st, a).h, r)
  {
    if a == ByReader(r, Await) {
      AwaitIsNewest(st, r);
    } else if !Next(st, a).p.reader[r].Away? {
      assert InOrder(st.p, st.h, r) && NodeOK(st, r);
      forall k | 0 <= k < |st.h.completed| ensures st.h.completed[k].id < |st.h.log| { assert RecordOK(st.h, k); }
      KeepsOrder(st, a, r);
    }
  }

  lemma OldRecord(h: Hist, g: Hist, k: nat)
    requires k < |h.completed| && RecordOK(h, k) && Extends(g, h)
    requires forall j :: 0 <= j < |h.completed| ==> h.completed[j].id < |h.log|
    ensures RecordOK(g, k)
  {
    var c := h.completed[k];
    NewestGrows(h, g, c.reader, h.log[c.id].src, c.id, k);
  }

  lemma NewRecord(st: State, r: nat)
    requires ShapedState(st) && Node(st.p.n, r) && ReadEnabled(st.p, r, Null) && NodeOK(st, r)
    requires ReadingOK(st.p, st.h, r) && InOrder(st.p, st.h, r)
    requires forall j :: 0 <= j < |st.h.completed| ==> st.h.completed[j].id < |st.h.log|
    ensures RecordOK(ReadHist(st.p, st.h, r, Null), |st.h.completed|)
  {
    var g, k := ReadHist(st.p, st.h, r, Null), |st.h.completed|;
    NewestGrows(st.h, g, r, st.p.reader[r].src, st.h.reading[r], k);
  }

  lemma RecordsGrow(st: State, a: Step)
    requires ShapedState(st) && Enabled(st.p, a)
    ensures |Next(st, a).h.completed| <= |st.h.completed| + (if a == ByReader(a.at, Null) then 1 else 0)
  {
    if !a.ByReader? { OnlyReadersRead(st, a); }
  }

  lemma StepKeepsRecord(st: State, a: Step, k: nat)
    requires Owned(st) && Readable(st) && Enabled(st.p, a) && k < |Next(st, a).h.completed|
    ensures RecordOK(Next(st, a).h, k)
  {
    HistoryGrows(st, a);
    RecordsGrow(st, a);
    forall j | 0 <= j < |st.h.completed| ensures st.h.completed[j].id < |st.h.log| { assert RecordOK(st.h, j); }
    if k < |st.h.completed| {
      assert RecordOK(st.h, k);
      OldRecord(st.h, Next(st, a).h, k);
    } else {
      assert NodeOK(st, a.at) && ReadingOK(st.p, st.h, a.at) && InOrder(st.p, st.h, a.at);
      NewRecord(st, a.at);
    }
  }

  lemma StepKeepsReadable(st: State, a: Step)
    requires Owned(st) && Logged(st) && Filled(st) && Readable(st) && Enabled(st.p, a)
    ensures Readable(Next(st, a))
  {
    var t := Next(st, a);
    forall r | Node(t.p.n, r) ensures ReadingOK(t.p, t.h, r) { StepKeepsReading(st, a, r); }
    forall r | Node(t.p.n, r) ensures InOrder(t.p, t.h, r) { StepKeepsOrder(st, a, r); }
    forall k | 0 <= k < |t.h.completed| ensures RecordOK(t.h, k) { StepKeepsRecord(st, a, k); }
  }
}
