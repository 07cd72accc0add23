/** The results that hold in every state of every run, for any number of nodes. A prefix of a run is
    a run, so each statement about After(st, steps) covers all reachable states. */
module MailboxRuns {
  import opened Basics
  import opened Mailbox
  import opened Addressing
  import opened MailboxOwnership
  import opened MailboxHistory
  import opened MailboxReading
  import opened MailboxReplies
  import opened MailboxReleases

  ghost predicate Inv(st: State)
  {
    Owned(st) && Logged(st) && Filled(st) && Readable(st) && Typed(st) && Settled(st) && Balanced(st)
  }

  lemma {:induction false} ZeroTotal(ws: seq<int>)
    requires forall i :: 0 <= i < |ws| ==> ws[i] == 0
    ensures Total(ws) == 0
  {
    if ws != [] { ZeroTotal(ws[..|ws| - 1]); }
  }

  lemma InitHolds(st: State)
    requires Init(st)
    ensures Inv(st)
  {
    InitIsOwned(st);
    ZeroTotal(Debts(st.p));
    ZeroTotal(Clearing(st.p));
  }

  lemma StepKeepsInv(st: State, a: Step)
    requires Inv(st) && Enabled(st.p, a)
    ensures Inv(Next(st, a))
  {
    StepKeepsOwned(st, a);
    StepKeepsLogged(st, a);
    StepKeepsFilled(st, a);
    StepKeepsReadable(st, a);
    StepKeepsTyped(st, a);
    StepKeepsSettled(st, a);
    StepKeepsBalanced(st, a);
  }

  lemma {:induction false} RunKeepsInv(st: State, steps: seq<Step>)
    requires Inv(st) && IsRun(st, steps)
    ensures Inv(After(st, steps))
    decreases steps
  {
    if steps != [] {
      StepKeepsInv(st, steps[0]);
      RunKeepsInv(Next(st, steps[0]), steps[1..]);
    }
  }

  lemma Reachable(st: State, steps: seq<Step>)
    requires Init(st) && IsRun(st, steps)
    ensures Inv(After(st, steps))
  {
    InitHolds(st);
    RunKeepsInv(st, steps);
  }

  // ---- Single ownership

  /** The places from which a sender's message can still be acted upon. */
  datatype Holder = InBell(d: nat) | InHandler(d: nat) | InPointer(d: nat)

  /** Read off the doorbells, the locks and the pointers alone. The exception in the last case is
      the tail of release, between its two stores, with the lock held. */
  predicate Has(p: Phys, s: nat, o: Holder)
    requires Shaped(p)
  {
    match o
    case InBell(d) => Bell(s, d) in p.bells
    case InHandler(d) => Node(p.n, d) && Active(p.lock[d]) && p.lock[d].src == s
    case InPointer(d) => Node(p.n, d) && p.incoming[d] == Some(s) && p.lock[d] != Releasing(true)
  }

  function OwnerFor(o: Holder): Owner
  {
    match o
    case InBell(d) => Flying(d)
    case InHandler(d) => AtHandler(d)
    case InPointer(d) => Held(d)
  }

  lemma HolderIsOwner(st: State, s: nat, o: Holder)
    requires Owned(st) && Has(st.p, s, o)
    ensures Node(st.p.n, s) && st.h.owner[s] == OwnerFor(o)
  {
    match o {
      case InBell(d) => assert BellOK(st.p, st.h, Bell(s, d));
      case InHandler(d) => assert NodeOK(st, d);
      case InPointer(d) => assert NodeOK(st, d);
    }
  }

  lemma OneBell(t: State, s: nat, d: nat, d': nat)
    requires Owned(t) && Bell(s, d) in t.p.bells && Bell(s, d') in t.p.bells
    ensures d == d' && t.p.bells[Bell(s, d)] == 1
  {
    assert BellOK(t.p, t.h, Bell(s, d)) && BellOK(t.p, t.h, Bell(s, d'));
  }

  /** Each sender's message has at most one holder; a free slot, or one that is being filled, has
      none; and two doorbells of one sender are never pending together. */
  lemma SingleOwnership(st: State, steps: seq<Step>, s: nat, o: Holder, o': Holder)
    requires Init(st) && IsRun(st, steps)
    requires Has(After(st, steps).p, s, o)
    ensures var p := After(st, steps).p;
            Node(p.n, s) && p.slots[s].buflen != 0 && !p.send[s].Publishing? &&
            (Has(p, s, o') ==> o' == o) &&
            forall d, d' :: Bell(s, d) in p.bells && Bell(s, d') in p.bells ==> d == d' && p.bells[Bell(s, d)] == 1
  {
    Reachable(st, steps);
    var t := After(st, steps);
    HolderIsOwner(t, s, o);
    assert NodeOK(t, s);
    if Has(t.p, s, o') { HolderIsOwner(t, s, o'); }
    forall d, d' | Bell(s, d) in t.p.bells && Bell(s, d') in t.p.bells
      ensures d == d' && t.p.bells[Bell(s, d)] == 1
    {
      OneBell(t, s, d, d');
    }
  }

  // ---- Conservation

  /** Message id is current and its sender's holder is o. */
  predicate At(st: State, id: nat, o: Holder)
    requires ShapedState(st) && id < |st.h.log|
  {
    st.h.log[id].src < |st.h.cur| && id == st.h.cur[st.h.log[id].src] && Has(st.p, st.h.log[id].src, o)
  }

  function One(b: bool): int { if b then 1 else 0 }

  /** Every accepted message is in exactly one of six places: its doorbell is pending, a handler has
      it, a pointer holds it, the link layer consumed it, a release cleared it, or its pointer was
      overwritten. The first three are read off the physical state. */
  lemma Conservation(st: State, steps: seq<Step>, id: nat)
    requires Init(st) && IsRun(st, steps) && id < |After(st, steps).h.log|
    ensures var t := After(st, steps);
            var d := t.h.log[id].dst;
            One(At(t, id, InBell(d))) + One(At(t, id, InHandler(d))) + One(At(t, id, InPointer(d))) +
            One(id in t.h.consumed) + One(id in t.h.released) + One(id in t.h.overwritten) == 1
  {
    Reachable(st, steps);
    ConservedAt(After(st, steps), id);
  }

  lemma ConservedAt(t: State, id: nat)
    requires Inv(t) && id < |t.h.log|
    ensures var d := t.h.log[id].dst;
            One(At(t, id, InBell(d))) + One(At(t, id, InHandler(d))) + One(At(t, id, InPointer(d))) +
            One(id in t.h.consumed) + One(id in t.h.released) + One(id in t.h.overwritten) == 1
  {
    var m := t.h.log[id];
    assert LogOK(t.p, t.h, id) && CurOK(t.h, m.src) && NodeOK(t, m.src);
    assert NodeOK(t, m.dst) && BellOK(t.p, t.h, Bell(m.src, m.dst));
  }

  /** Sets of message ids by place. */
  function InSystem(st: State): (ids: set<nat>)
    requires ShapedState(st)
    ensures forall id :: id in ids <==> 0 <= id < |st.h.log| && OnItsWay(st, id)
  {
    set id: nat | 0 <= id < |st.h.log| && OnItsWay(st, id)
  }

  predicate OnItsWay(st: State, id: nat)
    requires ShapedState(st) && id < |st.h.log|
  {
    var d := st.h.log[id].dst;
    At(st, id, InBell(d)) || At(st, id, InHandler(d)) || At(st, id, InPointer(d))
  }

  function Upto(n: nat): (ids: set<nat>)
    ensures forall id :: id in ids <==> 0 <= id < n
  {
    if n == 0 then {} else Upto(n - 1) + {n - 1}
  }

  lemma {:induction false} UptoSize(n: nat)
    ensures |Upto(n)| == n
  {
    if n > 0 { UptoSize(n - 1); }
  }

  lemma PartsAddUp(n: nat, a: set<nat>, b: set<nat>, c: set<nat>, d: set<nat>)
    requires forall id :: id in a || id in b || id in c || id in d ==> id < n
    requires forall id :: 0 <= id < n ==> One(id in a) + One(id in b) + One(id in c) + One(id in d) == 1
    ensures n == |a| + |b| + |c| + |d|
  {
    PartsDisjoint(n, a, b, c, d);
    assert a + b + c + d == Upto(n);
    UptoSize(n);
  }

  lemma PartsDisjoint(n: nat, a: set<nat>, b: set<nat>, c: set<nat>, d: set<nat>)
    requires forall id :: id in a || id in b || id in c || id in d ==> id < n
    requires forall id :: 0 <= id < n ==> One(id in a) + One(id in b) + One(id in c) + One(id in d) == 1
    ensures a !! b && a + b !! c && a + b + c !! d
  {
  }

  /** The count: accepted = still in the system + consumed + released + overwritten. */
  lemma NothingIsLostTrack(st: State, steps: seq<Step>)
    requires Init(st) && IsRun(st, steps)
    ensures var t := After(st, steps);
            |t.h.log| == |InSystem(t)| + |t.h.consumed| + |t.h.released| + |t.h.overwritten|
  {
    Reachable(st, steps);
    var t := After(st, steps);
    forall id | 0 <= id < |t.h.log|
      ensures One(id in InSystem(t)) + One(id in t.h.consumed) + One(id in t.h.released)
              + One(id in t.h.overwritten) == 1
    {
      ConservedAt(t, id);
    }
    PartsAddUp(|t.h.log|, InSystem(t), t.h.consumed, t.h.released, t.h.overwritten);
  }

  // ---- Delivery

  /** Every successful read returned the sender's header followed by exactly the bytes of one accepted
      message that was addressed to that reader, and reported that length. */
  lemma UntornDelivery(st: State, steps: seq<Step>, k: nat)
    requires Init(st) && IsRun(st, steps) && k < |After(st, steps).h.completed|
    requires After(st, steps).h.completed[k].result.Delivered?
    ensures var h := After(st, steps).h;
            var c := h.completed[k];
            c.id < |h.log| && h.log[c.id].dst == c.reader &&
            c.result.data == Header(h.log[c.id].src * 100, 27) + h.log[c.id].body && c.result.count == |c.result.data|
  {
    Reachable(st, steps);
    assert RecordOK(After(st, steps).h, k);
  }

  /** No message is read twice, and a reader gets the messages of each sender in sending order. */
  lemma OnceAndInOrder(st: State, steps: seq<Step>, j: nat, k: nat)
    requires Init(st) && IsRun(st, steps) && j < k < |After(st, steps).h.completed|
    ensures var h := After(st, steps).h;
            var a, b := h.completed[j].id, h.completed[k].id;
            a < |h.log| && b < |h.log| && a != b &&
            (h.log[a].src == h.log[b].src && h.completed[j].reader == h.completed[k].reader ==> a < b)
  {
    Reachable(st, steps);
    var h := After(st, steps).h;
    assert RecordOK(h, j) && RecordOK(h, k);
    var c := h.completed[k];
    assert Newest(h, c.reader, h.log[c.id].src, c.id, k);
    var s := h.log[c.id].src;
    assert h.completed[j].reader == c.reader && h.log[h.completed[j].id].src == s ==> SameLane(h, j, c.reader, s);
  }

  /** Nobody but a slot's own sender, its holder's handler, and a release through a pointer to it
      ever writes to the slot. */
  lemma OnlyOwnersWrite(st: State, a: Step, s: nat)
    requires Inv(st) && Enabled(st.p, a) && Node(st.p.n, s)
    requires Next(st, a).p.slots[s] != st.p.slots[s]
    ensures (a.BySender? && a.at == s && st.p.send[s].Publishing?) ||
            (a.ByHandler? && Has(st.p, s, InHandler(a.at))) ||
            (a == ByReader(a.at, Clear) && Has(st.p, s, InPointer(a.at)))
  {
    SlotWriters(st.p, a, s);
  }

  lemma SlotWriters(p: Phys, a: Step, s: nat)
    requires Shaped(p) && Enabled(p, a) && Node(p.n, s) && NextPhys(p, a).slots[s] != p.slots[s]
    ensures match a
            case BySender(i, o) => i == s && p.send[s].Publishing?
            case ByHandler(i, o) => Active(p.lock[i]) && p.lock[i].src == s
            case ByTail(_, _, _) => false
            case ByReader(i, o) => o.Clear? && p.incoming[i] == Some(s) && p.lock[i] == Releasing(false)
  {
  }

  /** Release always has a pointer to follow: no step of the driver can get stuck on a missing slot. */
  lemma ReleaseHasItsPointer(st: State, steps: seq<Step>, r: nat)
    requires Init(st) && IsRun(st, steps) && Node(After(st, steps).p.n, r)
    ensures var p := After(st, steps).p;
            (p.lock[r] == Releasing(false) ==> ReadEnabled(p, r, Clear)) &&
            (p.reader[r].Done? ==> p.incoming[r].Some?)
  {
    Reachable(st, steps);
    assert NodeOK(After(st, steps), r);
  }

  // ---- What release frees

  lemma ReleaseAt(t: State, r: nat)
    requires ShapedState(t) && Node(t.p.n, r) && NodeOK(t, r) && ReadingOK(t.p, t.h, r)
    requires t.p.lock[r] == Releasing(false)
    requires NodeOK(t, t.p.reader[r].src) && LogOK(t.p, t.h, t.h.reading[r]) && CurOK(t.h, t.p.incoming[r].value)
    ensures ReadEnabled(t.p, r, Clear)
    ensures t.p.incoming[r] == Some(t.p.reader[r].src) <==> t.h.reading[r] !in t.h.overwritten
    ensures t.h.reading[r] in Next(t, ByReader(r, Clear)).h.released <==> t.h.reading[r] !in t.h.overwritten
  {
  }

  /** Release frees the message that its read was about exactly when that message has not been
      overwritten meanwhile; otherwise it frees the one that has replaced it, unread. */
  lemma ReleaseFreesItsOwn(st: State, steps: seq<Step>, r: nat)
    requires Init(st) && IsRun(st, steps) && Node(st.p.n, r) && After(st, steps).p.lock[r] == Releasing(false)
    ensures var t := After(st, steps);
            ReadEnabled(t.p, r, Clear) && t.p.reader[r].Done? && t.h.reading[r] < |t.h.log| &&
            (t.p.incoming[r] == Some(t.p.reader[r].src) <==> t.h.reading[r] !in t.h.overwritten) &&
            (t.h.reading[r] in Next(t, ByReader(r, Clear)).h.released <==> t.h.reading[r] !in t.h.overwritten)
  {
    Reachable(st, steps);
    var t := After(st, steps);
    assert NodeOK(t, r) && ReadingOK(t.p, t.h, r);
    assert NodeOK(t, t.p.reader[r].src) && LogOK(t.p, t.h, t.h.reading[r]);
    assert CurOK(t.h, t.p.incoming[r].value);
    ReleaseAt(t, r);
  }

  /** The messages that completed reads were about. */
  function ReadIds(c: seq<ReadRecord>): (ids: set<nat>)
    ensures forall id :: id in ids <==> exists k :: 0 <= k < |c| && c[k].id == id
  {
    set k: nat | 0 <= k < |c| :: c[k].id
  }

  lemma {:induction false} DistinctIds(c: seq<ReadRecord>)
    requires forall j, k :: 0 <= j < k < |c| ==> c[j].id != c[k].id
    ensures |ReadIds(c)| == |c|
  {
    if c == [] {
      assert ReadIds(c) == {};
    } else {
      var n := |c| - 1;
      DistinctIds(c[..n]);
      assert ReadIds(c) == ReadIds(c[..n]) + {c[n].id};
    }
  }

  lemma EqualRests<T>(a: set<T>, b: set<T>, o: set<T>)
    requires |a| == |b| && a !! o && b <= a + o
    ensures |a - b| == |o * b|
  {
    assert |a| == |a - b| + |a * b| by { assert a == (a - b) + (a * b); }
    assert |b| == |o * b| + |a * b| by { assert b == (o * b) + (a * b); }
  }

  /** Once no read is going on, the messages that were released without ever having been read are as many
      as those that were read although their pointer had been overwritten: each stray release stands
      for one sender that is stuck. */
  lemma StrayReleases(st: State, steps: seq<Step>)
    requires Init(st) && IsRun(st, steps)
    requires forall r :: 1 <= r <= st.p.n ==> After(st, steps).p.reader[r].Away?
    ensures var h := After(st, steps).h;
            |h.released - ReadIds(h.completed)| == |h.overwritten * ReadIds(h.completed)|
  {
    Reachable(st, steps);
    var t := After(st, steps);
    NobodyClears(t);
    forall j, k | 0 <= j < k < |t.h.completed| ensures t.h.completed[j].id != t.h.completed[k].id {
      OnceAndInOrder(st, steps, j, k);
    }
    DistinctIds(t.h.completed);
    ReadIsReleasedOrLost(t);
    EqualRests(t.h.released, ReadIds(t.h.completed), t.h.overwritten);
  }

  lemma NobodyClears(t: State)
    requires Owned(t) && Balanced(t) && forall r :: 1 <= r <= t.p.n ==> t.p.reader[r].Away?
    ensures |t.h.released| == |t.h.completed|
  {
    forall i | 0 <= i <= t.p.n ensures Clearing(t.p)[i] == 0 {
      assert 1 <= i ==> NodeOK(t, i);
    }
    ZeroTotal(Clearing(t.p));
  }

  lemma ReadIsReleasedOrLost(t: State)
    requires Logged(t) && Readable(t)
    ensures ReadIds(t.h.completed) <= t.h.released + t.h.overwritten && t.h.released !! t.h.overwritten
  {
    forall id | id in ReadIds(t.h.completed) ensures id in t.h.released + t.h.overwritten {
      var k :| 0 <= k < |t.h.completed| && t.h.completed[k].id == id;
      assert RecordOK(t.h, k);
    }
    forall id | id in t.h.released ensures id !in t.h.overwritten {
      assert LogOK(t.p, t.h, id);
    }
  }

  // ---- What reads overrun

  /** Every completed read got E2BIG exactly when the header and the message together exceed the user's
      buffer by more than one byte: a message that is one byte too long is delivered, and its last byte
      lands behind the buffer. */
  lemma ReadsOverrunByOne(st: State, steps: seq<Step>, k: nat)
    requires Init(st) && IsRun(st, steps) && k < |After(st, steps).h.completed|
    requires st.p.n * 100 < 0x1_0000_0000_0000_0000
    ensures var h := After(st, steps).h;
            var c := h.completed[k];
            c.id < |h.log| &&
            var total := |Header(h.log[c.id].src * 100, SID_DEFAULT) + h.log[c.id].body|;
            (c.result == Failed(E2BIG) <==> total > c.cap + 1) &&
            (c.result.Delivered? ==> |c.result.data| == total <= c.cap + 1) &&
            (c.result.Delivered? ==> (|c.result.data| > c.cap <==> total == c.cap + 1))
  {
    Reachable(st, steps);
    var t := After(st, steps);
    var c := t.h.completed[k];
    assert RecordOK(t.h, k) && LogOK(t.p, t.h, c.id);
    HeaderFits(t.h.log[c.id].src * 100);
  }

  // ---- Overwritten senders

  lemma StaysLost(st: State, a: Step, s: nat)
    requires Inv(st) && Enabled(st.p, a) && Node(st.p.n, s) && st.h.owner[s].Lost?
    ensures var t := Next(st, a);
            t.h.owner[s] == st.h.owner[s] && t.h.cur[s] == st.h.cur[s] && t.p.slots[s] == st.p.slots[s]
  {
    assert NodeOK(st, a.at) && NodeOK(st, s);
    assert a.ByHandler? && a.isr.Take? ==> BellOK(st.p, st.h, Bell(a.isr.s, a.at));
    LostAt(st, a, s);
  }

  lemma LostAt(st: State, a: Step, s: nat)
    requires ShapedState(st) && Enabled(st.p, a) && Node(st.p.n, s) && st.h.owner[s].Lost?
    requires NodeOK(st, a.at) && NodeOK(st, s)
    requires a.ByHandler? && a.isr.Take? ==> BellOK(st.p, st.h, Bell(a.isr.s, a.at))
    ensures var t := Next(st, a);
            t.h.owner[s] == st.h.owner[s] && t.h.cur[s] == st.h.cur[s] && t.p.slots[s] == st.p.slots[s]
  {
    if Next(st, a).p.slots[s] != st.p.slots[s] { SlotWriters(st.p, a, s); }
  }

  lemma {:induction false} RunStaysLost(st: State, steps: seq<Step>, s: nat)
    requires Inv(st) && IsRun(st, steps) && Node(st.p.n, s) && st.h.owner[s].Lost?
    ensures var t := After(st, steps);
            t.h.owner[s] == st.h.owner[s] && t.h.cur[s] == st.h.cur[s] && t.p.slots[s] == st.p.slots[s]
    decreases steps
  {
    if steps != [] {
      StaysLost(st, steps[0], s);
      StepKeepsInv(st, steps[0]);
      RunStaysLost(Next(st, steps[0]), steps[1..], s);
    }
  }

  /** An overwritten sender is stuck for good: whatever happens later, its slot never changes, it is
      never free, and no send of it can ever pass the test that precedes publishing. */
  lemma OverwrittenIsStuck(st: State, steps: seq<Step>, more: seq<Step>, id: nat)
    requires Init(st) && IsRun(st, steps) && IsRun(After(st, steps), more)
    requires id in After(st, steps).h.overwritten
    ensures var t, u := After(st, steps), After(After(st, steps), more);
            id < |t.h.log| &&
            (var s := t.h.log[id].src;
             Node(u.p.n, s) && u.p.slots[s] == t.p.slots[s] && u.p.slots[s].buflen != 0 &&
             !u.p.send[s].Publishing? && !SendEnabled(u.p, s, Pass))
  {
    Reachable(st, steps);
    var t := After(st, steps);
    assert LogOK(t.p, t.h, id);
    var s := t.h.log[id].src;
    RunStaysLost(t, more, s);
    RunKeepsInv(t, more);
    LostIsBusy(After(t, more), s);
  }

  lemma LostIsBusy(u: State, s: nat)
    requires Owned(u) && Node(u.p.n, s) && u.h.owner[s].Lost?
    ensures u.p.slots[s].buflen != 0 && !u.p.send[s].Publishing? && !SendEnabled(u.p, s, Pass)
  {
    assert NodeOK(u, s);
  }

  /** With nothing overwritten, every busy slot that is not being filled has exactly one holder. */
  lemma BusyHasHolder(st: State, steps: seq<Step>, s: nat)
    requires Init(st) && IsRun(st, steps) && Node(st.p.n, s)
    requires var p := After(st, steps).p; p.slots[s].buflen != 0 && !p.send[s].Publishing?
    ensures var t := After(st, steps);
            t.h.cur[s] < |t.h.log| &&
            (t.h.cur[s] !in t.h.overwritten <==> exists o :: Has(t.p, s, o))
  {
    Reachable(st, steps);
    var t := After(st, steps);
    assert NodeOK(t, s) && CurOK(t.h, s);
    assert LogOK(t.p, t.h, t.h.cur[s]);
    var d := t.h.owner[s].at;
    if t.h.owner[s].Flying? {
      assert BellOK(t.p, t.h, Bell(s, d));
      assert Has(t.p, s, InBell(d));
    } else if t.h.owner[s].AtHandler? {
      assert Has(t.p, s, InHandler(d));
    } else if t.h.owner[s].Held? {
      assert Has(t.p, s, InPointer(d));
    }
    forall o | Has(t.p, s, o) ensures !t.h.owner[s].Lost? { HolderIsOwner(t, s, o); }
  }

  /** Over any run, automatic replies never outnumber the messages that are no replies. */
  lemma RepliesNeverOutnumber(st: State, steps: seq<Step>)
    requires Init(st) && IsRun(st, steps)
    ensures var log := After(st, steps).h.log; 2 * ReplyCount(log) <= |log|
  {
    Reachable(st, steps);
    RepliesAreFew(After(st, steps));
  }
}
