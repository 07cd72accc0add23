/** The closed forms of the receiver's operations: what the steps of one read, one release and one
    link request add up to when they run in a row. With them, a read that overruns its buffer and a
    release that frees a message nobody has read. */
module MailboxSoloReading {
  import opened Basics
  import opened Mailbox
  import opened MailboxSolo
  import opened Addressing

  // ---- Copying to the user

  function WithReader(st: State, r: nat, rd: Reader): (t: State)
    requires ShapedState(st) && r <= st.p.n
    ensures ShapedState(t)
  {
    State(st.p.(reader := st.p.reader[r := rd]), st.h)
  }

  predicate GatheringAt(st: State, r: nat)
  {
    ShapedState(st) && Node(st.p.n, r) && st.p.reader[r].Reading? && Node(st.p.n, st.p.reader[r].src) &&
    var rd, b := st.p.reader[r], st.p.slots[st.p.reader[r].src];
    |rd.got| <= rd.len == b.buflen <= |b.buf|
  }

  /** Where a copy to the user ends up: all bytes from where it stands on. */
  function GatherEnd(st: State, r: nat): (t: State)
    requires GatheringAt(st, r)
    ensures ShapedState(t)
  {
    var rd := st.p.reader[r];
    var b := st.p.slots[rd.src];
    var data := rd.header + (rd.got + b.buf[|rd.got|..b.buflen]);
    WithReader(st, r, Done(rd.src, Delivered(data, b.buflen + |rd.header|), rd.cap))
  }

  function GatherSteps(r: nat, k: nat): seq<Step> { Repeat(ByReader(r, ReadByte), k) + [ByReader(r, Finish)] }

  lemma OneByteRead(st: State, r: nat)
    requires GatheringAt(st, r) && |st.p.reader[r].got| < st.p.reader[r].len
    ensures ReadEnabled(st.p, r, ReadByte)
    ensures var t := Next(st, ByReader(r, ReadByte));
            GatheringAt(t, r) && GatherEnd(t, r) == GatherEnd(st, r) &&
            t.p.reader[r].len == st.p.reader[r].len && |t.p.reader[r].got| == |st.p.reader[r].got| + 1
  {
    var rd, t := st.p.reader[r], Next(st, ByReader(r, ReadByte));
    var b, k := st.p.slots[rd.src], |rd.got|;
    assert (rd.got + [b.buf[k]]) + b.buf[k + 1..b.buflen] == rd.got + b.buf[k..b.buflen];
    var x := GatherEnd(st, r).p.reader[r];
    assert t.p.reader[r := x] == st.p.reader[r := x];
  }

  lemma LastByteRead(st: State, r: nat)
    requires GatheringAt(st, r) && |st.p.reader[r].got| == st.p.reader[r].len
    ensures ReadEnabled(st.p, r, Finish) && Next(st, ByReader(r, Finish)) == GatherEnd(st, r)
  {
    var rd := st.p.reader[r];
    assert rd.got + st.p.slots[rd.src].buf[rd.len..rd.len] == rd.got;
  }

  lemma {:induction false} GatherInARow(st: State, r: nat)
    requires GatheringAt(st, r)
    ensures Leads(st, GatherSteps(r, st.p.reader[r].len - |st.p.reader[r].got|), GatherEnd(st, r))
    decreases st.p.reader[r].len - |st.p.reader[r].got|
  {
    var left := st.p.reader[r].len - |st.p.reader[r].got|;
    if left == 0 {
      LastByteRead(st, r);
      OneStep(st, ByReader(r, Finish));
      assert GatherSteps(r, 0) == [ByReader(r, Finish)];
    } else {
      OneByteRead(st, r);
      GatherInARow(Next(st, ByReader(r, ReadByte)), r);
      StepFirst(st, ByReader(r, ReadByte), GatherSteps(r, left - 1), GatherEnd(st, r));
      RepeatFirst(ByReader(r, ReadByte), left, [ByReader(r, Finish)]);
    }
  }

  // ---- From the pick-up to the result

  /** Reader r can look at slot s, whose length is within its buffer. */
  predicate CanLook(st: State, r: nat, s: nat)
  {
    ShapedState(st) && Node(st.p.n, r) && Node(st.p.n, s) && st.p.slots[s].buflen <= |st.p.slots[s].buf|
  }

  /** What a read of slot b into cap bytes returns. */
  function ReadOutcome(b: Slot, cap: nat, faulty: bool): ReadResult
    requires b.buflen <= |b.buf|
  {
    var header := Header(b.peerCid, b.peerSid);
    if !GuardPasses(header, b.buflen, cap) then Failed(E2BIG)
    else if faulty then Failed(EFAULT)
    else Delivered(header + b.buf[..b.buflen], b.buflen + |header|)
  }

  /** The steps after the guard. */
  function AfterGuard(r: nat, b: Slot, cap: nat, faulty: bool): seq<Step>
  {
    if !GuardPasses(Header(b.peerCid, b.peerSid), b.buflen, cap) then []
    else if faulty then [ByReader(r, Fault)]
    else [ByReader(r, CopyStart)] + GatherSteps(r, b.buflen)
  }

  function ResultSteps(r: nat, b: Slot, cap: nat, faulty: bool): seq<Step>
  {
    [ByReader(r, Head)] + ([ByReader(r, Guard(cap))] + AfterGuard(r, b, cap, faulty))
  }

  /** One step of the reader that only moves the reader on. */
  lemma {:induction false} ReaderMoves(st: State, r: nat, rd: Reader, a: ReadOp, rd': Reader, rest: seq<Step>,
                                       end: State)
    requires ShapedState(st) && Node(st.p.n, r) && !(a.Await? || a.LockRelease? || a.Clear? || a.Null?)
    requires ReadEnabled(WithReader(st, r, rd).p, r, a) && NextReader(WithReader(st, r, rd).p, r, a) == rd'
    requires Leads(WithReader(st, r, rd'), rest, end)
    ensures Leads(WithReader(st, r, rd), [ByReader(r, a)] + rest, end)
  {
    var t := WithReader(st, r, rd);
    assert st.p.reader[r := rd][r := rd'] == st.p.reader[r := rd'];
    assert Next(t, ByReader(r, a)) == WithReader(st, r, rd');
    StepFirst(t, ByReader(r, a), rest, end);
  }

  lemma CopyOutInARow(st: State, r: nat, s: nat, cap: nat)
    requires CanLook(st, r, s)
    ensures var b := st.p.slots[s];
            var header := Header(b.peerCid, b.peerSid);
            Leads(WithReader(st, r, Guarded(s, header, cap)), [ByReader(r, CopyStart)] + GatherSteps(r, b.buflen),
                  WithReader(st, r, Done(s, Delivered(header + b.buf[..b.buflen], b.buflen + |header|), cap)))
  {
    var b := st.p.slots[s];
    var header := Header(b.peerCid, b.peerSid);
    var reading := Reading(s, header, cap, b.buflen, []);
    var t := WithReader(st, r, reading);
    assert [] + b.buf[0..b.buflen] == b.buf[..b.buflen];
    var done := GatherEnd(t, r).p.reader[r];
    assert t.p.reader[r := done] == st.p.reader[r := done];
    GatherInARow(t, r);
    ReaderMoves(st, r, Guarded(s, header, cap), CopyStart, reading, GatherSteps(r, b.buflen), GatherEnd(t, r));
  }

  /** From the pick-up to the result, whatever the result is and whatever incoming_slot names by now. */
  lemma ResultInARow(st: State, r: nat, s: nat, cap: nat, faulty: bool)
    requires CanLook(st, r, s)
    ensures Leads(WithReader(st, r, Got(s)), ResultSteps(r, st.p.slots[s], cap, faulty),
                  WithReader(st, r, Done(s, ReadOutcome(st.p.slots[s], cap, faulty), cap)))
  {
    var b := st.p.slots[s];
    var header := Header(b.peerCid, b.peerSid);
    var done := Done(s, ReadOutcome(b, cap, faulty), cap);
    var end := WithReader(st, r, done);
    var rest := AfterGuard(r, b, cap, faulty);
    if !GuardPasses(header, b.buflen, cap) {
      ReaderMoves(st, r, Headed(s, header), Guard(cap), done, rest, end);
    } else {
      if faulty {
        ReaderMoves(st, r, Guarded(s, header, cap), Fault, done, [], end);
        assert [ByReader(r, Fault)] + [] == rest;
      } else {
        CopyOutInARow(st, r, s, cap);
      }
      ReaderMoves(st, r, Headed(s, header), Guard(cap), Guarded(s, header, cap), rest, end);
    }
    ReaderMoves(st, r, Got(s), Head, Headed(s, header), [ByReader(r, Guard(cap))] + rest, end);
  }

  // ---- Releasing

  predicate ReadyToRelease(st: State, r: nat)
  {
    ShapedState(st) && Node(st.p.n, r) && st.p.reader[r].Done? && st.p.lock[r].Unlocked? &&
    st.p.incoming[r].Some? && Node(st.p.n, st.p.incoming[r].value)
  }

  function ReleaseSteps(r: nat): seq<Step> { [ByReader(r, LockRelease), ByReader(r, Clear), ByReader(r, Null)] }

  /** The closed form of a release: whatever slot incoming_slot names is free, and the read is recorded. */
  function Released(st: State, r: nat): (t: State)
    requires ReadyToRelease(st, r)
    ensures ShapedState(t)
  {
    var s, rd := st.p.incoming[r].value, st.p.reader[r];
    State(st.p.(slots := st.p.slots[s := st.p.slots[s].(buflen := 0)], incoming := st.p.incoming[r := None],
                reader := st.p.reader[r := Away]),
          st.h.(owner := st.h.owner[s := Nobody], released := st.h.released + {st.h.cur[s]},
                completed := st.h.completed + [ReadRecord(r, st.h.reading[r], rd.result, rd.cap)]))
  }

  lemma ReleaseInThree(st: State, r: nat)
    requires ReadyToRelease(st, r)
    ensures InThree(st, ByReader(r, LockRelease), ByReader(r, Clear), ByReader(r, Null), Released(st, r))
  {
    var t1 := Next(st, ByReader(r, LockRelease));
    var t2 := Next(t1, ByReader(r, Clear));
    var t3 := Next(t2, ByReader(r, Null));
    assert t3.p.lock == st.p.lock;
  }

  lemma ReleaseInARow(st: State, r: nat)
    requires ReadyToRelease(st, r)
    ensures Leads(st, ReleaseSteps(r), Released(st, r))
  {
    ReleaseInThree(st, r);
    ThreeSteps(st, ByReader(r, LockRelease), ByReader(r, Clear), ByReader(r, Null), Released(st, r));
  }

  // ---- A whole read

  /** A reader that finds its pointer set, nobody holding the lock, and a length within the buffer. */
  predicate ReadyToRead(st: State, r: nat)
  {
    ShapedState(st) && Node(st.p.n, r) && st.p.reader[r].Away? && st.p.lock[r].Unlocked? &&
    st.p.incoming[r].Some? && CanLook(st, r, st.p.incoming[r].value)
  }

  /** The state in which the reader has picked its message up. */
  function PickedUp(st: State, r: nat): (t: State)
    requires ReadyToRead(st, r)
    ensures ShapedState(t)
  {
    var s := st.p.incoming[r].value;
    WithReader(State(st.p, st.h.(reading := st.h.reading[r := st.h.cur[s]])), r, Got(s))
  }

  /** The steps up to the result of a read. */
  function LookSteps(r: nat, b: Slot, cap: nat, faulty: bool): seq<Step>
  {
    [ByReader(r, Await)] + ResultSteps(r, b, cap, faulty)
  }

  /** The state in which the read has its result and has not released yet. */
  function Looked(st: State, r: nat, cap: nat, faulty: bool): (t: State)
    requires ReadyToRead(st, r)
    ensures ReadyToRelease(t, r)
  {
    var s := st.p.incoming[r].value;
    WithReader(PickedUp(st, r), r, Done(s, ReadOutcome(st.p.slots[s], cap, faulty), cap))
  }

  lemma LookInARow(st: State, r: nat, cap: nat, faulty: bool)
    requires ReadyToRead(st, r)
    ensures Leads(st, LookSteps(r, st.p.slots[st.p.incoming[r].value], cap, faulty), Looked(st, r, cap, faulty))
  {
    var s, t := st.p.incoming[r].value, PickedUp(st, r);
    assert t == WithReader(t, r, Got(s));
    ResultInARow(t, r, s, cap, faulty);
    assert Next(st, ByReader(r, Await)) == t;
    StepFirst(st, ByReader(r, Await), ResultSteps(r, st.p.slots[s], cap, faulty), Looked(st, r, cap, faulty));
  }

  /** The closed form of a whole read that nobody interrupts: its result is recorded, the slot it read is
      free again, and incoming_slot is cleared. */
  function ReadEnd(st: State, r: nat, cap: nat, faulty: bool): (t: State)
    requires ReadyToRead(st, r)
    ensures ShapedState(t)
  {
    var s := st.p.incoming[r].value;
    var id := st.h.cur[s];
    State(st.p.(slots := st.p.slots[s := st.p.slots[s].(buflen := 0)], incoming := st.p.incoming[r := None]),
          st.h.(reading := st.h.reading[r := id], owner := st.h.owner[s := Nobody], released := st.h.released + {id},
                completed := st.h.completed + [ReadRecord(r, id, ReadOutcome(st.p.slots[s], cap, faulty), cap)]))
  }

  /** The steps of one read in a row lead to its closed form. */
  lemma ReadInARow(st: State, r: nat, cap: nat, faulty: bool)
    requires ReadyToRead(st, r)
    ensures Leads(st, LookSteps(r, st.p.slots[st.p.incoming[r].value], cap, faulty) + ReleaseSteps(r),
                  ReadEnd(st, r, cap, faulty))
  {
    var t := Looked(st, r, cap, faulty);
    LookInARow(st, r, cap, faulty);
    ReleaseInARow(t, r);
    assert Released(t, r).p.reader == st.p.reader;
    assert Released(t, r) == ReadEnd(st, r, cap, faulty);
    Then(st, LookSteps(r, st.p.slots[st.p.incoming[r].value], cap, faulty), t, ReleaseSteps(r),
         ReadEnd(st, r, cap, faulty));
  }

  /** A read does overrun its buffer: into a buffer that is one byte short, all bytes are delivered. */
  lemma OverrunHappens(st: State) returns (run: seq<Step>)
    requires Init(st) && st.p.n >= 2 && st.p.max >= 2
    ensures IsRun(st, run)
    ensures var c := After(st, run).h.completed;
            |c| == 1 && c[0].result.Delivered? && |c[0].result.data| == c[0].cap + 1
  {
    var t := OneByte(st, 1, 2);
    var b := t.p.slots[1];
    HeaderFits(100);
    var cap := |Header(100, 27)|;
    assert b.peerCid == 100 && b.peerSid == 27 && b.buflen == 1;
    assert |b.buf[..1]| == 1;
    ReadInARow(t, 2, cap, false);
    var read := LookSteps(2, b, cap, false) + ReleaseSteps(2);
    Then(st, BothSteps(1, 2, "x"), t, read, ReadEnd(t, 2, cap, false));
    run := BothSteps(1, 2, "x") + read;
  }

  lemma AwaitEffect(st: State, r: nat, s: nat) returns (t: State)
    requires ShapedState(st) && Node(st.p.n, r) && st.p.reader[r].Away? && st.p.incoming[r] == Some(s)
    requires Node(st.p.n, s)
    ensures Leads(st, [ByReader(r, Await)], t) && t.p == st.p.(reader := st.p.reader[r := Got(s)])
    ensures t.h == st.h.(reading := st.h.reading[r := st.h.cur[s]])
  {
    OneStep(st, ByReader(r, Await));
    t := Next(st, ByReader(r, Await));
  }

  /** Reader 3 has picked up the message of 1. */
  lemma FirstPicked(st: State) returns (run: seq<Step>, t: State)
    requires Init(st) && st.p.n >= 3 && st.p.max >= 2
    ensures Leads(st, run, t) && CanLook(t, 3, 1) && t.p.n == st.p.n && t.p.reader[3] == Got(1)
    ensures ReadyForBoth(t, 2, 3, "x") && t.h.reading[3] == 0 && |t.h.log| == 1 && t.h.completed == []
    ensures t.p.slots[1].peerCid == 100 && t.p.slots[1].peerSid == SID_DEFAULT && t.p.slots[1].buflen == 1
  {
    var t1 := OneByte(st, 1, 3);
    t := AwaitEffect(t1, 3, 1);
    Then(st, BothSteps(1, 3, "x"), t1, [ByReader(3, Await)], t);
    run := BothSteps(1, 3, "x") + [ByReader(3, Await)];
  }

  /** The message of 2 has replaced it. */
  lemma Replaced(st: State) returns (run: seq<Step>, t: State)
    requires Init(st) && st.p.n >= 3 && st.p.max >= 2
    ensures Leads(st, run, t) && CanLook(t, 3, 1) && t.p.n == st.p.n && t.p.reader[3] == Got(1) && t.p.lock[3].Unlocked?
    ensures t.p.incoming[3] == Some(2) && t.h.reading[3] == 0 && t.h.cur[2] == 1 && t.h.completed == []
    ensures t.p.slots[1].peerCid == 100 && t.p.slots[1].peerSid == SID_DEFAULT && t.p.slots[1].buflen == 1
  {
    var first, t1 := FirstPicked(st);
    t := OneByte(t1, 2, 3);
    Then(st, first, t1, BothSteps(2, 3, "x"), t);
    run := first + BothSteps(2, 3, "x");
  }

  /** A message does get released that nobody has read: it replaced, in the middle of a read, the message
      that was being read and that the read delivers. */
  lemma StrayReleaseHappens(st: State) returns (run: seq<Step>)
    requires Init(st) && st.p.n >= 3 && st.p.max >= 2
    ensures IsRun(st, run)
    ensures var h := After(st, run).h;
            1 in h.released && |h.completed| == 1 && h.completed[0].id == 0 && h.completed[0].result.Delivered?
  {
    var first, t := Replaced(st);
    var b := t.p.slots[1];
    assert WithReader(t, 3, Got(1)).p.reader == t.p.reader;
    assert WithReader(t, 3, Got(1)) == t;
    HeaderFits(100);
    var cap := |Header(100, SID_DEFAULT)| + 1;
    ResultInARow(t, 3, 1, cap, false);
    var u := WithReader(t, 3, Done(1, ReadOutcome(b, cap, false), cap));
    ReleaseInARow(u, 3);
    Then(t, ResultSteps(3, b, cap, false), u, ReleaseSteps(3), Released(u, 3));
    Then(st, first, t, ResultSteps(3, b, cap, false) + ReleaseSteps(3), Released(u, 3));
    run := first + (ResultSteps(3, b, cap, false) + ReleaseSteps(3));
  }
}
