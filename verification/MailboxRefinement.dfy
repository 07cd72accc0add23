/** Every run of the protocol is a run of the atomic mailbox. */
module MailboxRefinement {
  import opened Basics
  import opened LinkMessages
  import opened Mailbox
  import opened MailboxOwnership
  import opened MailboxHistory
  import opened MailboxReading
  import opened MailboxRuns
  import opened AtomicMailbox

  // ---- What the atomic mailbox sees of a state

  /** A slot that is still being filled counts as empty: no peer can reach it before the doorbell. */
  function BoxAt(p: Phys, s: nat): Box
    requires Shaped(p) && s <= p.n
  {
    var b := p.slots[s];
    if s == 0 || p.send[s].Publishing? || b.buflen == 0 || b.buflen > |b.buf| then Empty
    else Full(b.lastResponder, b.buf[..b.buflen])
  }

  function RungAt(h: Hist, s: nat): bool
    requires s < |h.owner|
  {
    h.owner[s].Flying? || h.owner[s].AtHandler?
  }

  function HeldAt(p: Phys, d: nat): Option<nat>
    requires Shaped(p) && d <= p.n
  {
    if p.lock[d] == Releasing(true) then None else p.incoming[d]
  }

  function VisitAt(p: Phys, r: nat): Visit
    requires Shaped(p) && r <= p.n
  {
    match p.reader[r]
    case Away => Out
    case Done(_, res, _) => if p.lock[r] == Releasing(true) then LetGo(res) else Took(res)
    case Got(s) => Picked(s)
    case Headed(s, _) => Picked(s)
    case Guarded(s, _, _) => Picked(s)
    case Reading(s, _, _, _, _) => Picked(s)
  }

  function Returned(c: seq<ReadRecord>): (q: seq<(nat, ReadResult)>)
    ensures |q| == |c| && forall i :: 0 <= i < |c| ==> q[i] == (c[i].reader, c[i].result)
  {
    seq(|c|, i requires 0 <= i < |c| => (c[i].reader, c[i].result))
  }

  function View(st: State): (x: Spec)
    requires ShapedState(st)
    ensures Sized(x, st.p.n + 1)
    ensures forall i :: 0 <= i <= st.p.n ==>
      x.boxes[i] == BoxAt(st.p, i) && x.rung[i] == RungAt(st.h, i) &&
      x.held[i] == HeldAt(st.p, i) && x.visit[i] == VisitAt(st.p, i)
  {
    var k := st.p.n + 1;
    Spec(seq(k, i requires 0 <= i < k => BoxAt(st.p, i)), seq(k, i requires 0 <= i < k => RungAt(st.h, i)),
         seq(k, i requires 0 <= i < k => HeldAt(st.p, i)), seq(k, i requires 0 <= i < k => VisitAt(st.p, i)),
         Returned(st.h.completed))
  }

  /** The atomic act that a step stands for: only the doorbell publishes, only the last read step reads. */
  function Meaning(p: Phys, a: Step): Act
    requires Shaped(p) && Enabled(p, a)
  {
    match a
    case BySender(s, o) => if o.Ring? then Put(s, p.send[s].dst, p.send[s].body) else Stutter
    case ByHandler(d, o) =>
      if o.Consume? then Answer(p.lock[d].src) else if o.Post? then Deliver(p.lock[d].src) else Stutter
    case ByTail(_, _, _) => Stutter
    case ByReader(r, o) =>
      match o
      case Await => Pick(r)
      case Guard(_) => if NextReader(p, r, o).Done? then ReadAll(r, NextReader(p, r, o).result) else Stutter
      case Fault => ReadAll(r, NextReader(p, r, o).result)
      case Finish => ReadAll(r, NextReader(p, r, o).result)
      case Clear => Let(r)
      case Null => Return(r)
      case _ => Stutter
  }

  /** Pointwise equality of two views. */
  lemma SameView(st: State, y: Spec)
    requires ShapedState(st) && Sized(y, st.p.n + 1)
    requires forall i :: 0 <= i <= st.p.n ==>
      y.boxes[i] == BoxAt(st.p, i) && y.rung[i] == RungAt(st.h, i) &&
      y.held[i] == HeldAt(st.p, i) && y.visit[i] == VisitAt(st.p, i)
    requires y.returned == Returned(st.h.completed)
    ensures View(st) == y
  {
    var x := View(st);
    assert x.boxes == y.boxes && x.rung == y.rung && x.held == y.held && x.visit == y.visit;
  }

  /** Step a is the act that it stands for. */
  predicate Refines(st: State, a: Step)
    requires ShapedState(st) && Enabled(st.p, a)
  {
    var k, m := st.p.n + 1, Meaning(st.p, a);
    Can(View(st), k, m) && Do(View(st), k, m) == View(Next(st, a))
  }

  // ---- Sender

  lemma SenderView(st: State, s: nat, a: SendOp, i: nat)
    requires ShapedState(st) && Node(st.p.n, s) && SendEnabled(st.p, s, a) && i <= st.p.n
    requires NodeOK(st, s) && ContentOK(st.p, st.h, s)
    ensures var q, g := SendPhys(st.p, s, a), SendHist(st.p, st.h, s, a);
            Shaped(q) && ShapedHist(q, g) && HeldAt(q, i) == HeldAt(st.p, i) && VisitAt(q, i) == VisitAt(st.p, i) &&
            g.completed == st.h.completed &&
            (if a.Ring? && i == s
              then BoxAt(st.p, i).Empty? && BoxAt(q, i) == Full(st.p.send[s].dst, st.p.send[s].body) && RungAt(g, i)
              else BoxAt(q, i) == BoxAt(st.p, i) && RungAt(g, i) == RungAt(st.h, i))
  {
  }

  lemma SenderRefines(st: State, s: nat, a: SendOp)
    requires ShapedState(st) && Node(st.p.n, s) && SendEnabled(st.p, s, a)
    requires NodeOK(st, s) && ContentOK(st.p, st.h, s)
    ensures Refines(st, BySender(s, a))
  {
    var t, m := Next(st, BySender(s, a)), Meaning(st.p, BySender(s, a));
    SenderView(st, s, a, s);
    var y := Do(View(st), st.p.n + 1, m);
    forall i | 0 <= i <= st.p.n
      ensures y.boxes[i] == BoxAt(t.p, i) && y.rung[i] == RungAt(t.h, i) &&
              y.held[i] == HeldAt(t.p, i) && y.visit[i] == VisitAt(t.p, i)
    {
      SenderView(st, s, a, i);
    }
    SameView(t, y);
  }

  // ---- Handler

  /** What the invariant says about the message that a handler works on. */
  predicate SubjectOK(st: State, d: nat, a: HandlerOp)
    requires ShapedState(st) && Node(st.p.n, d) && HandlerEnabled(st.p, d, a) && NodeOK(st, d)
  {
    (a.Take? ==> BellOK(st.p, st.h, Bell(a.s, d))) &&
    (a.Consume? || a.Post? ==>
      var s := st.p.lock[d].src;
      NodeOK(st, s) && CurOK(st.h, s) && ContentOK(st.p, st.h, s) &&
      0 < |st.h.log[st.h.cur[s]].body| && Seen(st.p.slots[s]) == RequestIn(st.h.log[st.h.cur[s]].body))
  }

  /** The box of a message that a handler has: full, addressed to its node, and not being filled. */
  lemma SubjectBox(st: State, d: nat, a: HandlerOp)
    requires ShapedState(st) && Node(st.p.n, d) && HandlerEnabled(st.p, d, a) && NodeOK(st, d)
    requires SubjectOK(st, d, a) && (a.Consume? || a.Post?)
    ensures var s := st.p.lock[d].src;
            Node(st.p.n, s) && RungAt(st.h, s) && BoxAt(st.p, s).Full? && BoxAt(st.p, s).dst == d &&
            RequestIn(BoxAt(st.p, s).body).Some? == a.Consume?
  {
  }

  lemma HandlerView(st: State, d: nat, a: HandlerOp, i: nat)
    requires ShapedState(st) && Node(st.p.n, d) && HandlerEnabled(st.p, d, a) && i <= st.p.n
    requires NodeOK(st, d) && (a.Take? ==> BellOK(st.p, st.h, Bell(a.s, d)))
    ensures var q, g := HandlerPhys(st.p, d, a), HandlerHist(st.p, st.h, d, a);
            var here := (a.Consume? || a.Post?) && i == st.p.lock[d].src;
            Shaped(q) && ShapedHist(q, g) && VisitAt(q, i) == VisitAt(st.p, i) && g.completed == st.h.completed &&
            RungAt(g, i) == (if here then false else RungAt(st.h, i)) &&
            BoxAt(q, i) == (if here && a.Consume? then Empty else BoxAt(st.p, i)) &&
            HeldAt(q, i) == (if a.Post? && i == d then Some(st.p.lock[d].src) else HeldAt(st.p, i))
  {
  }

  lemma HandlerCan(st: State, d: nat, a: HandlerOp)
    requires ShapedState(st) && Node(st.p.n, d) && HandlerEnabled(st.p, d, a) && NodeOK(st, d)
    requires SubjectOK(st, d, a)
    ensures Can(View(st), st.p.n + 1, Meaning(st.p, ByHandler(d, a)))
    ensures a.Post? ==> View(st).boxes[st.p.lock[d].src].dst == d
  {
    if a.Consume? || a.Post? { SubjectBox(st, d, a); }
  }

  lemma HandlerRefines(st: State, d: nat, a: HandlerOp)
    requires ShapedState(st) && Node(st.p.n, d) && HandlerEnabled(st.p, d, a) && NodeOK(st, d)
    requires SubjectOK(st, d, a)
    ensures Refines(st, ByHandler(d, a))
  {
    var t, m := Next(st, ByHandler(d, a)), Meaning(st.p, ByHandler(d, a));
    HandlerCan(st, d, a);
    var y := Do(View(st), st.p.n + 1, m);
    forall i | 0 <= i <= st.p.n
      ensures y.boxes[i] == BoxAt(t.p, i) && y.rung[i] == RungAt(t.h, i) &&
              y.held[i] == HeldAt(t.p, i) && y.visit[i] == VisitAt(t.p, i)
    {
      HandlerView(st, d, a, i);
    }
    HandlerView(st, d, a, d);
    SameView(t, y);
  }

  /** The core and the replies that are being made of it are not part of the mailbox. */
  lemma TailRefines(st: State, d: nat, k: nat, o: TailOp)
    requires ShapedState(st) && Node(st.p.n, d) && TailEnabled(st.p, d, k, o)
    ensures Refines(st, ByTail(d, k, o))
  {
    SameView(Next(st, ByTail(d, k, o)), View(st));
  }

  // ---- Reader

  /** A reader that finishes has gathered exactly the box. */
  lemma FinishTakesBox(st: State, r: nat)
    requires ShapedState(st) && Node(st.p.n, r) && ReadEnabled(st.p, r, Finish)
    requires NodeOK(st, r) && ReadingOK(st.p, st.h, r)
    requires var s := st.p.reader[r].src;
             Node(st.p.n, s) && NodeOK(st, s) && CurOK(st.h, s) && ContentOK(st.p, st.h, s)
    requires 0 < |st.h.log[st.h.reading[r]].body|
    ensures Can(View(st), st.p.n + 1, ReadAll(r, NextReader(st.p, r, Finish).result))
  {
    var rd := st.p.reader[r];
    var m := st.h.log[st.h.reading[r]];
    assert rd.got == m.body;
    assert BoxAt(st.p, rd.src) == Full(r, m.body);
  }

  lemma ReaderView(st: State, r: nat, a: ReadOp, i: nat)
    requires ShapedState(st) && Node(st.p.n, r) && ReadEnabled(st.p, r, a) && i <= st.p.n
    requires NodeOK(st, r)
    ensures var q, g := ReadPhys(st.p, r, a), ReadHist(st.p, st.h, r, a);
            Shaped(q) && ShapedHist(q, g) &&
            RungAt(g, i) == RungAt(st.h, i) &&
            BoxAt(q, i) == (if a.Clear? && Some(i) == st.p.incoming[r] then Empty else BoxAt(st.p, i)) &&
            HeldAt(q, i) == (if a.Clear? && i == r then None else HeldAt(st.p, i)) &&
            (i != r ==> VisitAt(q, i) == VisitAt(st.p, i))
  {
  }

  lemma ReaderVisit(st: State, r: nat, a: ReadOp)
    requires ShapedState(st) && Node(st.p.n, r) && ReadEnabled(st.p, r, a) && NodeOK(st, r)
    ensures var q, m, v := ReadPhys(st.p, r, a), Meaning(st.p, ByReader(r, a)), VisitAt(st.p, r);
            Shaped(q) &&
            (m.Stutter? ==> VisitAt(q, r) == v) &&
            (m.Pick? ==> v == Out && HeldAt(st.p, r).Some? && VisitAt(q, r) == Picked(HeldAt(st.p, r).value)) &&
            (m.ReadAll? ==> v.Picked? && v.src <= st.p.n && VisitAt(q, r) == Took(m.result)) &&
            (m.Let? ==>
              v.Took? && HeldAt(st.p, r) == st.p.incoming[r] && HeldAt(st.p, r).Some? &&
              VisitAt(q, r) == LetGo(v.result)) &&
            (m.Return? ==> v.LetGo? && VisitAt(q, r) == Out)
  {
  }

  lemma ReturnedGrows(st: State, r: nat, a: ReadOp)
    requires ShapedState(st) && Node(st.p.n, r) && ReadEnabled(st.p, r, a) && NodeOK(st, r)
    ensures Returned(ReadHist(st.p, st.h, r, a).completed)
         == if a.Null? then Returned(st.h.completed) + [(r, VisitAt(st.p, r).result)] else Returned(st.h.completed)
  {
  }

  lemma ReaderRefines(st: State, r: nat, a: ReadOp)
    requires ShapedState(st) && Node(st.p.n, r) && ReadEnabled(st.p, r, a) && NodeOK(st, r)
    requires a.Finish? ==> Can(View(st), st.p.n + 1, Meaning(st.p, ByReader(r, a)))
    ensures Refines(st, ByReader(r, a))
  {
    var t, m := Next(st, ByReader(r, a)), Meaning(st.p, ByReader(r, a));
    ReaderVisit(st, r, a);
    ReturnedGrows(st, r, a);
    assert Can(View(st), st.p.n + 1, m);
    var y := Do(View(st), st.p.n + 1, m);
    forall i | 0 <= i <= st.p.n
      ensures y.boxes[i] == BoxAt(t.p, i) && y.rung[i] == RungAt(t.h, i) &&
              y.held[i] == HeldAt(t.p, i) && y.visit[i] == VisitAt(t.p, i)
    {
      ReaderView(st, r, a, i);
    }
    SameView(t, y);
  }

  // ---- Steps and runs

  lemma SubjectHolds(st: State, d: nat, o: HandlerOp)
    requires Inv(st) && Node(st.p.n, d) && HandlerEnabled(st.p, d, o)
    ensures NodeOK(st, d) && SubjectOK(st, d, o)
  {
    assert NodeOK(st, d);
    assert o.Take? ==> BellOK(st.p, st.h, Bell(o.s, d));
    if o.Consume? || o.Post? {
      var s := st.p.lock[d].src;
      assert NodeOK(st, s) && CurOK(st.h, s) && ContentOK(st.p, st.h, s);
      assert LogOK(st.p, st.h, st.h.cur[s]);
      SeenIsSent(st.p.slots[s], st.h.log[st.h.cur[s]]);
    }
  }

  lemma FinishHolds(st: State, r: nat)
    requires Inv(st) && Node(st.p.n, r) && ReadEnabled(st.p, r, Finish)
    ensures Can(View(st), st.p.n + 1, ReadAll(r, NextReader(st.p, r, Finish).result))
  {
    var s := st.p.reader[r].src;
    assert NodeOK(st, r) && ReadingOK(st.p, st.h, r) && LogOK(st.p, st.h, st.h.reading[r]);
    assert NodeOK(st, s) && CurOK(st.h, s) && ContentOK(st.p, st.h, s);
    FinishTakesBox(st, r);
  }

  /** Every step is the atomic act that it stands for. */
  lemma StepRefines(st: State, a: Step)
    requires Inv(st) && Enabled(st.p, a)
    ensures Refines(st, a)
  {
    assert NodeOK(st, a.at);
    match a {
      case BySender(s, o) =>
        assert ContentOK(st.p, st.h, s);
        SenderRefines(st, s, o);
      case ByHandler(d, o) =>
        SubjectHolds(st, d, o);
        HandlerRefines(st, d, o);
      case ByTail(d, k, o) => TailRefines(st, d, k, o);
      case ByReader(r, o) =>
        if o.Finish? { FinishHolds(st, r); }
        ReaderRefines(st, r, o);
    }
  }

  /** The acts that a run stands for, step by step. */
  function Meanings(st: State, steps: seq<Step>): (acts: seq<Act>)
    requires ShapedState(st) && IsRun(st, steps)
    ensures |acts| == |steps|
    decreases steps
  {
    if steps == [] then [] else [Meaning(st.p, steps[0])] + Meanings(Next(st, steps[0]), steps[1..])
  }

  /** The steps lead from st to end, and the acts are what they stand for, one by one. */
  predicate Simulates(st: State, steps: seq<Step>, acts: seq<Act>, end: State)
    requires ShapedState(st)
    decreases steps
  {
    if steps == [] then acts == [] && end == st
    else
      acts != [] && Enabled(st.p, steps[0]) && acts[0] == Meaning(st.p, steps[0]) && Refines(st, steps[0]) &&
      Simulates(Next(st, steps[0]), steps[1..], acts[1..], end)
  }

  lemma {:induction false} RunSimulates(st: State, steps: seq<Step>)
    requires Inv(st) && IsRun(st, steps)
    ensures Simulates(st, steps, Meanings(st, steps), After(st, steps))
    decreases steps
  {
    if steps != [] {
      StepRefines(st, steps[0]);
      StepKeepsInv(st, steps[0]);
      RunSimulates(Next(st, steps[0]), steps[1..]);
    }
  }

  lemma {:induction false} LinkFirst(x: Spec, k: nat, xs: seq<Spec>, acts: seq<Act>) returns (ys: seq<Spec>)
    requires acts != [] && Linked(xs, k, acts[1..]) && Sized(x, k) && Can(x, k, acts[0]) && Do(x, k, acts[0]) == xs[0]
    ensures Linked(ys, k, acts) && ys[0] == x && ys[|acts|] == xs[|acts| - 1]
  {
    ys := [x] + xs;
    assert ys[1..] == xs;
  }

  /** The first act of a simulated run, and the state t that it leads to. */
  lemma {:induction false} FirstAct(st: State, steps: seq<Step>, acts: seq<Act>, end: State) returns (x: Spec, t: State)
    requires ShapedState(st) && steps != [] && Simulates(st, steps, acts, end)
    ensures acts != [] && ShapedState(t) && t.p.n == st.p.n && x == View(st) && Sized(x, st.p.n + 1)
    ensures Can(x, st.p.n + 1, acts[0]) && Do(x, st.p.n + 1, acts[0]) == View(t)
    ensures Simulates(t, steps[1..], acts[1..], end)
  {
    x, t := View(st), Next(st, steps[0]);
  }

  /** The views of the states in between link the acts. */
  lemma {:induction false} ViewsLink(st: State, steps: seq<Step>, acts: seq<Act>, end: State) returns (xs: seq<Spec>)
    requires ShapedState(st) && ShapedState(end) && Simulates(st, steps, acts, end)
    ensures Linked(xs, st.p.n + 1, acts) && xs[0] == View(st) && xs[|acts|] == View(end)
    decreases steps
  {
    if steps == [] {
      xs := [View(st)];
    } else {
      var x, t := FirstAct(st, steps, acts, end);
      xs := ViewsLink(t, steps[1..], acts[1..], end);
      xs := LinkFirst(x, st.p.n + 1, xs, acts);
    }
  }

  /** Publication and reading are atomic: every run of the protocol, with the byte stores of any number
      of nodes interleaved in any way, shows the same boxes, pointers and returned reads as the run of
      the atomic mailbox in which each send happens at its doorbell and each read at its last byte. */
  lemma {:induction false} RefinesAtomicMailbox(st: State, steps: seq<Step>)
    requires Init(st) && IsRun(st, steps)
    ensures SpecLeads(View(st), st.p.n + 1, Meanings(st, steps), View(After(st, steps)))
  {
    InitHolds(st);
    RunSimulates(st, steps);
    var xs := ViewsLink(st, steps, Meanings(st, steps), After(st, steps));
    LinkedLeads(xs, st.p.n + 1, Meanings(st, steps));
  }
}
