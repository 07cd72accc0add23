/** The IVSHMSG mailbox protocol as a labelled transition system over any number of nodes.

    Every node owns one mailslot in shared memory; `buflen` in it is the handshake word. The stores of
    a send, the two stores of release, the bytes of a read, and every load and store of the Core
    Structure are steps of their own, so that the steps of different nodes, and of handlers of one
    node, interleave freely. What a handler reads and writes under its lock in a slot that nobody
    else can write goes in three steps: stamp, then classify and clear, or classify and post. The
    state has a physical part, which the steps test, and a history, which the steps only record
    (NextPhys and Enabled never see it).

    Assumptions: memory is sequentially consistent; the sends of one adapter are serialised; each
    node has one reader; every interrupt comes from one doorbell; nodes are 1..n, the server being
    node n. One thing is looser than the driver: a second interrupt of one sender may be taken
    before the handler of an earlier one has finished. */
module Mailbox {
  import opened Basics
  import opened CText
  import opened LinkMessages

  const SID_DEFAULT: nat := 27

  datatype Slot = Slot(buflen: nat, lastResponder: nat, peerSid: nat, peerCid: nat, buf: bytes)

  /** A slot after a whole send: the body, the terminating NUL, and what was left beyond it. */
  function Published(b: Slot, dst: nat, body: bytes): Slot
    requires |body| < |b.buf|
  {
    Slot(|body|, dst, b.peerSid, b.peerCid, body + [NUL] + b.buf[|body| + 1..])
  }

  /** Progress through the publishing stores; Copying(k) has copied k bytes of the body. */
  datatype Stage = Passed | LenStored | NulStored | Copying(k: nat)

  datatype Send =
    | Idle
    | Polling(dst: nat, body: bytes, reply: bool)
    | Publishing(dst: nat, body: bytes, reply: bool, stage: Stage)

  /** What an interrupt handler that holds the adapter's lock has done so far. */
  datatype Phase = Matched | Stamped | Cleared(request: Request)

  datatype Lock =
    | Unlocked
    | Handling(src: nat, phase: Phase)
    | Releasing(cleared: bool)

  datatype ReadResult = Delivered(data: bytes, count: int) | Failed(errno: Errno)

  datatype Reader =
    | Away
    | Got(src: nat)
    | Headed(src: nat, header: bytes)
    | Guarded(src: nat, header: bytes, cap: nat)
    | Reading(src: nat, header: bytes, cap: nat, len: nat, got: bytes)
    | Done(src: nat, result: ReadResult, cap: nat)

  datatype Bell = Bell(src: nat, dst: nat)

  /** What a handler that has dropped the lock still has to do before it can send its reply. */
  datatype Task =
    | Storing(w: Request, k: nat)                    // CTL-Write: k of its core stores are done
    | Loading(cid: Option<int>, sid: Option<int>)    // Peer-Attribute: what it has loaded so far
    | Ready(text: bytes)

  datatype Pending = Pending(dst: nat, task: Task)

  function FirstTask(r: Request): Task
  {
    match r
    case Ping => Ready(PONG)
    case PeerAttribute => Loading(None, None)
    case CtlWrite(_, _, _, _, _) => Storing(r, 0)
  }

  datatype Phys = Phys(
    n: nat,                          // highest node id: nClients + 1
    max: nat,                        // max_buflen
    slots: seq<Slot>,                // by owner; index 0 stands for the globals
    send: seq<Send>,
    bells: multiset<Bell>,           // doorbells rung and not yet taken by a handler
    lock: seq<Lock>,                 // incoming_slot_lock
    incoming: seq<Option<nat>>,      // incoming_slot
    replies: seq<seq<Pending>>,      // handlers that have dropped the lock and still owe a reply
    reader: seq<Reader>,
    core: seq<Core>,                 // Core Structures
    host: seq<nat>)                  // which of them each node uses; adapters of one host share one

  // ---- History

  datatype Message = Message(src: nat, dst: nat, body: bytes, reply: bool)

  /** Where the current message of a sender is. */
  datatype Owner = Nobody | Flying(at: nat) | AtHandler(at: nat) | Held(at: nat) | Lost(at: nat)

  datatype ReadRecord = ReadRecord(reader: nat, id: nat, result: ReadResult, cap: nat)

  datatype Hist = Hist(
    log: seq<Message>,               // accepted messages, in the order of their doorbells
    cur: seq<nat>,                   // last accepted message of each sender
    owner: seq<Owner>,
    consumed: set<nat>,              // by the link layer
    released: set<nat>,              // cleared by a reader's release
    overwritten: set<nat>,           // their pointer was replaced before a release
    completed: seq<ReadRecord>,      // completed reads
    reading: seq<nat>,               // message that each reader has got hold of
    dropped: nat)                    // replies that were never published

  datatype State = State(p: Phys, h: Hist)

  predicate Shaped(p: Phys)
  {
    var k := p.n + 1;
    |p.slots| == k && |p.send| == k && |p.lock| == k && |p.incoming| == k && |p.replies| == k && |p.reader| == k &&
    |p.core| == k && |p.host| == k
  }

  /** The Core Structure of node d: any assignment of nodes to cores will do. */
  function CoreIn(host: seq<nat>, d: nat): (k: nat)
    requires d < |host|
    ensures k < |host|
  {
    if host[d] < |host| then host[d] else 0
  }

  function CoreOf(p: Phys, d: nat): (k: nat)
    requires Shaped(p) && d <= p.n
    ensures k <= p.n
  {
    CoreIn(p.host, d)
  }

  function CoreAt(p: Phys, d: nat): Core
    requires Shaped(p) && d <= p.n
  {
    p.core[CoreOf(p, d)]
  }

  predicate ShapedHist(p: Phys, h: Hist)
  {
    |h.cur| == p.n + 1 && |h.owner| == p.n + 1 && |h.reading| == p.n + 1
  }

  predicate Node(n: nat, i: nat) { 1 <= i <= n }

  // ---- Steps

  /** FEE_create_outgoing at the sender. */
  datatype SendOp =
    | UserBegin(dst: nat, body: bytes)   // arguments accepted, polling starts
    | ReplyBegin(i: nat)                 // the same, for a reply that is owed
    | ReplyRefuse(i: nat)                // the reply does not fit the slot
    | Pass                               // last test of buflen finds 0
    | GiveUp                             // last test of buflen finds it busy
    | StoreLen
    | StoreNul
    | StoreResponder
    | CopyByte
    | Ring

  /** all_msix and FEE_link_request at the receiver. */
  datatype HandlerOp =
    | Take(s: nat)                       // lock taken, sender matched
    | Stamp
    | Consume                            // link request: clear the sender's buflen
    | Unlock                             // lock dropped, a reply is owed
    | Post                               // other message: point incoming_slot at it

  /** The rest of FEE_link_request, after it has dropped the lock. */
  datatype TailOp =
    | StoreNext                          // next store of a CTL-Write into the core
    | LoadCid
    | LoadSid
    | Format                             // sprintf into outbuf

  /** gf_bridge_read and FEE_release_incoming at the receiver. */
  datatype ReadOp =
    | Await
    | Head
    | Guard(cap: nat)
    | CopyStart
    | ReadByte
    | Fault
    | Finish
    | LockRelease
    | Clear
    | Null

  /** One step of the code that runs at a node. */
  datatype Step =
    | BySender(at: nat, put: SendOp)
    | ByHandler(at: nat, isr: HandlerOp)
    | ByTail(at: nat, which: nat, job: TailOp)
    | ByReader(at: nat, get: ReadOp)

  /** "CID,SID:" as read() prints it. */
  function Header(cid: nat, sid: nat): (h: bytes)
    ensures h != []
  {
    Dec(cid) + "," + Dec(sid) + ":"
  }

  /** The link request that a handler sees in a slot. */
  function Seen(b: Slot): Option<Request> { Classify(b.buflen, b.buf) }

  /** The read guard of gf_bridge_read. */
  function GuardOutcome(src: nat, header: bytes, buflen: nat, cap: nat): Reader
  {
    if |header| >= 32 || cap < buflen + |header| - 1 then Done(src, Failed(E2BIG), cap) else Guarded(src, header, cap)
  }

  function Without<T>(s: seq<T>, i: nat): seq<T>
    requires i < |s|
  {
    s[..i] + s[i + 1..]
  }

  /** Reply i of node s is formatted; its text. */
  predicate IsReady(p: Phys, s: nat, i: nat)
    requires Shaped(p) && s <= p.n
  {
    i < |p.replies[s]| && p.replies[s][i].task.Ready?
  }

  predicate SendEnabled(p: Phys, s: nat, a: SendOp)
    requires Shaped(p) && Node(p.n, s)
  {
    var w, b := p.send[s], p.slots[s];
    match a
    case UserBegin(dst, body) => w.Idle? && Node(p.n, dst) && 0 < |body| < p.max
    case ReplyBegin(i) => w.Idle? && IsReady(p, s, i) && |p.replies[s][i].task.text| < p.max
    case ReplyRefuse(i) => IsReady(p, s, i) && |p.replies[s][i].task.text| >= p.max
    case Pass => w.Polling? && b.buflen == 0
    case GiveUp => w.Polling? && b.buflen != 0
    case StoreLen => w.Publishing? && w.stage.Passed?
    case StoreNul => w.Publishing? && w.stage.LenStored? && |w.body| < |b.buf|
    case StoreResponder => w.Publishing? && w.stage.NulStored?
    case CopyByte => w.Publishing? && w.stage.Copying? && w.stage.k < |w.body| && w.stage.k < |b.buf|
    case Ring => w.Publishing? && w.stage == Copying(|w.body|)
  }

  function SendPhys(p: Phys, s: nat, a: SendOp): (q: Phys)
    requires Shaped(p) && Node(p.n, s) && SendEnabled(p, s, a)
    ensures Shaped(q) && q.n == p.n && q.max == p.max && q.host == p.host
  {
    var w, b := p.send[s], p.slots[s];
    match a
    case UserBegin(dst, body) => p.(send := p.send[s := Polling(dst, body, false)])
    case ReplyBegin(i) =>
      var r := p.replies[s][i];
      p.(send := p.send[s := Polling(r.dst, r.task.text, true)], replies := p.replies[s := Without(p.replies[s], i)])
    case ReplyRefuse(i) => p.(replies := p.replies[s := Without(p.replies[s], i)])
    case Pass => p.(send := p.send[s := Publishing(w.dst, w.body, w.reply, Passed)])
    case GiveUp => p.(send := p.send[s := Idle])
    case StoreLen =>
      p.(slots := p.slots[s := b.(buflen := |w.body|)], send := p.send[s := w.(stage := LenStored)])
    case StoreNul =>
      p.(slots := p.slots[s := b.(buf := b.buf[|w.body| := NUL])], send := p.send[s := w.(stage := NulStored)])
    case StoreResponder =>
      p.(slots := p.slots[s := b.(lastResponder := w.dst)], send := p.send[s := w.(stage := Copying(0))])
    case CopyByte =>
      var k := w.stage.k;
      p.(slots := p.slots[s := b.(buf := b.buf[k := w.body[k]])], send := p.send[s := w.(stage := Copying(k + 1))])
    case Ring => p.(bells := p.bells + multiset{Bell(s, w.dst)}, send := p.send[s := Idle])
  }

  function SendHist(p: Phys, h: Hist, s: nat, a: SendOp): (g: Hist)
    requires Shaped(p) && ShapedHist(p, h) && Node(p.n, s) && SendEnabled(p, s, a)
    ensures ShapedHist(p, g)
  {
    var w := p.send[s];
    match a
    case ReplyRefuse(_) => h.(dropped := h.dropped + 1)
    case GiveUp => if w.reply then h.(dropped := h.dropped + 1) else h
    case Ring =>
      h.(log := h.log + [Message(s, w.dst, w.body, w.reply)],
         cur := h.cur[s := |h.log|], owner := h.owner[s := Flying(w.dst)])
    case _ => h
  }

  predicate HandlerEnabled(p: Phys, d: nat, a: HandlerOp)
    requires Shaped(p) && Node(p.n, d)
  {
    var l := p.lock[d];
    match a
    case Take(s) => Bell(s, d) in p.bells && l.Unlocked?
    case Stamp => l.Handling? && l.phase.Matched? && Node(p.n, l.src)
    case Consume => l.Handling? && l.phase.Stamped? && Node(p.n, l.src) && Seen(p.slots[l.src]).Some?
    case Unlock => l.Handling? && l.phase.Cleared?
    case Post => l.Handling? && l.phase.Stamped? && Node(p.n, l.src) && Seen(p.slots[l.src]).None?
  }

  function HandlerPhys(p: Phys, d: nat, a: HandlerOp): (q: Phys)
    requires Shaped(p) && Node(p.n, d) && HandlerEnabled(p, d, a)
    ensures Shaped(q) && q.n == p.n && q.max == p.max && q.host == p.host
  {
    var l := p.lock[d];
    match a
    case Take(s) => p.(bells := p.bells - multiset{Bell(s, d)}, lock := p.lock[d := Handling(s, Matched)])
    case Stamp =>
      p.(slots := p.slots[l.src := p.slots[l.src].(peerSid := SID_DEFAULT, peerCid := l.src * 100)],
         lock := p.lock[d := Handling(l.src, Stamped)])
    case Consume =>
      p.(slots := p.slots[l.src := p.slots[l.src].(buflen := 0)],
         lock := p.lock[d := Handling(l.src, Cleared(Seen(p.slots[l.src]).value))])
    case Unlock =>
      p.(lock := p.lock[d := Unlocked],
         replies := p.replies[d := p.replies[d] + [Pending(l.src, FirstTask(l.phase.request))]])
    case Post => p.(lock := p.lock[d := Unlocked], incoming := p.incoming[d := Some(l.src)])
  }

  function HandlerHist(p: Phys, h: Hist, d: nat, a: HandlerOp): (g: Hist)
    requires Shaped(p) && ShapedHist(p, h) && Node(p.n, d) && HandlerEnabled(p, d, a)
    ensures ShapedHist(p, g)
  {
    var l, i := p.lock[d], p.incoming[d];
    match a
    case Take(s) => if Node(p.n, s) then h.(owner := h.owner[s := AtHandler(d)]) else h
    case Consume => h.(owner := h.owner[l.src := Nobody], consumed := h.consumed + {h.cur[l.src]})
    case Post =>
      if i.Some? && Node(p.n, i.value) then
        h.(owner := h.owner[i.value := Lost(d)][l.src := Held(d)],
           overwritten := h.overwritten + {h.cur[i.value]})
      else
        h.(owner := h.owner[l.src := Held(d)])
    case _ => h
  }

  predicate TailEnabled(p: Phys, d: nat, i: nat, o: TailOp)
    requires Shaped(p) && Node(p.n, d)
  {
    i < |p.replies[d]| &&
    var t := p.replies[d][i].task;
    match o
    case StoreNext => t.Storing? && t.w.CtlWrite? && t.k < CORE_STORES
    case LoadCid => t.Loading? && t.cid.None?
    case LoadSid => t.Loading? && t.sid.None?
    case Format => (t.Loading? && t.cid.Some? && t.sid.Some?) || (t.Storing? && t.w.CtlWrite? && t.k == CORE_STORES)
  }

  function NextTask(p: Phys, d: nat, i: nat, o: TailOp): Task
    requires Shaped(p) && Node(p.n, d) && TailEnabled(p, d, i, o)
  {
    var t, c := p.replies[d][i].task, CoreAt(p, d);
    match o
    case StoreNext => t.(k := t.k + 1)
    case LoadCid => t.(cid := Some(c.cid0))
    case LoadSid => t.(sid := Some(c.sid0))
    case Format =>
      Ready(if t.Loading? then AckText(c.cclass, t.cid.value, t.sid.value) else StandaloneText(t.w.tag))
  }

  function TailPhys(p: Phys, d: nat, i: nat, o: TailOp): (q: Phys)
    requires Shaped(p) && Node(p.n, d) && TailEnabled(p, d, i, o)
    ensures Shaped(q) && q.n == p.n && q.max == p.max && q.host == p.host
  {
    var t := p.replies[d][i];
    p.(replies := p.replies[d := p.replies[d][i := t.(task := NextTask(p, d, i, o))]],
       core := if o.StoreNext? then p.core[CoreOf(p, d) := CoreStore(CoreAt(p, d), t.task.w, t.task.k)] else p.core)
  }

  predicate ReadEnabled(p: Phys, r: nat, a: ReadOp)
    requires Shaped(p) && Node(p.n, r)
  {
    var rd, l, i := p.reader[r], p.lock[r], p.incoming[r];
    match a
    case Await => rd.Away? && i.Some?
    case Head => rd.Got? && Node(p.n, rd.src)
    case Guard(_) => rd.Headed? && Node(p.n, rd.src)
    case CopyStart => rd.Guarded? && Node(p.n, rd.src)
    case ReadByte =>
      rd.Reading? && Node(p.n, rd.src) && |rd.got| < rd.len && |rd.got| < |p.slots[rd.src].buf|
    case Fault => rd.Guarded? || rd.Reading?
    case Finish => rd.Reading? && Node(p.n, rd.src) && |rd.got| == rd.len
    case LockRelease => rd.Done? && l.Unlocked?
    case Clear => l == Releasing(false) && i.Some? && Node(p.n, i.value)
    case Null => l == Releasing(true)
  }

  /** The reader's own progress, on the steps that touch nothing else. */
  function NextReader(p: Phys, r: nat, a: ReadOp): Reader
    requires Shaped(p) && Node(p.n, r) && ReadEnabled(p, r, a)
    requires !(a.LockRelease? || a.Clear? || a.Null?)
  {
    var rd := p.reader[r];
    match a
    case Await => Got(p.incoming[r].value)
    case Head => Headed(rd.src, Header(p.slots[rd.src].peerCid, p.slots[rd.src].peerSid))
    case Guard(cap) => GuardOutcome(rd.src, rd.header, p.slots[rd.src].buflen, cap)
    case CopyStart => Reading(rd.src, rd.header, rd.cap, p.slots[rd.src].buflen, [])
    case ReadByte => rd.(got := rd.got + [p.slots[rd.src].buf[|rd.got|]])
    case Fault => Done(rd.src, Failed(EFAULT), rd.cap)
    case Finish => Done(rd.src, Delivered(rd.header + rd.got, p.slots[rd.src].buflen + |rd.header|), rd.cap)
  }

  function ReadPhys(p: Phys, r: nat, a: ReadOp): (q: Phys)
    requires Shaped(p) && Node(p.n, r) && ReadEnabled(p, r, a)
    ensures Shaped(q) && q.n == p.n && q.max == p.max && q.host == p.host
  {
    match a
    case LockRelease => p.(lock := p.lock[r := Releasing(false)])
    case Clear =>
      var s := p.incoming[r].value;
      p.(slots := p.slots[s := p.slots[s].(buflen := 0)], lock := p.lock[r := Releasing(true)])
    case Null =>
      p.(lock := p.lock[r := Unlocked], incoming := p.incoming[r := None], reader := p.reader[r := Away])
    case _ => p.(reader := p.reader[r := NextReader(p, r, a)])
  }

  function ReadHist(p: Phys, h: Hist, r: nat, a: ReadOp): (g: Hist)
    requires Shaped(p) && ShapedHist(p, h) && Node(p.n, r) && ReadEnabled(p, r, a)
    ensures ShapedHist(p, g)
  {
    var i := p.incoming[r];
    match a
    case Await => if Node(p.n, i.value) then h.(reading := h.reading[r := h.cur[i.value]]) else h
    case Clear => h.(owner := h.owner[i.value := Nobody], released := h.released + {h.cur[i.value]})
    case Null =>
      if p.reader[r].Done? then
        h.(completed := h.completed + [ReadRecord(r, h.reading[r], p.reader[r].result, p.reader[r].cap)])
      else h
    case _ => h
  }

  predicate Enabled(p: Phys, a: Step)
    requires Shaped(p)
  {
    Node(p.n, a.at) &&
    match a
    case BySender(s, x) => SendEnabled(p, s, x)
    case ByHandler(d, x) => HandlerEnabled(p, d, x)
    case ByTail(d, i, x) => TailEnabled(p, d, i, x)
    case ByReader(r, x) => ReadEnabled(p, r, x)
  }

  function NextPhys(p: Phys, a: Step): (q: Phys)
    requires Shaped(p) && Enabled(p, a)
    ensures Shaped(q) && q.n == p.n && q.max == p.max && q.host == p.host
  {
    match a
    case BySender(s, x) => SendPhys(p, s, x)
    case ByHandler(d, x) => HandlerPhys(p, d, x)
    case ByTail(d, i, x) => TailPhys(p, d, i, x)
    case ByReader(r, x) => ReadPhys(p, r, x)
  }

  function NextHist(p: Phys, h: Hist, a: Step): (g: Hist)
    requires Shaped(p) && ShapedHist(p, h) && Enabled(p, a)
    ensures ShapedHist(p, g)
  {
    match a
    case BySender(s, x) => SendHist(p, h, s, x)
    case ByHandler(d, x) => HandlerHist(p, h, d, x)
    case ByTail(_, _, _) => h
    case ByReader(r, x) => ReadHist(p, h, r, x)
  }

  // ---- Runs

  predicate ShapedState(st: State) { Shaped(st.p) && ShapedHist(st.p, st.h) }

  function Next(st: State, a: Step): (t: State)
    requires ShapedState(st) && Enabled(st.p, a)
    ensures ShapedState(t) && t.p.n == st.p.n && t.p.max == st.p.max && t.p.host == st.p.host
  {
    State(NextPhys(st.p, a), NextHist(st.p, st.h, a))
  }

  /** Every slot is free; the buffers may hold anything, and so may the cores. */
  predicate Init(st: State)
  {
    ShapedState(st) &&
    (forall i :: 0 <= i <= st.p.n ==>
      st.p.slots[i].buflen == 0 && |st.p.slots[i].buf| == st.p.max && st.p.send[i] == Idle &&
      st.p.lock[i] == Unlocked && st.p.incoming[i] == None && st.p.replies[i] == [] &&
      st.p.reader[i] == Away && ValidCore(st.p.core[i]) && st.h.owner[i] == Nobody) &&
    st.p.bells == multiset{} && st.h.log == [] && st.h.completed == [] && st.h.dropped == 0 &&
    st.h.consumed == {} && st.h.released == {} && st.h.overwritten == {}
  }

  /** A sequence of steps that the system can take from st. */
  predicate IsRun(st: State, steps: seq<Step>)
    requires ShapedState(st)
    decreases steps
  {
    steps == [] || (Enabled(st.p, steps[0]) && IsRun(Next(st, steps[0]), steps[1..]))
  }

  function After(st: State, steps: seq<Step>): (t: State)
    requires ShapedState(st) && IsRun(st, steps)
    ensures ShapedState(t) && t.p.n == st.p.n && t.p.max == st.p.max && t.p.host == st.p.host
    decreases steps
  {
    if steps == [] then st else After(Next(st, steps[0]), steps[1..])
  }
}
