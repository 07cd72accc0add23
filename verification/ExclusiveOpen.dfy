/** Exclusive open of the bridge device: any number of openers interleave the atomic increments and
    decrements of nr_users, each open file is shared, used, flushed and released as the kernel does it, and
    release itself goes load by load and store by store (shim_bridge/gf_bridge.c). */
module ExclusiveOpen {
  import opened Basics

  /** One open() and the file that comes of it. An open file has descriptors, closers that have flushed and
      not yet dropped their reference, and calls in progress that hold a reference of their own. */
  datatype File =
    | Outside
    | First                                // its increment returned 1; buffers not yet allocated
    | Refused                              // its increment returned more; must decrement
    | NoMemory                             // was First, allocation failed; must decrement
    | Open(mine: nat,                      // generation of its buffers
           fds: nat, closing: nat, uses: nat,
           lowered: bool)                  // a flush has decremented nr_users for it
    | Loaded(mine: nat, lowered: bool, buffers: Option<nat>)   // release has loaded `outgoing`
    | Looked(mine: nat, buffers: Option<nat>)                  // and has found nr_users 0
    | Freed(mine: nat)                                         // and has freed what it loaded

  /** f_count */
  function Count(x: File): nat
    requires x.Open?
  {
    x.fds + x.closing + x.uses
  }

  /** `outgoing` is the generation of the buffers that the adapter points at. */
  datatype Dev = Dev(users: int, outgoing: Option<nat>, generation: nat, freed: set<nat>, files: seq<File>, fault: bool)

  datatype Op =
    | Increment | AllocFails | AllocWorks | Decrement
    | Share                                // fork or dup: one more descriptor
    | Use                                  // a call in progress takes a reference
    | Touch                                // such a call, a write, follows `outgoing`
    | EndUse
    | Flush                                // close, first half
    | Put                                  // close, second half: the reference is dropped
    | Load                                 // release, once the count is 0: loads `outgoing`
    | Look                                 // loads nr_users, BUG_ON
    | Free
    | Null                                 // stores NULL into `outgoing`

  datatype Move = Move(t: nat, op: Op)

  predicate Can(d: Dev, m: Move)
  {
    m.t < |d.files| && !d.fault &&
    var x := d.files[m.t];
    match m.op
    case Increment => x.Outside?
    case AllocFails => x.First?
    case AllocWorks => x.First?
    case Decrement => x.Refused? || x.NoMemory?
    case Share => x.Open? && x.fds > 0
    case Use => x.Open? && x.fds > 0
    case Touch => x.Open? && x.uses > 0
    case EndUse => x.Open? && x.uses > 0
    case Flush => x.Open? && x.fds > 0
    case Put => x.Open? && x.closing > 0
    case Load => x.Open? && Count(x) == 0
    case Look => x.Loaded?
    case Free => x.Looked?
    case Null => x.Freed?
  }

  /** The buffers are none, or have been freed before. */
  predicate Dangling(d: Dev, b: Option<nat>) { b.None? || b.value in d.freed }

  function Do(d: Dev, m: Move): Dev
    requires Can(d, m)
  {
    var x := d.files[m.t];
    match m.op
    case Increment =>
      d.(users := d.users + 1, files := d.files[m.t := if d.users + 1 == 1 then First else Refused])
    case AllocFails => d.(files := d.files[m.t := NoMemory])
    case AllocWorks =>
      d.(generation := d.generation + 1, outgoing := Some(d.generation),
         files := d.files[m.t := Open(d.generation, 1, 0, 0, false)])
    case Decrement => d.(users := d.users - 1, files := d.files[m.t := Outside])
    case Share => d.(files := d.files[m.t := x.(fds := x.fds + 1)])
    case Use => d.(files := d.files[m.t := x.(uses := x.uses + 1)])
    case Touch => d.(fault := Dangling(d, d.outgoing))
    case EndUse => d.(files := d.files[m.t := x.(uses := x.uses - 1)])
    case Flush =>
      var last := Count(x) == 1;
      d.(users := if last then d.users - 1 else d.users,
         files := d.files[m.t := Open(x.mine, x.fds - 1, x.closing + 1, x.uses, x.lowered || last)])
    case Put => d.(files := d.files[m.t := x.(closing := x.closing - 1)])
    case Load => d.(files := d.files[m.t := Loaded(x.mine, x.lowered, d.outgoing)])
    case Look => if d.users != 0 then d.(fault := true) else d.(files := d.files[m.t := Looked(x.mine, x.buffers)])
    case Free =>
      if Dangling(d, x.buffers) then d.(fault := true)
      else d.(freed := d.freed + {x.buffers.value}, files := d.files[m.t := Freed(x.mine)])
    case Null => d.(outgoing := None, files := d.files[m.t := Outside])
  }

  predicate IsRun(d: Dev, ms: seq<Move>)
    decreases ms
  {
    ms == [] || (Can(d, ms[0]) && IsRun(Do(d, ms[0]), ms[1..]))
  }

  function After(d: Dev, ms: seq<Move>): Dev
    requires IsRun(d, ms)
    decreases ms
  {
    if ms == [] then d else After(Do(d, ms[0]), ms[1..])
  }

  predicate Init(d: Dev)
  {
    d.users == 0 && d.outgoing == None && d.freed == {} && !d.fault &&
    forall i :: 0 <= i < |d.files| ==> d.files[i].Outside?
  }

  // ---- The counter

  predicate Lowerable(x: File) { x.Open? || x.Loaded? }

  /** A file that has been counted and is not yet discounted. */
  predicate Counted(x: File) { x.First? || x.Refused? || x.NoMemory? || (Lowerable(x) && !x.lowered) }

  /** A file whose opener was told it is the only one. */
  predicate Privileged(x: File) { Counted(x) && !x.Refused? }

  predicate Rivals(x: File, y: File) { Privileged(x) && Privileged(y) }

  /** Nobody can reach a file once its count has been lowered, except the one that is closing it. */
  predicate Sealed(x: File) { x.Open? && x.lowered ==> x.fds == 0 && x.uses == 0 && x.closing <= 1 }

  function Counts(fs: seq<File>): (c: seq<int>)
    ensures |c| == |fs| && forall i :: 0 <= i < |fs| ==> c[i] == if Counted(fs[i]) then 1 else 0
  {
    seq(|fs|, i requires 0 <= i < |fs| => if Counted(fs[i]) then 1 else 0)
  }

  ghost predicate Inv(d: Dev)
  {
    d.users == Total(Counts(d.files)) &&
    (forall i :: 0 <= i < |d.files| ==> Sealed(d.files[i])) &&
    forall i, j :: 0 <= i < |d.files| && 0 <= j < |d.files| && Rivals(d.files[i], d.files[j]) ==> i == j
  }

  lemma {:induction false} NobodyCounts(fs: seq<File>)
    requires forall i :: 0 <= i < |fs| ==> !Counted(fs[i])
    ensures Total(Counts(fs)) == 0
  {
    if fs != [] {
      var k := |fs| - 1;
      NobodyCounts(fs[..k]);
      assert Counts(fs)[..k] == Counts(fs[..k]);
    }
  }

  lemma NobodyMeansZero(fs: seq<File>)
    ensures Total(Counts(fs)) == 0 <==> forall i :: 0 <= i < |fs| ==> !Counted(fs[i])
  {
    TotalNonNegative(Counts(fs));
    if Total(Counts(fs)) == 0 {
      forall i | 0 <= i < |fs| ensures !Counted(fs[i]) { assert Counts(fs)[i] <= 0; }
    } else if forall i :: 0 <= i < |fs| ==> !Counted(fs[i]) {
      NobodyCounts(fs);
    }
  }

  lemma MoveKeepsUsers(d: Dev, m: Move)
    requires Inv(d) && Can(d, m)
    ensures Do(d, m).users == Total(Counts(Do(d, m).files))
  {
    assert Sealed(d.files[m.t]);
    TotalNonNegative(Counts(d.files));
    TotalChange(Counts(d.files), Counts(Do(d, m).files), m.t);
  }

  lemma MoveKeepsSealed(d: Dev, m: Move, i: nat)
    requires Can(d, m) && i < |d.files| && Sealed(d.files[i])
    ensures Sealed(Do(d, m).files[i])
  {
  }

  /** Whoever is told it is the only one was so before, or has just found nobody counted. */
  lemma MoveMakesPrivileged(d: Dev, m: Move, i: nat)
    requires Can(d, m) && i < |d.files| && Sealed(d.files[i]) && Privileged(Do(d, m).files[i])
    ensures Privileged(d.files[i]) || (m == Move(i, Increment) && d.users == 0)
  {
  }

  lemma MoveKeepsInv(d: Dev, m: Move)
    requires Inv(d) && Can(d, m)
    ensures Inv(Do(d, m))
  {
    var e := Do(d, m);
    MoveKeepsUsers(d, m);
    if d.users == 0 { NobodyMeansZero(d.files); }
    forall i | 0 <= i < |e.files| ensures Sealed(e.files[i]) { MoveKeepsSealed(d, m, i); }
    forall i, j | 0 <= i < |e.files| && 0 <= j < |e.files| && Rivals(e.files[i], e.files[j]) ensures i == j {
      MoveMakesPrivileged(d, m, i);
      MoveMakesPrivileged(d, m, j);
      assert Privileged(d.files[i]) && Privileged(d.files[j]) ==> Rivals(d.files[i], d.files[j]);
    }
  }

  lemma {:induction false} RunKeepsInv(d: Dev, ms: seq<Move>)
    requires Inv(d) && IsRun(d, ms)
    ensures Inv(After(d, ms))
    decreases ms
  {
    if ms != [] {
      MoveKeepsInv(d, ms[0]);
      RunKeepsInv(Do(d, ms[0]), ms[1..]);
    }
  }

  /** In every run of any number of openers, nr_users is exactly the number of files between their
      increment and their decrement, and at most one of them is open. */
  lemma OpenIsExclusive(d: Dev, ms: seq<Move>, i: nat, j: nat)
    requires Init(d) && IsRun(d, ms) && i < |After(d, ms).files| && j < |After(d, ms).files|
    ensures var e := After(d, ms);
            e.users == Total(Counts(e.files)) &&
            (e.files[i].Open? && e.files[j].Open? && !e.files[i].lowered && !e.files[j].lowered ==> i == j)
  {
    NobodyCounts(d.files);
    RunKeepsInv(d, ms);
    var e := After(d, ms);
    assert e.files[i].Open? && e.files[j].Open? && !e.files[i].lowered && !e.files[j].lowered ==>
      Rivals(e.files[i], e.files[j]);
  }

  // ---- Runs in which closing goes wrong

  /** From d there is a run of n moves into a fault. */
  ghost predicate FaultIn(d: Dev, n: nat)
    decreases n
  {
    if n == 0 then d.fault else exists m :: Can(d, m) && FaultIn(Do(d, m), n - 1)
  }

  lemma {:induction false} FaultRun(d: Dev, n: nat) returns (ms: seq<Move>)
    requires FaultIn(d, n)
    ensures IsRun(d, ms) && After(d, ms).fault
    decreases n
  {
    if n == 0 {
      ms := [];
    } else {
      var m :| Can(d, m) && FaultIn(Do(d, m), n - 1);
      var rest := FaultRun(Do(d, m), n - 1);
      ms := [m] + rest;
      assert ms[1..] == rest;
    }
  }

  /** One move ahead. */
  lemma {:induction false} MoveFirst(d: Dev, m: Move, e: Dev, n: nat) returns (more: nat)
    requires Can(d, m) && Do(d, m) == e && FaultIn(e, n)
    ensures FaultIn(d, more)
  {
    more := n + 1;
  }

  lemma {:induction false} FaultNow(d: Dev, m: Move) returns (n: nat)
    requires Can(d, m) && Do(d, m).fault
    ensures FaultIn(d, n)
  {
    assert FaultIn(Do(d, m), 0);
    n := 1;
  }

  /** Release runs into BUG_ON when a user is counted at its look. */
  lemma {:induction false} ReleaseFindsUser(d: Dev, t: nat) returns (n: nat)
    requires t < |d.files| && !d.fault && d.files[t].Open? && Count(d.files[t]) == 0 && d.users != 0
    ensures FaultIn(d, n)
  {
    var e := Do(d, Move(t, Load));
    n := FaultNow(e, Move(t, Look));
    n := MoveFirst(d, Move(t, Load), e, n);
  }

  /** Release follows NULL when nothing is left to load. */
  lemma {:induction false} ReleaseFindsNull(d: Dev, t: nat) returns (n: nat)
    requires t < |d.files| && !d.fault && d.files[t].Open? && Count(d.files[t]) == 0
    requires d.users == 0 && d.outgoing.None?
    ensures FaultIn(d, n)
  {
    var e := Do(d, Move(t, Load));
    var f := Do(e, Move(t, Look));
    n := FaultNow(f, Move(t, Free));
    n := MoveFirst(e, Move(t, Look), f, n);
    n := MoveFirst(d, Move(t, Load), e, n);
  }

  /** A device with one opener, and one with two. */
  function Single(users: int, outgoing: Option<nat>, generation: nat, x: File): Dev
  {
    Dev(users, outgoing, generation, {}, [x], false)
  }

  function Two(users: int, outgoing: Option<nat>, generation: nat, freed: set<nat>, x: File, y: File): Dev
  {
    Dev(users, outgoing, generation, freed, [x, y], false)
  }

  /** Flush decrements before release frees: one that opens in between makes the first one's release trip
      BUG_ON. */
  lemma ReleaseCanTripBugOn() returns (d: Dev, ms: seq<Move>)
    ensures Init(d) && IsRun(d, ms) && After(d, ms).fault && |d.files| == 2
  {
    d := Two(0, None, 0, {}, Outside, Outside);
    var n := OpenedMeanwhile();
    n := TwoStart(n);
    ms := FaultRun(d, n);
  }

  /** The first opener gets its buffers. */
  lemma {:induction false} TwoStart(n: nat) returns (more: nat)
    requires FaultIn(Two(1, Some(0), 1, {}, Open(0, 1, 0, 0, false), Outside), n)
    ensures FaultIn(Two(0, None, 0, {}, Outside, Outside), more)
  {
    var d1 := Two(1, None, 0, {}, First, Outside);
    more := MoveFirst(d1, Move(0, AllocWorks), Two(1, Some(0), 1, {}, Open(0, 1, 0, 0, false), Outside), n);
    more := MoveFirst(Two(0, None, 0, {}, Outside, Outside), Move(0, Increment), d1, more);
  }

  lemma OpenedMeanwhile() returns (n: nat)
    ensures FaultIn(Two(1, Some(0), 1, {}, Open(0, 1, 0, 0, false), Outside), n)
  {
    var d2 := Two(1, Some(0), 1, {}, Open(0, 1, 0, 0, false), Outside);
    var d3 := Two(0, Some(0), 1, {}, Open(0, 0, 1, 0, true), Outside);
    n := UserDuringPut();
    n := MoveFirst(d3, Move(1, Increment), Two(1, Some(0), 1, {}, Open(0, 0, 1, 0, true), First), n);
    n := MoveFirst(d2, Move(0, Flush), d3, n);
  }

  lemma UserDuringPut() returns (n: nat)
    ensures FaultIn(Two(1, Some(0), 1, {}, Open(0, 0, 1, 0, true), First), n)
  {
    var d5 := Two(1, Some(0), 1, {}, Open(0, 0, 0, 0, true), First);
    n := ReleaseFindsUser(d5, 0);
    n := MoveFirst(Two(1, Some(0), 1, {}, Open(0, 0, 1, 0, true), First), Move(0, Put), d5, n);
  }

  /** One file, which has been opened and not discounted. */
  function Held(fds: nat, closing: nat): Dev { Single(1, Some(0), 1, Open(0, fds, closing, 0, false)) }

  lemma {:induction false} PutHeld(fds: nat, closing: nat, n: nat) returns (more: nat)
    requires FaultIn(Held(fds, closing), n)
    ensures FaultIn(Held(fds, closing + 1), more)
  {
    more := MoveFirst(Held(fds, closing + 1), Move(0, Put), Held(fds, closing), n);
  }

  /** A flush with another reference left. */
  lemma {:induction false} FlushHeld(fds: nat, closing: nat, n: nat) returns (more: nat)
    requires FaultIn(Held(fds, closing + 1), n) && fds + closing > 0
    ensures FaultIn(Held(fds + 1, closing), more)
  {
    more := MoveFirst(Held(fds + 1, closing), Move(0, Flush), Held(fds, closing + 1), n);
  }

  /** With a single opener release trips BUG_ON too: its descriptor is shared by fork, both closers flush while
      the file count is 2, so neither decrements. */
  lemma SharedCloseTripsBugOn() returns (d: Dev, ms: seq<Move>)
    ensures Init(d) && IsRun(d, ms) && After(d, ms).fault && |d.files| == 1
  {
    d := Single(0, None, 0, Outside);
    var n := BothClose(0);
    n := SharedStart(n);
    ms := FaultRun(d, n);
  }

  lemma {:induction false} BothClose(z: nat) returns (n: nat)
    requires z == 0
    ensures FaultIn(Held(z + 2, z), n)
  {
    n := ReleaseFindsUser(Held(z, z), 0);
    n := PutHeld(z, z, n);
    n := PutHeld(z, z + 1, n);
    n := FlushHeld(z, z + 1, n);
    n := FlushHeld(z + 1, z, n);
  }

  /** The opener gets its buffers, and forks. */
  lemma {:induction false} SharedStart(n: nat) returns (more: nat)
    requires FaultIn(Held(2, 0), n)
    ensures FaultIn(Single(0, None, 0, Outside), more)
  {
    var d1 := Single(1, None, 0, First);
    more := MoveFirst(Held(1, 0), Move(0, Share), Held(2, 0), n);
    more := MoveFirst(d1, Move(0, AllocWorks), Held(1, 0), more);
    more := MoveFirst(Single(0, None, 0, Outside), Move(0, Increment), d1, more);
  }

  /** Release wipes out what another open has stored while it ran: B opens after A's look at nr_users and
      before A stores NULL. B is alone at its own close, and still its release follows a NULL pointer. */
  lemma OpenDuringReleaseFaults() returns (d: Dev, ms: seq<Move>)
    ensures Init(d) && IsRun(d, ms) && After(d, ms).fault && |d.files| == 2
  {
    d := Two(0, None, 0, {}, Outside, Outside);
    var n := WipedOut();
    n := FreedAndUnlinked(n);
    n := OpenedBeforeFree(n);
    n := ReleasedUpToLook(n);
    n := ClosedFirst(n);
    n := TwoStart(n);
    ms := FaultRun(d, n);
  }

  lemma {:induction false} ClosedFirst(n: nat) returns (more: nat)
    requires FaultIn(Two(0, Some(0), 1, {}, Open(0, 0, 0, 0, true), Outside), n)
    ensures FaultIn(Two(1, Some(0), 1, {}, Open(0, 1, 0, 0, false), Outside), more)
  {
    var d3 := Two(0, Some(0), 1, {}, Open(0, 0, 1, 0, true), Outside);
    more := MoveFirst(d3, Move(0, Put), Two(0, Some(0), 1, {}, Open(0, 0, 0, 0, true), Outside), n);
    more := MoveFirst(Two(1, Some(0), 1, {}, Open(0, 1, 0, 0, false), Outside), Move(0, Flush), d3, more);
  }

  lemma {:induction false} ReleasedUpToLook(n: nat) returns (more: nat)
    requires FaultIn(Two(0, Some(0), 1, {}, Looked(0, Some(0)), Outside), n)
    ensures FaultIn(Two(0, Some(0), 1, {}, Open(0, 0, 0, 0, true), Outside), more)
  {
    var d5 := Two(0, Some(0), 1, {}, Loaded(0, true, Some(0)), Outside);
    more := MoveFirst(d5, Move(0, Look), Two(0, Some(0), 1, {}, Looked(0, Some(0)), Outside), n);
    more := MoveFirst(Two(0, Some(0), 1, {}, Open(0, 0, 0, 0, true), Outside), Move(0, Load), d5, more);
  }

  /** The second opener gets its buffers between the first one's look and its free. */
  lemma {:induction false} OpenedBeforeFree(n: nat) returns (more: nat)
    requires FaultIn(Two(1, Some(1), 2, {}, Looked(0, Some(0)), Open(1, 1, 0, 0, false)), n)
    ensures FaultIn(Two(0, Some(0), 1, {}, Looked(0, Some(0)), Outside), more)
  {
    var d7 := Two(1, Some(0), 1, {}, Looked(0, Some(0)), First);
    more := MoveFirst(d7, Move(1, AllocWorks), Two(1, Some(1), 2, {}, Looked(0, Some(0)), Open(1, 1, 0, 0, false)), n);
    more := MoveFirst(Two(0, Some(0), 1, {}, Looked(0, Some(0)), Outside), Move(1, Increment), d7, more);
  }

  lemma {:induction false} FreedAndUnlinked(n: nat) returns (more: nat)
    requires FaultIn(Two(1, None, 2, {0}, Outside, Open(1, 1, 0, 0, false)), n)
    ensures FaultIn(Two(1, Some(1), 2, {}, Looked(0, Some(0)), Open(1, 1, 0, 0, false)), more)
  {
    var d9 := Two(1, Some(1), 2, {0}, Freed(0), Open(1, 1, 0, 0, false));
    more := MoveFirst(d9, Move(0, Null), Two(1, None, 2, {0}, Outside, Open(1, 1, 0, 0, false)), n);
    more := MoveFirst(Two(1, Some(1), 2, {}, Looked(0, Some(0)), Open(1, 1, 0, 0, false)), Move(0, Free), d9, more);
  }

  /** The second opener closes, with nothing left to load. */
  lemma WipedOut() returns (n: nat)
    ensures FaultIn(Two(1, None, 2, {0}, Outside, Open(1, 1, 0, 0, false)), n)
  {
    var d11 := Two(0, None, 2, {0}, Outside, Open(1, 0, 1, 0, true));
    var d12 := Two(0, None, 2, {0}, Outside, Open(1, 0, 0, 0, true));
    n := ReleaseFindsNull(d12, 1);
    n := MoveFirst(d11, Move(1, Put), d12, n);
    n := MoveFirst(Two(1, None, 2, {0}, Outside, Open(1, 1, 0, 0, false)), Move(1, Flush), d11, n);
  }

  // ---- Exactly when it goes right

  /** The move does what it should: release loads, frees and unlinks its own buffers, finds no user, and a
      write follows `outgoing` to its own buffers. */
  predicate Clean(d: Dev, m: Move)
    requires Can(d, m)
  {
    var x := d.files[m.t];
    match m.op
    case Touch => d.outgoing == Some(x.mine)
    case Load => d.outgoing == Some(x.mine)
    case Look => d.users == 0
    case Free => x.buffers == Some(x.mine) && x.mine !in d.freed
    case Null => d.outgoing == Some(x.mine)
    case _ => true
  }

  /** From its first load to its last store nothing has been opened since the file was, and at the look at
      nr_users its own last flush has seen a file count of 1 and no other file is between its increment
      and its decrement. */
  predicate Alone(d: Dev, m: Move)
    requires Can(d, m)
  {
    var x := d.files[m.t];
    match m.op
    case Load => x.mine + 1 == d.generation
    case Look => x.lowered && forall i :: 0 <= i < |d.files| && i != m.t ==> !Counted(d.files[i])
    case Null => x.mine + 1 == d.generation
    case _ => true
  }

  predicate AllClean(d: Dev, ms: seq<Move>)
    requires IsRun(d, ms)
    decreases ms
  {
    ms == [] || (Clean(d, ms[0]) && AllClean(Do(d, ms[0]), ms[1..]))
  }

  predicate AllAlone(d: Dev, ms: seq<Move>)
    requires IsRun(d, ms)
    decreases ms
  {
    ms == [] || (Alone(d, ms[0]) && AllAlone(Do(d, ms[0]), ms[1..]))
  }

  predicate HasBuffers(x: File) { x.Open? || x.Loaded? || x.Looked? || x.Freed? }
  predicate SameBuffers(x: File, y: File) { HasBuffers(x) && HasBuffers(y) && x.mine == y.mine }

  /** What clean moves keep for each file: the newest buffers are the ones that the adapter points at, a file
      that is still counted has the newest, and what release has loaded is its own and not yet freed. */
  predicate FileOK(d: Dev, x: File)
  {
    (HasBuffers(x) ==> x.mine < d.generation) &&
    (HasBuffers(x) && x.mine + 1 == d.generation ==> d.outgoing == Some(x.mine)) &&
    (HasBuffers(x) && !x.Freed? ==> x.mine !in d.freed) &&
    (Lowerable(x) && !x.lowered ==> x.mine + 1 == d.generation) &&
    (x.Loaded? || x.Looked? ==> x.buffers == Some(x.mine))
  }

  ghost predicate WellKept(d: Dev)
  {
    Inv(d) && !d.fault && (d.outgoing.Some? ==> d.outgoing.value + 1 == d.generation) &&
    (forall g :: g in d.freed ==> g < d.generation) &&
    (forall i :: 0 <= i < |d.files| ==> FileOK(d, d.files[i])) &&
    (forall i, j :: 0 <= i < |d.files| && 0 <= j < |d.files| && SameBuffers(d.files[i], d.files[j]) ==> i == j)
  }

  /** Two files that the invariant tells apart. */
  predicate Distinct(x: File, y: File) { !SameBuffers(x, y) && !Rivals(x, y) }

  lemma OtherOK(d: Dev, m: Move, i: nat)
    requires Can(d, m) && Clean(d, m) && i < |d.files| && i != m.t
    requires FileOK(d, d.files[i]) && FileOK(d, d.files[m.t]) && Distinct(d.files[i], d.files[m.t])
    requires d.outgoing.Some? ==> d.outgoing.value + 1 == d.generation
    ensures FileOK(Do(d, m), d.files[i])
  {
  }

  lemma ActorOK(d: Dev, m: Move)
    requires Can(d, m) && Clean(d, m) && FileOK(d, d.files[m.t]) && Sealed(d.files[m.t])
    requires m.op.Look? ==> !Counted(d.files[m.t])
    requires d.outgoing.Some? ==> d.outgoing.value + 1 == d.generation
    requires forall g :: g in d.freed ==> g < d.generation
    ensures var e := Do(d, m);
            !e.fault && FileOK(e, e.files[m.t]) && (e.outgoing.Some? ==> e.outgoing.value + 1 == e.generation) &&
            (forall g :: g in e.freed ==> g < e.generation)
  {
  }

  /** A file's buffers stay the same, or are new. */
  lemma BuffersStay(d: Dev, m: Move, i: nat)
    requires Can(d, m) && i < |d.files| && HasBuffers(Do(d, m).files[i])
    ensures var x := Do(d, m).files[i];
            (HasBuffers(d.files[i]) && d.files[i].mine == x.mine) ||
            (m == Move(i, AllocWorks) && x.mine == d.generation)
  {
  }

  lemma CleanMoveKeepsApart(d: Dev, m: Move, i: nat, j: nat)
    requires WellKept(d) && Can(d, m) && i < |d.files| && j < |d.files|
    requires SameBuffers(Do(d, m).files[i], Do(d, m).files[j])
    ensures i == j
  {
    BuffersStay(d, m, i);
    BuffersStay(d, m, j);
    assert FileOK(d, d.files[i]) && FileOK(d, d.files[j]);
    assert HasBuffers(d.files[i]) && HasBuffers(d.files[j]) && d.files[i].mine == d.files[j].mine ==>
      SameBuffers(d.files[i], d.files[j]);
  }

  lemma CleanMoveKeepsFile(d: Dev, m: Move, i: nat)
    requires WellKept(d) && Can(d, m) && Clean(d, m) && i < |d.files| && i != m.t
    ensures FileOK(Do(d, m), Do(d, m).files[i])
  {
    assert FileOK(d, d.files[i]) && FileOK(d, d.files[m.t]);
    assert Distinct(d.files[i], d.files[m.t]);
    OtherOK(d, m, i);
  }

  lemma CleanMoveKeeps(d: Dev, m: Move)
    requires WellKept(d) && Can(d, m) && Clean(d, m)
    ensures WellKept(Do(d, m))
  {
    var e := Do(d, m);
    MoveKeepsInv(d, m);
    NobodyMeansZero(d.files);
    assert FileOK(d, d.files[m.t]) && Sealed(d.files[m.t]);
    ActorOK(d, m);
    forall i | 0 <= i < |e.files| ensures FileOK(e, e.files[i]) {
      if i != m.t { CleanMoveKeepsFile(d, m, i); }
    }
    forall i, j | 0 <= i < |e.files| && 0 <= j < |e.files| && SameBuffers(e.files[i], e.files[j]) ensures i == j {
      CleanMoveKeepsApart(d, m, i, j);
    }
  }

  lemma CleanMeansAlone(d: Dev, m: Move)
    requires WellKept(d) && Can(d, m)
    ensures Clean(d, m) <==> Alone(d, m)
  {
    assert FileOK(d, d.files[m.t]) && Sealed(d.files[m.t]);
    if m.op.Look? { NobodyMeansZero(d.files); }
  }

  lemma {:induction false} CleanIffAloneFrom(d: Dev, ms: seq<Move>)
    requires WellKept(d) && IsRun(d, ms)
    ensures AllClean(d, ms) <==> AllAlone(d, ms)
    ensures AllClean(d, ms) ==> !After(d, ms).fault
    decreases ms
  {
    if ms != [] {
      CleanMeansAlone(d, ms[0]);
      if Clean(d, ms[0]) {
        CleanMoveKeeps(d, ms[0]);
        CleanIffAloneFrom(Do(d, ms[0]), ms[1..]);
      }
    }
  }

  /** Exactly when closing is safe: in any run of any number of openers, shared descriptors and calls in
      progress, every release loads, frees and unlinks its own buffers and trips nothing, and every write
      finds its own, if and only if for each release nothing has been opened since its file was, from its
      first load to its last store, and at its look at nr_users its last flush has seen a file count of
      1 and no other file is between increment and decrement. */
  lemma {:induction false} CleanIffAlone(d: Dev, ms: seq<Move>)
    requires Init(d) && IsRun(d, ms)
    ensures AllClean(d, ms) <==> AllAlone(d, ms)
    ensures AllClean(d, ms) ==> !After(d, ms).fault
  {
    NobodyCounts(d.files);
    CleanIffAloneFrom(d, ms);
  }
}
