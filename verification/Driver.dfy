/** The driver's functions in their own imperative form, over the flat shared memory. Each is proved
    against the slot records of the protocol model: what it stores, what it leaves alone, and every
    error it can return. */
module Driver {
  import opened Basics
  import opened CText
  import opened LinkMessages
  import opened Mailbox
  import opened FlatMemory
  import opened Addressing

  const PRIOR_RESP_WAIT: nat := 5000      // 5 * HZ, in milliseconds
  const DELAY_MS_LOOP_MAX: nat := 10

  /** max_buflen */
  function MaxBuflen(l: Layout): nat
    requires OFF_BUF < l.slotsize
  {
    l.slotsize - OFF_BUF
  }

  /** calculate_mailslot: slot 0 is refused. */
  function MailslotOf(l: Layout, slotnum: nat): (s: Option<nat>)
    ensures l.serverId == l.nClients + 1 ==> (s.Some? <==> 1 <= slotnum <= l.serverId)
    ensures s.Some? ==> s.value == slotnum
  {
    if (slotnum < 1 || slotnum > l.nClients) && slotnum != l.serverId then None else Some(slotnum)
  }

  /** The argument checks of FEE_create_outgoing, in their order. */
  function ArgError(l: Layout, t: Target, len: nat): (e: Option<Errno>)
    requires OFF_BUF < l.slotsize
    ensures e == Some(ENETUNREACH) <==> t.sid != 27 && t.sid != -42
    ensures e == Some(EBADSLT) <==> (t.sid == 27 || t.sid == -42) && !(1 <= PeerOf(t) <= l.serverId)
    ensures e == Some(E2BIG) <==>
      (t.sid == 27 || t.sid == -42) && 1 <= PeerOf(t) <= l.serverId && len >= l.slotsize - 128
    ensures e == Some(ENODATA) <==> (t.sid == 27 || t.sid == -42) && 1 <= PeerOf(t) <= l.serverId && len == 0
    ensures e == None <==>
      (t.sid == 27 || t.sid == -42) && 1 <= PeerOf(t) <= l.serverId && 0 < len < l.slotsize - 128
  {
    if t.sid != 27 && t.sid != SID_IS_PEER_ID then Some(ENETUNREACH)
    else if PeerOf(t) < 1 || PeerOf(t) > l.serverId then Some(EBADSLT)
    else if len >= MaxBuflen(l) then Some(E2BIG)
    else if len == 0 then Some(ENODATA)
    else None
  }

  /** The Doorbell register: peer in the upper 16 bits, vector in the lower 16. */
  function Doorbell(peer: nat, vector: nat): nat
  {
    (peer % 0x1_0000) * 0x1_0000 + vector % 0x1_0000
  }

  /** The memory after a whole send: buflen, NUL, last_responder, body. */
  function SendMem(m: seq<byte>, l: Layout, my: nat, peer: nat, body: bytes): (r: seq<byte>)
    requires ValidLayout(l, |m|) && 1 <= my <= l.serverId && |body| < MaxBuflen(l) && peer < U64
    ensures |r| == |m| && Confined(m, r, l, my) && IdentAt(r, l, my) == IdentAt(m, l, my)
    ensures SlotAt(r, l, my) == Published(SlotAt(m, l, my), peer, body)
    ensures var b, b' := SlotAt(m, l, my), SlotAt(r, l, my);
            b'.buflen == |body| && b'.lastResponder == peer && b'.buf == body + [NUL] + b.buf[|body| + 1..] &&
            b'.peerSid == b.peerSid && b'.peerCid == b.peerCid
  {
    StoresMakePublished(SlotAt(m, l, my), peer, body);
    var m1 := PutWord(m, l, my, OFF_BUFLEN, |body|);
    var m2 := PutBuf(m1, l, my, |body|, [NUL]);
    var m3 := PutWord(m2, l, my, OFF_LAST_RESPONDER, peer);
    PutBuf(m3, l, my, 0, body)
  }

  /** A byte that other nodes may write at any time: not in the globals, and in slot `my` only the stamp. */
  predicate Foreign(l: Layout, my: nat, i: nat)
  {
    l.slotsize <= i &&
    (Base(l, my) <= i < Base(l, my) + l.slotsize ==>
      Base(l, my) + OFF_PEER_SID <= i < Base(l, my) + OFF_PEER_CID + 8)
  }

  predicate IsBuflen(l: Layout, my: nat, i: nat) { Base(l, my) + OFF_BUFLEN <= i < Base(l, my) + OFF_BUFLEN + 8 }

  /** What the other nodes may have made of the memory while node `my` slept: their slots may hold anything;
      its own may have been stamped, and its message taken, but nothing else of it has changed. */
  ghost predicate Meanwhile(m: seq<byte>, m': seq<byte>, l: Layout, my: nat)
    requires ValidLayout(l, |m|) && my <= l.serverId
  {
    |m'| == |m| &&
    (forall i :: 0 <= i < |m| && !Foreign(l, my, i) && !IsBuflen(l, my, i) ==> m'[i] == m[i]) &&
    (SlotAt(m', l, my).buflen == SlotAt(m, l, my).buflen || SlotAt(m', l, my).buflen == 0)
  }

  /** What a send does to memory and to the doorbell register: all of it, or nothing. `mid` is the memory at
      its last look at buflen. */
  ghost predicate SendOutcome(l: Layout, my: nat, m: seq<byte>, mid: seq<byte>, m': seq<byte>,
                              rings: seq<nat>, rings': seq<nat>, t: Target, body: bytes, ret: Result<nat>)
    requires ValidLayout(l, |m|) && 1 <= my <= l.serverId
  {
    match ArgError(l, t, |body|)
    case Some(e) => ret == Err(e) && mid == m && m' == m && rings' == rings
    case None =>
      Meanwhile(m, mid, l, my) && (SlotAt(m, l, my).buflen == 0 ==> mid == m && ret.Ok?) &&
      if ret.Ok? then
        ret.value == |body| && SlotAt(mid, l, my).buflen == 0 && m' == SendMem(mid, l, my, PeerOf(t), body) &&
        rings' == rings + [Doorbell(PeerOf(t), my)]
      else
        ret == Err(ERESTARTSYS) && SlotAt(mid, l, my).buflen != 0 && m' == mid && rings' == rings
  }

  /** A slot's memory once its handler has stamped it, and once its message has been taken. */
  function StampMem(m: seq<byte>, l: Layout, s: nat): (r: seq<byte>)
    requires ValidLayout(l, |m|) && 1 <= s <= l.serverId
    ensures |r| == |m| && Confined(m, r, l, s) && IdentAt(r, l, s) == IdentAt(m, l, s)
    ensures SameOutside(m, r, Base(l, s) + OFF_PEER_SID, 16)
    ensures SlotAt(r, l, s) == SlotAt(m, l, s).(peerSid := SID_DEFAULT, peerCid := IdentAt(m, l, s) * 100 % U64)
  {
    PutWord(PutWord(m, l, s, OFF_PEER_SID, SID_DEFAULT), l, s, OFF_PEER_CID, IdentAt(m, l, s) * 100 % U64)
  }

  function ClearMem(m: seq<byte>, l: Layout, s: nat): (r: seq<byte>)
    requires ValidLayout(l, |m|) && 1 <= s <= l.serverId
    ensures |r| == |m| && Confined(m, r, l, s) && IdentAt(r, l, s) == IdentAt(m, l, s)
    ensures SameOutside(m, r, Base(l, s) + OFF_BUFLEN, 8)
    ensures SlotAt(r, l, s) == SlotAt(m, l, s).(buflen := 0)
  {
    PutWord(m, l, s, OFF_BUFLEN, 0)
  }

  /** The memory once a handler has done with the slot of sender s: stamped, and cleared if it holds a
      request. */
  function TakenMem(m: seq<byte>, l: Layout, s: nat): (r: seq<byte>)
    requires ValidLayout(l, |m|) && 1 <= s <= l.serverId
    ensures |r| == |m| && Confined(m, r, l, s)
  {
    var stamped := StampMem(m, l, s);
    if Seen(SlotAt(m, l, s)).Some? then ClearMem(stamped, l, s) else stamped
  }

  /** The address of a reply: the peer id in the slot, as an int. */
  function ReplyTarget(m: seq<byte>, l: Layout, s: nat): (t: Target)
    requires ValidLayout(l, |m|) && s <= l.serverId
    ensures IdentAt(m, l, s) < 0x1_0000_0000 ==> PeerOf(t) == IdentAt(m, l, s)
    ensures t.sid == -42
  {
    Target(Wrap32(IdentAt(m, l, s)), SID_IS_PEER_ID)
  }

  /** What the link layer does with the message in slot s. The slot is stamped. A request is taken, the
      core updated and a reply sent; anything else is left for a reader. */
  ghost predicate LinkOutcome(l: Layout, my: nat, s: nat, m: seq<byte>, mid: seq<byte>, m': seq<byte>,
                              rings: seq<nat>, rings': seq<nat>, core: Core, core': Core, sent: Result<nat>)
    requires ValidLayout(l, |m|) && 1 <= my <= l.serverId && 1 <= s <= l.serverId
  {
    var taken := TakenMem(m, l, s);
    match Seen(SlotAt(m, l, s))
    case None => core' == core && rings' == rings && mid == taken && m' == taken
    case Some(r) =>
      core' == CoreAfter(core, r) &&
      SendOutcome(l, my, taken, mid, m', rings, rings', ReplyTarget(m, l, s), ReplyTo(core, r), sent)
  }

  /** After its last look at buflen, a send writes inside its own slot only: every other byte of the region,
      the globals included, keeps its value. */
  lemma SendIsConfined(l: Layout, my: nat, m: seq<byte>, mid: seq<byte>, m': seq<byte>, rings: seq<nat>,
                       rings': seq<nat>, t: Target, body: bytes, ret: Result<nat>)
    requires ValidLayout(l, |m|) && 1 <= my <= l.serverId
    requires SendOutcome(l, my, m, mid, m', rings, rings', t, body, ret)
    ensures |mid| == |m| && |m'| == |m| && Confined(mid, m', l, my)
  {
  }

  /** The bytes of buflen, peer_SID and peer_CID of slot s. */
  predicate Handlers(l: Layout, s: nat, i: nat)
  {
    Base(l, s) + OFF_BUFLEN <= i < Base(l, s) + OFF_BUFLEN + 8 ||
    Base(l, s) + OFF_PEER_SID <= i < Base(l, s) + OFF_PEER_CID + 8
  }

  /** What a handler does to the slot of its sender: of all bytes of the region, only those of buflen,
      peer_SID and peer_CID of that slot change, to 0, 27 and 100 times the peer id. */
  lemma TakingIsConfined(l: Layout, s: nat, m: seq<byte>, i: nat)
    requires ValidLayout(l, |m|) && 1 <= s <= l.serverId && i < |m|
    ensures !Handlers(l, s, i) ==> TakenMem(m, l, s)[i] == m[i]
    ensures var b, b' := SlotAt(m, l, s), SlotAt(TakenMem(m, l, s), l, s);
            b'.peerSid == 27 && b'.peerCid == IdentAt(m, l, s) * 100 % U64 &&
            b'.buflen == if Seen(b).Some? then 0 else b.buflen
  {
    assert !Handlers(l, s, i) ==> StampMem(m, l, s)[i] == m[i];
  }

  /** A whole interrupt, byte by byte: what the handler itself changes is buflen, peer_SID and peer_CID of the
      sender's slot, and its own slot for the reply. With its own slot free it does not wait, and
      nothing else in the region changes from beginning to end. */
  lemma InterruptIsConfined(l: Layout, my: nat, s: nat, m: seq<byte>, mid: seq<byte>, m': seq<byte>, rings: seq<nat>,
                            rings': seq<nat>, core: Core, core': Core, sent: Result<nat>, i: nat)
    requires ValidLayout(l, |m|) && 1 <= my <= l.serverId && 1 <= s <= l.serverId && i < |m|
    requires LinkOutcome(l, my, s, m, mid, m', rings, rings', core, core', sent)
    ensures |mid| == |m| && |m'| == |m| && Confined(mid, m', l, my)
    ensures !Handlers(l, s, i) ==> TakenMem(m, l, s)[i] == m[i]
    ensures !Handlers(l, s, i) && !(Base(l, my) <= i < Base(l, my) + l.slotsize) ==>
      (Seen(SlotAt(m, l, s)).None? || SlotAt(TakenMem(m, l, s), l, my).buflen == 0 ==> m'[i] == m[i])
  {
    TakingIsConfined(l, s, m, i);
  }

  /** How others go on while a read copies: not at all as far as it can see, or a handler has meanwhile
      pointed incoming_slot at another slot, with whatever the memory holds by then. */
  datatype Interim = Quiet | Overtaken(slot: nat, memory: seq<byte>)

  /** A slot that is being read stays as it is (MailboxRuns.OnlyOwnersWrite). */
  ghost predicate ValidInterim(l: Layout, m: seq<byte>, s: nat, j: Interim)
    requires ValidLayout(l, |m|) && s <= l.serverId
  {
    j.Overtaken? ==>
      1 <= j.slot <= l.serverId && |j.memory| == |m| && Region(j.memory, l, s) == Region(m, l, s)
  }

  /** What a read of slot s does: the header and exactly the slot's bytes, or an error; either way the slot
      that incoming_slot names in the end is released. */
  ghost predicate ReadDone(l: Layout, s: nat, m: seq<byte>, m': seq<byte>, cap: nat, faults: (bool, bool),
                           j: Interim, ret: Result<nat>, data: bytes)
    requires ValidLayout(l, |m|) && 1 <= s <= l.serverId && SlotAt(m, l, s).buflen <= MaxBuflen(l)
    requires ValidInterim(l, m, s, j)
  {
    m' == (if j.Quiet? then ClearMem(m, l, s) else ClearMem(j.memory, l, j.slot)) &&
    CopyResult(SlotAt(m, l, s), cap, faults, ret, data)
  }

  /** The header and exactly the bytes of slot b, or why not. */
  predicate CopyResult(b: Slot, cap: nat, faults: (bool, bool), ret: Result<nat>, data: bytes)
    requires b.buflen <= |b.buf|
  {
    var header := Dec(b.peerCid) + "," + Dec(b.peerSid) + ":";
    var fits := |header| < 32 && |header| + b.buflen <= cap + 1;
    (ret.Ok? <==> fits && !faults.0 && !faults.1) &&
    (ret.Ok? ==> data == header + b.buf[..b.buflen] && ret.value == |data|) &&
    (ret.Err? ==> ret.errno == if fits then EFAULT else E2BIG)
  }

  /** The k-th delay of the polling loop, and the least time that k of them take. */
  function DelayAt(k: nat): nat { if k < 5 then 2 * k + 1 else 11 }
  function Elapsed(k: nat): nat { if k <= 5 then k * k else 25 + 11 * (k - 5) }

  /** The delays of one send: at most 458 of them, odd, never above 11 ms. */
  predicate PolitePolls(delays: seq<nat>)
  {
    |delays| <= 458 && forall i :: 0 <= i < |delays| ==> delays[i] == DelayAt(i)
  }

  lemma PoliteMeansOdd(delays: seq<nat>, i: nat)
    requires PolitePolls(delays) && i < |delays|
    ensures delays[i] == if i < 5 then 2 * i + 1 else 11
    ensures delays[i] % 2 == 1 && delays[i] <= 11 && |delays| <= 458
  {
    assert delays[i] == DelayAt(i);
  }

  /** The four stores of a send, taken together. */
  lemma StoresMakePublished(b: Slot, dst: nat, body: bytes)
    requires |body| < |b.buf|
    ensures b.(buflen := |body|).(buf := Put(b.buf, |body|, [NUL])).(lastResponder := dst)
             .(buf := Put(Put(b.buf, |body|, [NUL]), 0, body))
         == Published(b, dst, body)
  {
    assert Put(Put(b.buf, |body|, [NUL]), 0, body) == body + [NUL] + b.buf[|body| + 1..];
  }

  /** A sleep of ms milliseconds that began with `found` in buflen of the own slot. */
  datatype Nap = Nap(ms: nat, found: nat)

  /** Since `before` the adapter has slept with exactly these delays, each time because its slot was busy. */
  predicate Slept(before: seq<Nap>, after: seq<Nap>, delays: seq<nat>)
  {
    |after| == |before| + |delays| && before <= after &&
    forall i :: 0 <= i < |delays| ==> after[|before| + i].ms == delays[i] && after[|before| + i].found != 0
  }

  /** The delays of several attempts, one after the other. */
  function Joined(polls: seq<seq<nat>>): seq<nat>
  {
    if polls == [] then [] else Joined(polls[..|polls| - 1]) + polls[|polls| - 1]
  }

  lemma JoinedAppend(polls: seq<seq<nat>>, delays: seq<nat>)
    ensures Joined(polls + [delays]) == Joined(polls) + delays
  {
    assert (polls + [delays])[..|polls|] == polls;
  }

  lemma SleptTwice(a: seq<Nap>, b: seq<Nap>, c: seq<Nap>, x: seq<nat>, y: seq<nat>)
    requires Slept(a, b, x) && Slept(b, c, y)
    ensures Slept(a, c, x + y)
  {
    var z := x + y;
    forall i | 0 <= i < |z| ensures c[|a| + i].ms == z[i] && c[|a| + i].found != 0 {
      if i < |x| { assert c[|a| + i] == b[|a| + i]; } else { assert c[|b| + (i - |x|)].ms == y[i - |x|]; }
    }
  }

  lemma SleptOnce(a: seq<Nap>, b: seq<Nap>, x: seq<nat>, ms: nat, found: nat)
    requires Slept(a, b, x) && found != 0
    ensures Slept(a, b + [Nap(ms, found)], x + [ms])
  {
    var c := b + [Nap(ms, found)];
    assert c[|b| + 0].ms == [ms][0];
    SleptTwice(a, b, c, x, [ms]);
  }

  class Adapter {
    const mem: array<byte>               // BAR 2
    const l: Layout
    const my: nat                        // my_id
    var rings: seq<nat>                  // values stored in the Doorbell register so far
    var now: nat                         // the clock, in milliseconds
    var incoming: Option<nat>            // incoming_slot, as a slot number
    var core: Core
    ghost var naps: seq<Nap>             // every sleep so far

    ghost predicate Valid()
      reads this
    {
      ValidLayout(l, mem.Length) && 1 <= my <= l.serverId &&
      (incoming.Some? ==> 1 <= incoming.value <= l.serverId)
    }

    /** The slot record of node s. */
    ghost function At(s: nat): (r: Slot)
      reads this, mem
      requires Valid() && s <= l.serverId
      ensures |r.buf| == MaxBuflen(l)
    {
      SlotAt(mem[..], l, s)
    }

    method LoadWord(s: nat, off: nat) returns (v: nat)
      requires Valid() && s <= l.serverId && off + 8 <= OFF_BUF
      ensures v == Word(Region(mem[..], l, s), off)
    {
      Inside(l, mem.Length, s);
      var a := Base(l, s) + off;
      WordInRegion(mem[..], l, s, off);
      assert mem[a..a + 8] == mem[..][a..a + 8];
      v := DecBytes(mem[a..a + 8]);
    }

    method LoadSlot(s: nat) returns (buflen: nat, buf: bytes)
      requires Valid() && s <= l.serverId
      ensures buflen == At(s).buflen && buf == At(s).buf
    {
      buflen := LoadWord(s, OFF_BUFLEN);
      Inside(l, mem.Length, s);
      buf := mem[Base(l, s) + OFF_BUF..Base(l, s) + l.slotsize];
    }

    method StoreWord(s: nat, off: nat, v: nat)
      requires Valid() && s <= l.serverId && v < U64 && IsField(off)
      modifies mem
      ensures mem[..] == PutWord(old(mem[..]), l, s, off, v)
    {
      Inside(l, mem.Length, s);
      StoreBytes(mem, Base(l, s) + off, Enc(v, 8));
    }

    method StoreBuf(s: nat, k: nat, bs: bytes)
      requires Valid() && s <= l.serverId && k + |bs| <= MaxBuflen(l)
      modifies mem
      ensures mem[..] == PutBuf(old(mem[..]), l, s, k, bs)
    {
      Inside(l, mem.Length, s);
      StoreBytes(mem, Base(l, s) + (OFF_BUF + k), bs);
    }

    /** One byte written by another node. */
    method ForeignByte(ghost start: seq<byte>, k: nat, c: byte)
      requires Valid() && |start| == mem.Length && Meanwhile(start, mem[..], l, my)
      modifies mem
      ensures Meanwhile(start, mem[..], l, my)
    {
      if k < mem.Length && Foreign(l, my, k) {
        ghost var m := mem[..];
        mem[k] := c;
        ForeignKeeps(start, m, mem[..], l, my, k);
      }
    }

    /** The other nodes do what they like. */
    method Others()
      requires Valid()
      modifies mem
      ensures Meanwhile(old(mem[..]), mem[..], l, my)
    {
      ghost var start := mem[..];
      if * {
        StoreWord(my, OFF_BUFLEN, 0);
      }
      var n: nat :| true;
      while n > 0
        invariant Meanwhile(start, mem[..], l, my)
      {
        var k: nat, c: byte := *, *;
        ForeignByte(start, k, c);
        n := n - 1;
      }
    }

    /** msleep or mdelay: time passes, and the other nodes go on. */
    method Sleep(ms: nat)
      requires Valid()
      modifies mem, this`now, this`naps
      ensures now >= old(now) + ms && naps == old(naps) + [Nap(ms, old(At(my)).buflen)]
      ensures Meanwhile(old(mem[..]), mem[..], l, my)
    {
      var extra: nat :| true;
      now := now + ms + extra;
      naps := naps + [Nap(ms, At(my).buflen)];
      Others();
    }

    /** Waits for my slot to be free, for five seconds at most, and for all of them while it stays busy. */
    method AwaitFree() returns (busy: nat, delays: seq<nat>)
      requires Valid()
      modifies mem, this`now, this`naps
      ensures PolitePolls(delays) && Slept(old(naps), naps, delays) && busy == At(my).buflen
      ensures busy != 0 ==> now >= old(now) + 5000 && delays != []
      ensures Meanwhile(old(mem[..]), mem[..], l, my) && now >= old(now)
      ensures old(At(my)).buflen == 0 ==> busy == 0 && delays == [] && mem[..] == old(mem[..])
    {
      var start := now;
      var timeout := now + PRIOR_RESP_WAIT;
      var seen, delay := 0, 1;
      delays := [];
      busy := LoadWord(my, OFF_BUFLEN);
      while busy != 0 && seen < timeout
        invariant busy == At(my).buflen && Meanwhile(old(mem[..]), mem[..], l, my)
        invariant Slept(old(naps), naps, delays)
        invariant delay == DelayAt(|delays|) && now >= start + Elapsed(|delays|)
        invariant forall i :: 0 <= i < |delays| ==> delays[i] == DelayAt(i)
        invariant seen == (if delays == [] then 0 else now) && |delays| <= 458
        invariant old(At(my)).buflen == 0 ==> busy == 0 && delays == [] && mem[..] == old(mem[..])
        decreases timeout - seen
      {
        ghost var m, before := mem[..], naps;
        Sleep(delay);
        MeanwhileTwice(old(mem[..]), m, mem[..], l, my);
        SleptOnce(old(naps), before, delays, delay, busy);
        delays := delays + [delay];
        if delay < DELAY_MS_LOOP_MAX {
          delay := delay + 2;
        }
        seen := now;
        busy := LoadWord(my, OFF_BUFLEN);
      }
    }

    /** Fills my slot and rings: buflen, NUL, last_responder, body, doorbell, in that order. */
    method Publish(peer: nat, body: bytes)
      requires Valid() && |body| < MaxBuflen(l) && peer < U64
      modifies mem, this`rings
      ensures mem[..] == SendMem(old(mem[..]), l, my, peer, body)
      ensures rings == old(rings) + [Doorbell(peer, my)]
    {
      StoreWord(my, OFF_BUFLEN, |body|);
      StoreBuf(my, |body|, [NUL]);
      StoreWord(my, OFF_LAST_RESPONDER, peer);
      StoreBuf(my, 0, body);
      rings := rings + [Doorbell(peer, my)];
    }

    /** FEE_create_outgoing. `mid` is the memory when the polling has ended. */
    method CreateOutgoing(t: Target, body: bytes) returns (ret: Result<nat>, delays: seq<nat>, ghost mid: seq<byte>)
      requires Valid()
      modifies mem, this`rings, this`now, this`naps
      ensures Valid() && PolitePolls(delays) && Slept(old(naps), naps, delays) && now >= old(now)
      ensures ret == Err(ERESTARTSYS) ==> now >= old(now) + 5000 && delays != []
      ensures SendOutcome(l, my, old(mem[..]), mid, mem[..], old(rings), rings, t, body, ret)
    {
      delays, mid := [], mem[..];
      var wrong := ArgError(l, t, |body|);
      if wrong.Some? {
        return Err(wrong.value), delays, mid;
      }
      var busy;
      busy, delays := AwaitFree();
      mid := mem[..];
      if busy != 0 {
        return Err(ERESTARTSYS), delays, mid;
      }
      Publish(PeerOf(t), body);
      ret := Ok(|body|);
    }

    /** The part of FEE_link_request under the lock: stamp, recognise, clear. */
    method TakeMessage(s: nat) returns (id: nat, seen: Option<Request>)
      requires Valid() && 1 <= s <= l.serverId && ValidCore(core)
      modifies mem
      ensures id == IdentAt(old(mem[..]), l, s) && seen == Seen(old(At(s))) && mem[..] == TakenMem(old(mem[..]), l, s)
      ensures seen.Some? ==> ValidCore(CoreAfter(core, seen.value))
    {
      id := LoadWord(s, OFF_PEER_ID);
      StoreWord(s, OFF_PEER_SID, SID_DEFAULT);
      StoreWord(s, OFF_PEER_CID, id * 100 % U64);
      assert mem[..] == StampMem(old(mem[..]), l, s);
      var buflen, buf := LoadSlot(s);
      seen := Classify(buflen, buf);
      if seen.Some? {
        RequestsAreValid(buflen, buf, core);
        StoreWord(s, OFF_BUFLEN, 0);
      }
    }

    /** FEE_link_request. `sent` is what became of the answer; the driver ignores it. */
    method LinkRequest(s: nat) returns (handled: bool, ghost sent: Result<nat>, ghost mid: seq<byte>)
      requires Valid() && 1 <= s <= l.serverId && ValidCore(core)
      modifies mem, this`rings, this`now, this`naps, this`core
      ensures Valid() && ValidCore(core)
      ensures handled == Seen(old(At(s))).Some?
      ensures sent == Err(ERESTARTSYS) ==> now >= old(now) + 5000
      ensures LinkOutcome(l, my, s, old(mem[..]), mid, mem[..], old(rings), rings, old(core), core, sent)
    {
      var id, seen := TakeMessage(s);
      if seen.None? {
        return false, Err(EAGAIN), mem[..];
      }
      var reply := ReplyTo(core, seen.value);
      core := CoreAfter(core, seen.value);
      handled := true;
      var ret, _, looked := CreateOutgoing(Target(Wrap32(id), SID_IS_PEER_ID), reply);
      sent, mid := ret, looked;
    }

    /** all_msix once the sender is known: the link layer first, then incoming_slot. */
    method Deliver(s: nat) returns (stomped: bool, ghost sent: Result<nat>, ghost mid: seq<byte>)
      requires Valid() && 1 <= s <= l.serverId && ValidCore(core)
      modifies mem, this`rings, this`now, this`naps, this`core, this`incoming
      ensures Valid() && ValidCore(core)
      ensures LinkOutcome(l, my, s, old(mem[..]), mid, mem[..], old(rings), rings, old(core), core, sent)
      ensures incoming == if Seen(old(At(s))).Some? then old(incoming) else Some(s)
      ensures stomped == (Seen(old(At(s))).None? && old(incoming).Some?)
      ensures sent == Err(ERESTARTSYS) ==> now >= old(now) + 5000
    {
      var link;
      link, sent, mid := LinkRequest(s);
      stomped := !link && incoming.Some?;
      incoming := if link then incoming else Some(s);
    }

    /** Entry numbers fit the 16-bit incoming_id, and all but entry 0 have a mailslot. */
    method SlotOfEntry(slotnum: nat) returns (s: nat)
      requires Valid() && 1 <= slotnum < l.nEvents
      ensures s == slotnum && MailslotOf(l, slotnum % 0x1_0000) == Some(slotnum)
    {
      var slot := MailslotOf(l, slotnum % 0x1_0000);
      s := slot.value;
    }

    /** all_msix: which sender rang, and what to do about it. `vectors[i]` is the IRQ of entry i. */
    method AllMsix(vectors: seq<int>, vector: int)
      returns (handled: bool, stomped: bool, ghost sent: Result<nat>, ghost mid: seq<byte>)
      requires Valid() && |vectors| == l.nEvents && ValidCore(core)
      modifies mem, this`rings, this`now, this`naps, this`core, this`incoming
      ensures Valid() && ValidCore(core) && handled == (SenderOf(vectors, vector) < |vectors|)
      ensures !handled ==>
        mem[..] == old(mem[..]) && rings == old(rings) && incoming == old(incoming) && core == old(core)
      ensures handled ==>
        var s := SenderOf(vectors, vector);
        var link := Seen(old(At(s))).Some?;
        LinkOutcome(l, my, s, old(mem[..]), mid, mem[..], old(rings), rings, old(core), core, sent) &&
        incoming == (if link then old(incoming) else Some(s)) && stomped == (!link && old(incoming).Some?)
      ensures sent == Err(ERESTARTSYS) ==> now >= old(now) + 5000
    {
      var slotnum := MatchVector(vectors, vector);
      handled := slotnum < l.nEvents;
      if handled {
        var slot := SlotOfEntry(slotnum);
        stomped, sent, mid := Deliver(slot);
      } else {
        stomped, sent, mid := false, Err(EAGAIN), mem[..];
      }
    }

    /** FEE_await_incoming. A wait ends when a handler has pointed at a slot, with whatever its sender
        has put into memory by then, or is interrupted. */
    method AwaitIncoming(nonblocking: bool, wait: Wait) returns (ret: Result<nat>)
      requires Valid() && ValidWait(l, mem.Length, wait)
      modifies mem, this`incoming
      ensures old(incoming).Some? ==> ret == Ok(old(incoming).value)
      ensures old(incoming).None? && nonblocking ==> ret == Err(EAGAIN)
      ensures old(incoming).None? && !nonblocking && wait.Interrupted? ==> ret == Err(ERESTARTSYS)
      ensures old(incoming).None? && !nonblocking && wait.Woken? ==> ret == Ok(wait.slot) && mem[..] == wait.memory
      ensures Valid() && ret == Awaited(old(incoming), nonblocking, wait)
      ensures incoming == (if ret.Ok? then Some(ret.value) else None)
      ensures mem[..] == if old(incoming).None? && ret.Ok? then Woke(wait, old(mem[..])) else old(mem[..])
    {
      if incoming.Some? {
        return Ok(incoming.value);
      }
      if nonblocking {
        return Err(EAGAIN);
      }
      if wait.Interrupted? {
        return Err(ERESTARTSYS);
      }
      Replace(wait.memory);
      incoming := Some(wait.slot);
      ret := Ok(wait.slot);
    }

    /** FEE_release_incoming clears whatever incoming_slot names now. */
    method ReleaseIncoming()
      requires Valid() && incoming.Some?
      modifies mem, this`incoming
      ensures Valid() && incoming == None
      ensures mem[..] == ClearMem(old(mem[..]), l, old(incoming).value)
    {
      StoreWord(incoming.value, OFF_BUFLEN, 0);
      incoming := None;
    }

    /** The middle of gf_bridge_read: header, guard and the two copies. */
    method CopyOut(s: nat, cap: nat, faults: (bool, bool)) returns (ret: Result<nat>, data: bytes)
      requires Valid() && s <= l.serverId && At(s).buflen <= MaxBuflen(l)
      ensures CopyResult(At(s), cap, faults, ret, data)
    {
      data := [];
      var cid := LoadWord(s, OFF_PEER_CID);
      var sid := LoadWord(s, OFF_PEER_SID);
      var header := Header(cid, sid);
      var n := |header|;
      var buflen, buf := LoadSlot(s);
      if n >= 32 || cap < buflen + n - 1 {
        ret := Err(E2BIG);
      } else if faults.0 {
        ret := Err(EFAULT);
      } else {
        data := header;
        if faults.1 {
          ret := Err(EFAULT);
        } else {
          data := data + buf[..buflen];
          ret := Ok(buflen + n);
        }
      }
    }

    /** gf_bridge_read. `data` is what has been put at the user's pointer; `faults` says which of the two
        copies to user space fail. A slot's length never exceeds its buffer (MailboxHistory.Holds). */
    method Read(cap: nat, nonblocking: bool, wait: Wait, faults: (bool, bool), interim: Interim)
      returns (ret: Result<nat>, data: bytes)
      requires Valid() && ValidWait(l, mem.Length, wait)
      requires Readable(l, incoming, nonblocking, wait, mem[..], interim)
      modifies mem, this`incoming
      ensures Valid() && incoming == None
      ensures old(incoming).None? && nonblocking ==> ret == Err(EAGAIN) && data == [] && mem[..] == old(mem[..])
      ensures old(incoming).None? && !nonblocking && wait.Interrupted? ==>
        ret == Err(ERESTARTSYS) && data == [] && mem[..] == old(mem[..])
      ensures old(incoming).Some? ==>
        ReadDone(l, old(incoming).value, old(mem[..]), mem[..], cap, faults, interim, ret, data)
      ensures old(incoming).None? && !nonblocking && wait.Woken? ==>
        ReadDone(l, wait.slot, wait.memory, mem[..], cap, faults, interim, ret, data)
      ensures ReadCall(l, old(incoming), nonblocking, wait, old(mem[..]), mem[..], cap, faults, interim, ret, data)
    {
      data := [];
      var sender := AwaitIncoming(nonblocking, wait);
      if sender.Err? {
        return Err(sender.errno), data;
      }
      ret, data := CopyOut(sender.value, cap, faults);
      if interim.Overtaken? {
        Replace(interim.memory);
        incoming := Some(interim.slot);
      }
      ReleaseIncoming();
    }

    /** The whole region as the other nodes have left it. */
    method Replace(memory: seq<byte>)
      requires |memory| == mem.Length
      modifies mem
      ensures mem[..] == memory
    {
      StoreBytes(mem, 0, memory);
    }

    /** The restart loop of write: up to two more attempts after one that timed out. */
    method SendWithRestarts(t: Target, body: bytes)
      returns (sent: Result<nat>, polls: seq<seq<nat>>, ghost mid: seq<byte>)
      requires Valid()
      modifies mem, this`rings, this`now, this`naps
      ensures Valid() && 1 <= |polls| <= 3 && forall i :: 0 <= i < |polls| ==> PolitePolls(polls[i])
      ensures Slept(old(naps), naps, Joined(polls))
      ensures SendOutcome(l, my, old(mem[..]), mid, mem[..], old(rings), rings, t, body, sent)
      ensures sent == Err(ERESTARTSYS) ==> |polls| == 3 && now >= old(now) + 15000
      ensures sent == Err(ERESTARTSYS) ==> forall i :: 0 <= i < |polls| ==> polls[i] != []
    {
      var delays;
      sent, delays, mid := CreateOutgoing(t, body);
      polls := [delays];
      JoinedAppend([], delays);
      while sent == Err(ERESTARTSYS) && |polls| < 3
        invariant 1 <= |polls| <= 3 && Valid() && forall i :: 0 <= i < |polls| ==> PolitePolls(polls[i])
        invariant SendOutcome(l, my, old(mem[..]), mid, mem[..], old(rings), rings, t, body, sent)
        invariant Slept(old(naps), naps, Joined(polls))
        invariant sent == Err(ERESTARTSYS) ==> now >= old(now) + 5000 * |polls|
        invariant sent == Err(ERESTARTSYS) ==> forall i :: 0 <= i < |polls| ==> polls[i] != []
        decreases 3 - |polls|
      {
        ghost var m, before := mem[..], naps;
        sent, delays, mid := CreateOutgoing(t, body);
        MeanwhileTwice(old(mem[..]), m, mid, l, my);
        SleptTwice(old(naps), before, naps, Joined(polls), delays);
        JoinedAppend(polls, delays);
        polls := polls + [delays];
      }
    }

    /** gf_bridge_write: at most three sends, of which at most one publishes. `fault` says whether the
        copy from user space fails; `polls` lists the delays of each attempt, and `mid` is the memory when
        the last polling has ended. */
    method Write(text: bytes, fault: bool) returns (ret: Result<nat>, polls: seq<seq<nat>>, ghost mid: seq<byte>)
      requires Valid()
      modifies mem, this`rings, this`now, this`naps
      ensures Valid() && |polls| <= 3 && forall i :: 0 <= i < |polls| ==> PolitePolls(polls[i])
      ensures Slept(old(naps), naps, Joined(polls))
      ensures ret == Err(ETIMEDOUT) ==> now >= old(now) + 15000 && forall i :: 0 <= i < |polls| ==> polls[i] != []
      ensures match WriteError(l, text, fault)
              case Some(e) => ret == Err(e) && mem[..] == old(mem[..]) && rings == old(rings)
              case None =>
                var w := ParseWrite(text, l.serverId).value;
                Meanwhile(old(mem[..]), mid, l, my) &&
                if ret.Ok? then
                  ret.value == |text| && SlotAt(mid, l, my).buflen == 0 &&
                  mem[..] == SendMem(mid, l, my, PeerOf(w.target), w.body) &&
                  rings == old(rings) + [Doorbell(PeerOf(w.target), my)]
                else
                  ret == Err(ETIMEDOUT) && |polls| == 3 && old(At(my)).buflen != 0 && SlotAt(mid, l, my).buflen != 0 &&
                  mem[..] == mid && rings == old(rings)
    {
      mid := mem[..];
      polls := [];
      if |text| >= MaxBuflen(l) - 1 {
        return Err(E2BIG), polls, mid;
      }
      if fault {
        return Err(EFAULT), polls, mid;
      }
      var parsed := ParseWrite(text, l.serverId);
      if parsed.Err? {
        return Err(parsed.errno), polls, mid;
      }
      var w := parsed.value;
      var sent;
      sent, polls, mid := SendWithRestarts(w.target, w.body);
      if sent == Err(ERESTARTSYS) {
        ret := Err(ETIMEDOUT);
      } else if sent == Ok(|w.body|) {
        ret := Ok(|text|);
      } else if sent.Ok? {
        ret := Err(EIO);
      } else {
        ret := sent;
      }
    }
  }

  /** How a blocking wait for a message ends. */
  datatype Wait = Interrupted | Woken(slot: nat, memory: seq<byte>)

  predicate ValidWait(l: Layout, size: nat, w: Wait)
  {
    w.Woken? ==> 1 <= w.slot <= l.serverId && |w.memory| == size
  }

  /** The memory after a wait that began with memory m. */
  function Woke(w: Wait, m: seq<byte>): seq<byte> { if w.Woken? then w.memory else m }

  /** The slot that a read is given. */
  function Awaited(incoming: Option<nat>, nonblocking: bool, w: Wait): Result<nat>
  {
    match incoming
    case Some(s) => Ok(s)
    case None => if nonblocking then Err(EAGAIN) else if w.Interrupted? then Err(ERESTARTSYS) else Ok(w.slot)
  }

  /** The memory that a read finds once it has its slot. */
  function FoundMem(incoming: Option<nat>, w: Wait, m: seq<byte>): seq<byte>
  {
    if incoming.Some? then m else Woke(w, m)
  }

  /** The slot that a read is given, if any, is within its buffer, and stays as it is while it is read. */
  ghost predicate Readable(l: Layout, incoming: Option<nat>, nonblocking: bool, w: Wait, m: seq<byte>, j: Interim)
    requires ValidLayout(l, |m|) && ValidWait(l, |m|, w) && (incoming.Some? ==> 1 <= incoming.value <= l.serverId)
  {
    var s := Awaited(incoming, nonblocking, w);
    s.Ok? ==>
      SlotAt(FoundMem(incoming, w, m), l, s.value).buflen <= MaxBuflen(l) &&
      ValidInterim(l, FoundMem(incoming, w, m), s.value, j)
  }

  /** What a whole call of read() does: the error of its wait, with nothing changed, or a read of the slot. */
  ghost predicate ReadCall(l: Layout, incoming: Option<nat>, nonblocking: bool, w: Wait, m: seq<byte>, m': seq<byte>,
                           cap: nat, faults: (bool, bool), j: Interim, ret: Result<nat>, data: bytes)
    requires ValidLayout(l, |m|) && ValidWait(l, |m|, w) && (incoming.Some? ==> 1 <= incoming.value <= l.serverId)
    requires Readable(l, incoming, nonblocking, w, m, j)
  {
    match Awaited(incoming, nonblocking, w)
    case Err(e) => ret == Err(e) && data == [] && m' == m
    case Ok(s) => ReadDone(l, s, FoundMem(incoming, w, m), m', cap, faults, j, ret, data)
  }

  /** The errors that a write reports without having sent anything. */
  function WriteError(l: Layout, text: bytes, fault: bool): (e: Option<Errno>)
    requires OFF_BUF < l.slotsize
    ensures |text| >= l.slotsize - 129 ==> e == Some(E2BIG)
    ensures |text| < l.slotsize - 129 && fault ==> e == Some(EFAULT)
    ensures |text| < l.slotsize - 129 && !fault && ':' !in CStr(text) ==> e == Some(EBADMSG)
    ensures |text| < l.slotsize - 129 && !fault && ParseWrite(text, l.serverId).Err? ==>
      e == Some(ParseWrite(text, l.serverId).errno)
    ensures |text| < l.slotsize - 129 && !fault && ParseWrite(text, l.serverId).Ok? ==>
      var w := ParseWrite(text, l.serverId).value;
      e == ArgError(l, w.target, |w.body|)
  {
    if |text| >= MaxBuflen(l) - 1 then Some(E2BIG)
    else if fault then Some(EFAULT)
    else
      match ParseWrite(text, l.serverId)
      case Err(e) => Some(e)
      case Ok(w) => ArgError(l, w.target, |w.body|)
  }

  lemma MeanwhileTwice(m: seq<byte>, m': seq<byte>, m'': seq<byte>, l: Layout, my: nat)
    requires ValidLayout(l, |m|) && my <= l.serverId && |m'| == |m| && Meanwhile(m, m', l, my)
    requires Meanwhile(m', m'', l, my)
    ensures Meanwhile(m, m'', l, my)
  {
  }

  /** A byte written by another node leaves buflen of slot `my` alone. */
  lemma ForeignKeeps(m: seq<byte>, m': seq<byte>, m'': seq<byte>, l: Layout, my: nat, k: nat)
    requires ValidLayout(l, |m|) && my <= l.serverId && |m'| == |m| && Meanwhile(m, m', l, my)
    requires SameOutside(m', m'', k, 1) && Foreign(l, my, k)
    ensures Meanwhile(m, m'', l, my)
  {
    WordInRegion(m', l, my, OFF_BUFLEN);
    WordInRegion(m'', l, my, OFF_BUFLEN);
    var a := Base(l, my) + OFF_BUFLEN;
    assert m''[a..a + 8] == m'[a..a + 8];
  }

  /** The entry that a vector selects: the first match at or after entry 1, or the table's length. */
  function SenderOf(vectors: seq<int>, vector: int): (s: nat)
    requires |vectors| >= 1
    ensures 1 <= s <= |vectors| && forall j :: 1 <= j < s ==> vectors[j] != vector
    ensures s < |vectors| ==> vectors[s] == vector
  {
    FirstMatch(vectors, vector, 1)
  }

  function FirstMatch(vectors: seq<int>, vector: int, i: nat): (s: nat)
    requires i <= |vectors|
    ensures i <= s <= |vectors| && forall j :: i <= j < s ==> vectors[j] != vector
    ensures s < |vectors| ==> vectors[s] == vector
    decreases |vectors| - i
  {
    if i == |vectors| || vectors[i] == vector then i else FirstMatch(vectors, vector, i + 1)
  }

  /** The search loop of all_msix. */
  method MatchVector(vectors: seq<int>, vector: int) returns (slotnum: nat)
    requires |vectors| >= 1
    ensures slotnum == SenderOf(vectors, vector)
  {
    slotnum := 1;
    while slotnum < |vectors| && vectors[slotnum] != vector
      invariant 1 <= slotnum <= |vectors|
      invariant forall j :: 1 <= j < slotnum ==> vectors[j] != vector
    {
      slotnum := slotnum + 1;
    }
  }

  /** Sender recovery: with distinct IRQ vectors, the doorbell that sender s rings at a peer, split into
      its halves by the device, selects entry s of the peer's table, and entry s has a mailslot. */
  lemma SenderRecovery(l: Layout, size: nat, vectors: seq<int>, s: nat, peer: nat)
    requires ValidLayout(l, size) && |vectors| == l.nEvents && 1 <= s < l.nEvents && 1 <= peer <= l.serverId
    requires forall i, j :: 0 <= i < j < |vectors| ==> vectors[i] != vectors[j]
    ensures var bell := Doorbell(peer, s);
            bell / 0x1_0000 == peer && bell % 0x1_0000 == s && bell < 0x1_0000_0000 &&
            SenderOf(vectors, vectors[bell % 0x1_0000]) == s && MailslotOf(l, s) == Some(s)
  {
    var k := SenderOf(vectors, vectors[s]);
    assert k == s;
  }

  /** Answering a message: writing the header that read printed for peer p, then any non-empty bytes that
      fit, is accepted and publishes exactly those bytes to exactly that peer. */
  lemma AnswerReachesSender(l: Layout, size: nat, p: nat, body: bytes)
    requires ValidLayout(l, size) && 1 <= p <= l.serverId
    requires body != [] && |Header(p * 100, 27)| + |body| < MaxBuflen(l) - 1
    ensures var text := Header(p * 100, 27) + body;
            WriteError(l, text, false) == None &&
            ParseWrite(text, l.serverId) == Ok(Written(Target(p * 100, 27), body)) && PeerOf(Target(p * 100, 27)) == p
  {
    AddressRoundTrip(p, body, l.serverId);
  }

  // ---- Creating an adapter

  function Zeros(n: nat): (z: seq<byte>)
    ensures |z| == n && forall i :: 0 <= i < n ==> z[i] == NUL
  {
    seq(n, _ => NUL)
  }

  lemma {:induction false} ZeroWord(k: nat)
    ensures DecBytes(Zeros(k)) == 0
  {
    if k > 0 {
      assert Zeros(k)[1..] == Zeros(k - 1);
      ZeroWord(k - 1);
    }
  }

  lemma ZeroWordAt(n: nat, off: nat)
    requires off + 8 <= n
    ensures Word(Zeros(n), off) == 0
  {
    assert Zeros(n)[off..off + 8] == Zeros(8);
    ZeroWord(8);
  }

  lemma ZeroSlot(n: nat)
    requires OFF_BUF <= n
    ensures SlotOf(Zeros(n)) == Slot(0, 0, 0, 0, Zeros(n - OFF_BUF))
  {
    ZeroWordAt(n, OFF_BUFLEN);
    ZeroWordAt(n, OFF_LAST_RESPONDER);
    ZeroWordAt(n, OFF_PEER_SID);
    ZeroWordAt(n, OFF_PEER_CID);
    assert Zeros(n)[OFF_BUF..] == Zeros(n - OFF_BUF);
  }

  /** The memory once slot `my` has been wiped and given its id again. */
  function WipeMem(m: seq<byte>, l: Layout, my: nat): (r: seq<byte>)
    requires ValidLayout(l, |m|) && 1 <= my <= l.serverId
    ensures |r| == |m| && Confined(m, r, l, my) && IdentAt(r, l, my) == my
    ensures SlotAt(r, l, my) == Slot(0, 0, 0, 0, Zeros(MaxBuflen(l)))
  {
    Inside(l, |m|, my);
    PutInSlot(m, l, my, 0, Zeros(l.slotsize));
    var m1 := Put(m, Base(l, my) + 0, Zeros(l.slotsize));
    assert Put(Region(m, l, my), 0, Zeros(l.slotsize)) == Zeros(l.slotsize);
    ZeroSlot(l.slotsize);
    PutWord(m1, l, my, OFF_PEER_ID, my)
  }

  /** A text field of 32 bytes: at most n characters, then zeros. */
  function TextField(text: bytes, n: nat): (f: seq<byte>)
    requires n < 32
    ensures |f| == 32 && forall i :: 0 <= i < 32 ==> f[i] == if i < n && i < |text| then text[i] else NUL
  {
    var t := if |text| <= n then text else text[..n];
    t + Zeros(32 - |t|)
  }

  const DEFAULT_CCLASS: bytes := "FEEadapter"

  /** The same with both text fields filled. */
  function NamedMem(m: seq<byte>, l: Layout, my: nat, name: bytes): (r: seq<byte>)
    requires ValidLayout(l, |m|) && 1 <= my <= l.serverId
    ensures |r| == |m| && Confined(m, r, l, my) && IdentAt(r, l, my) == my
    ensures SlotAt(r, l, my) == Slot(0, 0, 0, 0, Zeros(MaxBuflen(l)))
    ensures Region(r, l, my)[..32] == TextField(name, 30) && Region(r, l, my)[32..64] == TextField(DEFAULT_CCLASS, 31)
  {
    var m1 := PutText(WipeMem(m, l, my), l, my, 0, TextField(name, 30));
    PutText(m1, l, my, 32, TextField(DEFAULT_CCLASS, 31))
  }

  lemma NamedFields(m: seq<byte>, l: Layout, my: nat, name: bytes)
    requires ValidLayout(l, |m|) && 1 <= my <= l.serverId
    ensures var r := Region(NamedMem(m, l, my, name), l, my);
            (forall i :: 0 <= i < 32 ==> r[i] == if i < 30 && i < |name| then name[i] else NUL) &&
            (forall i :: 0 <= i < 32 ==> r[32..64][i] == if i < 10 then "FEEadapter"[i] else NUL)
  {
    var r := Region(NamedMem(m, l, my, name), l, my);
    forall i | 0 <= i < 32 ensures r[i] == if i < 30 && i < |name| then name[i] else NUL { assert r[i] == r[..32][i]; }
  }

  /** The layout checks of FEE_adapter_create and the wiping of its own slot: refused without a store, or
      the slot is free, empty, named, and still carries the id that the server gave it. `name` is the
      node's name as formatted. Returns max_buflen. */
  method CreateSlot(mem: array<byte>, l: Layout, bufOffset: nat, my: nat, name: bytes) returns (ret: Result<nat>)
    requires LaidOut(l, mem.Length)
    modifies mem
    ensures ret.Ok? <==>
      bufOffset == OFF_BUF && OFF_BUF < l.slotsize && 1 <= my <= l.serverId && IdentAt(old(mem[..]), l, my) == my
    ensures ret.Err? ==> ret == Err(EINVAL) && mem[..] == old(mem[..])
    ensures ret.Ok? ==>
      ret.value == MaxBuflen(l) && Confined(old(mem[..]), mem[..], l, my) && IdentAt(mem[..], l, my) == my &&
      SlotAt(mem[..], l, my) == Slot(0, 0, 0, 0, Zeros(MaxBuflen(l))) &&
      (forall i :: 0 <= i < 32 ==> Region(mem[..], l, my)[i] == if i < 30 && i < |name| then name[i] else NUL) &&
      (forall i :: 0 <= i < 32 ==> Region(mem[..], l, my)[32..64][i] == if i < 10 then "FEEadapter"[i] else NUL)
  {
    if bufOffset != OFF_BUF || l.slotsize <= bufOffset {
      return Err(EINVAL);
    }
    var slot := MailslotOf(l, my);
    if slot.None? {
      return Err(EINVAL);
    }
    Inside(l, mem.Length, my);
    var a := Base(l, my);
    WordInRegion(mem[..], l, my, OFF_PEER_ID);
    assert mem[a + OFF_PEER_ID..a + OFF_PEER_ID + 8] == mem[..][a + OFF_PEER_ID..a + OFF_PEER_ID + 8];
    if DecBytes(mem[a + OFF_PEER_ID..a + OFF_PEER_ID + 8]) != my {
      return Err(EINVAL);
    }
    StoreBytes(mem, a, Zeros(l.slotsize));
    StoreBytes(mem, a + OFF_PEER_ID, Enc(my, 8));
    assert mem[..] == WipeMem(old(mem[..]), l, my);
    StoreBytes(mem, a + 0, TextField(name, 30));
    StoreBytes(mem, a + 32, TextField(DEFAULT_CCLASS, 31));
    assert mem[..] == NamedMem(old(mem[..]), l, my, name);
    NamedFields(old(mem[..]), l, my, name);
    ret := Ok(l.slotsize - bufOffset);
  }
}
