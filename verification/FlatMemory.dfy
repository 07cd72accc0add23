/** The shared region as flat bytes: slot s occupies [s * slotsize, (s + 1) * slotsize), slot 0 holds
    the globals, and a slot's 64-bit fields are little-endian at fixed offsets (shim_bridge/fee.h). */
module FlatMemory {
  import opened Mailbox

  type byte = char                        // the char with the byte's code

  const OFF_BUFLEN: nat := 64
  const OFF_PEER_ID: nat := 72
  const OFF_LAST_RESPONDER: nat := 80
  const OFF_PEER_SID: nat := 88
  const OFF_PEER_CID: nat := 96
  const OFF_BUF: nat := 128
  const U64: nat := 0x1_0000_0000_0000_0000

  datatype Layout = Layout(slotsize: nat, nClients: nat, serverId: nat, nEvents: nat)

  /** What the server that lays out the region promises. Node ids fit the 16-bit doorbell fields. */
  predicate LaidOut(l: Layout, size: nat)
  {
    l.slotsize < U64 && l.serverId == l.nClients + 1 && l.nEvents == l.nClients + 2 &&
    l.serverId < 0x1_0000 && (l.serverId + 1) * l.slotsize <= size
  }

  /** What FEE_adapter_create has checked as well: a slot has room beyond its fields. */
  predicate ValidLayout(l: Layout, size: nat) { LaidOut(l, size) && OFF_BUF < l.slotsize }

  // ---- 64-bit fields

  function Pow256(k: nat): (p: nat)
    ensures p >= 1
  {
    if k == 0 then 1 else 256 * Pow256(k - 1)
  }

  function Enc(v: nat, k: nat): (bs: seq<byte>)
    ensures |bs| == k
  {
    if k == 0 then [] else [(v % 256) as char] + Enc(v / 256, k - 1)
  }

  function DecBytes(bs: seq<byte>): nat
  {
    if bs == [] then 0 else bs[0] as int + 256 * DecBytes(bs[1..])
  }

  lemma {:induction false} DecOfEnc(v: nat, k: nat)
    requires v < Pow256(k)
    ensures DecBytes(Enc(v, k)) == v
  {
    if k > 0 { DecOfEnc(v / 256, k - 1); }
  }

  lemma Pow256Is64()
    ensures Pow256(8) == U64
  {
    assert Pow256(2) == 65536 && Pow256(4) == 65536 * 65536;
    assert Pow256(6) == 65536 * 65536 * 65536;
  }

  // ---- Writing part of a byte sequence

  function Put<T>(m: seq<T>, a: nat, bs: seq<T>): (r: seq<T>)
    requires a + |bs| <= |m|
    ensures |r| == |m|
    ensures forall i :: 0 <= i < |m| ==> r[i] == if a <= i < a + |bs| then bs[i - a] else m[i]
  {
    m[..a] + bs + m[a + |bs|..]
  }

  // ---- One slot's bytes

  function Word(b: seq<byte>, off: nat): nat
    requires off + 8 <= |b|
  {
    DecBytes(b[off..off + 8])
  }

  /** The record that a slot's bytes stand for. */
  function SlotOf(b: seq<byte>): Slot
    requires OFF_BUF <= |b|
  {
    Slot(Word(b, OFF_BUFLEN), Word(b, OFF_LAST_RESPONDER), Word(b, OFF_PEER_SID), Word(b, OFF_PEER_CID), b[OFF_BUF..])
  }

  /** Where the fields of a slot are. */
  lemma SlotLayout(b: seq<byte>)
    requires 128 <= |b|
    ensures SlotOf(b) ==
      Slot(DecBytes(b[64..72]), DecBytes(b[80..88]), DecBytes(b[88..96]), DecBytes(b[96..104]), b[128..])
  {
  }

  /** Fields are little-endian. */
  lemma {:induction false} LittleEndian(b: seq<byte>)
    requires |b| == 8
    ensures DecBytes(b) ==
      b[0] as int + 0x100 * b[1] as int + 0x1_0000 * b[2] as int + 0x100_0000 * b[3] as int +
      0x1_0000_0000 * b[4] as int + 0x100_0000_0000 * b[5] as int + 0x1_0000_0000_0000 * b[6] as int +
      0x100_0000_0000_0000 * b[7] as int
  {
    BytesFrom(b, 8);
    BytesFrom(b, 7);
    BytesFrom(b, 6);
    BytesFrom(b, 5);
    BytesFrom(b, 4);
    BytesFrom(b, 3);
    BytesFrom(b, 2);
    BytesFrom(b, 1);
    BytesFrom(b, 0);
    assert b[0..] == b;
  }

  lemma {:induction false} BytesFrom(b: seq<byte>, i: nat)
    requires i <= |b|
    ensures DecBytes(b[i..]) == if i == |b| then 0 else b[i] as int + 256 * DecBytes(b[i + 1..])
  {
    if i < |b| { assert b[i..][1..] == b[i + 1..]; }
  }

  lemma WordAfterPut(b: seq<byte>, a: nat, bs: seq<byte>, off: nat)
    requires a + |bs| <= |b| && off + 8 <= |b| && (off + 8 <= a || a + |bs| <= off)
    ensures Word(Put(b, a, bs), off) == Word(b, off)
  {
    assert Put(b, a, bs)[off..off + 8] == b[off..off + 8];
  }

  lemma WordRead(b: seq<byte>, off: nat, v: nat)
    requires off + 8 <= |b| && v < U64
    ensures Word(Put(b, off, Enc(v, 8)), off) == v
  {
    assert Put(b, off, Enc(v, 8))[off..off + 8] == Enc(v, 8);
    Pow256Is64();
    DecOfEnc(v, 8);
  }

  /** The slot with one of its four words replaced. */
  function WithWord(s: Slot, off: nat, v: nat): Slot
  {
    if off == OFF_BUFLEN then s.(buflen := v)
    else if off == OFF_LAST_RESPONDER then s.(lastResponder := v)
    else if off == OFF_PEER_SID then s.(peerSid := v)
    else if off == OFF_PEER_CID then s.(peerCid := v)
    else s
  }

  lemma SlotAfterWord(b: seq<byte>, off: nat, v: nat)
    requires OFF_BUF <= |b| && v < U64
    requires off in {OFF_BUFLEN, OFF_PEER_ID, OFF_LAST_RESPONDER, OFF_PEER_SID, OFF_PEER_CID}
    ensures SlotOf(Put(b, off, Enc(v, 8))) == WithWord(SlotOf(b), off, v)
  {
    var e := Enc(v, 8);
    WordRead(b, off, v);
    if off != OFF_BUFLEN { WordAfterPut(b, off, e, OFF_BUFLEN); }
    if off != OFF_LAST_RESPONDER { WordAfterPut(b, off, e, OFF_LAST_RESPONDER); }
    if off != OFF_PEER_SID { WordAfterPut(b, off, e, OFF_PEER_SID); }
    if off != OFF_PEER_CID { WordAfterPut(b, off, e, OFF_PEER_CID); }
    assert Put(b, off, e)[OFF_BUF..] == b[OFF_BUF..];
  }

  lemma IdentAfterWord(b: seq<byte>, off: nat, v: nat)
    requires OFF_BUF <= |b| && v < U64
    requires off in {OFF_BUFLEN, OFF_PEER_ID, OFF_LAST_RESPONDER, OFF_PEER_SID, OFF_PEER_CID}
    ensures Word(Put(b, off, Enc(v, 8)), OFF_PEER_ID) == if off == OFF_PEER_ID then v else Word(b, OFF_PEER_ID)
  {
    WordRead(b, off, v);
    if off != OFF_PEER_ID { WordAfterPut(b, off, Enc(v, 8), OFF_PEER_ID); }
  }

  lemma SlotAfterBytes(b: seq<byte>, k: nat, bs: seq<byte>)
    requires OFF_BUF + k + |bs| <= |b|
    ensures var s := SlotOf(b);
            SlotOf(Put(b, OFF_BUF + k, bs)) == s.(buf := Put(s.buf, k, bs))
  {
    WordAfterPut(b, OFF_BUF + k, bs, OFF_BUFLEN);
    WordAfterPut(b, OFF_BUF + k, bs, OFF_LAST_RESPONDER);
    WordAfterPut(b, OFF_BUF + k, bs, OFF_PEER_SID);
    WordAfterPut(b, OFF_BUF + k, bs, OFF_PEER_CID);
    assert Put(b, OFF_BUF + k, bs)[OFF_BUF..] == Put(b[OFF_BUF..], k, bs);
  }

  // ---- All slots

  function Base(l: Layout, s: nat): nat { s * l.slotsize }

  lemma MulStep(z: nat, s: nat, t: nat)
    requires s < t
    ensures s * z + z <= t * z
  {
    assert (s + 1) * z <= t * z;
  }

  /** Slots lie inside the region. */
  lemma Inside(l: Layout, size: nat, s: nat)
    requires LaidOut(l, size) && s <= l.serverId
    ensures Base(l, s) + l.slotsize <= size
  {
    MulStep(l.slotsize, s, l.serverId + 1);
  }

  /** Slots lie one after another. */
  lemma SlotsApart(l: Layout, s: nat, t: nat)
    requires s < t
    ensures Base(l, s) + l.slotsize <= Base(l, t)
  {
    MulStep(l.slotsize, s, t);
  }

  function Region(m: seq<byte>, l: Layout, s: nat): (b: seq<byte>)
    requires ValidLayout(l, |m|) && s <= l.serverId
    ensures |b| == l.slotsize
  {
    Inside(l, |m|, s);
    m[Base(l, s)..Base(l, s) + l.slotsize]
  }

  lemma WordInRegion(m: seq<byte>, l: Layout, s: nat, off: nat)
    requires ValidLayout(l, |m|) && s <= l.serverId && off + 8 <= OFF_BUF
    ensures Base(l, s) + off + 8 <= |m|
    ensures Word(Region(m, l, s), off) == DecBytes(m[Base(l, s) + off..Base(l, s) + off + 8])
  {
    Inside(l, |m|, s);
    SliceOfSlice(m, Base(l, s), l.slotsize, off, 8);
  }

  lemma SliceOfSlice<T>(m: seq<T>, a: nat, n: nat, off: nat, k: nat)
    requires a + n <= |m| && off + k <= n
    ensures m[a..a + n][off..off + k] == m[a + off..a + off + k]
  {
    var x, y := m[a..a + n][off..off + k], m[a + off..a + off + k];
    assert |x| == |y| == k;
    forall i | 0 <= i < k ensures x[i] == y[i] {}
    assert x == y;
  }

  function SlotAt(m: seq<byte>, l: Layout, s: nat): (r: Slot)
    requires ValidLayout(l, |m|) && s <= l.serverId
    ensures |r.buf| == l.slotsize - OFF_BUF
  {
    SlotOf(Region(m, l, s))
  }

  /** m' differs from m at most in the n bytes at a. */
  predicate SameOutside(m: seq<byte>, m': seq<byte>, a: nat, n: nat)
  {
    |m'| == |m| && forall i :: 0 <= i < |m| && !(a <= i < a + n) ==> m'[i] == m[i]
  }

  /** m' differs from m at most inside slot s. */
  predicate Confined(m: seq<byte>, m': seq<byte>, l: Layout, s: nat)
  {
    SameOutside(m, m', Base(l, s), l.slotsize)
  }

  /** Writing inside slot s leaves every other slot, and slot 0 when s > 0, as it was. */
  lemma ConfinedToSlot(m: seq<byte>, m': seq<byte>, l: Layout, s: nat, t: nat)
    requires ValidLayout(l, |m|) && s <= l.serverId && t <= l.serverId && s != t && Confined(m, m', l, s)
    ensures Region(m', l, t) == Region(m, l, t)
  {
    Inside(l, |m|, t);
    if s < t { SlotsApart(l, s, t); } else { SlotsApart(l, t, s); }
  }

  lemma PutInSlot(m: seq<byte>, l: Layout, s: nat, off: nat, bs: seq<byte>)
    requires ValidLayout(l, |m|) && s <= l.serverId && off + |bs| <= l.slotsize
    ensures Base(l, s) + off + |bs| <= |m|
    ensures Confined(m, Put(m, Base(l, s) + off, bs), l, s)
    ensures Region(Put(m, Base(l, s) + off, bs), l, s) == Put(Region(m, l, s), off, bs)
  {
    Inside(l, |m|, s);
  }

  // ---- Stores into one slot of the region

  predicate IsField(off: nat)
  {
    off in {OFF_BUFLEN, OFF_PEER_ID, OFF_LAST_RESPONDER, OFF_PEER_SID, OFF_PEER_CID}
  }

  /** The peer id that the server wrote into slot s. */
  function IdentAt(m: seq<byte>, l: Layout, s: nat): nat
    requires ValidLayout(l, |m|) && s <= l.serverId
  {
    Word(Region(m, l, s), OFF_PEER_ID)
  }

  /** Storing one 64-bit field of slot s. */
  function PutWord(m: seq<byte>, l: Layout, s: nat, off: nat, v: nat): (r: seq<byte>)
    requires ValidLayout(l, |m|) && s <= l.serverId && IsField(off) && v < U64
    ensures |r| == |m| && Confined(m, r, l, s) && SameOutside(m, r, Base(l, s) + off, 8)
    ensures SlotAt(r, l, s) == WithWord(SlotAt(m, l, s), off, v)
    ensures IdentAt(r, l, s) == if off == OFF_PEER_ID then v else IdentAt(m, l, s)
  {
    var b := Region(m, l, s);
    PutInSlot(m, l, s, off, Enc(v, 8));
    SlotAfterWord(b, off, v);
    IdentAfterWord(b, off, v);
    Put(m, Base(l, s) + off, Enc(v, 8))
  }

  /** Storing bytes from position k of slot s's buffer on. */
  function PutBuf(m: seq<byte>, l: Layout, s: nat, k: nat, bs: seq<byte>): (r: seq<byte>)
    requires ValidLayout(l, |m|) && s <= l.serverId && OFF_BUF + k + |bs| <= l.slotsize
    ensures |r| == |m| && Confined(m, r, l, s)
    ensures SlotAt(r, l, s) == SlotAt(m, l, s).(buf := Put(SlotAt(m, l, s).buf, k, bs))
    ensures IdentAt(r, l, s) == IdentAt(m, l, s)
  {
    PutInSlot(m, l, s, OFF_BUF + k, bs);
    SlotAfterBytes(Region(m, l, s), k, bs);
    WordAfterPut(Region(m, l, s), OFF_BUF + k, bs, OFF_PEER_ID);
    Put(m, Base(l, s) + (OFF_BUF + k), bs)
  }

  /** Storing text in front of slot s's 64-bit fields. */
  function PutText(m: seq<byte>, l: Layout, s: nat, off: nat, bs: seq<byte>): (r: seq<byte>)
    requires ValidLayout(l, |m|) && s <= l.serverId && off + |bs| <= OFF_BUFLEN
    ensures |r| == |m| && Confined(m, r, l, s) && SlotAt(r, l, s) == SlotAt(m, l, s)
    ensures IdentAt(r, l, s) == IdentAt(m, l, s)
    ensures Region(r, l, s) == Put(Region(m, l, s), off, bs)
  {
    var b := Region(m, l, s);
    PutInSlot(m, l, s, off, bs);
    WordAfterPut(b, off, bs, OFF_BUFLEN);
    WordAfterPut(b, off, bs, OFF_LAST_RESPONDER);
    WordAfterPut(b, off, bs, OFF_PEER_SID);
    WordAfterPut(b, off, bs, OFF_PEER_CID);
    WordAfterPut(b, off, bs, OFF_PEER_ID);
    assert Put(b, off, bs)[OFF_BUF..] == b[OFF_BUF..];
    Put(m, Base(l, s) + off, bs)
  }

  /** memcpy into the region, byte by byte. */
  method StoreBytes(mem: array<byte>, a: nat, bs: seq<byte>)
    requires a + |bs| <= mem.Length
    modifies mem
    ensures mem[..] == Put(old(mem[..]), a, bs)
  {
    var k := 0;
    while k < |bs|
      invariant 0 <= k <= |bs|
      invariant forall i :: 0 <= i < mem.Length ==> mem[i] == if a <= i < a + k then bs[i - a] else old(mem[i])
    {
      mem[a + k] := bs[k];
      k := k + 1;
    }
  }
}
