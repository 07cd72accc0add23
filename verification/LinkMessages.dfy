/** The link-level messages that the interrupt handler answers by itself: how it recognises them
    in a mailslot, and the texts of its replies (shim_bridge/fee_link.c). */
module LinkMessages {
  import opened Basics
  import opened CText

  datatype Request =
    | Ping
    | PeerAttribute
    | CtlWrite(pfmcid: int, pfmsid: int, cid: int, sid: int, tag: int)

  /** The fields of the Core Structure that the link layer reads and writes. */
  datatype Core = Core(cclass: bytes, cid0: int, sid0: int, pmcid: int, pfmcid: int, pfmsid: int)

  const PING: bytes := "ping"
  const PONG: bytes := "pong"
  const PEER_ATTRIBUTE: bytes := "Link CTL Peer-Attribute"

  const CTL_WRITE: seq<Directive> := [
    Text("CTL-Write"), Space, Text("Space=0,PFMCID="), Int, Text(",PFMSID="), Int,
    Text(",CID="), Int, Text(",SID="), Int, Text(",Tag="), Int]

  /** What the handler sees: the slot's length word and its raw buffer. */
  function Classify(buflen: nat, buf: bytes): Option<Request>
  {
    if buflen == 4 && StrNEq(buf, PING, 4) then Some(Ping)
    else if StrNEq(buf, PEER_ATTRIBUTE, |PEER_ATTRIBUTE|) then Some(PeerAttribute)
    else
      var v := Scan(CTL_WRITE, CStr(buf));
      if |v| == 5 then Some(CtlWrite(v[0], v[1], v[2], v[3], v[4])) else None
  }

  /** The same decision taken on the message that was sent. */
  function RequestIn(message: bytes): Option<Request>
  {
    if message == PING then Some(Ping)
    else if PEER_ATTRIBUTE <= message then Some(PeerAttribute)
    else
      var v := Scan(CTL_WRITE, CStr(message));
      if |v| == 5 then Some(CtlWrite(v[0], v[1], v[2], v[3], v[4])) else None
  }

  lemma PatternsHaveNoNul()
    ensures NUL !in PING && NUL !in PEER_ATTRIBUTE
  {
  }

  lemma PrefixOfTerminated(pattern: bytes, message: bytes, tail: bytes)
    requires NUL !in pattern
    ensures pattern <= message + [NUL] + tail <==> pattern <= message
  {
    var b := message + [NUL] + tail;
    if |message| < |pattern| {
      assert pattern[|message|] != NUL && b[|message|] == NUL;
    }
    if pattern <= b && |pattern| <= |message| {
      assert message[..|pattern|] == b[..|pattern|];
    }
    if pattern <= message {
      assert b[..|pattern|] == message[..|pattern|];
    }
  }

  /** Stale bytes never matter: whatever a slot held before, what the handler sees after a send
      (message, terminating NUL, leftovers) is decided by the message alone. */
  lemma StaleBytesNeverMatter(message: bytes, leftovers: bytes)
    ensures Classify(|message|, message + [NUL] + leftovers) == RequestIn(message)
  {
    var b := message + [NUL] + leftovers;
    PatternsHaveNoNul();
    StrNEqIsPrefix(b, PING);
    StrNEqIsPrefix(b, PEER_ATTRIBUTE);
    PrefixOfTerminated(PING, message, leftovers);
    PrefixOfTerminated(PEER_ATTRIBUTE, message, leftovers);
    CStrTerminated(message, leftovers);
    assert |message| == 4 && PING <= message ==> message == PING;
  }

  /** Without the NUL the handler would read stale bytes: a message that is no request turns
      into one when the right leftovers follow it. */
  lemma TheNulIsNeeded()
    ensures exists message: bytes, leftovers: bytes ::
      RequestIn(message) == None && Classify(|message|, message + leftovers) == Some(PeerAttribute)
  {
    var m: bytes, l: bytes := "L", PEER_ATTRIBUTE[1..];
    assert m + l == PEER_ATTRIBUTE;
    PatternsHaveNoNul();
    StrNEqIsPrefix(m + l, PEER_ATTRIBUTE);
    assert CStr(m) <= m;
    assert !("CTL-Write" <= CStr(m));
    assert Scan(CTL_WRITE, CStr(m)) == [];
    assert RequestIn(m) == None && Classify(|m|, m + l) == Some(PeerAttribute);
  }

  // ---- Replies

  function AckText(cclass: bytes, cid: int, sid: int): bytes
  {
    "Link CTL ACK C-Class=" + cclass + ",CID0=" + DecInt(cid) + ",SID0=" + DecInt(sid)
  }

  function StandaloneText(tag: int): bytes
  {
    "Standalone Acknowledgment Tag=" + DecInt(tag) + ",Reason=OK"
  }

  /** Base_C_Class_str is a C string in a 32-byte field; the ids are 32-bit ints. */
  predicate ValidCore(core: Core)
  {
    Plain(core.cclass, 31) && IsInt32(core.cid0) && IsInt32(core.sid0)
  }

  predicate ValidRequest(r: Request)
  {
    r.CtlWrite? ==> IsInt32(r.pfmcid) && IsInt32(r.pfmsid) && IsInt32(r.cid) && IsInt32(r.sid) && IsInt32(r.tag)
  }

  /** The Core Structure after a request. */
  function CoreAfter(core: Core, r: Request): Core
  {
    match r
    case CtlWrite(pc, ps, c, s, _) => core.(pfmcid := pc, pfmsid := ps, cid0 := c, sid0 := s, pmcid := -1)
    case _ => core
  }

  const CORE_STORES: nat := 5

  /** Store k of the five that a CTL-Write makes, in the handler's order. */
  function CoreStore(core: Core, w: Request, k: nat): Core
    requires w.CtlWrite?
  {
    if k == 0 then core.(pfmcid := w.pfmcid)
    else if k == 1 then core.(pfmsid := w.pfmsid)
    else if k == 2 then core.(cid0 := w.cid)
    else if k == 3 then core.(sid0 := w.sid)
    else core.(pmcid := -1)
  }

  function ReplyTo(core: Core, r: Request): bytes
  {
    match r
    case Ping => PONG
    case PeerAttribute => AckText(core.cclass, core.cid0, core.sid0)
    case CtlWrite(_, _, _, _, tag) => StandaloneText(tag)
  }

  /** The texts that any handler can send in answer to a request, whatever its core holds. */
  predicate IsReply(text: bytes)
  {
    RequestIn(text) == None && 0 < |text| < 128 && NUL !in text
  }

  lemma DecIntBounds(i: int)
    requires IsInt32(i)
    ensures Plain(DecInt(i), 11)
  {
    var m: nat := if i < 0 then -i else i;
    assert Pow10(2) == 100 && Pow10(4) == 10000 && Pow10(6) == 1000000 && Pow10(8) == 100000000
      && Pow10(10) == 10000000000;
    DecLength(m, 10);
    DecNoNul(m);
  }

  /** A text that starts neither like "ping" nor with 'C', and parts from the Peer-Attribute
      request within its first ten bytes, is no request. */
  lemma NotARequest(text: bytes)
    requires text != [] && text[0] != 'C' && text != PING
    requires !(PEER_ATTRIBUTE <= text)
    ensures RequestIn(text) == None
  {
    var s := CStr(text);
    assert s == [] || s[0] == text[0];
    var head: bytes := "CTL-Write";
    assert head[0] == 'C';
    assert !(head <= s);
    assert CTL_WRITE[0] == Text(head);
    assert Scan(CTL_WRITE, s) == [];
  }

  lemma PongIsReply()
    ensures IsReply(PONG)
  {
    assert PONG[0] == 'p' && PONG[1] == 'o' && PING[1] == 'i' && PEER_ATTRIBUTE[0] == 'L';
    NotARequest(PONG);
  }

  /** The first ten bytes settle it. */
  lemma TenBytesSettle(head: bytes, tail: bytes)
    requires |head| >= 10 && head[0] != 'C' && head[9] != 'P'
    ensures RequestIn(head + tail) == None
  {
    var t := head + tail;
    assert t[0] == head[0] && t[9] == head[9];
    assert PEER_ATTRIBUTE[9] == 'P' && |PEER_ATTRIBUTE| > 9;
    NotARequest(t);
  }

  lemma HeadMakesReply(head: bytes, tail: bytes)
    requires |head| >= 10 && head[0] != 'C' && head[9] != 'P'
    requires NUL !in head && NUL !in tail && |head| + |tail| < 128
    ensures IsReply(head + tail)
  {
    TenBytesSettle(head, tail);
  }

  /** Texts without NULs of at most the given lengths, one after the other. */
  predicate Plain(t: bytes, n: nat) { NUL !in t && |t| <= n }

  lemma PlainPair(a: bytes, b: bytes, m: nat, n: nat)
    requires Plain(a, m) && Plain(b, n)
    ensures Plain(a + b, m + n)
  {
  }

  lemma AckIsReply(cclass: bytes, cid: int, sid: int)
    requires Plain(cclass, 31) && IsInt32(cid) && IsInt32(sid)
    ensures IsReply(AckText(cclass, cid, sid))
  {
    var head: bytes, c: bytes, s: bytes := "Link CTL ACK C-Class=", ",CID0=", ",SID0=";
    assert Plain(c, 6) && Plain(s, 6);
    DecIntBounds(cid);
    DecIntBounds(sid);
    AckParts(head, cclass, c, DecInt(cid), s, DecInt(sid));
  }

  lemma AckParts(head: bytes, cclass: bytes, c: bytes, cid: bytes, s: bytes, sid: bytes)
    requires |head| == 21 && Plain(head, 21) && head[0] == 'L' && head[9] == 'A'
    requires Plain(cclass, 31) && Plain(c, 6) && Plain(s, 6) && Plain(cid, 11) && Plain(sid, 11)
    ensures IsReply(head + cclass + c + cid + s + sid)
  {
    PlainPair(cclass, c, 31, 6);
    PlainPair(cclass + c, cid, 37, 11);
    PlainPair(cclass + c + cid, s, 48, 6);
    PlainPair(cclass + c + cid + s, sid, 54, 11);
    HeadMakesReply(head, cclass + c + cid + s + sid);
    assert head + (cclass + c + cid + s + sid) == head + cclass + c + cid + s + sid;
  }

  lemma StandaloneIsReply(tag: int)
    requires IsInt32(tag)
    ensures IsReply(StandaloneText(tag))
  {
    var head: bytes, end: bytes := "Standalone Acknowledgment Tag=", ",Reason=OK";
    assert Plain(end, 10);
    DecIntBounds(tag);
    StandaloneParts(head, DecInt(tag), end);
  }

  lemma StandaloneParts(head: bytes, tag: bytes, end: bytes)
    requires |head| == 30 && Plain(head, 30) && head[0] == 'S' && head[9] == 'e' && Plain(tag, 11) && Plain(end, 10)
    ensures IsReply(head + tag + end)
  {
    PlainPair(tag, end, 11, 10);
    HeadMakesReply(head, tag + end);
    assert head + (tag + end) == head + tag + end;
  }

  /** No automatic reply is itself a link request, and every reply fits the 128-byte buffer. */
  lemma RepliesAreNotRequests(core: Core, r: Request)
    requires ValidCore(core) && ValidRequest(r)
    ensures IsReply(ReplyTo(core, r))
  {
    match r {
      case Ping => PongIsReply();
      case PeerAttribute => AckIsReply(core.cclass, core.cid0, core.sid0);
      case CtlWrite(_, _, _, _, tag) => StandaloneIsReply(tag);
    }
  }

  /** Whatever bytes a slot holds, the numbers that a handler takes from it are 32-bit ints, so a valid
      core stays valid, and what it answers is a reply. */
  lemma RequestsAreValid(buflen: nat, buf: bytes, core: Core)
    requires Classify(buflen, buf).Some? && ValidCore(core)
    ensures var r := Classify(buflen, buf).value;
            ValidRequest(r) && ValidCore(CoreAfter(core, r)) && IsReply(ReplyTo(core, r))
  {
    ScanGivesInts(CTL_WRITE, CStr(buf));
    RepliesAreNotRequests(core, Classify(buflen, buf).value);
  }

  // ---- CTL-Write and its acknowledgments

  function CtlWriteText(r: Request): bytes
    requires r.CtlWrite?
  {
    Print(CTL_WRITE, [r.pfmcid, r.pfmsid, r.cid, r.sid, r.tag])
  }

  lemma CtlWriteDelimited()
    ensures Delimited(CTL_WRITE)
  {
  }

  /** The holes from directive k on. */
  lemma {:induction false} HolesAt(fmt: seq<Directive>, k: nat)
    requires k < |fmt|
    ensures Holes(fmt[k..]) == (if fmt[k].Int? then 1 else 0) + Holes(fmt[k + 1..])
  {
    assert fmt[k..][1..] == fmt[k + 1..];
  }

  /** From directive k on, each literal is followed by a %d. */
  predicate Paired(fmt: seq<Directive>, k: nat)
    requires k <= |fmt|
    decreases |fmt| - k
  {
    k == |fmt| || (k + 1 < |fmt| && fmt[k].Text? && fmt[k + 1].Int? && Paired(fmt, k + 2))
  }

  lemma {:induction false} PairedHoles(fmt: seq<Directive>, k: nat)
    requires k <= |fmt| && Paired(fmt, k)
    ensures 2 * Holes(fmt[k..]) == |fmt| - k
    decreases |fmt| - k
  {
    if k < |fmt| {
      HolesAt(fmt, k);
      HolesAt(fmt, k + 1);
      PairedHoles(fmt, k + 2);
    }
  }

  lemma {:induction false} HolesOf(fmt: seq<Directive>)
    requires |fmt| >= 2 && fmt[0].Text? && fmt[1].Space? && Paired(fmt, 2)
    ensures 2 * Holes(fmt) == |fmt| - 2
  {
    PairedHoles(fmt, 2);
    HolesAt(fmt, 1);
    HolesAt(fmt, 0);
    assert fmt[0..] == fmt;
  }

  lemma {:induction false} PairedTwelve(fmt: seq<Directive>)
    requires |fmt| == 12 && fmt[2].Text? && fmt[4].Text? && fmt[6].Text? && fmt[8].Text? && fmt[10].Text?
    requires fmt[3].Int? && fmt[5].Int? && fmt[7].Int? && fmt[9].Int? && fmt[11].Int?
    ensures Paired(fmt, 2)
  {
    assert Paired(fmt, 12);
    assert Paired(fmt, 10);
    assert Paired(fmt, 8);
    assert Paired(fmt, 6);
    assert Paired(fmt, 4);
  }

  lemma CtlWriteHoles()
    ensures Holes(CTL_WRITE) == 5
  {
    PairedTwelve(CTL_WRITE);
    HolesOf(CTL_WRITE);
  }

  lemma {:induction false} CtlWriteScans(args: seq<int>)
    requires |args| == 5 && forall i :: 0 <= i < 5 ==> IsInt32(args[i])
    ensures Scan(CTL_WRITE, Print(CTL_WRITE, args)) == args
  {
    CtlWriteDelimited();
    CtlWriteHoles();
    ScanUndoesPrint(CTL_WRITE, args);
    assert WrapAll(args) == args;
  }

  lemma {:induction false} OnlyScanned(message: bytes, v: seq<int>)
    requires message != [] && message[0] == 'C' && NUL !in message
    requires Scan(CTL_WRITE, message) == v && |v| == 5
    ensures RequestIn(message) == Some(CtlWrite(v[0], v[1], v[2], v[3], v[4]))
  {
    assert PING[0] == 'p' && PEER_ATTRIBUTE[0] == 'L';
    assert CStr(message) == message;
  }

  /** Every text printed from the CTL-Write format with 32-bit values is recognised, and its five
      numbers come back unchanged. */
  lemma CtlWriteRoundTrip(r: Request)
    requires r.CtlWrite? && ValidRequest(r)
    ensures RequestIn(CtlWriteText(r)) == Some(r)
  {
    var args := [r.pfmcid, r.pfmsid, r.cid, r.sid, r.tag];
    CtlWriteScans(args);
    PrintedHead(CTL_WRITE, args);
    CtlWriteTextNoNul(r);
    OnlyScanned(CtlWriteText(r), args);
  }

  lemma {:induction false} PrintNoNul(fmt: seq<Directive>, args: seq<int>)
    requires forall i :: 0 <= i < |fmt| && fmt[i].Text? ==> NUL !in fmt[i].s
    ensures NUL !in Print(fmt, args)
  {
    if fmt != [] {
      var rest := fmt[1..];
      assert forall i :: 0 <= i < |rest| ==> rest[i] == fmt[i + 1];
      if fmt[0].Int? && args != [] {
        PrintNoNul(rest, args[1..]);
        DecNoNul(if args[0] < 0 then -args[0] else args[0]);
      } else {
        PrintNoNul(rest, args);
      }
    }
  }

  lemma CtlWriteTextNoNul(r: Request)
    requires r.CtlWrite?
    ensures NUL !in CtlWriteText(r)
  {
    PrintNoNul(CTL_WRITE, [r.pfmcid, r.pfmsid, r.cid, r.sid, r.tag]);
  }

  // ---- The same in plain words

  /** What is recognised, and from which texts. */
  lemma RequestsByText(message: bytes)
    ensures RequestIn(message) == Some(Ping) <==> message == "ping"
    ensures RequestIn(message) == Some(PeerAttribute) <==> "Link CTL Peer-Attribute" <= message
  {
    assert PING[0] == 'p' && PEER_ATTRIBUTE[0] == 'L';
  }

  /** What each request makes of the core: a CTL-Write sets the five numbers, each in its own field. */
  lemma RequestEffects(core: Core, a: int, b: int, c: int, d: int, tag: int)
    ensures CoreAfter(core, CtlWrite(a, b, c, d, tag))
         == Core(core.cclass, c, d, -1, a, b)
    ensures CoreAfter(core, Ping) == core && CoreAfter(core, PeerAttribute) == core
  {
  }

  /** What is answered, word for word. */
  lemma ReplyTexts(core: Core, a: int, b: int, c: int, d: int, tag: int)
    ensures ReplyTo(core, Ping) == "pong"
    ensures ReplyTo(core, PeerAttribute)
         == "Link CTL ACK C-Class=" + core.cclass + ",CID0=" + DecInt(core.cid0) + ",SID0=" + DecInt(core.sid0)
    ensures ReplyTo(core, CtlWrite(a, b, c, d, tag))
         == "Standalone Acknowledgment Tag=" + DecInt(tag) + ",Reason=OK"
  {
  }

  /** The format by which a peer that knows the class takes an ACK apart. */
  function AckFormat(cclass: bytes): seq<Directive>
  {
    [Text("Link CTL ACK C-Class=" + cclass + ",CID0="), Int, Text(",SID0="), Int]
  }

  lemma {:induction false} PrintTwo(a: bytes, b: bytes, x: int, y: int)
    ensures Print([Text(a), Int, Text(b), Int], [x, y]) == a + DecInt(x) + b + DecInt(y)
    ensures Holes([Text(a), Int, Text(b), Int]) == 2
  {
    var f := [Text(a), Int, Text(b), Int];
    assert f[0..] == f && f[4..] == [] && [x, y][1..] == [y];
    PrintAt(f, 0, [x, y]);
    PrintAt(f, 2, [y]);
    assert a + DecInt(x) + (b + DecInt(y) + []) == a + DecInt(x) + b + DecInt(y);
    HolesAt(f, 0);
    HolesAt(f, 1);
    HolesAt(f, 2);
    HolesAt(f, 3);
  }

  lemma {:induction false} ScanTwo(a: bytes, b: bytes, x: int, y: int)
    requires a != [] && b != [] && !IsDigit(b[0]) && IsInt32(x) && IsInt32(y)
    ensures Scan([Text(a), Int, Text(b), Int], a + DecInt(x) + b + DecInt(y)) == [x, y]
  {
    var f := [Text(a), Int, Text(b), Int];
    PrintTwo(a, b, x, y);
    assert Delimited(f) by { assert DelimitedAt(f, 0) && DelimitedAt(f, 1) && DelimitedAt(f, 2) && DelimitedAt(f, 3); }
    ScanUndoesPrint(f, [x, y]);
    assert WrapAll([x, y]) == [x, y];
  }

  /** An ACK's two numbers come back, the CID after "CID0=" and the SID after "SID0=". */
  lemma {:induction false} AckReadsBack(cclass: bytes, cid: int, sid: int)
    requires IsInt32(cid) && IsInt32(sid)
    ensures Scan(AckFormat(cclass), AckText(cclass, cid, sid)) == [cid, sid]
  {
    var a: bytes, b: bytes := "Link CTL ACK C-Class=" + cclass + ",CID0=", ",SID0=";
    ScanTwo(a, b, cid, sid);
    assert AckText(cclass, cid, sid) == a + DecInt(cid) + b + DecInt(sid);
  }

  lemma {:induction false} PrintLast(b: bytes)
    ensures Print([Text(b)], []) == b && Holes([Text(b)]) == 0
  {
    assert [Text(b)][1..] == [];
    assert Print([Text(b)], []) == b + [];
  }

  lemma {:induction false} PrintOne(a: bytes, b: bytes, x: int)
    ensures Print([Text(a), Int, Text(b)], [x]) == a + DecInt(x) + b
    ensures Holes([Text(a), Int, Text(b)]) == 1
  {
    var f := [Text(a), Int, Text(b)];
    assert f[0..] == f && f[2..] == [Text(b)] && [x][1..] == [];
    PrintAt(f, 0, [x]);
    PrintLast(b);
    HolesAt(f, 0);
    HolesAt(f, 1);
  }

  lemma {:induction false} ScanOne(a: bytes, b: bytes, x: int)
    requires a != [] && b != [] && !IsDigit(b[0]) && IsInt32(x)
    ensures Scan([Text(a), Int, Text(b)], a + DecInt(x) + b) == [x]
  {
    var f := [Text(a), Int, Text(b)];
    PrintOne(a, b, x);
    assert Delimited(f) by { assert DelimitedAt(f, 0) && DelimitedAt(f, 1) && DelimitedAt(f, 2); }
    ScanUndoesPrint(f, [x]);
    assert WrapAll([x]) == [x];
  }

  /** A CTL-Write's acknowledgment gives back its tag. */
  lemma {:induction false} TagReadsBack(core: Core, w: Request)
    requires w.CtlWrite? && IsInt32(w.tag)
    ensures Scan([Text("Standalone Acknowledgment Tag="), Int, Text(",Reason=OK")], ReplyTo(core, w)) == [w.tag]
  {
    ScanOne("Standalone Acknowledgment Tag=", ",Reason=OK", w.tag);
  }

  /** Printing goes directive by directive. */
  lemma {:induction false} PrintAt(fmt: seq<Directive>, k: nat, args: seq<int>)
    requires k + 1 < |fmt| && fmt[k].Text? && fmt[k + 1].Int? && args != []
    ensures Print(fmt[k..], args) == fmt[k].s + DecInt(args[0]) + Print(fmt[k + 2..], args[1..])
  {
    assert fmt[k..][1..] == fmt[k + 1..] && fmt[k + 1..][1..] == fmt[k + 2..];
    assert Print(fmt[k + 1..], args) == DecInt(args[0]) + Print(fmt[k + 2..], args[1..]);
  }

  lemma {:induction false} PrintThree(fmt: seq<Directive>, args: seq<int>)
    requires |fmt| == 12 && |args| == 3 && fmt[6].Text? && fmt[8].Text? && fmt[10].Text?
    requires fmt[7].Int? && fmt[9].Int? && fmt[11].Int?
    ensures var tag := fmt[10].s + DecInt(args[2]);
            var sid := fmt[8].s + DecInt(args[1]) + tag;
            Print(fmt[6..], args) == fmt[6].s + DecInt(args[0]) + sid
  {
    assert args[1..][1..] == args[2..] && fmt[12..] == [];
    PrintAt(fmt, 6, args);
    PrintAt(fmt, 8, args[1..]);
    PrintAt(fmt, 10, args[2..]);
    assert fmt[10].s + DecInt(args[2]) + [] == fmt[10].s + DecInt(args[2]);
  }

  lemma {:induction false} PrintFive(fmt: seq<Directive>, args: seq<int>)
    requires |fmt| == 12 && |args| == 5
    requires fmt[2].Text? && fmt[4].Text? && fmt[6].Text? && fmt[8].Text? && fmt[10].Text?
    requires fmt[3].Int? && fmt[5].Int? && fmt[7].Int? && fmt[9].Int? && fmt[11].Int?
    ensures var tag := fmt[10].s + DecInt(args[4]);
            var sid := fmt[8].s + DecInt(args[3]) + tag;
            var cid := fmt[6].s + DecInt(args[2]) + sid;
            var pfmsid := fmt[4].s + DecInt(args[1]) + cid;
            Print(fmt[2..], args) == fmt[2].s + DecInt(args[0]) + pfmsid
  {
    assert args[1..][1..] == args[2..];
    PrintAt(fmt, 2, args);
    PrintAt(fmt, 4, args[1..]);
    PrintThree(fmt, args[2..]);
  }

  lemma {:induction false} PrintHead(fmt: seq<Directive>, args: seq<int>)
    requires |fmt| >= 2 && fmt[0].Text? && fmt[1].Space?
    ensures Print(fmt, args) == fmt[0].s + ([' '] + Print(fmt[2..], args))
  {
    assert fmt[1..][1..] == fmt[2..];
  }

  /** A CTL-Write, word for word. */
  lemma {:induction false} CtlWriteByText(a: int, b: int, c: int, d: int, t: int)
    requires IsInt32(a) && IsInt32(b) && IsInt32(c) && IsInt32(d) && IsInt32(t)
    ensures var tag := ",Tag=" + DecInt(t);
            var sid := ",SID=" + DecInt(d) + tag;
            var cid := ",CID=" + DecInt(c) + sid;
            var pfmsid := ",PFMSID=" + DecInt(b) + cid;
            RequestIn("CTL-Write" + (" " + ("Space=0,PFMCID=" + DecInt(a) + pfmsid))) == Some(CtlWrite(a, b, c, d, t))
  {
    CtlWriteRoundTrip(CtlWrite(a, b, c, d, t));
    PrintHead(CTL_WRITE, [a, b, c, d, t]);
    PrintFive(CTL_WRITE, [a, b, c, d, t]);
  }
}
