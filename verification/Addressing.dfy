/** The text that users write to and read from the bridge: an address, a colon, and any bytes
    (shim_bridge/gf_bridge.c). */
module Addressing {
  import opened Basics
  import opened CText
  import opened Mailbox

  const SID_IS_PEER_ID: int := -42
  const NAMES: set<bytes> := {"server", "switch", "link", "interface"}

  datatype Target = Target(cid: int, sid: int)
  datatype Written = Written(target: Target, body: bytes)

  /** The address part: a name for the server, "CID,SID", or a bare peer id. */
  function ParseTarget(head: bytes, serverId: int): Result<Target>
  {
    var comma := IndexOf(head, ',');
    if head in NAMES then Ok(Target(serverId, SID_IS_PEER_ID))
    else if comma < |head| then
      match KStrToInt(head[..comma])
      case Err(e) => Err(e)
      case Ok(cid) =>
        match KStrToInt(head[comma + 1..])
        case Err(e) => Err(e)
        case Ok(sid) => Ok(Target(cid, sid))
    else
      match KStrToInt(head)
      case Err(e) => Err(e)
      case Ok(cid) => Ok(Target(cid, SID_IS_PEER_ID))
  }

  /** strchr(wbuf, ':') stops at the first NUL; the body after the colon may hold anything. */
  function ParseWrite(text: bytes, serverId: int): Result<Written>
  {
    var s := CStr(text);
    var colon := IndexOf(s, ':');
    if colon >= |s| then Err(EBADMSG)
    else
      match ParseTarget(s[..colon], serverId)
      case Err(e) => Err(e)
      case Ok(t) => Ok(Written(t, text[colon + 1..]))
  }

  /** C division truncates toward zero. */
  function TruncDiv(a: int, b: int): int
    requires b > 0
  {
    if a >= 0 then a / b else -((-a) / b)
  }

  /** The peer that a CID,SID pair names, as the uint32_t it is stored in. */
  function PeerOf(t: Target): (p: nat)
    ensures p < 0x1_0000_0000
    ensures t.sid == -42 && 0 <= t.cid < 0x1_0000_0000 ==> p == t.cid
    ensures t.sid == -42 && -0x8000_0000 <= t.cid < 0 ==> p == t.cid + 0x1_0000_0000
    ensures t.sid != -42 && 0 <= t.cid < 0x8000_0000 ==> 100 * p <= t.cid < 100 * p + 100
    ensures t.sid != -42 && -100 < t.cid < 0 ==> p == 0
    ensures t.sid != -42 && -0x8000_0000 <= t.cid <= -100 ==> p >= 0x8000_0000
  {
    (if t.sid == SID_IS_PEER_ID then t.cid else TruncDiv(t.cid, 100)) % 0x1_0000_0000
  }

  // ---- Round trip

  lemma DecHasNone(n: nat, c: char)
    requires !IsDigit(c)
    ensures c !in Dec(n)
  {
    var s := Dec(n);
    forall i | 0 <= i < |s| ensures s[i] != c { assert IsDigit(s[i]); }
  }

  lemma Dec27()
    ensures Dec(27) == "27"
  {
    assert Dec(2) == [DigitChar(2)];
  }

  predicate Bare(head: bytes) { ':' !in head && NUL !in head }

  /** What a write makes of any address without colons and NULs, followed by any body. */
  lemma HeadThenBody(head: bytes, body: bytes, serverId: int)
    requires Bare(head)
    ensures ParseWrite(head + ":" + body, serverId) ==
            match ParseTarget(head, serverId)
            case Err(e) => Err(e)
            case Ok(t) => Ok(Written(t, body))
  {
    var text := head + ":" + body;
    forall i | 0 <= i <= |head| ensures text[i] != NUL { assert i < |head| ==> text[i] == head[i] && head[i] in head; }
    var s := CStr(text);
    assert s[..|head|] == head && s[|head|] == ':';
    IndexOfUnique(s, ':', |head|);
    assert text[|head| + 1..] == body;
  }

  /** The four names mean the server, whatever its id, and carry any body. */
  lemma NameReachesServer(name: bytes, body: bytes, serverId: nat)
    requires name == "server" || name == "switch" || name == "link" || name == "interface"
    requires serverId < 0x8000_0000
    ensures ParseWrite(name + ":" + body, serverId) == Ok(Written(Target(serverId, -42), body))
    ensures PeerOf(Target(serverId, -42)) == serverId
  {
    assert Bare(name);
    HeadThenBody(name, body, serverId);
  }

  lemma DecIntBare(i: int)
    ensures Bare(DecInt(i)) && ',' !in DecInt(i) && DecInt(i) !in NAMES
  {
    var m: nat := if i < 0 then -i else i;
    DecHasNone(m, ':');
    DecHasNone(m, ',');
    DecNoNul(m);
    assert forall n :: n in NAMES ==> !IsDigit(n[0]) && n[0] != '-';
  }

  /** A bare number is a peer id. */
  lemma IdReachesPeer(p: int, body: bytes, serverId: int)
    requires IsInt32(p)
    ensures ParseWrite(DecInt(p) + ":" + body, serverId) == Ok(Written(Target(p, -42), body))
    ensures 0 < p ==> DecInt(p) == Dec(p) && PeerOf(Target(p, -42)) == p
  {
    DecIntBare(p);
    HeadThenBody(DecInt(p), body, serverId);
    KStrToIntOfDecInt(p, []);
    assert DecInt(p) + [] == DecInt(p);
  }

  /** A head of two bare parts. */
  lemma CommaSplits(c: bytes, s: bytes)
    requires Bare(c) && Bare(s) && ',' !in c && c != [] && (IsDigit(c[0]) || c[0] == '-')
    ensures var head := c + "," + s;
            Bare(head) && head !in NAMES && IndexOf(head, ',') == |c| < |head| && head[..|c|] == c &&
            head[|c| + 1..] == s
  {
    var head := c + "," + s;
    assert head[|c|] == ',' && head[..|c|] == c && head[|c| + 1..] == s && head[0] == c[0];
    assert forall n :: n in NAMES ==> !IsDigit(n[0]) && n[0] != '-';
    IndexOfUnique(head, ',', |c|);
  }

  lemma {:induction false} PairParses(cid: int, sid: int, serverId: int)
    requires IsInt32(cid) && IsInt32(sid)
    ensures Bare(DecInt(cid) + "," + DecInt(sid))
    ensures ParseTarget(DecInt(cid) + "," + DecInt(sid), serverId) == Ok(Target(cid, sid))
  {
    DecIntBare(cid);
    DecIntBare(sid);
    CommaSplits(DecInt(cid), DecInt(sid));
    KStrToIntOfDecInt(cid, []);
    KStrToIntOfDecInt(sid, []);
    assert DecInt(cid) + [] == DecInt(cid) && DecInt(sid) + [] == DecInt(sid);
  }

  /** Two numbers are a CID and a SID, in this order. */
  lemma {:induction false} PairReachesBoth(cid: int, sid: int, body: bytes, serverId: int)
    requires IsInt32(cid) && IsInt32(sid)
    ensures ParseWrite(DecInt(cid) + "," + DecInt(sid) + ":" + body, serverId) == Ok(Written(Target(cid, sid), body))
  {
    PairParses(cid, sid, serverId);
    HeadThenBody(DecInt(cid) + "," + DecInt(sid), body, serverId);
  }

  /** EBADMSG exactly when there is no colon before the first NUL. */
  lemma NoColonIsBad(text: bytes, serverId: int)
    ensures ParseWrite(text, serverId) == Err(EBADMSG) <==> ':' !in CStr(text)
  {
    var s := CStr(text);
    var k := IndexOf(s, ':');
    if k < |s| { assert s[k] in s; } else { assert s[..k] == s; }
  }

  /** An address that starts with no digit and no sign, and is no name, is no number. */
  lemma NoNumberIsInvalid(head: bytes, body: bytes, serverId: int)
    requires Bare(head) && ',' !in head && head !in NAMES
    requires head == [] || !(IsDigit(head[0]) || head[0] == '-' || head[0] == '+')
    ensures ParseWrite(head + ":" + body, serverId) == Err(EINVAL)
  {
    HeadThenBody(head, body, serverId);
    KStrToIntNoDigit(head);
    assert IndexOf(head, ',') == |head|;
  }

  /** The address half of a printed header parses back exactly when the CID fits an int. */
  lemma {:induction false} TargetRoundTrip(cid: nat, serverId: int)
    requires 0 < cid
    ensures ParseTarget(Dec(cid) + "," + Dec(27), serverId)
         == if cid <= INT_MAX then Ok(Target(cid, 27)) else Err(ERANGE)
  {
    var c, s := Dec(cid), Dec(27);
    var head := c + "," + s;
    assert IsDigit(head[0]);
    assert head !in NAMES;
    DecHasNone(cid, ',');
    assert head[|c|] == ',' && head[..|c|] == c && head[|c| + 1..] == s;
    IndexOfUnique(head, ',', |c|);
    KStrToIntOfDec(cid);
    KStrToIntOfDec(27);
  }

  lemma {:induction false} HeaderSplits(cid: nat, body: bytes)
    ensures var head := Dec(cid) + "," + Dec(27);
            var text := Header(cid, 27) + body;
            var s := CStr(text);
            IndexOf(s, ':') == |head| && |head| < |s| && s[..|head|] == head && text[|head| + 1..] == body
  {
    var head := Dec(cid) + "," + Dec(27);
    var text := Header(cid, 27) + body;
    assert text == head + ":" + body;
    DecHasNone(cid, ':');
    DecHasNone(27, ':');
    DecNoNul(cid);
    DecNoNul(27);
    forall i | 0 <= i <= |head| ensures text[i] != NUL {
      assert i < |head| ==> text[i] == head[i] && head[i] in head;
    }
    var s := CStr(text);
    assert s[..|head|] == head && s[|head|] == ':';
    IndexOfUnique(s, ':', |head|);
  }

  /** Address round trip: writing back the header that read printed for peer p, followed by any bytes
      at all, names exactly that peer and carries exactly those bytes, if and only if the peer's CID
      fits an int. */
  lemma {:induction false} AddressRoundTrip(p: nat, body: bytes, serverId: int)
    requires 0 < p
    ensures ParseWrite(Header(p * 100, 27) + body, serverId)
         == if p * 100 <= INT_MAX then Ok(Written(Target(p * 100, 27), body)) else Err(ERANGE)
    ensures p * 100 <= INT_MAX ==> PeerOf(Target(p * 100, 27)) == p
  {
    HeaderSplits(p * 100, body);
    TargetRoundTrip(p * 100, serverId);
    PeerOfHundreds(p);
  }

  lemma PeerOfHundreds(p: nat)
    ensures p * 100 <= INT_MAX ==> PeerOf(Target(p * 100, 27)) == p
  {
  }

  /** Whatever 64-bit CID a slot holds, the printed header has at most 24 characters, so that it
      always fits read's buffer. */
  lemma HeaderFits(cid: nat)
    requires cid < 0x1_0000_0000_0000_0000
    ensures |Header(cid, 27)| <= 24
  {
    Dec27();
    assert Pow10(5) == 100000 && Pow10(10) == 100000 * 100000 && Pow10(15) == 100000 * 100000 * 100000
      && Pow10(20) == 100000 * 100000 * 100000 * 100000 by { Pow10Five(0); Pow10Five(5); Pow10Five(10); Pow10Five(15); }
    DecLength(cid, 20);
  }

  lemma Pow10Five(k: nat)
    ensures Pow10(k + 5) == 100000 * Pow10(k)
  {
    assert Pow10(k + 2) == 100 * Pow10(k);
    assert Pow10(k + 4) == 10000 * Pow10(k);
  }

  // ---- The read guard

  /** read() puts |header| + buflen bytes at the user's pointer when its guard lets it. */
  predicate GuardPasses(header: bytes, buflen: nat, cap: nat)
  {
    GuardOutcome(0, header, buflen, cap).Guarded?
  }
}
