/** The find-or-create registry of buses (subsystem/genz_bus.c): a list searched by id, in which every
    negative slot number shares one id. */
module BusRegistry {
  import opened Basics

  const MAXBUSES: int := 254
  const POTPOURRID: int := MAXBUSES + 1

  /** A bus instance; `addr` stands for its address, which no other instance shares. */
  datatype Bus = Bus(id: int, addr: nat)

  /** One call: the slot asked for, and whether a new instance could be made if one is needed. */
  datatype Call = Call(desired: int, made: bool)

  function Normal(desired: int): int { if desired < 0 then POTPOURRID else desired }

  /** The registry as a map from ids to addresses; addresses from n on have not been handed out. */
  datatype Book = Book(m: map<int, nat>, n: nat)

  /** What a call does to the book, and the address it returns. */
  function Lookup(b: Book, c: Call): (Book, Option<nat>)
  {
    var id := Normal(c.desired);
    if c.desired > MAXBUSES then (b, None)
    else if id in b.m then (b, Some(b.m[id]))
    else if c.made then (Book(b.m[id := b.n], b.n + 1), Some(b.n))
    else (b, None)
  }

  /** Slots above 254 give nothing; any other gives a bus on the list, with the slot for its id and 255 for all
      negative slots, unless none could be made. */
  predicate Answered(c: Call, r: Option<nat>, bs: seq<Bus>)
  {
    (c.desired > 254 ==> r.None?) && (c.desired <= 254 && c.made ==> r.Some?) &&
    (r.Some? ==> Bus(if c.desired < 0 then 255 else c.desired, r.value) in bs)
  }

  /** Some bus on the list has this id. */
  predicate Known(bs: seq<Bus>, id: int) { exists i :: 0 <= i < |bs| && bs[i].id == id }

  predicate AllAnswered(cs: seq<Call>, rs: seq<Option<nat>>, bs: seq<Bus>)
  {
    |rs| == |cs| && forall i :: 0 <= i < |cs| ==> Answered(cs[i], rs[i], bs)
  }

  lemma AnsweredFirst(cs: seq<Call>, r: Option<nat>, rest: seq<Option<nat>>, bs: seq<Bus>)
    requires cs != [] && Answered(cs[0], r, bs) && AllAnswered(cs[1..], rest, bs)
    ensures AllAnswered(cs, [r] + rest, bs)
  {
    forall i | 0 <= i < |cs| ensures Answered(cs[i], ([r] + rest)[i], bs) {
      if i > 0 { assert Answered(cs[1..][i - 1], rest[i - 1], bs); }
    }
  }

  lemma AnsweredGrows(c: Call, r: Option<nat>, bs: seq<Bus>, more: seq<Bus>)
    requires Answered(c, r, bs) && bs <= more
    ensures Answered(c, r, more)
  {
    if r.Some? {
      var i :| 0 <= i < |bs| && bs[i] == Bus(if c.desired < 0 then 255 else c.desired, r.value);
      assert more[i] == bs[i];
    }
  }

  class Registry {
    var buses: seq<Bus>                    // genz_bus_list
    var next: nat                          // addresses not handed out yet start here

    constructor ()
      ensures Valid() && buses == []
    {
      buses, next := [], 0;
    }

    ghost predicate Valid()
      reads this
    {
      Distinct(buses, next)
    }

    /** The book that the list stands for. */
    ghost function View(): Book
      reads this
      requires Valid()
    {
      Book(ViewOf(buses), next)
    }

    /** The walk along the list. */
    method Search(id: int) returns (found: Option<nat>)
      requires Valid()
      ensures found == if id in View().m then Some(View().m[id]) else None
      ensures found.Some? <==> Known(buses, id)
      ensures found.Some? ==> Bus(id, found.value) in buses
    {
      var i := 0;
      while i < |buses| && buses[i].id != id
        invariant 0 <= i <= |buses|
        invariant forall j :: 0 <= j < i ==> buses[j].id != id
      {
        i := i + 1;
      }
      ViewEntries(buses);
      found := if i < |buses| then Some(buses[i].addr) else None;
    }

    /** A new instance at the end of the list. */
    method Append(id: int) returns (addr: nat)
      requires Valid() && 0 <= id <= POTPOURRID && id !in View().m
      modifies this
      ensures Valid() && addr == old(next) && buses == old(buses) + [Bus(id, addr)]
      ensures View() == Book(old(View()).m[id := addr], addr + 1)
    {
      AppendBus(buses, Bus(id, next));
      addr := next;
      buses := buses + [Bus(id, next)];
      next := next + 1;
    }

    /** genz_find_bus_by_PCIslotnum */
    method Find(c: Call) returns (found: Option<nat>)
      requires Valid()
      modifies this
      ensures Valid() && (View(), found) == Lookup(old(View()), c)
      ensures var id := if c.desired < 0 then 255 else c.desired;
              var known := Known(old(buses), id);
              (found.None? <==> c.desired > 254 || (!c.made && !known)) &&
              (found.Some? && known ==> Bus(id, found.value) in old(buses)) &&
              buses == if found.Some? && !known then old(buses) + [Bus(id, found.value)] else old(buses)
      ensures Answered(c, found, buses) && old(buses) <= buses
    {
      if c.desired > MAXBUSES {
        return None;
      }
      var id := Normal(c.desired);
      found := Search(id);
      if found.None? && c.made {
        var addr := Append(id);
        found := Some(addr);
      }
    }

    /** Any sequence of calls on the list answers as on the map. */
    method FindAll(cs: seq<Call>) returns (rs: seq<Option<nat>>)
      requires Valid()
      modifies this
      ensures Valid() && rs == Results(old(View()), cs) && Sound(old(View())) && old(buses) <= buses
      ensures AllAnswered(cs, rs, buses)
      decreases cs
    {
      ViewEntries(buses);
      if cs == [] {
        return [];
      }
      var r := Find(cs[0]);
      ghost var found := buses;
      var rest := FindAll(cs[1..]);
      AnsweredGrows(cs[0], r, found, buses);
      AnsweredFirst(cs, r, rest, buses);
      rs := [r] + rest;
    }
  }

  /** The ids are at most 255, the addresses have been handed out, and no two instances share either. */
  predicate Distinct(bs: seq<Bus>, next: nat)
  {
    (forall i :: 0 <= i < |bs| ==> 0 <= bs[i].id <= POTPOURRID && bs[i].addr < next) &&
    (forall i, j :: 0 <= i < j < |bs| ==> bs[i].id != bs[j].id && bs[i].addr != bs[j].addr)
  }

  lemma {:induction false} AppendDistinct(bs: seq<Bus>, b: Bus)
    requires Distinct(bs, b.addr) && 0 <= b.id <= POTPOURRID && forall i :: 0 <= i < |bs| ==> bs[i].id != b.id
    ensures Distinct(bs + [b], b.addr + 1)
  {
  }

  lemma {:induction false} NotListed(bs: seq<Bus>, id: int)
    requires (forall i, j :: 0 <= i < j < |bs| ==> bs[i].id != bs[j].id) && id !in ViewOf(bs)
    ensures forall i :: 0 <= i < |bs| ==> bs[i].id != id
  {
    ViewEntries(bs);
  }

  lemma {:induction false} AppendBus(bs: seq<Bus>, b: Bus)
    requires Distinct(bs, b.addr) && b.id !in ViewOf(bs) && 0 <= b.id <= POTPOURRID
    ensures Distinct(bs + [b], b.addr + 1) && ViewOf(bs + [b]) == ViewOf(bs)[b.id := b.addr]
  {
    NotListed(bs, b.id);
    AppendDistinct(bs, b);
    assert (bs + [b])[..|bs|] == bs;
  }

  ghost function ViewOf(bs: seq<Bus>): map<int, nat>
  {
    if bs == [] then map[] else ViewOf(bs[..|bs| - 1])[bs[|bs| - 1].id := bs[|bs| - 1].addr]
  }

  lemma {:induction false} ViewEntries(bs: seq<Bus>)
    requires forall i, j :: 0 <= i < j < |bs| ==> bs[i].id != bs[j].id
    ensures forall i :: 0 <= i < |bs| ==> bs[i].id in ViewOf(bs) && ViewOf(bs)[bs[i].id] == bs[i].addr
    ensures forall id :: id in ViewOf(bs) ==> exists i :: 0 <= i < |bs| && bs[i].id == id
  {
    if bs != [] {
      ViewEntries(bs[..|bs| - 1]);
    }
  }

  // ---- Any sequence of calls

  /** The results of a sequence of calls. */
  function Results(b: Book, cs: seq<Call>): (rs: seq<Option<nat>>)
    ensures |rs| == |cs|
    decreases cs
  {
    if cs == [] then []
    else
      var r := Lookup(b, cs[0]);
      [r.1] + Results(r.0, cs[1..])
  }

  /** Ids are at most 255, and different ids have different addresses. */
  predicate Sound(b: Book)
  {
    (forall id :: id in b.m ==> 0 <= id <= POTPOURRID && b.m[id] < b.n) &&
    (forall id, id' :: id in b.m && id' in b.m && b.m[id] == b.m[id'] ==> id == id')
  }

  lemma LookupKeepsSound(b: Book, c: Call)
    requires Sound(b)
    ensures Sound(Lookup(b, c).0)
    ensures forall id :: id in b.m ==> id in Lookup(b, c).0.m && Lookup(b, c).0.m[id] == b.m[id]
    ensures Lookup(b, c).1.Some? ==>
      Normal(c.desired) in Lookup(b, c).0.m && Lookup(b, c).0.m[Normal(c.desired)] == Lookup(b, c).1.value
  {
  }

  lemma {:induction false} ResultIsEntry(b: Book, cs: seq<Call>, id: int, j: nat)
    requires Sound(b) && id in b.m && j < |cs| && Results(b, cs)[j].Some?
    ensures Results(b, cs)[j].value == b.m[id] <==> Normal(cs[j].desired) == id
    decreases cs
  {
    var r := Lookup(b, cs[0]);
    LookupKeepsSound(b, cs[0]);
    if j > 0 {
      assert Results(b, cs)[j] == Results(r.0, cs[1..])[j - 1];
      ResultIsEntry(r.0, cs[1..], id, j - 1);
    }
  }

  /** Over any sequence of calls, two successful lookups return the same bus exactly when their slot
      numbers agree once all negative ones are taken as one. */
  lemma {:induction false} SameBusIffSameSlot(b: Book, cs: seq<Call>, i: nat, j: nat)
    requires Sound(b) && i < j < |cs| && Results(b, cs)[i].Some? && Results(b, cs)[j].Some?
    ensures Results(b, cs)[i] == Results(b, cs)[j] <==> Normal(cs[i].desired) == Normal(cs[j].desired)
    decreases cs
  {
    var r := Lookup(b, cs[0]);
    LookupKeepsSound(b, cs[0]);
    assert Results(b, cs)[j] == Results(r.0, cs[1..])[j - 1];
    if i == 0 {
      ResultIsEntry(r.0, cs[1..], Normal(cs[0].desired), j - 1);
    } else {
      assert Results(b, cs)[i] == Results(r.0, cs[1..])[i - 1];
      SameBusIffSameSlot(r.0, cs[1..], i - 1, j - 1);
    }
  }
}
