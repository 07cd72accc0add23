/** The specification that the byte-by-byte protocol implements: a mailbox whose sends, deliveries
    and reads are single steps. A send fills an empty box and rings; a read takes the whole message. */
module AtomicMailbox {
  import opened Basics
  import opened CText
  import opened LinkMessages
  import opened Mailbox

  datatype Box = Empty | Full(dst: nat, body: bytes)

  datatype Visit = Out | Picked(src: nat) | Took(result: ReadResult) | LetGo(result: ReadResult)

  datatype Spec = Spec(
    boxes: seq<Box>,
    rung: seq<bool>,                        // the box has been announced and not yet delivered
    held: seq<Option<nat>>,                 // sender whose box the node may read
    visit: seq<Visit>,
    returned: seq<(nat, ReadResult)>)       // what reads have returned

  datatype Act =
    | Stutter
    | Put(s: nat, dst: nat, body: bytes)
    | Answer(s: nat)                        // a link request is consumed on arrival
    | Deliver(s: nat)                       // anything else is pointed at, replacing the last pointer
    | Pick(r: nat)
    | ReadAll(r: nat, result: ReadResult)
    | Let(r: nat)                           // release whatever is pointed at now
    | Return(r: nat)

  predicate Sized(x: Spec, k: nat)
  {
    |x.boxes| == k && |x.rung| == k && |x.held| == k && |x.visit| == k
  }

  predicate Can(x: Spec, k: nat, a: Act)
    requires Sized(x, k)
  {
    match a
    case Stutter => true
    case Put(s, dst, body) => s < k && x.boxes[s].Empty? && dst < k && body != []
    case Answer(s) => s < k && x.rung[s] && x.boxes[s].Full? && RequestIn(x.boxes[s].body).Some?
    case Deliver(s) =>
      s < k && x.rung[s] && x.boxes[s].Full? && x.boxes[s].dst < k && RequestIn(x.boxes[s].body).None?
    case Pick(r) => r < k && x.visit[r].Out? && x.held[r].Some?
    case ReadAll(r, res) =>
      r < k && x.visit[r].Picked? && x.visit[r].src < k &&
      (res.Delivered? ==>
        var s := x.visit[r].src;
        x.boxes[s].Full? && x.boxes[s].dst == r &&
        res == Delivered(Header(s * 100, SID_DEFAULT) + x.boxes[s].body,
                         |Header(s * 100, SID_DEFAULT)| + |x.boxes[s].body|))
    case Let(r) => r < k && x.visit[r].Took? && x.held[r].Some? && x.held[r].value < k
    case Return(r) => r < k && x.visit[r].LetGo?
  }

  function Do(x: Spec, k: nat, a: Act): (y: Spec)
    requires Sized(x, k) && Can(x, k, a)
    ensures Sized(y, k)
  {
    match a
    case Stutter => x
    case Put(s, dst, body) => x.(boxes := x.boxes[s := Full(dst, body)], rung := x.rung[s := true])
    case Answer(s) => x.(boxes := x.boxes[s := Empty], rung := x.rung[s := false])
    case Deliver(s) => x.(rung := x.rung[s := false], held := x.held[x.boxes[s].dst := Some(s)])
    case Pick(r) => x.(visit := x.visit[r := Picked(x.held[r].value)])
    case ReadAll(r, res) => x.(visit := x.visit[r := Took(res)])
    case Let(r) =>
      x.(boxes := x.boxes[x.held[r].value := Empty], held := x.held[r := None],
         visit := x.visit[r := LetGo(x.visit[r].result)])
    case Return(r) => x.(visit := x.visit[r := Out], returned := x.returned + [(r, x.visit[r].result)])
  }

  predicate IsSpecRun(x: Spec, k: nat, acts: seq<Act>)
    requires Sized(x, k)
    decreases acts
  {
    acts == [] || (Can(x, k, acts[0]) && IsSpecRun(Do(x, k, acts[0]), k, acts[1..]))
  }

  function SpecAfter(x: Spec, k: nat, acts: seq<Act>): (y: Spec)
    requires Sized(x, k) && IsSpecRun(x, k, acts)
    ensures Sized(y, k)
    decreases acts
  {
    if acts == [] then x else SpecAfter(Do(x, k, acts[0]), k, acts[1..])
  }

  /** The acts lead from x to end. */
  predicate SpecLeads(x: Spec, k: nat, acts: seq<Act>, end: Spec)
  {
    Sized(x, k) && IsSpecRun(x, k, acts) && SpecAfter(x, k, acts) == end
  }

  /** Each act leads from one of the given states to the next. */
  predicate Linked(xs: seq<Spec>, k: nat, acts: seq<Act>)
    decreases acts
  {
    |xs| == |acts| + 1 && Sized(xs[0], k) &&
    (acts == [] || (Can(xs[0], k, acts[0]) && Do(xs[0], k, acts[0]) == xs[1] && Linked(xs[1..], k, acts[1..])))
  }

  lemma {:induction false} LinkedLeads(xs: seq<Spec>, k: nat, acts: seq<Act>)
    requires Linked(xs, k, acts)
    ensures SpecLeads(xs[0], k, acts, xs[|acts|])
    decreases acts
  {
    if acts != [] { LinkedLeads(xs[1..], k, acts[1..]); }
  }
}
