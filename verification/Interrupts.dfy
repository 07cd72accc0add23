/** Acquiring and giving back the MSI-X interrupts of an adapter (shim_bridge/fee_MSI-X.c). The kernel's
    answers are inputs; the kernel's book of requested IRQs is `requested`. */
module Interrupts {
  import opened Basics

  const NEG_ENOMEM: int := -12
  const NEG_EINVAL: int := -22
  const NEG_ENOSPC: int := -28

  /** What the kernel answers during setup. */
  datatype Kernel = Kernel(
    vecCount: int,                 // pci_msix_vec_count
    tableFits: bool,               // kzalloc of the table
    granted: int,                  // pci_alloc_irq_vectors
    irq: seq<int>,                 // pci_irq_vector of each entry, negative on failure
    request: seq<int>)             // request_irq of each entry, zero on success

  /** Index of the first bad answer among those from i on, or their number. */
  function FirstBad(answers: seq<int>, bad: int -> bool, i: nat): (k: nat)
    requires i <= |answers|
    ensures i <= k <= |answers| && forall j :: i <= j < k ==> !bad(answers[j])
    ensures k < |answers| ==> bad(answers[k])
    decreases |answers| - i
  {
    if i == |answers| || bad(answers[i]) then i else FirstBad(answers, bad, i + 1)
  }

  function FirstMissing(k: Kernel): nat { FirstBad(k.irq, v => v < 0, 0) }
  function FirstRefused(k: Kernel): nat { FirstBad(k.request, v => v != 0, 0) }

  /** The device has as many vectors as are wanted, and sixteen at least, and the kernel hands them all out. */
  predicate Vectored(k: Kernel, nEvents: nat)
  {
    16 <= k.vecCount && nEvents <= k.vecCount && k.tableFits && 0 <= k.granted && nEvents <= k.granted
  }

  /** The first thing that goes wrong, as the errno that setup returns, or 0. */
  function FirstError(k: Kernel, nEvents: nat): (e: int)
    ensures e == 0 <==>
      Vectored(k, nEvents) && (forall i :: 0 <= i < |k.irq| ==> k.irq[i] >= 0) &&
      (forall i :: 0 <= i < |k.request| ==> k.request[i] == 0)
    ensures k.vecCount < 0 ==> e == k.vecCount
    ensures 0 <= k.vecCount < 16 ==> e == -22
    ensures 16 <= k.vecCount < nEvents ==> e == -28
    ensures 16 <= k.vecCount && nEvents <= k.vecCount && !k.tableFits ==> e == -12
    ensures 16 <= k.vecCount && nEvents <= k.vecCount && k.tableFits && k.granted < 0 ==> e == k.granted
    ensures 16 <= k.vecCount && nEvents <= k.vecCount && k.tableFits && 0 <= k.granted < nEvents ==> e == -28
    ensures Vectored(k, nEvents) ==>
      forall i :: 0 <= i < |k.irq| && k.irq[i] < 0 && (forall j :: 0 <= j < i ==> k.irq[j] >= 0) ==> e == k.irq[i]
    ensures Vectored(k, nEvents) && (forall i :: 0 <= i < |k.irq| ==> k.irq[i] >= 0) ==>
      forall i :: 0 <= i < |k.request| && k.request[i] != 0 && (forall j :: 0 <= j < i ==> k.request[j] == 0) ==>
        e == k.request[i]
  {
    if k.vecCount < 0 then k.vecCount
    else if k.vecCount < 16 then NEG_EINVAL
    else if nEvents > k.vecCount then NEG_ENOSPC
    else if !k.tableFits then NEG_ENOMEM
    else if k.granted < 0 then k.granted
    else if k.granted < nEvents then NEG_ENOSPC
    else if FirstMissing(k) < |k.irq| then k.irq[FirstMissing(k)]
    else if FirstRefused(k) < |k.request| then k.request[FirstRefused(k)]
    else 0
  }

  lemma DropFirst(t: seq<int>, i: nat, n: nat)
    requires i < n <= |t|
    ensures multiset(t[i..n]) == multiset{t[i]} + multiset(t[i + 1..n])
  {
    assert t[i..n] == [t[i]] + t[i + 1..n];
  }

  lemma TakeNext(t: seq<int>, i: nat)
    requires i < |t|
    ensures t[..i + 1] == t[..i] + [t[i]] && multiset(t[..i + 1]) == multiset(t[..i]) + multiset{t[i]}
  {
    assert t[..i + 1] == t[..i] + [t[i]];
  }

  class Irqs {
    const nEvents: nat
    var table: Option<seq<int>>            // IRQ_private: the vector of each entry
    var vectors: bool                      // pci_alloc_irq_vectors not yet undone
    var requested: multiset<int>           // IRQs that the kernel has on its books for us
    ghost var freed: seq<int>              // every free_irq so far, in order

    constructor (n: nat)
      ensures nEvents == n && Valid() && table == None && freed == []
    {
      nEvents, table, vectors, requested, freed := n, None, false, multiset{}, [];
    }

    /** Between calls: with a table, exactly its IRQs are requested; without one, nothing is held. */
    ghost predicate Valid()
      reads this
    {
      match table
      case None => !vectors && requested == multiset{}
      case Some(t) => |t| == nEvents && vectors && requested == multiset(t)
    }

    /** free_irq of an IRQ that is not requested is a kernel warning: never called so. */
    method FreeIrq(v: int)
      requires v in requested
      modifies this`requested, this`freed
      ensures requested == old(requested) - multiset{v} && freed == old(freed) + [v]
    {
      requested := requested - multiset{v};
      freed := freed + [v];
    }

    /** Frees the first n entries of a table, all of which are requested. */
    method FreeFirst(t: seq<int>, n: nat)
      requires n <= |t| && requested == multiset(t[..n])
      modifies this`requested, this`freed
      ensures requested == multiset{} && freed == old(freed) + t[..n]
    {
      var i := 0;
      assert t[0..n] == t[..n];
      while i < n
        invariant 0 <= i <= n
        invariant requested == multiset(t[i..n]) && freed == old(freed) + t[..i]
      {
        DropFirst(t, i, n);
        TakeNext(t, i);
        FreeIrq(t[i]);
        i := i + 1;
      }
    }

    /** The loop that looks up every entry's vector: 0, or the first failure. */
    method LookUp(k: Kernel) returns (ret: int, entries: seq<int>)
      requires |k.irq| == nEvents
      ensures ret == if FirstMissing(k) < nEvents then k.irq[FirstMissing(k)] else 0
      ensures ret >= 0 ==> entries == k.irq
    {
      entries := seq(nEvents, _ => 0);
      var i := 0;
      while i < nEvents
        invariant 0 <= i <= nEvents && |entries| == nEvents && entries[..i] == k.irq[..i]
        invariant i <= FirstMissing(k)
      {
        if k.irq[i] < 0 {
          return k.irq[i], entries;
        }
        entries := entries[i := k.irq[i]];
        i := i + 1;
      }
      ret := 0;
    }

    /** The loop that requests every entry's IRQ and, when one is refused, frees those before it. */
    method RequestAll(k: Kernel, entries: seq<int>) returns (ret: int)
      requires |entries| == nEvents && |k.request| == nEvents && requested == multiset{}
      modifies this`requested, this`freed
      ensures ret == if FirstRefused(k) < nEvents then k.request[FirstRefused(k)] else 0
      ensures ret == 0 ==> requested == multiset(entries) && freed == old(freed)
      ensures ret != 0 ==> requested == multiset{} && freed == old(freed) + entries[..FirstRefused(k)]
    {
      var last := 0;
      while last < nEvents
        invariant 0 <= last <= nEvents && last <= FirstRefused(k)
        invariant requested == multiset(entries[..last]) && freed == old(freed)
      {
        if k.request[last] != 0 {
          FreeFirst(entries, last);
          return k.request[last];
        }
        TakeNext(entries, last);
        requested := requested + multiset{entries[last]};
        last := last + 1;
      }
      assert entries[..nEvents] == entries;
      ret := 0;
    }

    /** FEE_ISR_setup: all or nothing, whatever fails and wherever. The IRQs that a late failure frees
        are exactly those requested before it. */
    method Setup(k: Kernel) returns (ret: int)
      requires Valid() && table == None && |k.irq| == nEvents && |k.request| == nEvents
      modifies this`table, this`vectors, this`requested, this`freed
      ensures Valid() && ret == FirstError(k, nEvents)
      ensures if ret == 0 then table == Some(k.irq) && freed == old(freed)
              else table == None && (freed == old(freed) || freed == old(freed) + k.irq[..FirstRefused(k)])
    {
      if k.vecCount < 0 { return k.vecCount; }
      if k.vecCount < 16 { return NEG_EINVAL; }
      if nEvents > k.vecCount { return NEG_ENOSPC; }
      if !k.tableFits {
        table := None;
        return NEG_ENOMEM;
      }
      table := Some(seq(nEvents, _ => 0));
      if k.granted < 0 {
        table := None;
        return k.granted;
      }
      vectors := true;
      if k.granted < nEvents {
        vectors, table := false, None;
        return NEG_ENOSPC;
      }
      var entries;
      ret, entries := LookUp(k);
      if ret < 0 {
        vectors, table := false, None;
        return;
      }
      table := Some(entries);
      ret := RequestAll(k, entries);
      if ret != 0 {
        vectors, table := false, None;
      }
    }

    /** FEE_ISR_teardown frees nClients + 2 entries, which is nEvents. */
    method Teardown()
      requires Valid()
      modifies this`table, this`vectors, this`requested, this`freed
      ensures Valid() && table == None
      ensures freed == old(freed) + (if old(table).Some? then old(table).value else [])
    {
      if table.None? {
        return;
      }
      var t := table.value;
      assert t[..nEvents] == t;
      FreeFirst(t, nEvents);
      vectors := false;
      table := None;
    }

    /** A setup followed by any number of teardowns frees each requested IRQ exactly once. */
    method SetupThenTeardowns(k: Kernel, times: nat) returns (ret: int)
      requires Valid() && table == None && |k.irq| == nEvents && |k.request| == nEvents
      modifies this`table, this`vectors, this`requested, this`freed
      ensures Valid() && ret == FirstError(k, nEvents)
      ensures times > 0 || ret != 0 ==> table == None && requested == multiset{} && !vectors
      ensures ret == 0 && times > 0 ==> freed == old(freed) + k.irq
    {
      ret := Setup(k);
      var i := 0;
      while i < times
        invariant 0 <= i <= times && Valid()
        invariant i == 0 && ret == 0 ==> table == Some(k.irq) && freed == old(freed)
        invariant i > 0 || ret != 0 ==> table == None
        invariant i > 0 && ret == 0 ==> freed == old(freed) + k.irq
      {
        Teardown();
        i := i + 1;
      }
    }
  }
}
