/** Device numbers of registered bridges (subsystem/genz_device.c): a bitmap of minors that is searched
    for GENZ_MINORBITS positions, and a major that the first registration obtains. */
module MinorNumbers {
  import opened Basics

  const GENZ_MINORBITS: nat := 14

  datatype DevNum = DevNum(major: nat, minor: nat)

  /** The caller's core structure and the kernel's answers during one registration: is the component a
      bridge, are its limits in range, is there memory, may the numbers be used, which major does the
      kernel pick, and does something fail after the bit has been set. */
  datatype Answers = Answers(bridge: bool, limits: bool, memory: bool, region: Option<Errno>, newMajor: nat,
                             later: Option<Errno>)

  class Registry {
    var bits: set<nat>                     // bridge_minor_bitmap
    var major: nat                         // bridge_major, 0 until the first allocation
    ghost var given: seq<DevNum>           // numbers of successful registrations, in order

    constructor ()
      ensures Valid() && bits == {} && major == 0 && given == []
    {
      bits, major, given := {}, 0, [];
    }

    /** The set bits are 0..k-1 with k at most 14, and no number has been given twice. */
    ghost predicate Valid()
      reads this
    {
      |bits| <= GENZ_MINORBITS && (forall b :: b in bits <==> 0 <= b < |bits|) &&
      (forall i :: 0 <= i < |given| ==> given[i].major == major && given[i].minor in bits) &&
      (forall i, j :: 0 <= i < j < |given| ==> given[i].minor < given[j].minor) &&
      |given| <= |bits| && (major == 0 ==> bits == {})
    }

    /** find_first_zero_bit over the first GENZ_MINORBITS positions. */
    method FirstZeroBit() returns (m: nat)
      requires Valid()
      ensures m == |bits|
    {
      m := 0;
      while m < GENZ_MINORBITS && m in bits
        invariant m <= |bits|
      {
        m := m + 1;
      }
    }

    /** genz_register_char_device. A minor, once its bit is set, is never returned, even when the
        registration fails later on. */
    method Register(k: Answers) returns (ret: Result<DevNum>)
      requires Valid() && k.newMajor > 0
      modifies this
      ensures Valid()
      ensures var fine := k.bridge && k.limits && k.memory && old(|bits|) < 14;
              bits == (if fine && k.region.None? then old(bits) + {old(|bits|)} else old(bits)) &&
              major == (if fine && k.region.None? && old(major) == 0 then k.newMajor else old(major)) &&
              (fine && k.region.Some? ==> ret == Err(k.region.value)) &&
              (fine && k.region.None? && k.later.Some? ==> ret == Err(k.later.value)) &&
              (fine && k.region.None? && k.later.None? ==> ret == Ok(DevNum(major, old(|bits|))))
      ensures !k.bridge ==> ret == Err(EDOM)
      ensures k.bridge && !k.limits ==> ret == Err(EINVAL)
      ensures k.bridge && k.limits && !k.memory ==> ret == Err(ENOMEM)
      ensures k.bridge && k.limits && k.memory && old(|bits|) >= 14 ==> ret == Err(EDOM)
      ensures given == if ret.Ok? then old(given) + [ret.value] else old(given)
      ensures ret.Ok? ==> ret.value !in old(given) && ret.value.minor == old(|bits|)
    {
      if !k.bridge { return Err(EDOM); }
      if !k.limits { return Err(EINVAL); }
      if !k.memory { return Err(ENOMEM); }
      var minor := FirstZeroBit();
      if minor >= GENZ_MINORBITS { return Err(EDOM); }
      if k.region.Some? { return Err(k.region.value); }
      if major == 0 { major := k.newMajor; }
      assert minor !in bits;
      bits := bits + {minor};
      if k.later.Some? { return Err(k.later.value); }
      given := given + [DevNum(major, minor)];
      ret := Ok(DevNum(major, minor));
    }

    /** genz_unregister_char_device gives neither the minor nor the major back. */
    method Unregister(n: DevNum)
      requires Valid()
      ensures Valid() && bits == old(bits) && major == old(major) && given == old(given)
    {
    }

    /** Over any sequence of registrations and unregistrations, whatever the kernel answers, the numbers
        given out are all different and share one major, and at most fourteen are ever given. A device
        that has been unregistered does not free its number for a later one. */
    method Run(calls: seq<DeviceCall>) returns (rets: seq<Option<Result<DevNum>>>)
      requires Valid() && forall i :: 0 <= i < |calls| && calls[i].Register? ==> calls[i].k.newMajor > 0
      modifies this
      ensures Valid() && |rets| == |calls| && |given| <= 14 && old(given) <= given
      ensures old(major) != 0 ==> major == old(major)
      ensures forall i :: 0 <= i < |rets| && Granted(rets[i]) ==>
        rets[i].value.value.major == major && rets[i].value.value !in old(given)
      ensures forall i, j :: 0 <= i < j < |rets| && Granted(rets[i]) && Granted(rets[j]) ==>
        rets[i].value.value.minor < rets[j].value.value.minor
    {
      rets := [];
      while |rets| < |calls|
        invariant Valid() && |rets| <= |calls| && old(given) <= given
        invariant old(major) != 0 ==> major == old(major)
        invariant forall i :: 0 <= i < |rets| && Granted(rets[i]) ==>
          rets[i].value.value in given && rets[i].value.value !in old(given)
        invariant forall i, j :: 0 <= i < j < |rets| && Granted(rets[i]) && Granted(rets[j]) ==>
          rets[i].value.value.minor < rets[j].value.value.minor
      {
        var next: Option<Result<DevNum>> := None;
        match calls[|rets|] {
          case Register(k) =>
            var r := Register(k);
            next := Some(r);
          case Unregister(n) =>
            Unregister(n);
        }
        rets := rets + [next];
      }
    }
  }

  datatype DeviceCall = Register(k: Answers) | Unregister(n: DevNum)

  predicate Granted(r: Option<Result<DevNum>>) { r.Some? && r.value.Ok? }
}
