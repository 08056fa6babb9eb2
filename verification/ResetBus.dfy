/** vfio_pci_open, vfio_pci_release and vfio_pci_try_bus_reset of device/vfio_pci.c as one thread runs
    them while it holds the lock of the group. */
module ResetBus {
  import opened ResetGroup

  // `e` is reset together with `d`.
  predicate Mate(group: seq<nat>, d: nat, e: nat) { d < |group| && e < |group| && group[d] == group[e] }

  predicate Closed(devs: seq<Dev>, e: nat) { e < |devs| && devs[e].Bound? && devs[e].refcnt == 0 }

  function Cleaned(dev: Dev): Dev { if dev.Bound? then dev.(dirty := false) else dev }

  ghost predicate AllClosed(group: seq<nat>, devs: seq<Dev>, d: nat) {
    forall e: nat :: Mate(group, d, e) ==> Closed(devs, e)
  }

  ghost predicate AnyDirty(group: seq<nat>, devs: seq<Dev>, d: nat) {
    exists e: nat :: Mate(group, d, e) && e < |devs| && devs[e].Bound? && devs[e].dirty
  }

  // The first `n` devices, those of the group of `d` cleaned.
  function Scrubbed(group: seq<nat>, devs: seq<Dev>, d: nat, n: nat): (r: seq<Dev>)
    requires n <= |devs|
    ensures |r| == |devs| && forall e :: 0 <= e < |r| ==> r[e] == if e < n && Mate(group, d, e) then Cleaned(devs[e]) else devs[e]
  {
    if n == 0 then devs
    else
      var r := Scrubbed(group, devs, d, n - 1);
      if Mate(group, d, n - 1) then r[n - 1 := Cleaned(devs[n - 1])] else r
  }

  // What the opportunistic reset and a release leave; `function'` says whether a function reset worked.
  ghost predicate ResetsNow(group: seq<nat>, devs: seq<Dev>, d: nat, able: bool, works: bool) {
    able && works && AllClosed(group, devs, d) && AnyDirty(group, devs, d)
  }

  ghost function TriedReset(group: seq<nat>, devs: seq<Dev>, d: nat, able: bool, works: bool): seq<Dev> {
    if ResetsNow(group, devs, d, able, works) then Scrubbed(group, devs, d, |devs|) else devs
  }

  function Disabled(devs: seq<Dev>, d: nat, function': bool): seq<Dev>
    requires d < |devs| && devs[d].Bound? && devs[d].refcnt == 1
  {
    devs[d := devs[d].(refcnt := 0, dirty := !function')]
  }

  ghost function Released(group: seq<nat>, devs: seq<Dev>, d: nat, function': bool, able: bool, works: bool): seq<Dev>
    requires d < |devs| && devs[d].Bound? && devs[d].refcnt > 0
  {
    if devs[d].refcnt > 1 then devs[d := devs[d].(refcnt := devs[d].refcnt - 1)]
    else TriedReset(group, Disabled(devs, d, function'), d, able, works)
  }

  function Opened(devs: seq<Dev>, d: nat, enable: int): seq<Dev>
    requires d < |devs| && devs[d].Bound?
  {
    if devs[d].refcnt == 0 && enable != 0 then devs else devs[d := devs[d].(refcnt := devs[d].refcnt + 1)]
  }

  class Bus {
    const group: seq<nat>
    var devs: seq<Dev>

    constructor (group: seq<nat>)
      ensures this.group == group && |devs| == |group| && forall d :: 0 <= d < |devs| ==> devs[d].Unbound?
    {
      this.group := group;
      devs := Copies(Unbound, |group|);
    }

    // The walk of vfio_pci_get_unused_devs: the members of the group, if all of them are bound and
    // closed, and whether one of them needs a reset.
    method UnusedDevs(d: nat) returns (all: bool, got: seq<nat>, dirty: bool)
      requires d < |devs| == |group|
      ensures all <==> forall e: nat :: Mate(group, d, e) ==> Closed(devs, e)
      ensures all ==> (forall e: nat :: e in got <==> Mate(group, d, e))
      ensures all ==> (dirty <==> exists e: nat :: Mate(group, d, e) && devs[e].dirty)
      ensures forall e :: e in got ==> Closed(devs, e) && Mate(group, d, e)
    {
      got, dirty := [], false;
      var i: nat := 0;
      while i < |devs|
        invariant i <= |devs|
        invariant forall e: nat :: e in got <==> e < i && Mate(group, d, e)
        invariant forall e: nat :: e < i && Mate(group, d, e) ==> Closed(devs, e)
        invariant dirty <==> exists e: nat :: e < i && Mate(group, d, e) && devs[e].dirty
      {
        if group[i] == group[d] {
          assert Mate(group, d, i);
          if !devs[i].Bound? || devs[i].refcnt != 0 {
            return false, got, dirty;
          }
          got := got + [i];
          dirty := dirty || devs[i].dirty;
        }
        i := i + 1;
      }
      return true, got, dirty;
    }

    // vfio_pci_try_bus_reset: `able` if the slot or bus can be reset, `works` if the reset succeeds.
    method TryBusReset(d: nat, able: bool, works: bool) returns (reset: bool)
      requires d < |devs| == |group|
      modifies `devs
      ensures reset <==> ResetsNow(group, old(devs), d, able, works)
      ensures devs == TriedReset(group, old(devs), d, able, works)
    {
      if !able {
        return false;
      }
      var all, got, dirty := UnusedDevs(d);
      reset := all && dirty && works;
      if !reset {
        return;
      }
      ghost var was := devs;
      var i := 0;
      while i < |got|
        invariant i <= |got| && |devs| == |was|
        invariant forall e :: e in got ==> Closed(was, e)
        invariant forall e :: 0 <= e < |devs| ==> devs[e] == if e in got[..i] then Cleaned(was[e]) else was[e]
      {
        var x := got[i];
        assert x in got && Closed(was, x);
        assert got[..i + 1] == got[..i] + [x];
        devs := devs[x := devs[x].(dirty := false)];
        i := i + 1;
      }
      assert got[..i] == got && devs == Scrubbed(group, was, d, |was|);
    }

    // vfio_pci_open; `enable` is what vfio_pci_enable returns if it is called.
    method Open(d: nat, enable: int) returns (ret: int)
      requires d < |devs| == |group| && devs[d].Bound?
      modifies `devs
      ensures |devs| == |group|
      ensures ret == if old(devs)[d].refcnt == 0 then enable else 0
      ensures devs == Opened(old(devs), d, enable)
    {
      ret := 0;
      if devs[d].refcnt == 0 {
        ret := enable;
        if ret != 0 {
          return;
        }
      }
      devs := devs[d := devs[d].(refcnt := devs[d].refcnt + 1)];
    }

    // vfio_pci_release: the last one disables the device, which is dirty unless a function reset
    // worked, and tries the bus.
    method Release(d: nat, function': bool, able: bool, works: bool) returns (reset: bool)
      requires d < |devs| == |group| && devs[d].Bound? && devs[d].refcnt > 0
      modifies `devs
      ensures reset <==> old(devs)[d].refcnt == 1 && ResetsNow(group, Disabled(old(devs), d, function'), d, able, works)
      ensures devs == Released(group, old(devs), d, function', able, works)
    {
      reset := false;
      devs := devs[d := devs[d].(refcnt := devs[d].refcnt - 1)];
      if devs[d].refcnt == 0 {
        devs := devs[d := devs[d].(dirty := !function')];
        assert devs == Disabled(old(devs), d, function');
        reset := TryBusReset(d, able, works);
      }
    }
  }

  // After a release that reset the group, all of it is closed and clean.
  lemma ReleaseCleans(group: seq<nat>, devs: seq<Dev>, d: nat, function': bool, able: bool, works: bool, e: nat)
    requires d < |devs| == |group| && devs[d].Bound? && devs[d].refcnt == 1 && Mate(group, d, e)
    requires ResetsNow(group, Disabled(devs, d, function'), d, able, works)
    ensures var r := Released(group, devs, d, function', able, works); Closed(r, e) && !r[e].dirty
  {
    assert Closed(Disabled(devs, d, function'), e);
  }

  // Whether a last release of `d` resets its group: it can be reset and the reset works, every other
  // member is bound and closed, and a member is dirty, `d` itself if no function reset worked.
  ghost predicate GroupReset(group: seq<nat>, devs: seq<Dev>, d: nat, function': bool, able: bool, works: bool)
    requires d < |devs| == |group|
  {
    && able && works
    && (forall e :: 0 <= e < |devs| && e != d && group[e] == group[d] ==> devs[e].Bound? && devs[e].refcnt == 0)
    && (!function' || exists e :: 0 <= e < |devs| && e != d && group[e] == group[d] && devs[e].Bound? && devs[e].dirty)
  }

  // A release device by device: an earlier one only counts; the last one leaves the device closed and
  // dirty unless a function reset worked, and a reset of the group cleans all of it.  Nothing else moves.
  lemma ReleaseOutcome(group: seq<nat>, devs: seq<Dev>, d: nat, function': bool, able: bool, works: bool)
    requires d < |devs| == |group| && devs[d].Bound? && devs[d].refcnt > 0
    ensures var r := Released(group, devs, d, function', able, works); var reset := GroupReset(group, devs, d, function', able, works);
      && |r| == |devs|
      && (devs[d].refcnt > 1 ==> r == devs[d := devs[d].(refcnt := devs[d].refcnt - 1)])
      && (devs[d].refcnt == 1 ==>
            && r[d] == devs[d].(refcnt := 0, dirty := !function' && !reset)
            && forall e :: 0 <= e < |devs| && e != d ==>
                 r[e] == if reset && group[e] == group[d] then devs[e].(dirty := false) else devs[e])
  {
    if devs[d].refcnt == 1 {
      var was := Disabled(devs, d, function');
      ResetsMeaning(group, devs, d, function', able, works);
      hide ResetsNow, GroupReset;
    }
  }

  lemma ResetsMeaning(group: seq<nat>, devs: seq<Dev>, d: nat, function': bool, able: bool, works: bool)
    requires d < |devs| == |group| && devs[d].Bound? && devs[d].refcnt == 1
    ensures ResetsNow(group, Disabled(devs, d, function'), d, able, works) <==> GroupReset(group, devs, d, function', able, works)
    ensures GroupReset(group, devs, d, function', able, works) ==>
      forall e :: 0 <= e < |devs| && group[e] == group[d] ==> devs[e].Bound?
  {
    var was := Disabled(devs, d, function');
    assert Mate(group, d, d);
    forall e: nat ensures Mate(group, d, e) && e != d ==> was[e] == devs[e] {}
    if AllClosed(group, was, d) {
      forall e | 0 <= e < |devs| && e != d && group[e] == group[d] ensures devs[e].Bound? && devs[e].refcnt == 0 {
        assert Mate(group, d, e);
        assert Closed(was, e);
      }
    }
    if e :| 0 <= e < |devs| && e != d && group[e] == group[d] && devs[e].Bound? && devs[e].dirty {
      assert Mate(group, d, e) && was[e].dirty;
    }
    if !function' { assert was[d].dirty; }
    if e: nat :| Mate(group, d, e) && e < |was| && was[e].Bound? && was[e].dirty {
      assert e == d ==> !function';
    }
  }

  // An open counts, unless it is the first and fails.
  lemma OpenOutcome(devs: seq<Dev>, d: nat, enable: int)
    requires d < |devs| && devs[d].Bound?
    ensures var r := Opened(devs, d, enable);
      && |r| == |devs| && r[d] == devs[d].(refcnt := if devs[d].refcnt > 0 || enable == 0 then devs[d].refcnt + 1 else 0)
      && forall e :: 0 <= e < |devs| && e != d ==> r[e] == devs[e]
  {
  }
}
