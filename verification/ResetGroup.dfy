/** Opening, releasing, binding and the opportunistic bus reset of device/vfio_pci.c as concurrent
    steps: a reset never hits a device that is open or being opened. */
module ResetGroup {
  // A device of a bus or slot: without driver, with another driver, bound to this one, or already
  // withdrawn from user space while its driver is being removed.
  datatype Dev = Unbound | Foreign | Bound(lock: nat, refcnt: nat, dirty: bool) | Removing(lock: nat)

  datatype Holder = Free | HeldBy(thread: nat)

  // struct vfio_pci_reflck
  datatype Lock = Lock(kref: nat, holder: Holder)

  // What a thread is doing: waiting for the lock of `dev`, or working under it.
  datatype Phase =
    | Idle
    | OpenWait(dev: nat)
    | Opening(dev: nat)
    | ReleaseWait(dev: nat)
    | Disabling(dev: nat)
    | Walking(dev: nat, rest: seq<nat>, got: seq<nat>)
    | Resetting(dev: nat, got: seq<nat>)
    | Putting(dev: nat, got: seq<nat>, ok: bool)

  // `group[d]` is the bus or slot that device `d` is reset with.
  datatype State = State(group: seq<nat>, devs: seq<Dev>, locks: map<nat, Lock>, threads: seq<Phase>)

  predicate Active(p: Phase) { !p.Idle? && !p.OpenWait? && !p.ReleaseWait? }

  // The devices a walk holds a reference to.
  function Got(p: Phase): seq<nat> {
    match p
    case Walking(_, _, got) => got
    case Resetting(_, got) => got
    case Putting(_, got, _) => got
    case _ => []
  }

  predicate Refers(p: Phase, d: nat) { (!p.Idle? && p.dev == d) || d in Got(p) }

  predicate BoundAt(s: State, d: nat) { d < |s.devs| && s.devs[d].Bound? }

  predicate Unused(s: State, d: nat) { BoundAt(s, d) && s.devs[d].refcnt == 0 }

  predicate Dirty(s: State, d: nat) { BoundAt(s, d) && s.devs[d].dirty }

  predicate Together(s: State, d: nat, e: nat) { d < |s.group| && e < |s.group| && s.group[d] == s.group[e] }

  // The devices of the group of `d`, in bus order.
  function Members(s: State, d: nat, n: nat): seq<nat> {
    if n == 0 then [] else Members(s, d, n - 1) + (if Together(s, d, n - 1) then [n - 1] else [])
  }

  function Waiting(threads: seq<Phase>, d: nat): nat {
    if threads == [] then 0
    else Waiting(threads[..|threads| - 1], d) + (if threads[|threads| - 1] == ReleaseWait(d) then 1 else 0)
  }

  predicate PointsTo(dev: Dev, l: nat) { (dev.Bound? || dev.Removing?) && dev.lock == l }

  function Pointing(devs: seq<Dev>, l: nat): nat {
    if devs == [] then 0
    else Pointing(devs[..|devs| - 1], l) + (if PointsTo(devs[|devs| - 1], l) then 1 else 0)
  }

  // ---------------------------------------------------------------- steps

  datatype Event =
    | StartOpen(t: nat, d: nat)
    | LockOpen(t: nat)
    | FinishOpen(t: nat, ok: bool)          // vfio_pci_enable succeeded, if it was called
    | StartRelease(t: nat, d: nat)
    | LockRelease(t: nat)
    | FinishDisable(t: nat, works: bool, resettable: bool) // function reset worked; the bus can be reset
    | WalkNext(t: nat)
    | FinishReset(t: nat, ok: bool)
    | PutNext(t: nat)
    | Bind(d: nat, from: nat, fresh': nat)  // shares the lock of `from`, or allocates `fresh'`
    | BindForeign(d: nat)
    | UnbindForeign(d: nat)
    | Unbind(d: nat)
    | FinishUnbind(d: nat)

  function SetThread(s: State, t: nat, p: Phase): State
    requires t < |s.threads|
  {
    s.(threads := s.threads[t := p])
  }

  function SetDev(s: State, d: nat, dev: Dev): State
    requires d < |s.devs|
  {
    s.(devs := s.devs[d := dev])
  }

  function SetHolder(s: State, l: nat, h: Holder): State {
    if l in s.locks then s.(locks := s.locks[l := s.locks[l].(holder := h)]) else s
  }

  predicate IsFree(s: State, l: nat) { l in s.locks && s.locks[l].holder == Free }

  // mutex_unlock and return.
  function Leave(s: State, t: nat, d: nat): State
    requires t < |s.threads| && BoundAt(s, d)
  {
    SetThread(SetHolder(s, s.devs[d].lock, Free), t, Idle)
  }

  function Count(s: State, d: nat, refcnt: nat): State
    requires BoundAt(s, d)
  {
    SetDev(s, d, s.devs[d].(refcnt := refcnt))
  }

  function Soil(s: State, d: nat, dirty: bool): State
    requires BoundAt(s, d)
  {
    SetDev(s, d, s.devs[d].(dirty := dirty))
  }

  // A device of the group of `d` that vfio_pci_reflck_find may stop at.
  predicate CanShare(s: State, d: nat, from: nat) { Together(s, d, from) && BoundAt(s, from) }

  predicate AnyToShare(s: State, d: nat) { exists e :: 0 <= e < |s.devs| && CanShare(s, d, e) }

  function Step(s: State, e: Event): State {
    match e
    case StartOpen(t, d) =>
      if t < |s.threads| && s.threads[t].Idle? && BoundAt(s, d) then SetThread(s, t, OpenWait(d)) else s
    case LockOpen(t) =>
      if t < |s.threads| && s.threads[t].OpenWait? && BoundAt(s, s.threads[t].dev) && IsFree(s, s.devs[s.threads[t].dev].lock)
      then SetThread(SetHolder(s, s.devs[s.threads[t].dev].lock, HeldBy(t)), t, Opening(s.threads[t].dev)) else s
    case FinishOpen(t, ok) =>
      if t < |s.threads| && s.threads[t].Opening? && BoundAt(s, s.threads[t].dev) then
        var d := s.threads[t].dev;
        if s.devs[d].refcnt == 0 && !ok then Leave(s, t, d) else Leave(Count(s, d, s.devs[d].refcnt + 1), t, d)
      else s
    case StartRelease(t, d) => // only of what was opened and is not being released already
      if t < |s.threads| && s.threads[t].Idle? && BoundAt(s, d) && Waiting(s.threads, d) < s.devs[d].refcnt
      then SetThread(s, t, ReleaseWait(d)) else s
    case LockRelease(t) =>
      if t < |s.threads| && s.threads[t].ReleaseWait? && BoundAt(s, s.threads[t].dev) && s.devs[s.threads[t].dev].refcnt > 0
         && IsFree(s, s.devs[s.threads[t].dev].lock) then
        var d := s.threads[t].dev;
        var c := Count(s, d, s.devs[d].refcnt - 1);
        if s.devs[d].refcnt == 1 then SetThread(SetHolder(c, s.devs[d].lock, HeldBy(t)), t, Disabling(d)) else SetThread(c, t, Idle)
      else s
    case FinishDisable(t, works, resettable) =>
      if t < |s.threads| && s.threads[t].Disabling? && BoundAt(s, s.threads[t].dev) then
        var d := s.threads[t].dev;
        var c := Soil(s, d, !works);
        if resettable then SetThread(c, t, Walking(d, Members(s, d, |s.devs|), [])) else Leave(c, t, d)
      else s
    case WalkNext(t) =>
      if t < |s.threads| && s.threads[t].Walking? then
        var p := s.threads[t];
        if p.rest == [] then
          SetThread(s, t, if exists i :: 0 <= i < |p.got| && Dirty(s, p.got[i]) then Resetting(p.dev, p.got) else Putting(p.dev, p.got, false))
        else if Unused(s, p.rest[0]) then SetThread(s, t, Walking(p.dev, p.rest[1..], p.got + [p.rest[0]]))
        else SetThread(s, t, Putting(p.dev, p.got, false))
      else s
    case FinishReset(t, ok) =>
      if t < |s.threads| && s.threads[t].Resetting? then SetThread(s, t, Putting(s.threads[t].dev, s.threads[t].got, ok)) else s
    case PutNext(t) =>
      if t < |s.threads| && s.threads[t].Putting? && BoundAt(s, s.threads[t].dev) then
        var p := s.threads[t];
        if p.got == [] then Leave(s, t, p.dev)
        else
          var c := if p.ok && BoundAt(s, p.got[0]) then Soil(s, p.got[0], false) else s;
          SetThread(c, t, Putting(p.dev, p.got[1..], p.ok))
      else s
    case Bind(d, from, fresh') =>
      if d < |s.devs| && s.devs[d].Unbound? && fresh' !in s.locks then
        if CanShare(s, d, from) && s.devs[from].lock in s.locks then
          var l := s.devs[from].lock;
          SetDev(s, d, Bound(l, 0, false)).(locks := s.locks[l := s.locks[l].(kref := s.locks[l].kref + 1)])
        else if AnyToShare(s, d) then s
        else SetDev(s, d, Bound(fresh', 0, false)).(locks := s.locks[fresh' := Lock(1, Free)])
      else s
    case BindForeign(d) => if d < |s.devs| && s.devs[d].Unbound? then SetDev(s, d, Foreign) else s
    case UnbindForeign(d) => if d < |s.devs| && s.devs[d].Foreign? then SetDev(s, d, Unbound) else s
    case Unbind(d) => // vfio_del_group_dev waits until nobody refers to the device
      if Unused(s, d) && forall t :: 0 <= t < |s.threads| ==> !Refers(s.threads[t], d)
      then SetDev(s, d, Removing(s.devs[d].lock)) else s
    case FinishUnbind(d) =>
      if d < |s.devs| && s.devs[d].Removing? && s.devs[d].lock in s.locks then
        var l := s.devs[d].lock;
        var k := s.locks[l].kref;
        SetDev(s, d, Unbound).(locks := if k <= 1 then s.locks - {l} else s.locks[l := s.locks[l].(kref := k - 1)])
      else s
  }

  // ---------------------------------------------------------------- the invariant

  // What a phase of thread `t` knows about the devices it works on.
  ghost predicate PhaseOk(s: State, t: nat, p: Phase) {
    p.Idle? ||
    (&& BoundAt(s, p.dev)
     && (Active(p) ==> s.devs[p.dev].lock in s.locks && s.locks[s.devs[p.dev].lock].holder == HeldBy(t))
     && (Active(p) && !p.Opening? ==> s.devs[p.dev].refcnt == 0)
     && (forall e :: e in Got(p) ==> Unused(s, e) && Together(s, p.dev, e))
     && (p.Walking? ==> forall e :: e in p.rest ==> Together(s, p.dev, e))
     && (p.Walking? ==> forall e :: Together(s, p.dev, e) ==> e in p.rest || e in p.got)
     && (p.Resetting? ==> forall e :: Together(s, p.dev, e) ==> e in p.got)
     && (p.Putting? && p.ok ==> forall e :: Together(s, p.dev, e) && Dirty(s, e) ==> e in p.got))
  }

  // No more releases are waiting than the device was opened.
  predicate DevOk(s: State, d: nat)
    requires d < |s.devs|
  {
    && (s.devs[d].Bound? || s.devs[d].Removing? ==> s.devs[d].lock in s.locks)
    && (if s.devs[d].Bound? then Waiting(s.threads, d) <= s.devs[d].refcnt else Waiting(s.threads, d) == 0)
  }

  // The reference count of a lock is the number of devices that point at it, and it is held only
  // by a thread that works under it.
  predicate LockOk(s: State, l: nat)
    requires l in s.locks
  {
    && s.locks[l].kref == Pointing(s.devs, l) > 0
    && (s.locks[l].holder.HeldBy? ==>
          var t := s.locks[l].holder.thread;
          t < |s.threads| && Active(s.threads[t]) && BoundAt(s, s.threads[t].dev) && s.devs[s.threads[t].dev].lock == l)
  }

  // The bound devices of a group share their lock.
  ghost predicate Shared(s: State) {
    forall d: nat, e: nat :: BoundAt(s, d) && BoundAt(s, e) && Together(s, d, e) ==> s.devs[d].lock == s.devs[e].lock
  }

  ghost predicate Inv(s: State) {
    && |s.group| == |s.devs| && Shared(s)
    && (forall t :: 0 <= t < |s.threads| ==> PhaseOk(s, t, s.threads[t]))
    && (forall d :: 0 <= d < |s.devs| ==> DevOk(s, d))
    && (forall l :: l in s.locks ==> LockOk(s, l))
  }

  // While a group is being reset, every device of it is bound and closed, and none is being opened.
  lemma ResetIsSafe(s: State, t: nat, e: nat, u: nat)
    requires Inv(s) && t < |s.threads| && s.threads[t].Resetting? && Together(s, s.threads[t].dev, e) && u < |s.threads|
    ensures Unused(s, e)
    ensures s.threads[u] != Opening(e)
  {
    var p := s.threads[t];
    assert PhaseOk(s, t, p) && e in p.got;
    assert s.devs[e].lock == s.devs[p.dev].lock;
    assert PhaseOk(s, u, s.threads[u]);
  }

  // ---------------------------------------------------------------- counting

  lemma {:induction false} WaitingUpdate(threads: seq<Phase>, t: nat, p: Phase, d: nat)
    requires t < |threads|
    ensures Waiting(threads[t := p], d) ==
      Waiting(threads, d) - (if threads[t] == ReleaseWait(d) then 1 else 0) + (if p == ReleaseWait(d) then 1 else 0)
    decreases |threads|
  {
    var n := |threads| - 1;
    if t == n {
      assert threads[t := p][..n] == threads[..n];
    } else {
      assert threads[t := p][..n] == threads[..n][t := p];
      WaitingUpdate(threads[..n], t, p, d);
    }
  }

  lemma {:induction false} PointingUpdate(devs: seq<Dev>, d: nat, dev: Dev, l: nat)
    requires d < |devs|
    ensures Pointing(devs[d := dev], l) ==
      Pointing(devs, l) - (if PointsTo(devs[d], l) then 1 else 0) + (if PointsTo(dev, l) then 1 else 0)
    decreases |devs|
  {
    var n := |devs| - 1;
    if d == n {
      assert devs[d := dev][..n] == devs[..n];
    } else {
      assert devs[d := dev][..n] == devs[..n][d := dev];
      PointingUpdate(devs[..n], d, dev, l);
    }
  }

  lemma {:induction false} PointingOne(devs: seq<Dev>, d: nat, l: nat)
    requires d < |devs| && PointsTo(devs[d], l)
    ensures Pointing(devs, l) > 0
    decreases |devs|
  {
    if d < |devs| - 1 {
      PointingOne(devs[..|devs| - 1], d, l);
    }
  }

  lemma {:induction false} PointingNone(devs: seq<Dev>, l: nat)
    requires forall d :: 0 <= d < |devs| ==> !PointsTo(devs[d], l)
    ensures Pointing(devs, l) == 0
    decreases |devs|
  {
    if devs != [] {
      PointingNone(devs[..|devs| - 1], l);
    }
  }

  lemma {:induction false} MembersAll(s: State, d: nat, n: nat, e: nat)
    ensures e in Members(s, d, n) <==> e < n && Together(s, d, e)
  {
    if n > 0 {
      MembersAll(s, d, n - 1, e);
    }
  }

  // ---------------------------------------------------------------- one thread moves

  // Nothing but the phase of a thread changed: what the others know still holds.
  lemma ThreadMoves(s: State, t: nat, p: Phase)
    requires Inv(s) && t < |s.threads| && PhaseOk(s, t, p)
    requires s.threads[t].ReleaseWait? ==> p == s.threads[t]
    requires p.ReleaseWait? && p != s.threads[t] ==> Waiting(s.threads, p.dev) < s.devs[p.dev].refcnt
    requires Active(p) == Active(s.threads[t]) && (Active(p) ==> p.dev == s.threads[t].dev)
    ensures Inv(SetThread(s, t, p))
  {
    var s' := SetThread(s, t, p);
    assert Shared(s') by { hide PhaseOk, DevOk, LockOk; }
    forall u | 0 <= u < |s'.threads| ensures PhaseOk(s', u, s'.threads[u]) {
      assert PhaseOk(s, u, s.threads[u]);
      PhaseSame(s, s', u, s'.threads[u]);
    }
    forall d | 0 <= d < |s'.devs| ensures DevOk(s', d) {
      assert DevOk(s, d);
      WaitingUpdate(s.threads, t, p, d);
      hide Waiting;
    }
    forall l | l in s'.locks ensures LockOk(s', l) {
      assert LockOk(s, l);
      hide Pointing;
    }
  }

  // What a phase knows depends on devices and locks only.
  lemma PhaseSame(s: State, s': State, u: nat, p: Phase)
    requires PhaseOk(s, u, p) && s'.devs == s.devs && s'.group == s.group && s'.locks == s.locks
    ensures PhaseOk(s', u, p)
  {
  }

  lemma StartOpenOk(s: State, t: nat, d: nat)
    requires Inv(s)
    ensures Inv(Step(s, StartOpen(t, d)))
  {
    if t < |s.threads| && s.threads[t].Idle? && BoundAt(s, d) {
      ThreadMoves(s, t, OpenWait(d));
    }
    hide Inv;
  }

  lemma StartReleaseOk(s: State, t: nat, d: nat)
    requires Inv(s)
    ensures Inv(Step(s, StartRelease(t, d)))
  {
    if t < |s.threads| && s.threads[t].Idle? && BoundAt(s, d) && Waiting(s.threads, d) < s.devs[d].refcnt {
      ThreadMoves(s, t, ReleaseWait(d));
    }
    hide Inv;
  }

  lemma WalkNextOk(s: State, t: nat)
    requires Inv(s)
    ensures Inv(Step(s, WalkNext(t)))
  {
    if t < |s.threads| && s.threads[t].Walking? {
      var p := s.threads[t];
      assert PhaseOk(s, t, p);
      if p.rest == [] {
        ThreadMoves(s, t, Resetting(p.dev, p.got));
        ThreadMoves(s, t, Putting(p.dev, p.got, false));
      } else {
        assert forall e :: e in p.rest <==> e == p.rest[0] || e in p.rest[1..];
        ThreadMoves(s, t, Putting(p.dev, p.got, false));
        if Unused(s, p.rest[0]) {
          ThreadMoves(s, t, Walking(p.dev, p.rest[1..], p.got + [p.rest[0]]));
        }
      }
    }
    hide Inv;
  }

  lemma FinishResetOk(s: State, t: nat, ok: bool)
    requires Inv(s)
    ensures Inv(Step(s, FinishReset(t, ok)))
  {
    if t < |s.threads| && s.threads[t].Resetting? {
      assert PhaseOk(s, t, s.threads[t]);
      ThreadMoves(s, t, Putting(s.threads[t].dev, s.threads[t].got, ok));
    }
    hide Inv;
  }

  // ---------------------------------------------------------------- work under a lock

  // Thread `t`, which has or takes the lock of device `x`, updates that device, sets the holder
  // and goes on to phase `p`.
  function Worked(s: State, t: nat, x: nat, dev: Dev, h: Holder, p: Phase): State
    requires t < |s.threads| && BoundAt(s, x) && s.devs[x].lock in s.locks
  {
    var l := s.devs[x].lock;
    State(s.group, s.devs[x := dev], s.locks[l := s.locks[l].(holder := h)], s.threads[t := p])
  }

  ghost predicate MayWork(s: State, t: nat, x: nat, dev: Dev, h: Holder, p: Phase) {
    && Inv(s) && t < |s.threads| && BoundAt(s, x) && s.devs[x].lock in s.locks
    && dev.Bound? && dev.lock == s.devs[x].lock
    && (if Active(s.threads[t]) then s.locks[dev.lock].holder == HeldBy(t) else s.locks[dev.lock].holder == Free)
    && (h == if Active(p) then HeldBy(t) else Free)
    && (Active(p) ==> PointsTo(s.devs[x := dev][if p.dev < |s.devs| then p.dev else x], dev.lock) && BoundAt(Worked(s, t, x, dev, h, p), p.dev))
    && PhaseOk(Worked(s, t, x, dev, h, p), t, p)
    && !p.ReleaseWait? && (s.threads[t].ReleaseWait? ==> s.threads[t].dev == x)
    && Waiting(s.threads, x) <= dev.refcnt + (if s.threads[t].ReleaseWait? then 1 else 0)
  }

  // A thread that works under another lock is not disturbed.
  lemma OtherThread(s: State, t: nat, x: nat, dev: Dev, h: Holder, p: Phase, u: nat)
    requires MayWork(s, t, x, dev, h, p) && u < |s.threads| && u != t
    ensures PhaseOk(Worked(s, t, x, dev, h, p), u, s.threads[u])
  {
    var q := s.threads[u];
    var s' := Worked(s, t, x, dev, h, p);
    assert PhaseOk(s, u, q);
    if Active(q) {
      assert s.devs[q.dev].lock != dev.lock;
      assert !Together(s, q.dev, x);
    }
    forall e | e in Got(q) ensures Unused(s', e) {
      assert Unused(s, e) && Together(s, q.dev, e);
    }
  }

  lemma WorkedDev(s: State, t: nat, x: nat, dev: Dev, h: Holder, p: Phase, d: nat)
    requires MayWork(s, t, x, dev, h, p) && d < |s.devs|
    ensures DevOk(Worked(s, t, x, dev, h, p), d)
  {
    assert DevOk(s, d) && DevOk(s, x);
    WaitingUpdate(s.threads, t, p, d);
    hide Waiting, PhaseOk, Shared;
  }

  lemma WorkedLock(s: State, t: nat, x: nat, dev: Dev, h: Holder, p: Phase, l: nat)
    requires MayWork(s, t, x, dev, h, p) && l in s.locks
    ensures LockOk(Worked(s, t, x, dev, h, p), l)
  {
    assert LockOk(s, l) && LockOk(s, dev.lock);
    PointingUpdate(s.devs, x, dev, l);
    hide Pointing, PhaseOk, Shared, Waiting;
  }

  lemma WorkedOk(s: State, t: nat, x: nat, dev: Dev, h: Holder, p: Phase)
    requires MayWork(s, t, x, dev, h, p)
    ensures Inv(Worked(s, t, x, dev, h, p))
  {
    var s' := Worked(s, t, x, dev, h, p);
    assert Shared(s') && PhaseOk(s', t, p);
    hide PhaseOk, DevOk, LockOk, Shared, MayWork;
    forall u | 0 <= u < |s'.threads| ensures PhaseOk(s', u, s'.threads[u]) {
      if u != t { OtherThread(s, t, x, dev, h, p, u); }
    }
    forall d | 0 <= d < |s'.devs| ensures DevOk(s', d) {
      WorkedDev(s, t, x, dev, h, p, d);
    }
    forall l | l in s'.locks ensures LockOk(s', l) {
      WorkedLock(s, t, x, dev, h, p, l);
    }
  }

  lemma LockOpenOk(s: State, t: nat)
    requires Inv(s)
    ensures Inv(Step(s, LockOpen(t)))
  {
    if t < |s.threads| && s.threads[t].OpenWait? && BoundAt(s, s.threads[t].dev) && IsFree(s, s.devs[s.threads[t].dev].lock) {
      var d := s.threads[t].dev;
      assert DevOk(s, d);
      WorkedOk(s, t, d, s.devs[d], HeldBy(t), Opening(d));
      assert s.devs[d := s.devs[d]] == s.devs;
    }
    hide Inv;
  }

  lemma FinishOpenOk(s: State, t: nat, ok: bool)
    requires Inv(s)
    ensures Inv(Step(s, FinishOpen(t, ok)))
  {
    if t < |s.threads| && s.threads[t].Opening? && BoundAt(s, s.threads[t].dev) {
      var d := s.threads[t].dev;
      assert DevOk(s, d) && PhaseOk(s, t, s.threads[t]);
      WorkedOk(s, t, d, s.devs[d], Free, Idle);
      WorkedOk(s, t, d, s.devs[d].(refcnt := s.devs[d].refcnt + 1), Free, Idle);
      assert s.devs[d := s.devs[d]] == s.devs;
    }
    hide Inv;
  }

  lemma LockReleaseOk(s: State, t: nat)
    requires Inv(s)
    ensures Inv(Step(s, LockRelease(t)))
  {
    if t < |s.threads| && s.threads[t].ReleaseWait? && BoundAt(s, s.threads[t].dev) && s.devs[s.threads[t].dev].refcnt > 0
       && IsFree(s, s.devs[s.threads[t].dev].lock) {
      var d := s.threads[t].dev;
      var c := s.devs[d].(refcnt := s.devs[d].refcnt - 1);
      assert DevOk(s, d);
      if c.refcnt == 0 {
        WorkedOk(s, t, d, c, HeldBy(t), Disabling(d));
      } else {
        WorkedOk(s, t, d, c, Free, Idle);
        SameHolder(s, s.devs[d].lock);
      }
    }
    hide Inv;
  }

  lemma SameHolder(s: State, l: nat)
    requires IsFree(s, l)
    ensures s.locks[l := s.locks[l].(holder := Free)] == s.locks
  {
  }

  lemma FinishDisableOk(s: State, t: nat, works: bool, resettable: bool)
    requires Inv(s)
    ensures Inv(Step(s, FinishDisable(t, works, resettable)))
  {
    if t < |s.threads| && s.threads[t].Disabling? && BoundAt(s, s.threads[t].dev) {
      var d := s.threads[t].dev;
      var c := s.devs[d].(dirty := !works);
      assert DevOk(s, d) && PhaseOk(s, t, s.threads[t]);
      if resettable {
        var p := Walking(d, Members(s, d, |s.devs|), []);
        forall e: nat ensures e in p.rest <==> e < |s.devs| && Together(s, d, e) { MembersAll(s, d, |s.devs|, e); }
        WorkedOk(s, t, d, c, HeldBy(t), p);
        Same(s, s.devs[d].lock, t);
      } else {
        WorkedOk(s, t, d, c, Free, Idle);
      }
    }
    hide Inv;
  }

  lemma Same(s: State, l: nat, t: nat)
    requires l in s.locks && s.locks[l].holder == HeldBy(t)
    ensures s.locks[l := s.locks[l].(holder := HeldBy(t))] == s.locks
  {
  }

  lemma PutNextOk(s: State, t: nat)
    requires Inv(s)
    ensures Inv(Step(s, PutNext(t)))
  {
    if t < |s.threads| && s.threads[t].Putting? && BoundAt(s, s.threads[t].dev) {
      var p := s.threads[t];
      assert DevOk(s, p.dev) && PhaseOk(s, t, p);
      if p.got == [] {
        WorkedOk(s, t, p.dev, s.devs[p.dev], Free, Idle);
        assert s.devs[p.dev := s.devs[p.dev]] == s.devs;
      } else {
        PutOne(s, t);
      }
    }
    hide Inv;
  }

  // One device of the walk is put back, clean if the reset worked.
  lemma PutOne(s: State, t: nat)
    requires Inv(s) && t < |s.threads| && s.threads[t].Putting? && BoundAt(s, s.threads[t].dev) && s.threads[t].got != []
    ensures Inv(Step(s, PutNext(t)))
  {
    var p := s.threads[t];
    var x := p.got[0];
    assert PhaseOk(s, t, p) && x in p.got;
    assert Unused(s, x) && Together(s, p.dev, x);
    assert DevOk(s, x) && s.devs[x].lock == s.devs[p.dev].lock;
    var q := Putting(p.dev, p.got[1..], p.ok);
    assert forall e :: e in p.got <==> e == x || e in q.got;
    var c := if p.ok then s.devs[x].(dirty := false) else s.devs[x];
    PutPhase(s, t, c, q);
    WorkedOk(s, t, x, c, HeldBy(t), q);
    Same(s, s.devs[x].lock, t);
    assert s.devs[x := s.devs[x]] == s.devs;
    hide Inv;
  }

  lemma PutPhase(s: State, t: nat, c: Dev, q: Phase)
    requires Inv(s) && t < |s.threads| && s.threads[t].Putting? && s.threads[t].got != []
    requires BoundAt(s, s.threads[t].got[0]) && q == Putting(s.threads[t].dev, s.threads[t].got[1..], s.threads[t].ok)
    requires s.devs[s.threads[t].got[0]].lock in s.locks
    requires c == if q.ok then s.devs[s.threads[t].got[0]].(dirty := false) else s.devs[s.threads[t].got[0]]
    requires s.devs[s.threads[t].got[0]].lock == (if BoundAt(s, q.dev) then s.devs[q.dev].lock else 0)
    ensures PhaseOk(Worked(s, t, s.threads[t].got[0], c, HeldBy(t), q), t, q)
  {
    var p := s.threads[t];
    assert PhaseOk(s, t, p);
    assert forall e :: e in p.got <==> e == p.got[0] || e in q.got;
    var s' := Worked(s, t, p.got[0], c, HeldBy(t), q);
    assert Unused(s, p.got[0]);
    forall e | e in q.got ensures Unused(s', e) && Together(s', q.dev, e) {
      assert Unused(s, e) && Together(s, p.dev, e);
    }
    hide Inv;
  }

  // ---------------------------------------------------------------- drivers come and go

  // Nobody refers to a device that is not bound.
  lemma Unreferenced(s: State, d: nat, t: nat)
    requires Inv(s) && d < |s.devs| && !s.devs[d].Bound? && t < |s.threads|
    ensures !Refers(s.threads[t], d)
  {
    assert PhaseOk(s, t, s.threads[t]);
  }

  // A device that no thread refers to changes hands.
  ghost predicate MaySwap(s: State, s': State, d: nat, dev: Dev) {
    && Inv(s) && d < |s.devs| && s'.devs == s.devs[d := dev] && s'.group == s.group && s'.threads == s.threads
    && (forall t :: 0 <= t < |s.threads| ==> !Refers(s.threads[t], d))
    && (s.devs[d].Bound? ==> s.devs[d].refcnt == 0) && (dev.Bound? ==> dev.refcnt == 0 && !dev.dirty)
    && (forall l :: l in s.locks && l in s'.locks ==> s'.locks[l].holder == s.locks[l].holder)
  }

  lemma SwapThread(s: State, s': State, d: nat, dev: Dev, t: nat)
    requires MaySwap(s, s', d, dev) && t < |s.threads|
    requires Active(s.threads[t]) && s.threads[t].dev < |s.devs| && s.devs[s.threads[t].dev].Bound? ==>
      s.devs[s.threads[t].dev].lock in s'.locks
    ensures PhaseOk(s', t, s.threads[t])
  {
    assert PhaseOk(s, t, s.threads[t]) && !Refers(s.threads[t], d);
    hide Inv;
  }

  lemma SwapDev(s: State, s': State, d: nat, dev: Dev, e: nat)
    requires MaySwap(s, s', d, dev) && e < |s.devs|
    requires (if e == d then dev else s.devs[e]).Bound? || (if e == d then dev else s.devs[e]).Removing? ==>
      (if e == d then dev else s.devs[e]).lock in s'.locks
    ensures DevOk(s', e)
  {
    assert DevOk(s, e);
    if e == d {
      NoneWaiting(s, d);
    }
    hide Waiting, PhaseOk, Shared;
  }

  lemma NoneWaiting(s: State, d: nat)
    requires forall t :: 0 <= t < |s.threads| ==> !Refers(s.threads[t], d)
    ensures Waiting(s.threads, d) == 0
  {
    NoneWaitingIn(s.threads, d);
  }

  lemma {:induction false} NoneWaitingIn(threads: seq<Phase>, d: nat)
    requires forall t :: 0 <= t < |threads| ==> !Refers(threads[t], d)
    ensures Waiting(threads, d) == 0
    decreases |threads|
  {
    if threads != [] {
      assert !Refers(threads[|threads| - 1], d);
      NoneWaitingIn(threads[..|threads| - 1], d);
    }
  }

  // The holder of a lock works on a device other than the one that changes hands.
  lemma SwapHolder(s: State, s': State, d: nat, dev: Dev, l: nat)
    requires MaySwap(s, s', d, dev) && l in s.locks && l in s'.locks && s.locks[l].holder.HeldBy?
    ensures var t := s.locks[l].holder.thread;
      t < |s'.threads| && Active(s'.threads[t]) && BoundAt(s', s'.threads[t].dev) && s'.devs[s'.threads[t].dev].lock == l
  {
    assert LockOk(s, l);
    var t := s.locks[l].holder.thread;
    assert !Refers(s.threads[t], d);
    hide Inv;
  }

  lemma SwapOk(s: State, s': State, d: nat, dev: Dev)
    requires MaySwap(s, s', d, dev) && Shared(s')
    requires forall e :: 0 <= e < |s'.devs| && (s'.devs[e].Bound? || s'.devs[e].Removing?) ==> s'.devs[e].lock in s'.locks
    requires forall l :: l in s'.locks ==> s'.locks[l].kref == Pointing(s'.devs, l) > 0
    requires forall l :: l in s'.locks && l !in s.locks ==> s'.locks[l].holder == Free
    ensures Inv(s')
  {
    hide PhaseOk, DevOk, Shared, Pointing, Inv, MaySwap;
    assert |s'.group| == |s'.devs| == |s.devs| && s'.threads == s.threads by { SwapShape(s, s', d, dev); }
    forall t | 0 <= t < |s'.threads| ensures PhaseOk(s', t, s'.threads[t]) {
      ThreadLock(s, s', d, dev, t);
      SwapThread(s, s', d, dev, t);
    }
    forall e | 0 <= e < |s'.devs| ensures DevOk(s', e) {
      assert s'.devs[e] == if e == d then dev else s.devs[e] by { SwapShape(s, s', d, dev); }
      SwapDev(s, s', d, dev, e);
    }
    forall l | l in s'.locks ensures LockOk(s', l) {
      if l in s.locks && s.locks[l].holder.HeldBy? { SwapHolder(s, s', d, dev, l); }
      assert s'.locks[l].holder.HeldBy? ==> l in s.locks && s.locks[l].holder == s'.locks[l].holder by { SwapLocks(s, s', d, dev, l); }
    }
    assert Inv(s') by { InvOf(s'); }
  }

  lemma InvOf(s: State)
    requires |s.group| == |s.devs| && Shared(s)
    requires forall t :: 0 <= t < |s.threads| ==> PhaseOk(s, t, s.threads[t])
    requires forall d :: 0 <= d < |s.devs| ==> DevOk(s, d)
    requires forall l :: l in s.locks ==> LockOk(s, l)
    ensures Inv(s)
  {
  }

  lemma SwapShape(s: State, s': State, d: nat, dev: Dev)
    requires MaySwap(s, s', d, dev)
    ensures |s'.group| == |s'.devs| == |s.devs| && s'.threads == s.threads && d < |s.devs| && s'.devs == s.devs[d := dev]
  {
  }

  lemma SwapLocks(s: State, s': State, d: nat, dev: Dev, l: nat)
    requires MaySwap(s, s', d, dev) && l in s'.locks
    requires forall l :: l in s'.locks && l !in s.locks ==> s'.locks[l].holder == Free
    ensures s'.locks[l].holder.HeldBy? ==> l in s.locks && s.locks[l].holder == s'.locks[l].holder
  {
    hide Inv;
  }

  lemma ThreadLock(s: State, s': State, d: nat, dev: Dev, t: nat)
    requires MaySwap(s, s', d, dev) && t < |s.threads|
    requires forall e :: 0 <= e < |s'.devs| && (s'.devs[e].Bound? || s'.devs[e].Removing?) ==> s'.devs[e].lock in s'.locks
    ensures Active(s.threads[t]) && s.threads[t].dev < |s.devs| && s.devs[s.threads[t].dev].Bound? ==>
      s.devs[s.threads[t].dev].lock in s'.locks
  {
    assert !Refers(s.threads[t], d);
    hide Inv;
    if Active(s.threads[t]) && s.threads[t].dev < |s.devs| && s.devs[s.threads[t].dev].Bound? {
      assert s'.devs[s.threads[t].dev] == s.devs[s.threads[t].dev];
    }
  }

  lemma BindOk(s: State, d: nat, from: nat, fresh': nat)
    requires Inv(s)
    ensures Inv(Step(s, Bind(d, from, fresh')))
  {
    var s' := Step(s, Bind(d, from, fresh'));
    if d < |s.devs| && s.devs[d].Unbound? && fresh' !in s.locks && s' != s {
      forall t | 0 <= t < |s.threads| ensures !Refers(s.threads[t], d) { Unreferenced(s, d, t); }
      if CanShare(s, d, from) && s.devs[from].lock in s.locks {
        BindShared(s, d, from);
        SwapOk(s, s', d, Bound(s.devs[from].lock, 0, false));
      } else {
        BindAlone(s, d, fresh');
        SwapOk(s, s', d, Bound(fresh', 0, false));
      }
    }
    hide Inv;
  }

  lemma BindShared(s: State, d: nat, from: nat)
    requires Inv(s) && d < |s.devs| && s.devs[d].Unbound? && CanShare(s, d, from) && s.devs[from].lock in s.locks
    ensures var l := s.devs[from].lock;
      var s' := SetDev(s, d, Bound(l, 0, false)).(locks := s.locks[l := s.locks[l].(kref := s.locks[l].kref + 1)]);
      && Shared(s')
      && (forall e :: 0 <= e < |s'.devs| && (s'.devs[e].Bound? || s'.devs[e].Removing?) ==> s'.devs[e].lock in s'.locks)
      && (forall l :: l in s'.locks ==> s'.locks[l].kref == Pointing(s'.devs, l) > 0)
  {
    var l := s.devs[from].lock;
    var s' := SetDev(s, d, Bound(l, 0, false)).(locks := s.locks[l := s.locks[l].(kref := s.locks[l].kref + 1)]);
    forall e | 0 <= e < |s'.devs| && (s'.devs[e].Bound? || s'.devs[e].Removing?) ensures s'.devs[e].lock in s'.locks {
      assert DevOk(s, e);
    }
    forall m | m in s'.locks ensures s'.locks[m].kref == Pointing(s'.devs, m) > 0 {
      assert LockOk(s, m);
      PointingUpdate(s.devs, d, Bound(l, 0, false), m);
    }
    hide PhaseOk, DevOk, LockOk, Pointing, Waiting;
  }

  lemma BindAlone(s: State, d: nat, l: nat)
    requires Inv(s) && d < |s.devs| && s.devs[d].Unbound? && l !in s.locks && !AnyToShare(s, d)
    ensures var s' := SetDev(s, d, Bound(l, 0, false)).(locks := s.locks[l := Lock(1, Free)]);
      && Shared(s')
      && (forall e :: 0 <= e < |s'.devs| && (s'.devs[e].Bound? || s'.devs[e].Removing?) ==> s'.devs[e].lock in s'.locks)
      && (forall l :: l in s'.locks ==> s'.locks[l].kref == Pointing(s'.devs, l) > 0)
  {
    var s' := SetDev(s, d, Bound(l, 0, false)).(locks := s.locks[l := Lock(1, Free)]);
    forall e | 0 <= e < |s.devs| ensures !PointsTo(s.devs[e], l) && ((s'.devs[e].Bound? || s'.devs[e].Removing?) ==> s'.devs[e].lock in s'.locks) {
      assert DevOk(s, e);
    }
    PointingNone(s.devs, l);
    forall m | m in s'.locks ensures s'.locks[m].kref == Pointing(s'.devs, m) > 0 {
      if m in s.locks { assert LockOk(s, m); }
      PointingUpdate(s.devs, d, Bound(l, 0, false), m);
    }
    forall x: nat, e: nat | BoundAt(s', x) && BoundAt(s', e) && Together(s', x, e) ensures s'.devs[x].lock == s'.devs[e].lock {
      assert x != d ==> !CanShare(s, d, x);
      assert e != d ==> !CanShare(s, d, e);
    }
    hide PhaseOk, DevOk, LockOk, Pointing, Waiting;
  }

  // A device that points at no lock before and after.
  lemma ForeignOk(s: State, d: nat, dev: Dev)
    requires Inv(s) && d < |s.devs| && (s.devs[d].Unbound? || s.devs[d].Foreign?) && (dev.Unbound? || dev.Foreign?)
    ensures Inv(SetDev(s, d, dev))
  {
    forall t | 0 <= t < |s.threads| ensures !Refers(s.threads[t], d) { Unreferenced(s, d, t); }
    SameLocks(s, d, dev);
    SwapOk(s, SetDev(s, d, dev), d, dev);
    hide Inv, Pointing;
  }

  // A device that goes on pointing where it pointed leaves the counts right.
  lemma SameLocks(s: State, d: nat, dev: Dev)
    requires Inv(s) && d < |s.devs| && (forall l :: PointsTo(dev, l) == PointsTo(s.devs[d], l)) && (dev.Bound? ==> s.devs[d].Bound?)
    ensures var s' := SetDev(s, d, dev);
      && Shared(s')
      && (forall e :: 0 <= e < |s'.devs| && (s'.devs[e].Bound? || s'.devs[e].Removing?) ==> s'.devs[e].lock in s'.locks)
      && (forall l :: l in s'.locks ==> s'.locks[l].kref == Pointing(s'.devs, l) > 0)
  {
    var s' := SetDev(s, d, dev);
    forall e | 0 <= e < |s'.devs| && (s'.devs[e].Bound? || s'.devs[e].Removing?) ensures s'.devs[e].lock in s'.locks {
      assert DevOk(s, e);
      if e == d { assert PointsTo(dev, dev.lock); }
    }
    forall m | m in s'.locks ensures s'.locks[m].kref == Pointing(s'.devs, m) > 0 {
      assert LockOk(s, m);
      PointingUpdate(s.devs, d, dev, m);
    }
    forall x: nat, e: nat | BoundAt(s', x) && BoundAt(s', e) && Together(s', x, e) ensures s'.devs[x].lock == s'.devs[e].lock {
      assert BoundAt(s, x) && BoundAt(s, e) && Together(s, x, e);
      if dev.Bound? { assert PointsTo(dev, dev.lock); }
    }
    hide PhaseOk, DevOk, LockOk, Pointing, Waiting;
  }

  lemma UnbindOk(s: State, d: nat)
    requires Inv(s)
    ensures Inv(Step(s, Unbind(d)))
  {
    if Unused(s, d) && forall t :: 0 <= t < |s.threads| ==> !Refers(s.threads[t], d) {
      var dev := Removing(s.devs[d].lock);
      SameLocks(s, d, dev);
      SwapOk(s, SetDev(s, d, dev), d, dev);
    }
    hide Inv, Pointing;
  }

  lemma FinishUnbindOk(s: State, d: nat)
    requires Inv(s)
    ensures Inv(Step(s, FinishUnbind(d)))
  {
    var s' := Step(s, FinishUnbind(d));
    if d < |s.devs| && s.devs[d].Removing? && s.devs[d].lock in s.locks {
      forall t | 0 <= t < |s.threads| ensures !Refers(s.threads[t], d) { Unreferenced(s, d, t); }
      UnbindLocks(s, d);
      SwapOk(s, s', d, Unbound);
    }
    hide Inv;
  }

  // The lock loses one reference, and goes with the last.
  lemma UnbindLocks(s: State, d: nat)
    requires Inv(s) && d < |s.devs| && s.devs[d].Removing? && s.devs[d].lock in s.locks
    ensures var s' := Step(s, FinishUnbind(d));
      && Shared(s')
      && (forall e :: 0 <= e < |s'.devs| && (s'.devs[e].Bound? || s'.devs[e].Removing?) ==> s'.devs[e].lock in s'.locks)
      && (forall l :: l in s'.locks ==> s'.locks[l].kref == Pointing(s'.devs, l) > 0)
  {
    var s' := Step(s, FinishUnbind(d));
    var l := s.devs[d].lock;
    assert LockOk(s, l);
    PointingUpdate(s.devs, d, Unbound, l);
    forall e | 0 <= e < |s'.devs| && (s'.devs[e].Bound? || s'.devs[e].Removing?) ensures s'.devs[e].lock in s'.locks {
      assert DevOk(s, e);
      if s.devs[e].lock == l { PointingOne(s'.devs, e, l); }
    }
    forall m | m in s'.locks ensures s'.locks[m].kref == Pointing(s'.devs, m) > 0 {
      assert LockOk(s, m);
      PointingUpdate(s.devs, d, Unbound, m);
    }
    hide PhaseOk, DevOk, LockOk, Pointing, Waiting;
  }

  // ---------------------------------------------------------------- every run

  lemma StepOk(s: State, e: Event)
    requires Inv(s)
    ensures Inv(Step(s, e))
  {
    match e {
      case StartOpen(t, d) => StartOpenOk(s, t, d);
      case LockOpen(t) => LockOpenOk(s, t);
      case FinishOpen(t, ok) => FinishOpenOk(s, t, ok);
      case StartRelease(t, d) => StartReleaseOk(s, t, d);
      case LockRelease(t) => LockReleaseOk(s, t);
      case FinishDisable(t, works, resettable) => FinishDisableOk(s, t, works, resettable);
      case WalkNext(t) => WalkNextOk(s, t);
      case FinishReset(t, ok) => FinishResetOk(s, t, ok);
      case PutNext(t) => PutNextOk(s, t);
      case Bind(d, from, fresh') => BindOk(s, d, from, fresh');
      case BindForeign(d) => if d < |s.devs| && s.devs[d].Unbound? { ForeignOk(s, d, Foreign); }
      case UnbindForeign(d) => if d < |s.devs| && s.devs[d].Foreign? { ForeignOk(s, d, Unbound); }
      case Unbind(d) => UnbindOk(s, d);
      case FinishUnbind(d) => FinishUnbindOk(s, d);
    }
    hide Inv;
  }

  function Run(s: State, es: seq<Event>): State
    decreases |es|
  {
    if es == [] then s else Run(Step(s, es[0]), es[1..])
  }

  lemma {:induction false} RunOk(s: State, es: seq<Event>)
    requires Inv(s)
    ensures Inv(Run(s, es))
    decreases |es|
  {
    hide Inv, Step;
    if es != [] {
      StepOk(s, es[0]);
      RunOk(Step(s, es[0]), es[1..]);
    }
  }

  // Devices without drivers, and `n` threads with nothing to do.
  function Start(group: seq<nat>, n: nat): State {
    State(group, Copies(Unbound, |group|), map[], Copies(Idle, n))
  }

  function Copies<T>(x: T, n: nat): (r: seq<T>)
    ensures |r| == n && forall i :: 0 <= i < n ==> r[i] == x
  {
    if n == 0 then [] else Copies(x, n - 1) + [x]
  }

  lemma StartOk(group: seq<nat>, n: nat)
    ensures Inv(Start(group, n))
  {
    var s := Start(group, n);
    forall d | 0 <= d < |s.devs| ensures DevOk(s, d) {
      NoneWaitingIn(s.threads, d);
    }
  }

  // Over every interleaving: a reset never runs while a device of its group is open or being opened.
  lemma NeverResetInUse(group: seq<nat>, n: nat, es: seq<Event>, t: nat, e: nat, u: nat)
    requires var s := Run(Start(group, n), es);
      t < |s.threads| && s.threads[t].Resetting? && Together(s, s.threads[t].dev, e) && u < |s.threads|
    ensures var s := Run(Start(group, n), es); Unused(s, e) && s.threads[u] != Opening(e)
  {
    hide Inv, Run, Start;
    StartOk(group, n);
    RunOk(Start(group, n), es);
    ResetIsSafe(Run(Start(group, n), es), t, e, u);
  }

  // ... and every lock counts the devices that point at it, and is gone when none does.
  lemma LocksCounted(group: seq<nat>, n: nat, es: seq<Event>)
    ensures var s := Run(Start(group, n), es);
      && (forall l :: l in s.locks ==> s.locks[l].kref == Pointing(s.devs, l) > 0)
      && (forall d :: 0 <= d < |s.devs| && (s.devs[d].Bound? || s.devs[d].Removing?) ==> s.devs[d].lock in s.locks)
      && (forall d: nat, e: nat :: BoundAt(s, d) && BoundAt(s, e) && Together(s, d, e) ==> s.devs[d].lock == s.devs[e].lock)
  {
    var s := Run(Start(group, n), es);
    StartOk(group, n);
    RunOk(Start(group, n), es);
    hide PhaseOk, Run, Start, Pointing, Waiting;
    forall l | l in s.locks ensures s.locks[l].kref == Pointing(s.devs, l) > 0 { assert LockOk(s, l); }
    forall d | 0 <= d < |s.devs| && (s.devs[d].Bound? || s.devs[d].Removing?) ensures s.devs[d].lock in s.locks { assert DevOk(s, d); }
  }

  // When a reset has worked and its walk is put back, no bound device of the group is left dirty.
  lemma ResetCleans(s: State, t: nat, e: nat)
    requires Inv(s) && t < |s.threads| && s.threads[t].Putting? && s.threads[t].ok && s.threads[t].got == []
    requires Together(s, s.threads[t].dev, e)
    ensures !Dirty(s, e)
  {
    assert PhaseOk(s, t, s.threads[t]);
  }

  // ---------------------------------------------------------------- binding, member by member

  // A device that is bound is closed and clean; it joins the lock of a bound member of its group, or
  // gets a new one if there is none.
  lemma BindOutcome(s: State, d: nat, from: nat, fresh': nat)
    requires Inv(s) && d < |s.devs| && s.devs[d].Unbound? && fresh' !in s.locks
    ensures var t := Step(s, Bind(d, from, fresh')); var members := exists e :: 0 <= e < |s.devs| && s.group[e] == s.group[d] && s.devs[e].Bound?;
      && (from < |s.devs| && s.group[from] == s.group[d] && s.devs[from].Bound? ==>
            var l := s.devs[from].lock;
            l in s.locks && t == s.(devs := s.devs[d := Bound(l, 0, false)], locks := s.locks[l := s.locks[l].(kref := s.locks[l].kref + 1)]))
      && (!members ==> t == s.(devs := s.devs[d := Bound(fresh', 0, false)], locks := s.locks[fresh' := Lock(1, Free)]))
  {
    if from < |s.devs| { assert DevOk(s, from); }
    if e :| 0 <= e < |s.devs| && CanShare(s, d, e) { assert s.group[e] == s.group[d]; }
    hide Shared, PhaseOk, DevOk, LockOk;
  }

  // A device is withdrawn only while it is closed and no thread works on it, and gives its lock up at
  // the end, which goes with the last device that points at it.
  lemma UnbindOutcome(s: State, d: nat)
    requires Inv(s) && d < |s.devs|
    ensures var t := Step(s, Unbind(d));
      if s.devs[d].Bound? && s.devs[d].refcnt == 0 && forall u :: 0 <= u < |s.threads| ==> !Refers(s.threads[u], d)
      then t == s.(devs := s.devs[d := Removing(s.devs[d].lock)]) else t == s
    ensures s.devs[d].Removing? ==>
      var l := s.devs[d].lock; var u := Step(s, FinishUnbind(d));
      l in s.locks && u.devs == s.devs[d := Unbound] && u.threads == s.threads
      && u.locks == if Pointing(s.devs, l) == 1 then s.locks - {l} else s.locks[l := s.locks[l].(kref := Pointing(s.devs, l) - 1)]
  {
    assert DevOk(s, d);
    if s.devs[d].Removing? { assert LockOk(s, s.devs[d].lock); }
    hide Shared, PhaseOk, Pointing;
  }
}
