/** What one thread does in vfio_pci_open and vfio_pci_release is a run of the steps of ResetGroup, so
    that what holds over every interleaving of those steps holds of the methods. */
module ResetRuns {
  import opened ResetGroup
  import opened ResetBus

  lemma {:induction false} RunJoin(s: State, a: seq<Event>, b: seq<Event>)
    ensures Run(s, a + b) == Run(Run(s, a), b)
    decreases |a|
  {
    hide Step;
    if a == [] {
      assert a + b == b;
    } else {
      assert (a + b)[1..] == a[1..] + b;
      RunJoin(Step(s, a[0]), a[1..], b);
    }
  }

  lemma RunFirst(s: State, e: Event, es: seq<Event>)
    ensures Run(s, [e] + es) == Run(Step(s, e), es)
  {
    assert ([e] + es)[1..] == es;
    hide Step;
  }

  // ---------------------------------------------------------------- the walk

  // Where a walk that met no device in use ends.
  ghost function Walked(s: State, d: nat, all: seq<nat>): Phase {
    if exists i :: 0 <= i < |all| && Dirty(s, all[i]) then Resetting(d, all) else Putting(d, all, false)
  }

  // The walk from `rest` on; it ends early, with the devices `early`, at one in use.
  lemma {:induction false} WalkRun(s: State, t: nat, d: nat, rest: seq<nat>, got: seq<nat>) returns (es: seq<Event>, early: seq<nat>)
    requires t < |s.threads| && s.threads[t] == Walking(d, rest, got)
    ensures Run(s, es) ==
      SetThread(s, t, if forall e :: e in rest ==> Unused(s, e) then Walked(s, d, got + rest) else Putting(d, early, false))
    decreases |rest|
  {
    var u := Step(s, WalkNext(t));
    RunFirst(s, WalkNext(t), []);
    early := got;
    if rest == [] {
      assert got + rest == got;
      es := [WalkNext(t)] + [];
    } else if Unused(s, rest[0]) {
      var tail, g := WalkRun(u, t, d, rest[1..], got + [rest[0]]);
      es, early := [WalkNext(t)] + tail, g;
      RunFirst(s, WalkNext(t), tail);
      assert got + [rest[0]] + rest[1..] == got + rest;
      WalkedSame(s, u, d, got + rest);
      assert forall e :: e in rest <==> e == rest[0] || e in rest[1..];
    } else {
      assert rest[0] in rest;
      es := [WalkNext(t)] + [];
    }
    hide Step, Run;
  }

  lemma WalkedSame(s: State, u: State, d: nat, all: seq<nat>)
    requires u.devs == s.devs
    ensures Walked(u, d, all) == Walked(s, d, all)
  {
    assert forall e: nat :: Dirty(u, e) == Dirty(s, e);
    hide Dirty;
  }

  // ---------------------------------------------------------------- putting the devices back

  // The devices of `got` cleaned.
  function Scrub(devs: seq<Dev>, got: seq<nat>): (r: seq<Dev>)
    ensures |r| == |devs| && forall e :: 0 <= e < |r| ==> r[e] == if e in got then Cleaned(devs[e]) else devs[e]
    decreases |got|
  {
    if got == [] then devs
    else Scrub(if got[0] < |devs| then devs[got[0] := Cleaned(devs[got[0]])] else devs, got[1..])
  }

  lemma {:induction false} PutRun(s: State, t: nat, d: nat, got: seq<nat>, ok: bool) returns (es: seq<Event>)
    requires t < |s.threads| && s.threads[t] == Putting(d, got, ok) && BoundAt(s, d)
    ensures var v := if ok then Scrub(s.devs, got) else s.devs;
      BoundAt(s.(devs := v), d) && Run(s, es) == Leave(s.(devs := v), t, d)
    decreases |got|
  {
    var u := Step(s, PutNext(t));
    if got == [] {
      es := [PutNext(t)] + [];
      RunFirst(s, PutNext(t), []);
      PutLast(s, t, d, ok);
    } else {
      PutOneDev(s, t, d, got, ok);
      var v := if ok && got[0] < |s.devs| then s.devs[got[0] := Cleaned(s.devs[got[0]])] else s.devs;
      var tail := PutRun(u, t, d, got[1..], ok);
      es := [PutNext(t)] + tail;
      RunFirst(s, PutNext(t), tail);
      LeaveSame(s, t, d, if ok then Scrub(v, got[1..]) else v, Putting(d, got[1..], ok));
    }
    hide Step, Run, Leave;
  }

  lemma PutLast(s: State, t: nat, d: nat, ok: bool)
    requires t < |s.threads| && s.threads[t] == Putting(d, [], ok) && BoundAt(s, d)
    ensures Run(Step(s, PutNext(t)), []) == Leave(s, t, d) && s.(devs := s.devs) == s
  {
  }

  lemma PutOneDev(s: State, t: nat, d: nat, got: seq<nat>, ok: bool)
    requires t < |s.threads| && s.threads[t] == Putting(d, got, ok) && BoundAt(s, d) && got != []
    ensures var u := Step(s, PutNext(t)); var x := got[0];
      u == SetThread(s.(devs := if ok && x < |s.devs| then s.devs[x := Cleaned(s.devs[x])] else s.devs), t, Putting(d, got[1..], ok))
  {
    var x := got[0];
    if ok && x < |s.devs| && !s.devs[x].Bound? {
      assert s.devs[x := Cleaned(s.devs[x])] == s.devs;
    }
  }

  // ---------------------------------------------------------------- opening

  // A thread with nothing to do, and the lock of `d` free.
  predicate Ready(s: State, t: nat, d: nat) {
    && t < |s.threads| && s.threads[t] == Idle && |s.group| == |s.devs| && BoundAt(s, d) && IsFree(s, s.devs[d].lock)
  }

  // A thread that holds the lock of `d`.
  function Held(s: State, t: nat, d: nat, devs: seq<Dev>, p: Phase): State
    requires Ready(s, t, d)
  {
    SetThread(SetHolder(s, s.devs[d].lock, HeldBy(t)), t, p).(devs := devs)
  }

  lemma HeldLeaves(s: State, t: nat, d: nat, devs: seq<Dev>, p: Phase)
    requires Ready(s, t, d) && d < |devs| && devs[d].Bound? && devs[d].lock == s.devs[d].lock
    ensures BoundAt(Held(s, t, d, devs, p), d) && Leave(Held(s, t, d, devs, p), t, d) == s.(devs := devs)
  {
    var l := s.devs[d].lock;
    var u := Leave(Held(s, t, d, devs, p), t, d);
    assert s.locks[l].(holder := HeldBy(t)).(holder := Free) == s.locks[l];
    assert u.locks == s.locks;
    assert u.threads == s.threads && u.devs == devs && u.group == s.group;
  }

  // vfio_pci_open: Bus.Open leaves what a run of one thread leaves.
  lemma OpenIsRun(s: State, t: nat, d: nat, enable: int) returns (es: seq<Event>)
    requires Ready(s, t, d)
    ensures Run(s, es) == s.(devs := Opened(s.devs, d, enable))
  {
    es := [StartOpen(t, d), LockOpen(t), FinishOpen(t, enable == 0)];
    var s1 := Step(s, es[0]);
    var s2 := Step(s1, es[1]);
    assert s2 == Held(s, t, d, s.devs, Opening(d)) by {
      assert s.threads[t := OpenWait(d)][t := Opening(d)] == s.threads[t := Opening(d)];
    }
    HeldLeaves(s, t, d, Opened(s.devs, d, enable), Opening(d));
    assert Opened(s.devs, d, enable) != s.devs || s2.(devs := s.devs) == s2;
    assert Step(s2, es[2]) == s.(devs := Opened(s.devs, d, enable));
    RunThree(s, es[0], es[1], es[2]);
  }

  lemma RunThree(s: State, a: Event, b: Event, c: Event)
    ensures Run(s, [a, b, c]) == Step(Step(Step(s, a), b), c)
  {
    hide Step;
    RunFirst(s, a, [b] + ([c] + []));
    RunFirst(Step(s, a), b, [c] + []);
    RunFirst(Step(Step(s, a), b), c, []);
    assert [a, b, c] == [a] + ([b] + ([c] + []));
  }

  // ---------------------------------------------------------------- releasing

  lemma MembersMate(s: State, d: nat)
    requires |s.group| == |s.devs|
    ensures forall e: nat :: e in Members(s, d, |s.devs|) <==> Mate(s.group, d, e)
  {
    forall e: nat ensures e in Members(s, d, |s.devs|) <==> Mate(s.group, d, e) {
      MembersAll(s, d, |s.devs|, e);
    }
    hide Members;
  }

  lemma LeaveSame(h: State, t: nat, d: nat, v: seq<Dev>, p: Phase)
    requires t < |h.threads| && d < |v| && v[d].Bound?
    ensures BoundAt(SetThread(h, t, p).(devs := v), d)
    ensures Leave(SetThread(h, t, p).(devs := v), t, d) == Leave(h.(devs := v), t, d)
  {
    assert h.threads[t := p][t := Idle] == h.threads[t := Idle];
  }

  // The walk back from a state in which only the phase of the thread has moved.
  lemma PutFrom(h: State, t: nat, d: nat, got: seq<nat>, ok: bool) returns (es: seq<Event>)
    requires t < |h.threads| && BoundAt(h, d)
    ensures var v := if ok then Scrub(h.devs, got) else h.devs;
      BoundAt(h.(devs := v), d) && v[d].lock == h.devs[d].lock
      && Run(SetThread(h, t, Putting(d, got, ok)), es) == Leave(h.(devs := v), t, d)
  {
    es := PutRun(SetThread(h, t, Putting(d, got, ok)), t, d, got, ok);
    LeaveSame(h, t, d, if ok then Scrub(h.devs, got) else h.devs, Putting(d, got, ok));
    hide Run, Leave, Scrub;
  }

  // A walk that finds all closed and one dirty, the reset, and the walk back.
  lemma WalkResets(h: State, t: nat, d: nat, all: seq<nat>, works: bool) returns (es: seq<Event>)
    requires t < |h.threads| && h.threads[t] == Walking(d, all, []) && BoundAt(h, d)
    requires (forall e :: e in all ==> Unused(h, e)) && Walked(h, d, all) == Resetting(d, all)
    ensures var v := if works then Scrub(h.devs, all) else h.devs;
      BoundAt(h.(devs := v), d) && v[d].lock == h.devs[d].lock && Run(h, es) == Leave(h.(devs := v), t, d)
  {
    hide Run, Step, Unused, Walked, Scrub, Leave, SetThread;
    var walk, early := WalkRun(h, t, d, all, []);
    assert [] + all == all;
    var put := PutFrom(h, t, d, all, works);
    ResetStep(h, t, d, all, works);
    RunJoin(h, walk, [FinishReset(t, works)] + put);
    RunFirst(SetThread(h, t, Resetting(d, all)), FinishReset(t, works), put);
    es := walk + ([FinishReset(t, works)] + put);
  }

  // Any other walk changes no device.
  lemma WalkStops(h: State, t: nat, d: nat, all: seq<nat>) returns (es: seq<Event>)
    requires t < |h.threads| && h.threads[t] == Walking(d, all, []) && BoundAt(h, d)
    requires (forall e :: e in all ==> Unused(h, e)) ==> Walked(h, d, all) == Putting(d, all, false)
    ensures Run(h, es) == Leave(h, t, d)
  {
    hide Run, Step, Unused, Walked, Scrub, Leave, SetThread;
    var walk, early := WalkRun(h, t, d, all, []);
    assert [] + all == all && h.(devs := h.devs) == h;
    var put := PutFrom(h, t, d, if forall e :: e in all ==> Unused(h, e) then all else early, false);
    RunJoin(h, walk, put);
    es := walk + put;
  }

  // The walk over the whole group, the reset if there is one, and the walk back.
  lemma WalkAndPut(h: State, t: nat, d: nat, all: seq<nat>, works: bool) returns (es: seq<Event>)
    requires t < |h.threads| && h.threads[t] == Walking(d, all, []) && BoundAt(h, d) && |h.group| == |h.devs|
    requires forall e: nat :: e in all <==> Mate(h.group, d, e)
    ensures var v := TriedReset(h.group, h.devs, d, true, works);
      BoundAt(h.(devs := v), d) && v[d].lock == h.devs[d].lock && Run(h, es) == Leave(h.(devs := v), t, d)
  {
    WalkMeaning(h, d, all);
    ScrubAll(h, d, all);
    hide Run, Step, AllClosed, AnyDirty, Mate, Unused, Walked, Scrub, Scrubbed, Leave, SetThread;
    if AllClosed(h.group, h.devs, d) && AnyDirty(h.group, h.devs, d) {
      es := WalkResets(h, t, d, all, works);
    } else {
      es := WalkStops(h, t, d, all);
    }
  }

  lemma ResetStep(h: State, t: nat, d: nat, all: seq<nat>, works: bool)
    requires t < |h.threads|
    ensures Step(SetThread(h, t, Resetting(d, all)), FinishReset(t, works)) == SetThread(h, t, Putting(d, all, works))
  {
  }

  lemma WalkMeaning(h: State, d: nat, all: seq<nat>)
    requires |h.group| == |h.devs| && forall e: nat :: e in all <==> Mate(h.group, d, e)
    ensures (forall e :: e in all ==> Unused(h, e)) <==> AllClosed(h.group, h.devs, d)
    ensures Walked(h, d, all) == if AnyDirty(h.group, h.devs, d) then Resetting(d, all) else Putting(d, all, false)
  {
    if e: nat :| Mate(h.group, d, e) && e < |h.devs| && h.devs[e].Bound? && h.devs[e].dirty {
      assert e in all;
      var i :| 0 <= i < |all| && all[i] == e;
      assert Dirty(h, all[i]);
    }
    if i :| 0 <= i < |all| && Dirty(h, all[i]) {
      assert Mate(h.group, d, all[i]);
    }
    if AllClosed(h.group, h.devs, d) {
      forall e | e in all ensures Unused(h, e) { assert Closed(h.devs, e); }
    }
    if forall e :: e in all ==> Unused(h, e) {
      forall e: nat | Mate(h.group, d, e) ensures Closed(h.devs, e) { assert Unused(h, e); }
    }
  }

  lemma ScrubAll(h: State, d: nat, all: seq<nat>)
    requires |h.group| == |h.devs| && forall e: nat :: e in all <==> Mate(h.group, d, e)
    ensures Scrub(h.devs, all) == Scrubbed(h.group, h.devs, d, |h.devs|)
  {
  }

  // vfio_pci_release: Bus.Release leaves what a run of one thread leaves, however many devices the
  // walk visits and wherever it stops.
  lemma ReleaseIsRun(s: State, t: nat, d: nat, function': bool, able: bool, works: bool) returns (es: seq<Event>)
    requires Ready(s, t, d) && Waiting(s.threads, d) < s.devs[d].refcnt
    ensures Run(s, es) == s.(devs := Released(s.group, s.devs, d, function', able, works))
  {
    var s1 := Step(s, StartRelease(t, d));
    var s2 := Step(s1, LockRelease(t));
    hide Waiting;
    if s.devs[d].refcnt > 1 {
      es := [StartRelease(t, d)] + ([LockRelease(t)] + []);
      assert s2.threads == s.threads;
      RunFirst(s, StartRelease(t, d), [LockRelease(t)] + []);
      RunFirst(s1, LockRelease(t), []);
      assert Run(s2, []) == s2;
    } else {
      DisableSteps(s, t, d, function', able);
      var devs := Disabled(s.devs, d, function');
      var s3 := Step(s2, FinishDisable(t, function', able));
      var tail := [];
      if able {
        MembersMate(s2, d);
        tail := WalkAndPut(s3, t, d, Members(s2, d, |s2.devs|), works);
        HeldLeaves(s, t, d, TriedReset(s.group, devs, d, true, works), s3.threads[t]);
      } else {
        HeldLeaves(s, t, d, devs, Disabling(d));
        assert Run(s3, tail) == s3;
      }
      es := [StartRelease(t, d)] + ([LockRelease(t)] + ([FinishDisable(t, function', able)] + tail));
      RunFirst(s, StartRelease(t, d), [LockRelease(t)] + ([FinishDisable(t, function', able)] + tail));
      RunFirst(s1, LockRelease(t), [FinishDisable(t, function', able)] + tail);
      RunFirst(s2, FinishDisable(t, function', able), tail);
      hide Step, Run, Members, TriedReset;
    }
  }

  // A run of a last release that resets the group leaves all of it closed and clean.
  lemma ReleaseResets(s: State, t: nat, d: nat, function': bool, works: bool, e: nat) returns (es: seq<Event>)
    requires Ready(s, t, d) && Waiting(s.threads, d) < s.devs[d].refcnt == 1 && Together(s, d, e)
    requires ResetsNow(s.group, Disabled(s.devs, d, function'), d, true, works)
    ensures Unused(Run(s, es), e) && !Dirty(Run(s, es), e)
  {
    es := ReleaseIsRun(s, t, d, function', true, works);
    ReleaseCleans(s.group, s.devs, d, function', true, works, e);
    hide Run, Waiting, ResetsNow, Released;
  }

  // The steps of the last release up to the walk.
  lemma DisableSteps(s: State, t: nat, d: nat, function': bool, able: bool)
    requires Ready(s, t, d) && Waiting(s.threads, d) < s.devs[d].refcnt == 1
    ensures var s2 := Step(Step(s, StartRelease(t, d)), LockRelease(t)); var s3 := Step(s2, FinishDisable(t, function', able));
      var devs := Disabled(s.devs, d, function');
      && |s2.group| == |s2.devs| && s2.group == s.group
      && s3 == if able then Held(s, t, d, devs, Walking(d, Members(s2, d, |s2.devs|), []))
               else Leave(Held(s, t, d, devs, Disabling(d)), t, d)
  {
    hide Waiting, Members;
    var s2 := Step(Step(s, StartRelease(t, d)), LockRelease(t));
    var c := s.devs[d].(refcnt := 0);
    assert s2 == Held(s, t, d, s.devs[d := c], Disabling(d)) by {
      assert s.threads[t := ReleaseWait(d)][t := Disabling(d)] == s.threads[t := Disabling(d)];
    }
    assert s.devs[d := c][d := c.(dirty := !function')] == Disabled(s.devs, d, function');
    assert s.threads[t := Disabling(d)][t := Walking(d, Members(s2, d, |s2.devs|), [])]
        == s.threads[t := Walking(d, Members(s2, d, |s2.devs|), [])];
  }
}
