/** A run that reaches a reset: two devices of one group are bound, one is opened and released, its
    function reset fails, and the walk finds both closed. */
module SampleReset {
  import opened ResetGroup
  import opened ResetRuns

  function Devices(refcnt: nat, dirty: bool): seq<Dev> { [Bound(0, refcnt, dirty), Bound(0, 0, false)] }

  function At(devs: seq<Dev>, holder: Holder, p: Phase): State { State([0, 0], devs, map[0 := Lock(2, holder)], [p]) }

  // Binding: the second device finds the lock of the first.
  lemma Bindings()
    ensures Run(Start([0, 0], 1), [Bind(0, 0, 0), Bind(1, 0, 1)]) == At(Devices(0, false), Free, Idle)
  {
    var s0 := Start([0, 0], 1);
    assert s0 == State([0, 0], [Unbound, Unbound], map[], [Idle]) by {
      assert Copies(Unbound, 2) == [Unbound, Unbound] && Copies(Idle, 1) == [Idle];
    }
    var s1 := State([0, 0], [Bound(0, 0, false), Unbound], map[0 := Lock(1, Free)], [Idle]);
    assert Step(s0, Bind(0, 0, 0)) == s1;
    assert CanShare(s1, 1, 0);
    assert Step(s1, Bind(1, 0, 1)) == At(Devices(0, false), Free, Idle);
    RunFirst(s0, Bind(0, 0, 0), [Bind(1, 0, 1)] + []);
    RunFirst(s1, Bind(1, 0, 1), []);
    assert [Bind(0, 0, 0), Bind(1, 0, 1)] == [Bind(0, 0, 0)] + ([Bind(1, 0, 1)] + []);
  }

  // The steps of a thread, one by one.
  lemma OpenSteps()
    ensures Step(At(Devices(0, false), Free, Idle), StartOpen(0, 0)) == At(Devices(0, false), Free, OpenWait(0))
    ensures Step(At(Devices(0, false), Free, OpenWait(0)), LockOpen(0)) == At(Devices(0, false), HeldBy(0), Opening(0))
  {
  }

  lemma OpenDone()
    ensures Step(At(Devices(0, false), HeldBy(0), Opening(0)), FinishOpen(0, true)) == At(Devices(1, false), Free, Idle)
  {
  }

  lemma ReleaseStart()
    ensures Step(At(Devices(1, false), Free, Idle), StartRelease(0, 0)) == At(Devices(1, false), Free, ReleaseWait(0))
  {
    assert Waiting([Idle][..0], 0) == 0 && Waiting([Idle], 0) == 0;
  }

  lemma ReleaseLocked()
    ensures Step(At(Devices(1, false), Free, ReleaseWait(0)), LockRelease(0)) == At(Devices(0, false), HeldBy(0), Disabling(0))
  {
  }

  lemma ReleaseDisabled()
    ensures Step(At(Devices(0, false), HeldBy(0), Disabling(0)), FinishDisable(0, false, true)) ==
      At(Devices(0, true), HeldBy(0), Walking(0, [0, 1], []))
  {
    var s := At(Devices(0, false), HeldBy(0), Disabling(0));
    assert Members(s, 0, 0) == [] && Members(s, 0, 1) == [0] && Members(s, 0, 2) == [0, 1];
  }

  lemma WalkFirst()
    ensures Step(At(Devices(0, true), HeldBy(0), Walking(0, [0, 1], [])), WalkNext(0)) == At(Devices(0, true), HeldBy(0), Walking(0, [1], [0]))
  {
    assert [0, 1][1..] == [1] && [] + [0] == [0];
  }

  lemma WalkSecond()
    ensures Step(At(Devices(0, true), HeldBy(0), Walking(0, [1], [0])), WalkNext(0)) == At(Devices(0, true), HeldBy(0), Walking(0, [], [0, 1]))
  {
    assert [1][1..] == [] && [0] + [1] == [0, 1];
  }

  lemma WalkLast()
    ensures Step(At(Devices(0, true), HeldBy(0), Walking(0, [], [0, 1])), WalkNext(0)) == At(Devices(0, true), HeldBy(0), Resetting(0, [0, 1]))
  {
    assert Dirty(At(Devices(0, true), HeldBy(0), Walking(0, [], [0, 1])), [0, 1][0]);
  }

  lemma Opens()
    ensures Run(At(Devices(0, false), Free, Idle), [StartOpen(0, 0), LockOpen(0), FinishOpen(0, true)]) == At(Devices(1, false), Free, Idle)
  {
    hide *;
    OpenSteps();
    OpenDone();
    RunThree(At(Devices(0, false), Free, Idle), StartOpen(0, 0), LockOpen(0), FinishOpen(0, true));
  }

  lemma Releases()
    ensures Run(At(Devices(1, false), Free, Idle), [StartRelease(0, 0), LockRelease(0), FinishDisable(0, false, true)]) ==
      At(Devices(0, true), HeldBy(0), Walking(0, [0, 1], []))
  {
    hide *;
    ReleaseStart();
    ReleaseLocked();
    ReleaseDisabled();
    RunThree(At(Devices(1, false), Free, Idle), StartRelease(0, 0), LockRelease(0), FinishDisable(0, false, true));
  }

  lemma Walks()
    ensures Run(At(Devices(0, true), HeldBy(0), Walking(0, [0, 1], [])), [WalkNext(0), WalkNext(0), WalkNext(0)]) ==
      At(Devices(0, true), HeldBy(0), Resetting(0, [0, 1]))
  {
    hide *;
    WalkFirst();
    WalkSecond();
    WalkLast();
    RunThree(At(Devices(0, true), HeldBy(0), Walking(0, [0, 1], [])), WalkNext(0), WalkNext(0), WalkNext(0));
  }

  // The phase that NeverResetInUse is about is reached.
  lemma ResetReached() returns (es: seq<Event>)
    ensures Run(Start([0, 0], 1), es) == At(Devices(0, true), HeldBy(0), Resetting(0, [0, 1]))
  {
    var a, b := [Bind(0, 0, 0), Bind(1, 0, 1)], [StartOpen(0, 0), LockOpen(0), FinishOpen(0, true)];
    var c, d := [StartRelease(0, 0), LockRelease(0), FinishDisable(0, false, true)], [WalkNext(0), WalkNext(0), WalkNext(0)];
    hide Run, Step, Devices, At, Start;
    Bindings();
    Opens();
    Releases();
    Walks();
    es := a + (b + (c + d));
    RunJoin(Start([0, 0], 1), a, b + (c + d));
    RunJoin(At(Devices(0, false), Free, Idle), b, c + d);
    RunJoin(At(Devices(1, false), Free, Idle), c, d);
  }
}
