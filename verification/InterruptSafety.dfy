/** What every run of the interrupt code keeps: the masks of INTx agree, no signal goes unpaid, every
    eventfd reference is held by a trigger, and a failing block of vectors rolls back. */
module InterruptSafety {
  import opened Interrupts

  // How many contexts hold an eventfd.
  function Held(ctx: seq<Ctx>): nat {
    if ctx == [] then 0 else Held(ctx[..|ctx| - 1]) + Has(ctx[|ctx| - 1].trigger)
  }

  // References taken and not released are exactly those held.
  predicate Conserved(s: Irqs) { s.taken == s.released + Held(s.ctx) + Has(s.err) + Has(s.req) }

  // The masks of INTx agree: the virtual one implies the driver's, which the hardware follows.
  predicate MasksAgree(s: Irqs)
    requires |s.ctx| == 1
  {
    && (s.virqDisabled ==> s.Masked())
    && (s.pci23 ==> s.disIntx == s.Masked())
    && (!s.pci23 && s.requested ==> s.depth == if s.Masked() then 1 else 0)
    && s.requested == s.ctx[0].trigger.Eventfd?
  }

  // Between two signals the line is unmasked at least once.
  predicate Automasked(s: Irqs) { s.sent + (if s.Masked() then 0 else 1) <= 1 + s.unmasks }

  // Each vector holds an eventfd exactly while its interrupt is requested.
  predicate Matched(ctx: seq<Ctx>, vectors: seq<bool>) {
    |vectors| <= |ctx| && forall v :: 0 <= v < |vectors| ==> vectors[v] == ctx[v].trigger.Eventfd?
  }

  lemma MatchedUpdate(ctx: seq<Ctx>, vectors: seq<bool>, v: nat, c: Ctx)
    requires Matched(ctx, vectors) && v < |vectors|
    ensures Matched(ctx[v := c], vectors[v := c.trigger.Eventfd?])
  {
  }

  ghost predicate Coherent(s: Irqs) {
    && s.Shaped() && Conserved(s)
    && (s.mode == Intx ==> MasksAgree(s) && Automasked(s))
    && (s.mode != Intx ==> !s.requested)
    && Matched(s.ctx, s.vectors)
    && (s.mode == Msi ==> s.qmax == Fls(2 * |s.ctx| - 1) - 1)
  }

  lemma {:induction false} HeldUpdate(ctx: seq<Ctx>, v: nat, c: Ctx)
    requires v < |ctx|
    ensures Held(ctx[v := c]) == Held(ctx) - Has(ctx[v].trigger) + Has(c.trigger)
    decreases |ctx|
  {
    var n := |ctx| - 1;
    if v == n {
      assert ctx[v := c][..n] == ctx[..n];
    } else {
      HeldUpdate(ctx[..n], v, c);
      assert ctx[v := c][..n] == ctx[..n][v := c];
    }
  }

  lemma {:induction false} HeldNone(n: nat)
    ensures Held(Repeat(Ctx(NoTrigger, false), n)) == 0
  {
    if n > 0 {
      HeldNone(n - 1);
      assert Repeat(Ctx(NoTrigger, false), n)[..n - 1] == Repeat(Ctx(NoTrigger, false), n - 1);
    }
  }

  lemma HeldOne(c: Ctx)
    ensures Held([c]) == Has(c.trigger)
  {
    assert [c][..0] == [];
  }

  // ---------------------------------------------------------------- INTx

  // The invariant in INTx mode, where there is one context.
  predicate IntxOk(s: Irqs) {
    && s.mode == Intx && |s.ctx| == 1 && s.vectors == []
    && MasksAgree(s) && Automasked(s)
    && s.taken == s.released + Has(s.ctx[0].trigger) + Has(s.err) + Has(s.req)
  }

  lemma CoherentIntx(s: Irqs)
    requires s.mode == Intx
    ensures Coherent(s) <==> IntxOk(s)
  {
    if |s.ctx| == 1 {
      HeldOne(s.ctx[0]);
      assert s.ctx == [s.ctx[0]];
    }
    hide Held;
  }

  // Outside INTx mode masking only moves the hardware bit.
  lemma CoherentElsewhere(s: Irqs, disIntx: bool, virqDisabled: bool, unmasks: nat)
    requires Coherent(s) && s.mode != Intx
    ensures Coherent(s.(disIntx := disIntx, virqDisabled := virqDisabled, unmasks := unmasks))
  {
    hide Held, Fls;
  }

  lemma MaskOk(s: Irqs)
    requires IntxOk(s.(virqDisabled := false))
    ensures IntxOk(Mask(s))
  {
  }

  lemma UnmaskOk(s: Irqs, asserted: bool)
    requires IntxOk(s)
    ensures IntxOk(Unmask(s, asserted))
  {
  }

  lemma CommandOk(s: Irqs, disable: bool, asserted: bool)
    requires IntxOk(s)
    ensures IntxOk(GuestDisable(s, disable, asserted))
  {
    if disable {
      MaskOk(s.(virqDisabled := true));
    } else {
      UnmaskOk(s.(virqDisabled := false), asserted);
    }
    hide Mask, Unmask;
  }

  lemma HandlerOk(s: Irqs, asserted: bool)
    requires IntxOk(s) && CanFire(s)
    ensures IntxOk(Handler(s, asserted))
  {
  }

  lemma FreeLineOk(s: Irqs)
    requires IntxOk(s)
    ensures var f := IntxFree(s);
      IntxOk(f) && f.ctx[0].trigger == NoTrigger && f.Masked() == s.Masked() && f.err == s.err && f.req == s.req
  {
  }

  lemma SetSignalOk(s: Irqs, fd: int, host: Host)
    requires IntxOk(s)
    ensures IntxOk(IntxSetSignal(s, fd, host).0)
  {
    FreeLineOk(s);
    hide IntxFree, LineTaken, Returned, IntxOk;
    LineTakenOk(IntxFree(s), if fd < 0 then 0 else fd);
  }

  lemma LineTakenOk(f: Irqs, fd: nat)
    requires IntxOk(f) && f.ctx[0].trigger == NoTrigger
    ensures |f.ctx| == 1 && IntxOk(LineTaken(f, fd)) && IntxOk(Returned(f))
  {
  }

  lemma CommandCoherent(s: Irqs, disable: bool, asserted: bool)
    requires Coherent(s)
    ensures Coherent(GuestDisable(s, disable, asserted))
  {
    hide Coherent, MasksAgree, Automasked;
    if s.mode == Intx {
      CoherentIntx(s);
      CommandOk(s, disable, asserted);
      CoherentIntx(GuestDisable(s, disable, asserted));
    } else {
      var t := GuestDisable(s, disable, asserted);
      CoherentElsewhere(s, t.disIntx, t.virqDisabled, t.unmasks);
    }
  }

  lemma UnmaskCoherent(s: Irqs, asserted: bool)
    requires Coherent(s)
    ensures Coherent(Unmask(s, asserted))
  {
    hide Coherent, MasksAgree, Automasked;
    if s.mode == Intx {
      CoherentIntx(s);
      UnmaskOk(s, asserted);
      CoherentIntx(Unmask(s, asserted));
    } else {
      var t := Unmask(s, asserted);
      CoherentElsewhere(s, t.disIntx, t.virqDisabled, t.unmasks);
    }
  }

  lemma MaskCoherent(s: Irqs)
    requires Coherent(s)
    ensures Coherent(Mask(s))
  {
    hide Coherent, MasksAgree, Automasked;
    if s.mode == Intx {
      CoherentIntx(s);
      MaskKeeps(s);
      CoherentIntx(Mask(s));
    } else {
      var t := Mask(s);
      CoherentElsewhere(s, t.disIntx, t.virqDisabled, t.unmasks);
    }
  }

  lemma MaskKeeps(s: Irqs)
    requires IntxOk(s)
    ensures IntxOk(Mask(s))
  {
  }

  lemma LineCoherent(s: Irqs, asserted: bool)
    requires Coherent(s) && CanFire(s)
    ensures Coherent(Handler(s, asserted))
  {
    hide Coherent, MasksAgree, Automasked;
    CoherentIntx(s);
    HandlerOk(s, asserted);
    CoherentIntx(Handler(s, asserted));
  }

  lemma SetSignalCoherent(s: Irqs, fd: int, host: Host)
    requires Coherent(s) && s.mode == Intx
    ensures |s.ctx| == 1
    ensures Coherent(IntxSetSignal(s, fd, host).0) && IntxSetSignal(s, fd, host).0.mode == Intx
  {
    hide Coherent, MasksAgree, Automasked;
    CoherentIntx(s);
    SetSignalOk(s, fd, host);
    CoherentIntx(IntxSetSignal(s, fd, host).0);
  }

  lemma IntxDisableCoherent(s: Irqs)
    requires Coherent(s) && s.mode == Intx
    ensures |s.ctx| == 1 && Coherent(IntxDisable(s)) && IntxDisable(s).mode == NoIrq
    ensures var t := IntxDisable(s); t.taken - t.released == Has(t.err) + Has(t.req)
  {
    HeldOne(s.ctx[0]);
    assert s.ctx == [s.ctx[0]];
  }

  lemma IntxEnableCoherent(s: Irqs, mem: bool)
    requires Coherent(s)
    ensures Coherent(IntxEnable(s, mem).0) && (IntxEnable(s, mem).1 == 0 ==> IntxEnable(s, mem).0.mode == Intx)
  {
    HeldOne(Ctx(NoTrigger, s.virqDisabled));
  }

  lemma SendCoherent(s: Irqs)
    requires Coherent(s)
    ensures Coherent(SendIntx(s)) && SendIntx(s).mode == s.mode
  {
  }

  lemma SetIntxTriggerCoherent(s: Irqs, start: nat, count: nat, data: Data, env: Env)
    requires Coherent(s)
    ensures s.Shaped() && Coherent(SetIntxTrigger(s, start, count, data, env).0)
  {
    assert s.Shaped();
    hide Coherent, IntxSetSignal, IntxEnable, IntxDisable, SendIntx;
    var fd, host := FdAt(if data.DataEventfd? then data.fds else [], 0), HostAt(env.hosts, 0);
    if s.mode == Intx {
      IntxDisableCoherent(s);
      SetSignalCoherent(s, fd, host);
      SendCoherent(s);
    } else if s.mode == NoIrq {
      IntxEnableCoherent(s, env.mem);
      var e := IntxEnable(s, env.mem);
      if e.1 == 0 {
        SetSignalCoherent(e.0, fd, host);
        IntxDisableCoherent(IntxSetSignal(e.0, fd, host).0);
      }
    }
  }

  // No eventfd is signalled by the interrupt handler or by unmasking while the guest has INTx disabled.
  lemma DisabledIsSilent(s: Irqs, asserted: bool)
    requires Coherent(s) && s.virqDisabled
    ensures Unmask(s, asserted).log == s.log && (CanFire(s) ==> Handler(s, asserted).log == s.log)
    ensures s.mode == Intx ==> Unmask(s, asserted).Masked()
  {
    hide Held;
  }

  // Unmasking a line that is still asserted keeps it masked and signals its eventfd exactly once.
  lemma StillAsserted(s: Irqs)
    requires Coherent(s) && s.mode == Intx && s.pci23 && s.Masked() && !s.virqDisabled
    ensures var t := Unmask(s, true);
      && t.Masked() && t.disIntx
      && t.log == s.log + if s.ctx[0].trigger.Eventfd? then [s.ctx[0].trigger.id] else []
    ensures var t := Unmask(s, false); !t.Masked() && !t.disIntx && t.log == s.log
  {
    hide Held;
  }

  // ---------------------------------------------------------------- vectors

  // What a block of vectors is expected to hold.
  predicate VectorsOk(s: Irqs) {
    |s.ctx| == |s.vectors| && Conserved(s) && Matched(s.ctx, s.vectors)
  }

  // `t` is `s` with other triggers, and the accounts to match.
  predicate SameButTriggers(s: Irqs, t: Irqs) {
    t == s.(ctx := t.ctx, vectors := t.vectors, taken := t.taken, released := t.released) && |t.ctx| == |s.ctx|
  }

  // `t` is `s` with triggers of vectors in [lo, hi) changed, and the accounts to match.
  predicate Touched(s: Irqs, t: Irqs, lo: nat, hi: nat) {
    && SameButTriggers(s, t)
    && forall w :: 0 <= w < |s.ctx| && !(lo <= w < hi) ==> t.ctx[w] == s.ctx[w]
  }

  lemma TouchedBoth(s: Irqs, t: Irqs, u: Irqs, lo: nat, hi: nat, lo': nat, hi': nat)
    requires Touched(s, t, lo, hi) && Touched(t, u, lo', hi')
    ensures Touched(s, u, if lo < lo' then lo else lo', if hi < hi' then hi' else hi)
    ensures forall w :: 0 <= w < |t.ctx| && !(lo' <= w < hi') ==> |u.ctx| == |t.ctx| && u.ctx[w] == t.ctx[w]
  {
  }

  lemma TouchedUpdate(s: Irqs, t: Irqs, v: nat, c: Ctx)
    requires v < |s.ctx| && t.ctx == s.ctx[v := c] && SameButTriggers(s, t)
    ensures Touched(s, t, v, v + 1) && t.ctx[v] == c
  {
  }

  lemma FreeOk(s: Irqs, v: nat)
    requires VectorsOk(s) && v < |s.ctx|
    ensures var t := VectorFree(s, v); VectorsOk(t) && Touched(s, t, v, v + 1) && t.ctx[v].trigger == NoTrigger
  {
    var c := Ctx(NoTrigger, s.ctx[v].masked);
    FreeIs(s, v);
    hide VectorFree, Held, Matched, Touched, SameButTriggers;
    HeldUpdate(s.ctx, v, c);
    MatchedUpdate(s.ctx, s.vectors, v, c);
    TouchedUpdate(s, VectorFree(s, v), v, c);
  }

  lemma FreeIs(s: Irqs, v: nat)
    requires v < |s.ctx| == |s.vectors| && Matched(s.ctx, s.vectors)
    ensures Freed(s, VectorFree(s, v), v)
  {
    assert s.vectors[v] == s.ctx[v].trigger.Eventfd?;
    hide Matched, Freed, VectorFree;
    FreeTaken(s, v);
    if s.ctx[v].trigger == NoTrigger {
      FreedNone(s, v);
    } else {
      FreedOne(s, v);
    }
  }

  // `t` is `s` with vector `v` released.
  predicate Freed(s: Irqs, t: Irqs, v: nat)
    requires v < |s.ctx| == |s.vectors|
  {
    && SameButTriggers(s, t) && t.ctx == s.ctx[v := Ctx(NoTrigger, s.ctx[v].masked)] && t.vectors == s.vectors[v := false]
    && t.taken == s.taken && t.released == s.released + Has(s.ctx[v].trigger) && t.err == s.err && t.req == s.req
  }

  lemma FreedNone(s: Irqs, v: nat)
    requires v < |s.ctx| == |s.vectors| && s.ctx[v].trigger == NoTrigger && !s.vectors[v]
    ensures Freed(s, s, v)
  {
    SameSelf(s);
    hide SameButTriggers;
    assert s.ctx[v] == Ctx(NoTrigger, s.ctx[v].masked);
    assert s.ctx[v := s.ctx[v]] == s.ctx && s.vectors[v := s.vectors[v]] == s.vectors;
  }

  lemma FreedOne(s: Irqs, v: nat)
    requires v < |s.ctx| == |s.vectors| && s.ctx[v].trigger.Eventfd?
    ensures var c := Ctx(NoTrigger, s.ctx[v].masked);
      Freed(s, s.(released := s.released + 1, vectors := s.vectors[v := false], ctx := s.ctx[v := c]), v)
  {
    TriggersOnly(s, s.vectors[v := false], s.ctx[v := Ctx(NoTrigger, s.ctx[v].masked)], s.taken, s.released + 1);
    hide SameButTriggers;
  }

  lemma FreeTaken(s: Irqs, v: nat)
    requires v < |s.ctx| == |s.vectors|
    ensures var c := Ctx(NoTrigger, s.ctx[v].masked);
      VectorFree(s, v) ==
        if s.ctx[v].trigger == NoTrigger then s
        else s.(released := s.released + 1, vectors := s.vectors[v := false], ctx := s.ctx[v := c])
  {
  }

  lemma TriggersOnly(s: Irqs, vectors: seq<bool>, ctx: seq<Ctx>, taken: nat, released: nat)
    requires |ctx| == |s.ctx|
    ensures SameButTriggers(s, s.(released := released, vectors := vectors, ctx := ctx))
    ensures SameButTriggers(s, s.(taken := taken, vectors := vectors, ctx := ctx))
    ensures SameButTriggers(s, s.(taken := taken, released := released))
  {
  }

  lemma TakeOk(s: Irqs, v: nat, fd: nat)
    requires VectorsOk(s) && v < |s.ctx| && s.ctx[v].trigger == NoTrigger
    ensures |s.ctx| == |s.vectors| && var t := VectorTaken(s, v, fd);
      VectorsOk(t) && Touched(s, t, v, v + 1) && |t.ctx| == |s.ctx| && t.ctx[v].trigger == Eventfd(fd)
  {
    var c := Ctx(Eventfd(fd), s.ctx[v].masked);
    HeldUpdate(s.ctx, v, c);
    MatchedUpdate(s.ctx, s.vectors, v, c);
    hide Held, Matched;
    TouchedUpdate(s, s.(taken := s.taken + 1, vectors := s.vectors[v := true], ctx := s.ctx[v := c]), v, c);
    hide Touched;
  }

  lemma SetVectorOk(s: Irqs, v: nat, fd: int, host: Host)
    requires VectorsOk(s)
    ensures |s.ctx| == |s.vectors|
    ensures var r := SetVector(s, v, fd, host); var t := r.0;
      && VectorsOk(t) && Touched(s, t, v, v + 1)
      && (r.1 == 0 ==> v < |t.ctx| && t.ctx[v].trigger == if fd < 0 then NoTrigger else Eventfd(fd))
      && (r.1 != 0 || fd < 0 ==> v < |t.ctx| ==> t.ctx[v].trigger == NoTrigger)
  {
    hide Held, VectorFree, VectorTaken, Returned, VectorsOk, Touched;
    assert |s.ctx| == |s.vectors| by { VectorsShape(s); }
    if v < |s.ctx| {
      var f := VectorFree(s, v);
      FreeOk(s, v);
      FreeSize(s, v);
      ReturnedOk(f, v);
      if fd >= 0 {
        TakeOk(f, v, fd);
        TouchedAfter(s, f, VectorTaken(f, v, fd), v);
      }
      TouchedAfter(s, f, Returned(f), v);
    } else {
      TouchedNone(s, v);
    }
  }

  lemma VectorsShape(s: Irqs)
    requires VectorsOk(s)
    ensures |s.ctx| == |s.vectors|
  {
    hide Held, Matched;
  }

  lemma ReturnedOk(f: Irqs, v: nat)
    requires VectorsOk(f)
    ensures var t := Returned(f); VectorsOk(t) && Touched(f, t, v, v + 1) && t.ctx == f.ctx
  {
    hide Held, Matched;
    TriggersOnly(f, f.vectors, f.ctx, f.taken + 1, f.released + 1);
    hide SameButTriggers;
  }

  lemma TouchedAfter(s: Irqs, f: Irqs, t: Irqs, v: nat)
    requires Touched(s, f, v, v + 1) && Touched(f, t, v, v + 1)
    ensures Touched(s, t, v, v + 1)
  {
    TouchedBoth(s, f, t, v, v + 1, v, v + 1);
    hide Touched;
  }

  lemma TouchedNone(s: Irqs, v: nat)
    ensures Touched(s, s, v, v + 1)
  {
  }

  // What vector `w` of a block that begins at `start` is to hold.
  function Wanted(fds: seq<int>, start: nat, w: nat): Trigger {
    if w < start || FdAt(fds, w - start) < 0 then NoTrigger else Eventfd(FdAt(fds, w - start))
  }

  // Vectors [lo, hi) hold what the block asks for.
  predicate Given(s: Irqs, fds: seq<int>, start: nat, lo: nat, hi: nat) {
    forall w :: lo <= w < hi && w < |s.ctx| ==> s.ctx[w].trigger == Wanted(fds, start, w)
  }

  predicate Emptied(s: Irqs, lo: nat, hi: nat) {
    forall w :: lo <= w < hi && w < |s.ctx| ==> s.ctx[w].trigger == NoTrigger
  }

  // The setting loop: on success every vector of the block holds what was asked, on failure the
  // vectors after the failing one are as they were.
  lemma {:induction false} ForwardOk(s: Irqs, start: nat, i: nat, count: nat, fds: seq<int>, hosts: seq<Host>)
    requires VectorsOk(s) && |s.ctx| == |s.vectors| && i <= count
    ensures var r := Forward(s, start, i, count, fds, hosts);
      && VectorsOk(r.0) && Touched(s, r.0, start + i, r.2)
      && start + i <= r.2 <= start + count && (r.1 != 0 ==> start + i < r.2)
      && (r.1 == 0 ==> r.2 == start + count && (i < count ==> start + count <= |s.ctx|))
      && (r.1 == 0 ==> Given(r.0, fds, start, start + i, start + count))
    decreases count - i
  {
    hide VectorsOk, SetVector;
    if i < count {
      var r := SetVector(s, start + i, FdAt(fds, i), HostAt(hosts, i));
      SetVectorOk(s, start + i, FdAt(fds, i), HostAt(hosts, i));
      if r.1 == 0 {
        SetVectorOk(r.0, start + i, -1, HostAt(hosts, i));
        ForwardOk(r.0, start, i + 1, count, fds, hosts);
        var u := Forward(r.0, start, i + 1, count, fds, hosts);
        TouchedBoth(s, r.0, u.0, start + i, start + i + 1, start + i + 1, u.2);
        hide Touched, Wanted;
        if u.1 == 0 {
          assert u.0.ctx[start + i].trigger == Wanted(fds, start, start + i) by { WantedIs(fds, start, i); }
        }
      }
    }
  }

  lemma WantedIs(fds: seq<int>, start: nat, i: nat)
    ensures Wanted(fds, start, start + i) == if FdAt(fds, i) < 0 then NoTrigger else Eventfd(FdAt(fds, i))
  {
  }

  lemma {:induction false} RollbackOk(s: Irqs, start: nat, j: nat)
    requires VectorsOk(s) && |s.ctx| == |s.vectors|
    ensures var t := Rollback(s, start, j); VectorsOk(t) && Touched(s, t, start, j) && Emptied(t, start, j)
    decreases j
  {
    hide VectorsOk, SetVector;
    if j > start {
      var r := SetVector(s, j - 1, -1, Host(true, true, 0)).0;
      SetVectorOk(s, j - 1, -1, Host(true, true, 0));
      SetVectorOk(r, j - 1, -1, Host(true, true, 0));
      RollbackOk(r, start, j - 1);
      TouchedBoth(s, r, Rollback(r, start, j - 1), j - 1, j, start, j - 1);
      hide Touched;
    }
  }

  predicate RolledBack(s: Irqs, t: Irqs, start: nat, failed: nat) {
    Touched(s, t, start, failed + 1) && Emptied(t, start, failed + 1)
  }

  // The error that setting vector `v` of `n` gives, whatever it held before; zero for none.
  function Refusal(n: nat, v: nat, fd: int, host: Host): int {
    if v >= n then -EINVAL else if fd < 0 then 0 else if !host.name then -ENOMEM else if !host.fd then -EBADF else host.irq
  }

  // Step `i` of a block is refused with `rc`.
  predicate Refused(n: nat, start: nat, i: nat, fds: seq<int>, hosts: seq<Host>, rc: int) {
    rc != 0 && Refusal(n, start + i, FdAt(fds, i), HostAt(hosts, i)) == rc
  }

  // No step of a block before step `end` is refused.
  predicate Granted(n: nat, start: nat, i: nat, end: nat, fds: seq<int>, hosts: seq<Host>) {
    forall k :: i <= k < end ==> Refusal(n, start + k, FdAt(fds, k), HostAt(hosts, k)) == 0
  }

  lemma SetVectorResult(s: Irqs, v: nat, fd: int, host: Host)
    requires |s.ctx| == |s.vectors|
    ensures SetVector(s, v, fd, host).1 == Refusal(|s.ctx|, v, fd, host)
  {
    hide VectorFree;
  }

  // The loop stops at the first step that is refused.
  lemma {:induction false} ForwardStops(s: Irqs, start: nat, i: nat, count: nat, fds: seq<int>, hosts: seq<Host>)
    requires |s.ctx| == |s.vectors| && i <= count
    ensures var r := Forward(s, start, i, count, fds, hosts); var n := |s.ctx|;
      if r.1 == 0 then Granted(n, start, i, count, fds, hosts)
      else start + i < r.2 <= start + count && Refused(n, start, r.2 - 1 - start, fds, hosts, r.1)
           && Granted(n, start, i, r.2 - 1 - start, fds, hosts)
    decreases count - i
  {
    hide SetVector, Refusal;
    if i < count {
      var r := SetVector(s, start + i, FdAt(fds, i), HostAt(hosts, i));
      SetVectorSize(s, start + i, FdAt(fds, i), HostAt(hosts, i));
      SetVectorResult(s, start + i, FdAt(fds, i), HostAt(hosts, i));
      if r.1 == 0 {
        ForwardStops(r.0, start, i + 1, count, fds, hosts);
      }
    }
  }

  // What a block whose steps are all granted, or one of whose steps is the first refused, leaves.
  predicate BlockDone(s: Irqs, t: Irqs, start: nat, count: nat, fds: seq<int>) {
    start + count <= |s.ctx| && Touched(s, t, start, start + count) && Given(t, fds, start, start, start + count)
  }

  ghost predicate BlockFailed(s: Irqs, t: Irqs, rc: int, start: nat, count: nat, fds: seq<int>, hosts: seq<Host>) {
    exists i: nat :: i < count && Granted(|s.ctx|, start, 0, i, fds, hosts)
      && Refused(|s.ctx|, start, i, fds, hosts, rc) && RolledBack(s, t, start, start + i)
  }

  lemma ForwardRefused(s: Irqs, start: nat, count: nat, fds: seq<int>, hosts: seq<Host>)
    requires VectorsOk(s) && |s.ctx| == |s.vectors| && Forward(s, start, 0, count, fds, hosts).1 != 0
    ensures var f := Forward(s, start, 0, count, fds, hosts); var t := Rollback(f.0, start, f.2);
      VectorsOk(t) && SameButTriggers(s, t) && BlockFailed(s, t, f.1, start, count, fds, hosts)
  {
    hide VectorsOk, Given, Refusal, Granted, Refused, Forward, Rollback, Touched, Emptied, SameButTriggers;
    var f := Forward(s, start, 0, count, fds, hosts);
    ForwardStops(s, start, 0, count, fds, hosts);
    ForwardOk(s, start, 0, count, fds, hosts);
    RollbackOk(f.0, start, f.2);
    TouchedBoth(s, f.0, Rollback(f.0, start, f.2), start, f.2, start, f.2);
    TouchedSame(s, Rollback(f.0, start, f.2), start, f.2);
    var i := f.2 - 1 - start;
    assert start + i + 1 == f.2;
    assert RolledBack(s, Rollback(f.0, start, f.2), start, start + i);
  }

  lemma TouchedSame(s: Irqs, t: Irqs, lo: nat, hi: nat)
    requires Touched(s, t, lo, hi)
    ensures SameButTriggers(s, t)
  {
  }

  // A block fails at its first step that is refused, with its error, and leaves the vectors from
  // its first through that one empty and every other as it was; a block of which no step is refused
  // gives each of its vectors what was asked.
  lemma BlockOutcome(s: Irqs, start: nat, count: nat, fds: seq<int>, hosts: seq<Host>)
    requires VectorsOk(s) && |s.ctx| == |s.vectors|
    ensures var r := SetBlock(s, start, count, fds, hosts); VectorsOk(r.0) && SameButTriggers(s, r.0)
    ensures var r := SetBlock(s, start, count, fds, hosts);
      if start >= |s.ctx| || (start + count) % U32 > |s.ctx| then r == (s, -EINVAL)
      else if Granted(|s.ctx|, start, 0, count, fds, hosts) then r.1 == 0 && BlockDone(s, r.0, start, count, fds)
      else r.1 != 0 && BlockFailed(s, r.0, r.1, start, count, fds, hosts)
  {
    hide VectorsOk, Given, Refusal, Granted, Refused, Forward, Rollback, Touched, BlockFailed, SameButTriggers;
    var f := Forward(s, start, 0, count, fds, hosts);
    ForwardStops(s, start, 0, count, fds, hosts);
    ForwardOk(s, start, 0, count, fds, hosts);
    TouchedSame(s, f.0, start, f.2);
    SameSelf(s);
    if f.1 != 0 {
      ForwardRefused(s, start, count, fds, hosts);
      NotGranted(|s.ctx|, start, f.2 - 1 - start, count, fds, hosts, f.1);
    }
  }

  lemma SameSelf(s: Irqs)
    ensures SameButTriggers(s, s)
  {
  }

  lemma NotGranted(n: nat, start: nat, i: nat, count: nat, fds: seq<int>, hosts: seq<Host>, rc: int)
    requires i < count && Refused(n, start, i, fds, hosts, rc)
    ensures !Granted(n, start, 0, count, fds, hosts)
  {
    hide Refusal;
  }

  lemma MsiDisableCoherent(s: Irqs)
    requires Coherent(s) && (s.mode == Msi || s.mode == Msix)
    ensures |s.ctx| == |s.vectors| && Coherent(MsiDisable(s)) && MsiDisable(s).mode == NoIrq
    ensures var t := MsiDisable(s); t.taken - t.released == Has(t.err) + Has(t.req)
  {
    assert VectorsOk(s);
    BlockOutcome(s, 0, |s.ctx|, [], []);
    var t := SetBlock(s, 0, |s.ctx|, [], []).0;
    NeverFails(s, |s.ctx|);
    NoneHeld(t.ctx);
    hide Held, SetBlock, Touched;
  }

  // Emptying a block never fails, so nothing is left to be rolled back.
  lemma NeverFails(s: Irqs, count: nat)
    requires VectorsOk(s) && |s.ctx| == |s.vectors| && count <= |s.ctx|
    ensures Emptied(SetBlock(s, 0, count, [], []).0, 0, |s.ctx|) || count < |s.ctx|
  {
    hide VectorsOk;
    if count > 0 && count == |s.ctx| {
      BlockOutcome(s, 0, count, [], []);
      ForwardOk(s, 0, 0, count, [], []);
      AllEmptied(s, 0, count);
    }
  }

  lemma {:induction false} AllEmptied(s: Irqs, i: nat, count: nat)
    requires VectorsOk(s) && |s.ctx| == |s.vectors| && i <= count <= |s.ctx|
    ensures Forward(s, 0, i, count, [], []).1 == 0
    decreases count - i
  {
    hide VectorsOk;
    if i < count {
      SetVectorOk(s, i, -1, HostAt([], i));
      AllEmptied(SetVector(s, i, -1, HostAt([], i)).0, i + 1, count);
    }
  }

  lemma {:induction false} NoneHeld(ctx: seq<Ctx>)
    ensures (forall v :: 0 <= v < |ctx| ==> ctx[v].trigger == NoTrigger) ==> Held(ctx) == 0
    decreases |ctx|
  {
    if ctx != [] {
      NoneHeld(ctx[..|ctx| - 1]);
    }
  }

  lemma MsiEnableCoherent(s: Irqs, nvec: nat, msix: bool, mem: bool, got: int)
    requires Coherent(s)
    ensures var e := MsiEnable(s, nvec, msix, mem, got);
      if e.1 == 0 then Coherent(e.0) && e.0.mode == Mode4(msix) && |e.0.ctx| == nvec else e.0 == s
  {
    hide Coherent, MsiEnabled;
    if nvec > 0 && s.mode == NoIrq {
      MsiEnabledCoherent(s, nvec, msix);
    }
  }

  lemma MsiEnabledCoherent(s: Irqs, nvec: nat, msix: bool)
    requires Coherent(s) && nvec > 0 && s.mode == NoIrq
    ensures var t := MsiEnabled(s, nvec, msix); Coherent(t) && t.mode == Mode4(msix) && |t.ctx| == nvec
  {
    assert Held(s.ctx) == 0;
    HeldNone(nvec);
    assert Matched(Repeat(Ctx(NoTrigger, false), nvec), Repeat(false, nvec));
    hide Held, Fls, Repeat, Matched;
  }

  lemma SetBlockCoherent(s: Irqs, start: nat, count: nat, fds: seq<int>, hosts: seq<Host>)
    requires Coherent(s) && (s.mode == Msi || s.mode == Msix)
    ensures |s.ctx| == |s.vectors|
    ensures Coherent(SetBlock(s, start, count, fds, hosts).0) && SetBlock(s, start, count, fds, hosts).0.mode == s.mode
  {
    hide SetBlock, Held, Fls, Touched, Given;
    assert VectorsOk(s);
    BlockOutcome(s, start, count, fds, hosts);
  }

  lemma {:induction false} LoopbackCoherent(s: Irqs, start: nat, i: nat, end: nat, data: Data)
    requires Coherent(s)
    ensures Coherent(Loopback(s, start, i, end, data))
    decreases end - i
  {
    if i < end && i < |s.ctx| {
      SignalCoherent(s, s.ctx[i].trigger);
      hide Coherent;
      var chosen := data.DataNone? || (data.DataBool? && i >= start && BoolAt(data.bools, i - start));
      LoopbackCoherent(if chosen then Signalled(s, s.ctx[i].trigger) else s, start, i + 1, end, data);
    }
  }

  lemma SignalCoherent(s: Irqs, t: Trigger)
    requires Coherent(s)
    ensures Coherent(Signalled(s, t))
  {
    hide Held, Fls;
  }

  lemma SetMsiTriggerCoherent(s: Irqs, msix: bool, start: nat, count: nat, data: Data, env: Env)
    requires Coherent(s)
    ensures s.Shaped() && Coherent(SetMsiTrigger(s, msix, start, count, data, env).0)
  {
    assert s.Shaped();
    hide Coherent, SetBlock, MsiDisable, MsiEnable, Loopback;
    var fds := if data.DataEventfd? then data.fds else [];
    if s.mode == Mode4(msix) {
      MsiDisableCoherent(s);
      SetBlockCoherent(s, start, count, fds, env.hosts);
      LoopbackCoherent(s, start, start, (start + count) % U32, data);
    } else if s.mode == NoIrq && data.DataEventfd? {
      MsiEnableCoherent(s, (start + count) % U32, msix, env.mem, env.got);
      var e := MsiEnable(s, (start + count) % U32, msix, env.mem, env.got);
      if e.1 == 0 {
        SetBlockCoherent(e.0, start, count, fds, env.hosts);
        MsiDisableCoherent(SetBlock(e.0, start, count, fds, env.hosts).0);
      }
    }
  }

  // ---------------------------------------------------------------- the single triggers

  lemma SingleOk(old': Trigger, count: nat, data: Data, host: Host)
    ensures var r := SetSingle(old', count, data, host);
      Has(r.trigger) == Has(old') + One(r.got) - One(r.put)
    ensures SetSingle(old', count, data, host).rc != 0 ==> SetSingle(old', count, data, host).trigger == old'
  {
  }

  // Everything but the error and request triggers and the accounts.
  predicate SameDelivery(s: Irqs, t: Irqs) {
    t == s.(err := t.err, req := t.req, taken := t.taken, released := t.released, log := t.log)
  }

  lemma DeliveryCoherent(s: Irqs, t: Irqs)
    requires Coherent(s) && SameDelivery(s, t)
    requires t.taken - t.released - Has(t.err) - Has(t.req) == s.taken - s.released - Has(s.err) - Has(s.req)
    ensures Coherent(t)
  {
    hide Held, Fls;
  }

  lemma AccountedOk(s: Irqs, old': Trigger, r: Single)
    ensures var t := Accounted(s, old', r);
      && SameDelivery(s, t) && t.err == s.err && t.req == s.req
      && t.taken - t.released == s.taken - s.released + One(r.got) - One(r.put)
  {
  }

  lemma ErrCoherent(s: Irqs, start: nat, count: nat, data: Data, env: Env)
    requires Coherent(s)
    ensures Coherent(SetErr(s, start, count, data, env).0)
  {
    hide Coherent, SetSingle, Accounted;
    SingleOk(s.err, count, data, HostAt(env.hosts, 0));
    AccountedOk(s, s.err, SetSingle(s.err, count, data, HostAt(env.hosts, 0)));
    if start == 0 && count <= 1 {
      DeliveryCoherent(s, SetErr(s, start, count, data, env).0);
    }
  }

  lemma ReqCoherent(s: Irqs, start: nat, count: nat, data: Data, env: Env)
    requires Coherent(s)
    ensures Coherent(SetReq(s, start, count, data, env).0)
  {
    hide Coherent, SetSingle, Accounted;
    SingleOk(s.req, count, data, HostAt(env.hosts, 0));
    AccountedOk(s, s.req, SetSingle(s.req, count, data, HostAt(env.hosts, 0)));
    if start == 0 && count <= 1 {
      DeliveryCoherent(s, SetReq(s, start, count, data, env).0);
    }
  }

  // ---------------------------------------------------------------- the whole machine

  lemma IoctlCoherent(s: Irqs, index: Index, action: Action, start: nat, count: nat, data: Data, env: Env)
    requires Coherent(s)
    ensures s.Shaped() && Coherent(Ioctl(s, index, action, start, count, data, env).0)
  {
    hide Coherent, SetIntxTrigger, SetMsiTrigger, SetErr, SetReq, Mask, Unmask;
    assert s.Shaped() by { ShapedOf(s); }
    MaskCoherent(s);
    UnmaskCoherent(s, env.asserted);
    match index {
      case IntxIndex => SetIntxTriggerCoherent(s, start, count, data, env);
      case MsiIndex => SetMsiTriggerCoherent(s, false, start, count, data, env);
      case MsixIndex => SetMsiTriggerCoherent(s, true, start, count, data, env);
      case _ => ErrCoherent(s, start, count, data, env); ReqCoherent(s, start, count, data, env);
    }
  }

  lemma ShapedOf(s: Irqs)
    requires Coherent(s)
    ensures s.Shaped()
  {
  }

  // Closing the device leaves no mode and no context; what is still held is held by the error
  // and request triggers.
  lemma Closed(s: Irqs)
    requires Coherent(s)
    ensures s.Shaped()
    ensures var t := Disable(s); t.mode == NoIrq && t.ctx == [] && t.vectors == [] && !t.requested && !t.virqDisabled && Coherent(t)
    ensures var t := Disable(s); t.err == s.err && t.req == s.req && t.taken - t.released == Has(s.err) + Has(s.req)
  {
    ShapedOf(s);
    IoctlCoherent(s, IndexOf(s.mode), ActTrigger, 0, 0, DataNone, Env(true, 0, [], false));
    match s.mode {
      case NoIrq =>
      case Intx => IntxDisableCoherent(s);
      case _ => MsiDisableCoherent(s); DisableKeeps(s);
    }
    hide SetBlock, Coherent;
    var last := Ioctl(s, IndexOf(s.mode), ActTrigger, 0, 0, DataNone, Env(true, 0, [], false)).0;
    CoherentElsewhere(last, last.disIntx, false, last.unmasks);
  }

  lemma DisableKeeps(s: Irqs)
    requires Coherent(s) && (s.mode == Msi || s.mode == Msix)
    ensures |s.ctx| == |s.vectors| && MsiDisable(s).err == s.err && MsiDisable(s).req == s.req
  {
    assert VectorsOk(s);
    BlockOutcome(s, 0, |s.ctx|, [], []);
    hide SetBlock;
  }

  lemma StepCoherent(s: Irqs, e: Event)
    requires Coherent(s)
    ensures s.Shaped() && Coherent(Step(s, e))
  {
    ShapedOf(s);
    hide Coherent, Ioctl, Handler, GuestDisable, Unmask, Disable;
    match e {
      case CallIoctl(index, action, start, count, data, env) => IoctlCoherent(s, index, action, start, count, data, env);
      case LineFires(asserted) => if CanFire(s) { LineCoherent(s, asserted); }
      case VectorFires(v) => if v < |s.vectors| && s.vectors[v] { SignalCoherent(s, s.ctx[v].trigger); }
      case GuestCommand(disable, asserted) => CommandCoherent(s, disable, asserted);
      case UnmaskEventfd(asserted) => UnmaskCoherent(s, asserted);
      case Close => Closed(s);
    }
  }

  // `t` is reached from `s` by the events `es`.
  ghost predicate Reaches(s: Irqs, es: seq<Event>, t: Irqs)
    decreases |es|
  {
    if es == [] then t == s else s.Shaped() && Reaches(Step(s, es[0]), es[1..], t)
  }

  // In every run the masks agree, every signal after the first is paid for by an unmask, and the
  // eventfd references held are exactly the triggers installed.
  lemma {:induction false} RunCoherent(s: Irqs, es: seq<Event>, t: Irqs)
    requires Coherent(s) && Reaches(s, es, t)
    ensures Coherent(t) && Conserved(t)
    ensures t.mode == Intx ==> |t.ctx| == 1 && MasksAgree(t) && t.sent <= 1 + t.unmasks
    decreases |es|
  {
    if es == [] {
      assert Coherent(t);
    } else {
      hide Coherent, Step, Conserved, MasksAgree;
      StepCoherent(s, es[0]);
      RunCoherent(Step(s, es[0]), es[1..], t);
    }
  }

  lemma FreshCoherent(pci23: bool, nointx: bool, wired: bool, pcie: bool)
    ensures Coherent(Fresh(pci23, nointx, wired, pcie))
  {
  }

  // Every state a device reaches after it was opened: references and triggers balance, vectors and
  // triggers match, and in INTx mode the masks agree and signals are paid for.
  lemma EveryRun(pci23: bool, nointx: bool, wired: bool, pcie: bool, es: seq<Event>, t: Irqs)
    requires Reaches(Fresh(pci23, nointx, wired, pcie), es, t)
    ensures Conserved(t) && Matched(t.ctx, t.vectors)
    ensures t.mode == Intx ==> |t.ctx| == 1 && MasksAgree(t) && t.sent <= 1 + t.unmasks
    ensures t.mode == Msi ==> |t.ctx| > 0 && t.qmax == Fls(2 * |t.ctx| - 1) - 1
  {
    hide *;
    FreshCoherent(pci23, nointx, wired, pcie);
    RunCoherent(Fresh(pci23, nointx, wired, pcie), es, t);
    VectorsCoherent(t);
  }

  lemma VectorsCoherent(s: Irqs)
    requires Coherent(s)
    ensures Matched(s.ctx, s.vectors) && (s.mode == Msi ==> |s.ctx| > 0 && s.qmax == Fls(2 * |s.ctx| - 1) - 1)
  {
    hide Held, Fls;
  }

  // A failed switch to INTx or MSI leaves the device without a mode and every reference returned.
  lemma FailedEnable(s: Irqs, index: Index, start: nat, count: nat, fds: seq<int>, env: Env)
    requires Coherent(s) && s.mode == NoIrq && index in {IntxIndex, MsiIndex, MsixIndex}
    ensures s.Shaped()
    ensures var r := Ioctl(s, index, ActTrigger, start, count, DataEventfd(fds), env);
      r.1 != 0 ==> r.0.mode == NoIrq && r.0.ctx == [] && r.0.taken - r.0.released == s.taken - s.released
  {
    ShapedOf(s);
    var r := Ioctl(s, index, ActTrigger, start, count, DataEventfd(fds), env);
    IoctlCoherent(s, index, ActTrigger, start, count, DataEventfd(fds), env);
    if index == IntxIndex {
      FailedIntx(s, start, count, fds, env);
    } else {
      FailedMsi(s, index == MsixIndex, start, count, fds, env);
    }
    hide Held, Fls, SetBlock, IntxSetSignal;
  }

  lemma FailedIntx(s: Irqs, start: nat, count: nat, fds: seq<int>, env: Env)
    requires Coherent(s) && s.mode == NoIrq
    ensures s.Shaped()
    ensures var r := SetIntxTrigger(s, start, count, DataEventfd(fds), env);
      r.1 != 0 ==> r.0.mode == NoIrq && r.0.ctx == [] && r.0.err == s.err && r.0.req == s.req
  {
    ShapedOf(s);
    hide Coherent, IntxSetSignal, IntxDisable;
    var e := IntxEnable(s, env.mem);
    if e.1 == 0 {
      var b := IntxSetSignal(e.0, FdAt(fds, 0), HostAt(env.hosts, 0)).0;
      SignalKeeps(e.0, FdAt(fds, 0), HostAt(env.hosts, 0));
      LineDisabled(b);
    }
  }

  lemma FreeKeeps(s: Irqs)
    requires |s.ctx| == 1
    ensures var t := IntxFree(s); |t.ctx| == 1 && t.err == s.err && t.req == s.req
  {
  }

  lemma SignalKeeps(s: Irqs, fd: int, host: Host)
    requires |s.ctx| == 1
    ensures var t := IntxSetSignal(s, fd, host).0; |t.ctx| == 1 && t.err == s.err && t.req == s.req
  {
    FreeKeeps(s);
    SignalMoves(s, fd, host);
    hide IntxSetSignal, IntxFree;
  }

  // What setting a signal leaves as it is.
  lemma SignalMoves(s: Irqs, fd: int, host: Host)
    requires |s.ctx| == 1
    ensures var f := IntxFree(s); var t := IntxSetSignal(s, fd, host).0;
      |t.ctx| == 1 && t.err == f.err && t.req == f.req && t.qmax == f.qmax && t.virqDisabled == f.virqDisabled
  {
    FreeKeeps(s);
    hide IntxFree, Returned, LineTaken;
    TakenMoves(IntxFree(s), if fd < 0 then 0 else fd);
  }

  lemma TakenMoves(f: Irqs, fd: nat)
    requires |f.ctx| == 1
    ensures var t := LineTaken(f, fd); |t.ctx| == 1 && t.err == f.err && t.req == f.req && t.qmax == f.qmax && t.virqDisabled == f.virqDisabled
    ensures var t := Returned(f); |t.ctx| == 1 && t.err == f.err && t.req == f.req && t.qmax == f.qmax && t.virqDisabled == f.virqDisabled
  {
  }

  lemma LineDisabled(s: Irqs)
    requires |s.ctx| == 1
    ensures var t := IntxDisable(s); t.mode == NoIrq && t.ctx == [] && t.err == s.err && t.req == s.req
  {
    FreeKeeps(s);
    hide IntxFree;
  }

  lemma FailedMsi(s: Irqs, msix: bool, start: nat, count: nat, fds: seq<int>, env: Env)
    requires Coherent(s) && s.mode == NoIrq
    ensures s.Shaped()
    ensures var r := SetMsiTrigger(s, msix, start, count, DataEventfd(fds), env);
      r.1 != 0 ==> r.0.mode == NoIrq && r.0.ctx == [] && r.0.err == s.err && r.0.req == s.req
  {
    ShapedOf(s);
    hide SetBlock, MsiEnable, Coherent;
    MsiEnableCoherent(s, (start + count) % U32, msix, env.mem, env.got);
    var e := MsiEnable(s, (start + count) % U32, msix, env.mem, env.got);
    if e.1 == 0 {
      EnableKeeps(s, (start + count) % U32, msix, env.mem, env.got);
      SetBlockCoherent(e.0, start, count, fds, env.hosts);
      var b := SetBlock(e.0, start, count, fds, env.hosts).0;
      BlockKeeps(e.0, start, count, fds, env.hosts);
      MsiDisableCoherent(b);
      DisableKeeps(b);
    }
  }

  lemma EnableKeeps(s: Irqs, nvec: nat, msix: bool, mem: bool, got: int)
    ensures var e := MsiEnable(s, nvec, msix, mem, got).0; e.err == s.err && e.req == s.req
  {
    hide Fls, Repeat;
  }

  lemma BlockKeeps(s: Irqs, start: nat, count: nat, fds: seq<int>, hosts: seq<Host>)
    requires Coherent(s) && (s.mode == Msi || s.mode == Msix)
    ensures |s.ctx| == |s.vectors|
    ensures var t := SetBlock(s, start, count, fds, hosts).0; t.err == s.err && t.req == s.req
  {
    assert VectorsOk(s);
    BlockOutcome(s, start, count, fds, hosts);
    hide SetBlock;
  }

  // ---------------------------------------------------------------- the number of vectors a guest sees

  function Pow2(n: nat): nat { if n == 0 then 1 else 2 * Pow2(n - 1) }

  lemma {:induction false} FlsBounds(n: nat)
    requires n > 0
    ensures Fls(n) > 0 && Pow2(Fls(n) - 1) <= n < Pow2(Fls(n))
    decreases n
  {
    if n > 1 {
      FlsBounds(n / 2);
    }
  }

  // The queue size field shown to the guest is the base two logarithm of the number of vectors,
  // rounded up; so the guest never enables as many as twice the vectors there are.
  lemma QueueSize(nvec: nat, q: nat)
    requires nvec > 0
    ensures var max := Fls(2 * nvec - 1) - 1;
      && max >= 0 && nvec <= Pow2(max) < 2 * nvec
      && (Pow2(q) >= nvec ==> max <= q)
      && (q <= max ==> Pow2(q) < 2 * nvec)
  {
    FlsBounds(2 * nvec - 1);
    var max := Fls(2 * nvec - 1) - 1;
    if q < max { PowGrows(q + 1, max); } else { PowGrows(max, q); }
  }

  // MSI has at most 32 vectors, whose queue size fits its three bits.
  lemma QueueFits(nvec: nat)
    requires 0 < nvec <= 32
    ensures Fls(2 * nvec - 1) - 1 <= 5
  {
    assert Pow2(5) == 32;
    QueueSize(nvec, 5);
  }

  lemma {:induction false} PowGrows(a: nat, b: nat)
    requires a <= b
    ensures Pow2(a) <= Pow2(b)
    decreases b
  {
    if a < b { PowGrows(a, b - 1); }
  }
}
