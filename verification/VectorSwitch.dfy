/** What an ioctl that installs eventfds leaves behind: when it succeeds, which vectors hold which
    eventfds afterwards, and what stays as it was. */
module VectorSwitch {
  import opened Interrupts
  import opened InterruptSafety

  // The eventfd that descriptor `i` asks for; a negative or missing one asks for none.
  function Asked(fds: seq<int>, i: nat): Trigger {
    if i < |fds| && fds[i] >= 0 then Eventfd(fds[i]) else NoTrigger
  }

  // The kernel grants it: there is a name, an eventfd behind the descriptor, and an interrupt.
  predicate Granted(fds: seq<int>, hosts: seq<Host>, i: nat) {
    Asked(fds, i).NoTrigger? || i >= |hosts| || (hosts[i].name && hosts[i].fd && hosts[i].irq == 0)
  }

  ghost predicate AllGranted(fds: seq<int>, hosts: seq<Host>, i: nat, count: nat) {
    forall k :: i <= k < count ==> Granted(fds, hosts, k)
  }

  // ---------------------------------------------------------------- blocks of vectors

  // `t` is `s` with the eventfds asked for in the vectors from `start + i` to `start + count`.
  ghost predicate Installed(s: Irqs, t: Irqs, start: nat, i: nat, count: nat, fds: seq<int>) {
    && SameButTriggers(s, t) && |t.vectors| == |s.vectors|
    && forall v :: 0 <= v < |t.ctx| ==>
         t.ctx[v] == if start + i <= v < start + count then Ctx(Asked(fds, v - start), s.ctx[v].masked) else s.ctx[v]
  }

  // One vector: the outcome and, on success, what it holds.
  lemma SetOne(s: Irqs, start: nat, i: nat, fds: seq<int>, hosts: seq<Host>)
    requires |s.ctx| == |s.vectors| && start + i < |s.ctx|
    ensures var r := SetVector(s, start + i, FdAt(fds, i), HostAt(hosts, i));
      && (r.1 == 0 <==> Granted(fds, hosts, i))
      && (r.1 == 0 ==> Installed(s, r.0, start, i, i + 1, fds))
  {
    var v, fd, host := start + i, FdAt(fds, i), HostAt(hosts, i);
    SetIs(s, v, fd, host);
    hide SetVector;
  }

  lemma SetIs(s: Irqs, v: nat, fd: int, host: Host)
    requires |s.ctx| == |s.vectors| && v < |s.ctx|
    ensures var r := SetVector(s, v, fd, host);
      && (r.1 == 0 <==> fd < 0 || (host.name && host.fd && host.irq == 0))
      && |r.0.vectors| == |s.vectors|
      && (r.1 == 0 ==> SameButTriggers(s, r.0) && r.0.ctx == s.ctx[v := Ctx(if fd < 0 then NoTrigger else Eventfd(fd), s.ctx[v].masked)])
  {
    hide VectorFree, VectorTaken, Returned, SameButTriggers;
    FreeTrigger(s, v);
    ReturnedOf(VectorFree(s, v));
    VectorOf(s, VectorFree(s, v), v, if fd >= 0 then fd else 0);
  }

  lemma VectorOf(s: Irqs, f: Irqs, v: nat, fd: nat)
    requires v < |s.ctx| == |f.ctx| == |f.vectors| && SameButTriggers(s, f) && f.ctx == s.ctx[v := Ctx(NoTrigger, s.ctx[v].masked)]
    ensures var t := VectorTaken(f, v, fd);
      |t.vectors| == |f.vectors| && SameButTriggers(s, t) && t.ctx == s.ctx[v := Ctx(Eventfd(fd), s.ctx[v].masked)]
  {
  }

  lemma FreeTrigger(s: Irqs, v: nat)
    requires |s.ctx| == |s.vectors| && v < |s.ctx|
    ensures var f := VectorFree(s, v);
      |f.ctx| == |f.vectors| == |s.ctx| && SameButTriggers(s, f) && f.ctx == s.ctx[v := Ctx(NoTrigger, s.ctx[v].masked)]
  {
    if s.ctx[v].trigger.NoTrigger? { assert s.ctx == s.ctx[v := s.ctx[v]]; }
  }

  lemma {:induction false} ForwardInstalls(s: Irqs, start: nat, i: nat, count: nat, fds: seq<int>, hosts: seq<Host>)
    requires |s.ctx| == |s.vectors| && i <= count && start + count <= |s.ctx|
    ensures var r := Forward(s, start, i, count, fds, hosts);
      (r.1 == 0 <==> AllGranted(fds, hosts, i, count)) && (r.1 == 0 ==> Installed(s, r.0, start, i, count, fds))
    decreases count - i
  {
    hide SetVector, Granted, Asked;
    if i < count {
      SetVectorSize(s, start + i, FdAt(fds, i), HostAt(hosts, i));
      SetOne(s, start, i, fds, hosts);
      var r := SetVector(s, start + i, FdAt(fds, i), HostAt(hosts, i));
      if r.1 == 0 {
        ForwardInstalls(r.0, start, i + 1, count, fds, hosts);
      }
    }
  }

  // A block reaching past the vectors there are is refused, at its bounds or at the first such vector.
  lemma {:induction false} ForwardPast(s: Irqs, start: nat, i: nat, count: nat, fds: seq<int>, hosts: seq<Host>)
    requires |s.ctx| == |s.vectors| && i < count && start + count > |s.ctx|
    ensures Forward(s, start, i, count, fds, hosts).1 != 0
    decreases count - i
  {
    hide SetVector;
    SetVectorSize(s, start + i, FdAt(fds, i), HostAt(hosts, i));
    var r := SetVector(s, start + i, FdAt(fds, i), HostAt(hosts, i));
    if start + i >= |s.ctx| {
      PastEnd(s, start + i, FdAt(fds, i), HostAt(hosts, i));
    } else if r.1 == 0 {
      ForwardPast(r.0, start, i + 1, count, fds, hosts);
    }
  }

  lemma PastEnd(s: Irqs, v: nat, fd: int, host: Host)
    requires |s.ctx| == |s.vectors| && v >= |s.ctx|
    ensures SetVector(s, v, fd, host).1 != 0
  {
  }

  lemma BlockInstalls(s: Irqs, start: nat, count: nat, fds: seq<int>, hosts: seq<Host>)
    requires |s.ctx| == |s.vectors| < U32 && start < U32 && count < U32
    ensures var r := SetBlock(s, start, count, fds, hosts);
      && (r.1 == 0 <==> start < |s.ctx| && start + count <= |s.ctx| && AllGranted(fds, hosts, 0, count))
      && (r.1 == 0 ==> Installed(s, r.0, start, 0, count, fds))
  {
    hide AllGranted, Installed, Forward, Rollback;
    if start + count <= |s.ctx| {
      assert (start + count) % U32 == start + count;
      ForwardInstalls(s, start, 0, count, fds, hosts);
    } else if start < |s.ctx| {
      ForwardPast(s, start, 0, count, fds, hosts);
    }
  }

  // ---------------------------------------------------------------- MSI and MSI-X

  // Device counts are 32-bit, and no function has as many vectors.
  predicate Small(s: Irqs, start: nat, count: nat) { |s.ctx| < U32 && start < U32 && count < U32 }

  function VectorIndex(msix: bool): Index { if msix then MsixIndex else MsiIndex }

  // Switching on: it succeeds if and only if there is memory, the block is not empty and does not wrap,
  // there are as many vectors and the kernel grants every eventfd.  Then the mode is the one asked for,
  // there are vectors up to the end of the block, those of the block hold the eventfds asked for and
  // the ones before it none, and nothing was signalled.
  lemma SwitchedOn(s: Irqs, msix: bool, start: nat, count: nat, fds: seq<int>, env: Env)
    requires s.Shaped() && s.mode == NoIrq && Small(s, start, count)
    ensures var (t, rc) := Ioctl(s, VectorIndex(msix), ActTrigger, start, count, DataEventfd(fds), env);
      && (rc == 0 <==> env.mem && count > 0 && start + count < 0x1_0000_0000 && env.got >= start + count && AllGranted(fds, env.hosts, 0, count))
      && (rc == 0 ==>
            && t.mode == (if msix then Msix else Msi) && |t.ctx| == |t.vectors| == start + count && t.disIntx
            && (forall v :: 0 <= v < start + count ==> t.ctx[v] == Ctx(if v < start then NoTrigger else Asked(fds, v - start), false))
            && t.log == s.log && t.virqDisabled == s.virqDisabled && t.err == s.err && t.req == s.req)
  {
    hide SetBlock, Installed, AllGranted, MsiDisable, MsiEnabled, Fls, Asked;
    var n := (start + count) % U32;
    if env.mem && Allocated(n, env.got) >= n {
      EnabledAs(s, n, msix);
      var e := MsiEnabled(s, n, msix);
      BlockInstalls(e, start, count, fds, env.hosts);
      var r := SetBlock(e, start, count, fds, env.hosts);
      if r.1 == 0 {
        assert n == start + count by { WrapsNot(start, count); }
        InstalledFresh(e, r.0, start, count, fds);
      }
    }
    WrapsNot(start, count);
  }

  // Without memory or vectors nothing happens, and too few vectors are counted for the caller.
  lemma SwitchRefused(s: Irqs, msix: bool, start: nat, count: nat, fds: seq<int>, env: Env)
    requires s.Shaped() && s.mode == NoIrq && start + count < 0x1_0000_0000
    requires !env.mem || start + count == 0 || env.got < start + count
    ensures Ioctl(s, VectorIndex(msix), ActTrigger, start, count, DataEventfd(fds), env) ==
      (s, if !env.mem then -12 else if start + count == 0 then -34 else if env.got == 0 then -28 else env.got)
  {
    hide SetBlock;
  }

  lemma WrapsNot(start: nat, count: nat)
    requires start < U32 && count < U32
    ensures start + count < U32 ==> (start + count) % U32 == start + count
    ensures start + count >= U32 ==> (start + count) % U32 == start + count - U32 < start
  {
  }

  lemma EnabledAs(s: Irqs, n: nat, msix: bool)
    requires n > 0
    ensures var e := MsiEnabled(s, n, msix);
      && |e.ctx| == |e.vectors| == n && e.mode == (if msix then Msix else Msi) && e.disIntx
      && (forall v :: 0 <= v < n ==> e.ctx[v] == Ctx(NoTrigger, false))
      && e.log == s.log && e.virqDisabled == s.virqDisabled && e.err == s.err && e.req == s.req
  {
    hide Fls;
  }

  lemma InstalledFresh(e: Irqs, t: Irqs, start: nat, count: nat, fds: seq<int>)
    requires Installed(e, t, start, 0, count, fds) && |e.ctx| == start + count
    requires forall v :: 0 <= v < |e.ctx| ==> e.ctx[v] == Ctx(NoTrigger, false)
    ensures SameButTriggers(e, t) && |t.vectors| == |e.vectors|
    ensures forall v :: 0 <= v < start + count ==> t.ctx[v] == Ctx(if v < start then NoTrigger else Asked(fds, v - start), false)
  {
    hide Asked;
  }

  // While the mode is on, a block is replaced: it must lie in the vectors there are, and the others
  // keep their eventfds.
  lemma BlockReplaced(s: Irqs, msix: bool, start: nat, count: nat, fds: seq<int>, env: Env)
    requires s.Shaped() && s.mode == (if msix then Msix else Msi) && Small(s, start, count)
    ensures var (t, rc) := Ioctl(s, VectorIndex(msix), ActTrigger, start, count, DataEventfd(fds), env);
      && (rc == 0 <==> start < |s.ctx| && start + count <= |s.ctx| && AllGranted(fds, env.hosts, 0, count))
      && (rc == 0 ==>
            && t.mode == s.mode && |t.ctx| == |s.ctx| && t.log == s.log
            && forall v :: 0 <= v < |s.ctx| ==>
                 t.ctx[v].trigger == if start <= v < start + count then Asked(fds, v - start) else s.ctx[v].trigger)
  {
    hide SetBlock, AllGranted, Asked;
    BlockInstalls(s, start, count, fds, env.hosts);
  }

  // Switching off releases everything.
  lemma SwitchedOff(s: Irqs, msix: bool, start: nat, env: Env)
    requires s.Shaped() && |s.ctx| < U32 && s.mode == (if msix then Msix else Msi)
    ensures var (t, rc) := Ioctl(s, VectorIndex(msix), ActTrigger, start, 0, DataNone, env);
      rc == 0 && t.mode == NoIrq && t.ctx == [] && t.vectors == [] && t.disIntx == s.nointx && t.log == s.log
  {
    hide SetBlock;
    QuietBlock(s);
  }

  lemma QuietBlock(s: Irqs)
    requires 0 < |s.ctx| == |s.vectors| < U32
    ensures SetBlock(s, 0, |s.ctx|, [], []).0.log == s.log
  {
    hide SetBlock;
    BlockInstalls(s, 0, |s.ctx|, [], []);
  }

  // ---------------------------------------------------------------- loopback

  // The eventfds of the first `n` vectors from `start` that `data` selects, in order.
  function Echo(ctx: seq<Ctx>, start: nat, n: nat, data: Data): seq<nat>
    requires start + n <= |ctx|
  {
    if n == 0 then []
    else
      var chosen := data.DataNone? || (data.DataBool? && n - 1 < |data.bools| && data.bools[n - 1]);
      Echo(ctx, start, n - 1, data) +
        if chosen && ctx[start + n - 1].trigger.Eventfd? then [ctx[start + n - 1].trigger.id] else []
  }

  // The trigger action without eventfds signals each vector selected as its interrupt would, in order,
  // and changes nothing else; a block that wraps signals none.
  lemma VectorLoopback(s: Irqs, msix: bool, start: nat, count: nat, data: Data, env: Env)
    requires s.Shaped() && s.mode == (if msix then Msix else Msi) && Small(s, start, count)
    requires !data.DataEventfd? && !(count == 0 && data.DataNone?)
    ensures var (t, rc) := Ioctl(s, VectorIndex(msix), ActTrigger, start, count, data, env);
      if start + count <= |s.ctx| then rc == 0 && t == s.(log := s.log + Echo(s.ctx, start, count, data))
      else t == s && rc == if start + count >= 0x1_0000_0000 && start + count - 0x1_0000_0000 <= |s.ctx| then 0 else -22
  {
    WrapsNot(start, count);
    if start + count <= |s.ctx| {
      LoopbackEchoes(s, start, count, data, count);
    }
    hide Loopback, Echo;
    if start + count >= U32 { LoopbackEmpty(s, start, start + count - U32, data); }
  }

  lemma LoopbackEmpty(s: Irqs, start: nat, end: nat, data: Data)
    requires end <= start
    ensures Loopback(s, start, start, end, data) == s
  {
  }

  // The loop after `j` vectors.
  lemma {:induction false} LoopbackEchoes(s: Irqs, start: nat, count: nat, data: Data, j: nat)
    requires start + count <= |s.ctx| && j <= count
    ensures Loopback(s, start, start, start + count, data) ==
      Loopback(s.(log := s.log + Echo(s.ctx, start, j, data)), start, start + j, start + count, data)
    ensures j == count ==> Loopback(s, start, start, start + count, data) == s.(log := s.log + Echo(s.ctx, start, count, data))
    decreases j
  {
    if j == 0 {
      assert s.log + [] == s.log;
    } else {
      LoopbackEchoes(s, start, count, data, j - 1);
      var u := s.(log := s.log + Echo(s.ctx, start, j - 1, data));
      EchoStep(s, start, j, data);
      hide Echo;
    }
  }

  lemma EchoStep(s: Irqs, start: nat, j: nat, data: Data)
    requires 0 < j && start + j <= |s.ctx|
    ensures var chosen := data.DataNone? || (data.DataBool? && BoolAt(data.bools, j - 1));
      var u := s.(log := s.log + Echo(s.ctx, start, j - 1, data));
      s.(log := s.log + Echo(s.ctx, start, j, data)) == if chosen then Signalled(u, s.ctx[start + j - 1].trigger) else u
  {
    var before := Echo(s.ctx, start, j - 1, data);
    assert before + [] == before;
    if s.ctx[start + j - 1].trigger.Eventfd? {
      assert s.log + (before + [s.ctx[start + j - 1].trigger.id]) == (s.log + before) + [s.ctx[start + j - 1].trigger.id];
    }
  }

  // ---------------------------------------------------------------- INTx

  // Switching INTx on: it succeeds if and only if the one interrupt is asked for, the function has a
  // line, there is memory and the kernel grants the eventfd.  Then that eventfd is installed, masked if
  // the guest disables INTx, and the line is requested for it; nothing was signalled.
  lemma IntxSwitchedOn(s: Irqs, start: nat, count: nat, fds: seq<int>, env: Env)
    requires s.Shaped() && s.mode == NoIrq
    ensures var (t, rc) := Ioctl(s, IntxIndex, ActTrigger, start, count, DataEventfd(fds), env);
      && (rc == 0 <==> start == 0 && count == 1 && s.wired && env.mem && Granted(fds, env.hosts, 0))
      && (rc == 0 ==>
            && t.mode == Intx && t.ctx == [Ctx(Asked(fds, 0), s.virqDisabled)] && t.sent == t.unmasks == 0 && t.log == s.log
            && t.disIntx == (if s.pci23 then s.virqDisabled else s.disIntx)
            && (Asked(fds, 0).Eventfd? ==> t.requested && t.depth == if s.virqDisabled && !s.pci23 then 1 else 0)
            && t.virqDisabled == s.virqDisabled && t.err == s.err && t.req == s.req)
      && (rc != 0 ==> t.mode == NoIrq && t.ctx == [] && t.log == s.log)
  {
    hide IntxSetSignal, IntxFree;
    if start == 0 && count == 1 && s.wired && env.mem {
      var e := IntxEnable(s, env.mem).0;
      SignalSet(e, fds, env.hosts);
      SignalOff(IntxSetSignal(e, FdAt(fds, 0), HostAt(env.hosts, 0)).0);
    }
    hide Granted;
  }

  // Installing the one eventfd.
  lemma SignalSet(s: Irqs, fds: seq<int>, hosts: seq<Host>)
    requires |s.ctx| == 1
    ensures var r := IntxSetSignal(s, FdAt(fds, 0), HostAt(hosts, 0)); var t := r.0; var masked := s.ctx[0].masked;
      && (r.1 == 0 <==> Granted(fds, hosts, 0))
      && t == s.(ctx := t.ctx, requested := t.requested, depth := t.depth, taken := t.taken, released := t.released)
      && t.ctx == [Ctx(if r.1 == 0 then Asked(fds, 0) else NoTrigger, masked)]
      && (Asked(fds, 0).Eventfd? && r.1 == 0 ==> t.requested && t.depth == if masked && !s.pci23 then 1 else 0)
      && ((Asked(fds, 0).NoTrigger? || r.1 != 0) && s.ctx[0].trigger.Eventfd? ==> !t.requested)
  {
    hide IntxSetSignal, Granted, Asked, FdAt, HostAt;
    FdMeans(fds, hosts, 0);
    SignalOf(s, FdAt(fds, 0), HostAt(hosts, 0));
  }

  lemma FdMeans(fds: seq<int>, hosts: seq<Host>, i: nat)
    ensures var fd, host := FdAt(fds, i), HostAt(hosts, i);
      && Asked(fds, i) == (if fd < 0 then NoTrigger else Eventfd(fd))
      && (Granted(fds, hosts, i) <==> fd < 0 || (host.name && host.fd && host.irq == 0))
  {
  }

  lemma SignalOf(s: Irqs, fd: int, host: Host)
    requires |s.ctx| == 1
    ensures var r := IntxSetSignal(s, fd, host); var t := r.0; var masked := s.ctx[0].masked;
      && (r.1 == 0 <==> fd < 0 || (host.name && host.fd && host.irq == 0))
      && t == s.(ctx := t.ctx, requested := t.requested, depth := t.depth, taken := t.taken, released := t.released)
      && t.ctx == [Ctx(if fd >= 0 && r.1 == 0 then Eventfd(fd) else NoTrigger, masked)]
      && (fd >= 0 && r.1 == 0 ==> t.requested && t.depth == if masked && !s.pci23 then 1 else 0)
      && ((fd < 0 || r.1 != 0) && s.ctx[0].trigger.Eventfd? ==> !t.requested)
  {
    hide IntxFree, LineTaken, Returned;
    SignalOff(s);
    var f := IntxFree(s);
    if fd >= 0 && host.name && host.fd && host.irq == 0 {
      LineOf(f, fd);
    } else {
      ReturnedOf(f);
    }
  }

  lemma ReturnedOf(f: Irqs)
    ensures var t := Returned(f); t == f.(taken := t.taken, released := t.released)
  {
  }

  lemma LineOf(f: Irqs, fd: nat)
    requires |f.ctx| == 1
    ensures var t := LineTaken(f, fd);
      && t == f.(ctx := t.ctx, requested := true, depth := t.depth, taken := t.taken)
      && t.ctx == [Ctx(Eventfd(fd), f.ctx[0].masked)] && t.depth == if f.ctx[0].masked && !f.pci23 then 1 else 0
  {
  }

  lemma SignalOff(s: Irqs)
    requires |s.ctx| == 1
    ensures var f := IntxFree(s);
      && f == s.(ctx := f.ctx, requested := f.requested, depth := f.depth, released := f.released)
      && f.ctx == [Ctx(NoTrigger, s.ctx[0].masked)] && (s.ctx[0].trigger.Eventfd? ==> !f.requested)
  {
    if s.ctx[0].trigger.NoTrigger? { assert s.ctx == [Ctx(NoTrigger, s.ctx[0].masked)]; }
  }

  // While INTx is on, its eventfd is replaced; the mask stays, and a refusal leaves it without one.
  lemma IntxReplaced(s: Irqs, start: nat, count: nat, fds: seq<int>, env: Env)
    requires s.Shaped() && s.mode == Intx
    ensures var (t, rc) := Ioctl(s, IntxIndex, ActTrigger, start, count, DataEventfd(fds), env);
      if start != 0 || count != 1 then t == s && rc == -22
      else
        && (rc == 0 <==> Granted(fds, env.hosts, 0))
        && t.mode == Intx && t.ctx == [Ctx(if rc == 0 then Asked(fds, 0) else NoTrigger, s.ctx[0].masked)] && t.log == s.log
        && (Asked(fds, 0).Eventfd? && rc == 0 ==> t.requested && t.depth == if s.ctx[0].masked && !s.pci23 then 1 else 0)
        && ((Asked(fds, 0).NoTrigger? || rc != 0) && s.ctx[0].trigger.Eventfd? ==> !t.requested)
  {
    hide IntxSetSignal, Granted, Asked;
    SignalSet(s, fds, env.hosts);
  }

  // Switching INTx off.
  lemma IntxSwitchedOff(s: Irqs, start: nat, env: Env)
    requires s.Shaped() && s.mode == Intx
    ensures var (t, rc) := Ioctl(s, IntxIndex, ActTrigger, start, 0, DataNone, env);
      && rc == 0 && t.mode == NoIrq && t.ctx == [] && t.vectors == [] && t.log == s.log
      && (s.ctx[0].trigger.Eventfd? ==> !t.requested && t.released == s.released + 1)
  {
  }

  // Another mode than the one that is on is refused.
  lemma OtherModeRefused(s: Irqs, index: Index, start: nat, count: nat, data: Data, env: Env)
    requires s.Shaped() && s.mode != NoIrq && index in {IntxIndex, MsiIndex, MsixIndex}
    requires s.mode != (if index == IntxIndex then Intx else if index == MsiIndex then Msi else Msix)
    ensures Ioctl(s, index, ActTrigger, start, count, data, env) == (s, -22)
  {
  }
}
