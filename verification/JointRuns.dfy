/** Configuration space and interrupts of one device together: the calls the COMMAND handler makes
    move the interrupt code, and what an ioctl does to the interrupt mode is what the MSI handler
    goes by. */
module JointRuns {
  import opened Bytes
  import opened PciCaps
  import opened Layout
  import opened Perms
  import opened Routing
  import opened ConfigAccess
  import opened ListLinks
  import opened ExtCapInit
  import opened GuestView
  import opened CommandSync
  import opened MsiSync
  import G = GuestRuns
  import I = Interrupts
  import S = InterruptSafety

  // `msiCap` is where the PCI core found the MSI capability, zero if there is none.
  datatype Joint = Joint(dev: Vdev, irq: I.Irqs, msiCap: nat)

  // A configuration event, with the state of the INTx line at each call it makes, or an event of
  // the interrupt code.
  datatype Event = Config(access: G.Event, asserted: seq<bool>) | Delivery(irq: I.Event)

  // ---------------------------------------------------------------- one step

  // What the COMMAND handler calls, with the bit it has just stored.
  function Driven(k: I.Irqs, call: IrqCall, asserted: bool): I.Irqs {
    match call
    case IntxMask => I.Mask(k.(virqDisabled := true))
    case IntxUnmask => I.Unmask(k.(virqDisabled := false), asserted)
  }

  function Replay(k: I.Irqs, calls: seq<IrqCall>, asserted: seq<bool>): I.Irqs
    decreases |calls|
  {
    if calls == [] then k
    else Replay(Driven(k, calls[0], I.BoolAt(asserted, 0)), calls[1..], if asserted == [] then [] else asserted[1..])
  }

  function NewCalls(s: Vdev, t: Vdev): seq<IrqCall> { if |s.calls| <= |t.calls| then t.calls[|s.calls|..] else [] }

  // vfio_pci_get_irq_count for MSI: two to the power of the size in the hardware flags.
  function MsiCount(j: Joint): nat {
    if j.msiCap == 0 then 0 else S.Pow2(Num((At(j.dev.hw, j.msiCap + 2) & 0x0E) >> 1))
  }

  // The ioctl is refused beforehand if its vectors are not all below that.
  predicate Admitted(j: Joint, e: I.Event) {
    match e
    case CallIoctl(index, _, start, count, _, _) => index == I.MsiIndex ==> start < MsiCount(j) && start + count <= MsiCount(j)
    case GuestCommand(_, _) => false // only through COMMAND
    case Close => false
    case _ => true
  }

  function Byte(n: nat): byte {
    if n == 0 then 0 else if n == 1 then 1 else if n == 2 then 2 else if n == 3 then 3
    else if n == 4 then 4 else if n == 5 then 5 else if n == 6 then 6 else 7
  }

  // What the configuration handlers see of the interrupt state.
  function Mode(k: I.Irqs): G.Event { G.IrqMode(k.mode == I.Msi, Byte(k.qmax)) }

  function Step(j: Joint, e: Event): Joint
    requires j.irq.Shaped()
  {
    match e
    case Config(c, asserted) =>
      if c.IrqMode? then j
      else
        var t := G.Step(j.dev, c);
        j.(dev := t, irq := Replay(j.irq, NewCalls(j.dev, t), asserted))
    case Delivery(d) =>
      if !Admitted(j, d) then j
      else
        var k := I.Step(j.irq, d);
        j.(dev := G.Step(j.dev, Mode(k)), irq := k)
  }

  // ---------------------------------------------------------------- calls alternate

  // `calls` take the driver's bit from `was` to `now`, each changing it.
  predicate Alternating(calls: seq<IrqCall>, was: bool, now: bool)
    decreases |calls|
  {
    if calls == [] then was == now
    else calls[0] == (if was then IntxUnmask else IntxMask) && Alternating(calls[1..], !was, now)
  }

  predicate Extends(s: Vdev, t: Vdev) {
    |s.calls| <= |t.calls| && t.calls[..|s.calls|] == s.calls && Alternating(t.calls[|s.calls|..], s.virqDisabled, t.virqDisabled)
  }

  lemma {:induction false} AlternatingJoin(a: seq<IrqCall>, b: seq<IrqCall>, was: bool, mid: bool, now: bool)
    requires Alternating(a, was, mid) && Alternating(b, mid, now)
    ensures Alternating(a + b, was, now)
    decreases |a|
  {
    if a == [] {
      assert a + b == b;
    } else {
      AlternatingJoin(a[1..], b, !was, mid, now);
      assert (a + b)[1..] == a[1..] + b;
    }
  }

  lemma ExtendsJoin(s: Vdev, t: Vdev, u: Vdev)
    requires Extends(s, t) && Extends(t, u)
    ensures Extends(s, u)
  {
    var a, b := t.calls[|s.calls|..], u.calls[|t.calls|..];
    AlternatingJoin(a, b, s.virqDisabled, t.virqDisabled, u.virqDisabled);
    assert u.calls == u.calls[..|t.calls|] + b;
    assert u.calls[|s.calls|..] == a + b;
  }

  lemma ExtendsSame(s: Vdev, t: Vdev)
    requires t.calls == s.calls && t.virqDisabled == s.virqDisabled
    ensures Extends(s, t)
  {
    assert s.calls[|s.calls|..] == [];
  }

  lemma FollowExtends(s: Vdev)
    ensures Extends(s, IntxFollow(s))
  {
    var t := IntxFollow(s);
    if t.virqDisabled == s.virqDisabled {
      ExtendsSame(s, t);
    } else {
      OneCall(s, t, if t.virqDisabled then IntxMask else IntxUnmask);
    }
  }

  lemma OneCall(s: Vdev, t: Vdev, call: IrqCall)
    requires t.calls == s.calls + [call] && t.virqDisabled != s.virqDisabled && t.virqDisabled == (call == IntxMask)
    ensures Extends(s, t)
  {
    assert t.calls[|s.calls|..] == [call];
    assert [call][1..] == [] && Alternating([], !s.virqDisabled, t.virqDisabled);
  }

  lemma ChunkExtends(s: Vdev, caps: set<Cap>, pos: nat, bytes: seq<byte>)
    requires Good(s, caps) && bytes != []
    ensures Extends(s, WriteChunk(s, pos, bytes))
  {
    hide WriteChunk, KindAt, StartOf, Extends, Good;
    assert 64 <= |s.vconfig| == |s.hw| by { GoodSize(s, caps); }
    if KindAt(s.owner, pos) == Basic {
      BasicExtends(s, pos, bytes);
    } else {
      HighQuiet(s, pos, bytes);
      ExtendsSame(s, WriteChunk(s, pos, bytes));
    }
  }

  lemma GoodSize(s: Vdev, caps: set<Cap>)
    requires Good(s, caps)
    ensures 64 <= |s.vconfig| == |s.hw|
  {
  }

  lemma BasicExtends(s: Vdev, pos: nat, bytes: seq<byte>)
    requires KindAt(s.owner, pos) == Basic && 64 <= |s.vconfig| == |s.hw|
    ensures Extends(s, WriteChunk(s, pos, bytes))
  {
    var d := BasicStored(s, pos, bytes);
    var t := WriteChunk(s, pos, bytes);
    BasicHandled(s, pos, bytes);
    hide WriteChunk, KindAt, StartOf, Extends, BasicStored, BasicWrite, IntxFollow;
    BasicStages(s, pos, bytes);
    StoredBit(s, pos, bytes);
    ExtendsSame(s, d);
    FollowExtends(d);
    var u := if Commanding(pos) then IntxFollow(d) else d;
    ExtendsSame(d, d);
    ExtendsJoin(s, d, u);
    ExtendsSame(u, t);
    ExtendsJoin(s, u, t);
  }

  lemma BasicHandled(s: Vdev, pos: nat, bytes: seq<byte>)
    requires KindAt(s.owner, pos) == Basic
    ensures WriteChunk(s, pos, bytes) == BasicWrite(s, pos, bytes)
  {
    hide KindAt, StartOf, BasicWrite;
  }

  lemma {:induction false} WriteExtends(s: Vdev, caps: set<Cap>, pos: nat, bytes: seq<byte>)
    requires Good(s, caps) && pos + |bytes| <= |s.owner|
    ensures Extends(s, WriteAccess(s, pos, bytes))
    decreases |bytes|
  {
    hide Good, WriteChunk, ChunkLen, Extends;
    if bytes == [] {
      ExtendsSame(s, s);
    } else {
      var n := ChunkLen(s.owner, pos, |bytes|);
      var t := WriteChunk(s, pos, bytes[..n]);
      WriteFrame(s, pos, bytes[..n]);
      GoodFramed(s, t, caps);
      ChunkExtends(s, caps, pos, bytes[..n]);
      WriteExtends(t, caps, pos + n, bytes[n..]);
      ExtendsJoin(s, t, WriteAccess(t, pos + n, bytes[n..]));
    }
  }

  lemma ConfigExtends(s: Vdev, caps: set<Cap>, e: G.Event)
    requires Good(s, caps)
    ensures Extends(s, G.Step(s, e))
  {
    hide Good, ReadAccess, WriteAccess, Extends, G.Settled;
    match e {
      case GuestRead(pos, count) => ReadCommand(s, pos, count); ExtendsSame(s, G.Step(s, e));
      case GuestWrite(pos, bytes) =>
        if pos + |bytes| <= |s.owner| { WriteExtends(s, caps, pos, bytes); } else { ExtendsSame(s, s); }
      case HwChange(values) => ExtendsSame(s, G.Step(s, e));
      case IrqMode(msiMode, qmax) => ExtendsSame(s, G.Step(s, e));
    }
  }

  // ---------------------------------------------------------------- the calls replayed

  // What replayed calls leave as it is.
  predicate SameSetup(k: I.Irqs, m: I.Irqs) { m.mode == k.mode && m.qmax == k.qmax && |m.ctx| == |k.ctx| }

  lemma DrivenIs(k: I.Irqs, asserted: bool)
    ensures Driven(k, if k.virqDisabled then IntxUnmask else IntxMask, asserted) == I.GuestDisable(k, !k.virqDisabled, asserted)
  {
    hide I.Mask, I.Unmask;
  }

  // ... and what masking and signalling leave.
  predicate Quiet(k: I.Irqs, m: I.Irqs) { SameSetup(k, m) && m.virqDisabled == k.virqDisabled }

  lemma SetMaskedQuiet(k: I.Irqs)
    ensures forall masked :: Quiet(k, I.SetMasked(k, masked))
  {
  }

  lemma DeliverQuiet(k: I.Irqs)
    ensures Quiet(k, I.Deliver(k))
  {
  }

  lemma MaskQuiet(k: I.Irqs)
    ensures Quiet(k, I.Mask(k))
  {
    SetMaskedQuiet(k.(disIntx := true));
    SetMaskedQuiet(k.(depth := k.depth + 1));
    hide I.SetMasked;
  }

  lemma HandlerQuiet(k: I.Irqs, asserted: bool)
    ensures Quiet(k, I.Handler(k, asserted))
  {
    SetMaskedQuiet(k.(disIntx := true));
    SetMaskedQuiet(k.(depth := k.depth + 1));
    hide I.SetMasked, I.Deliver;
    DeliverQuiet(I.SetMasked(k.(disIntx := true), true));
    DeliverQuiet(I.SetMasked(k.(depth := k.depth + 1), true));
  }

  lemma UnmaskHandlerQuiet(k: I.Irqs, asserted: bool)
    ensures Quiet(k, I.UnmaskHandler(k, asserted).0)
  {
    hide I.SetMasked, Quiet;
    var u := k.(unmasks := k.unmasks + 1);
    SetMaskedQuiet(u);
    SetMaskedQuiet(u.(disIntx := false));
    SetMaskedQuiet(u.(depth := I.Enabled(k.depth)));
    QuietFrom(k, u);
  }

  // Counting, the hardware mask and the disable depth do not show.
  lemma QuietFrom(k: I.Irqs, u: I.Irqs)
    requires u == k.(unmasks := u.unmasks)
    ensures Quiet(k, u) && forall m :: Quiet(u, m) ==> Quiet(k, m)
    ensures forall m :: Quiet(u.(disIntx := false), m) ==> Quiet(k, m)
    ensures forall m :: Quiet(u.(depth := I.Enabled(k.depth)), m) ==> Quiet(k, m)
    ensures Quiet(k, u.(disIntx := false))
  {
  }

  lemma UnmaskQuiet(k: I.Irqs, asserted: bool)
    ensures Quiet(k, I.Unmask(k, asserted))
  {
    UnmaskHandlerQuiet(k, asserted);
    DeliverQuiet(I.UnmaskHandler(k, asserted).0);
    hide I.UnmaskHandler, I.Deliver;
  }

  lemma DrivenKeeps(k: I.Irqs, call: IrqCall, asserted: bool)
    ensures var m := Driven(k, call, asserted); SameSetup(k, m) && m.virqDisabled == (call == IntxMask)
  {
    MaskQuiet(k.(virqDisabled := true));
    UnmaskQuiet(k.(virqDisabled := false), asserted);
    hide I.Mask, I.Unmask;
  }

  lemma {:induction false} ReplayOk(k: I.Irqs, calls: seq<IrqCall>, asserted: seq<bool>, now: bool)
    requires S.Coherent(k) && Alternating(calls, k.virqDisabled, now)
    ensures var m := Replay(k, calls, asserted); S.Coherent(m) && SameSetup(k, m) && m.virqDisabled == now
    decreases |calls|
  {
    hide S.Coherent, Driven, I.GuestDisable;
    if calls != [] {
      var m := Driven(k, calls[0], I.BoolAt(asserted, 0));
      DrivenIs(k, I.BoolAt(asserted, 0));
      DrivenKeeps(k, calls[0], I.BoolAt(asserted, 0));
      S.CommandCoherent(k, !k.virqDisabled, I.BoolAt(asserted, 0));
      ReplayOk(m, calls[1..], if asserted == [] then [] else asserted[1..], now);
    }
  }

  // ---------------------------------------------------------------- what the interrupt code leaves alone

  // The queue maximum is as it was, or that of `nvec` vectors just enabled.
  predicate QueueSet(k: I.Irqs, m: I.Irqs, nvec: nat) {
    m.virqDisabled == k.virqDisabled && (m.qmax == k.qmax || (nvec > 0 && m.qmax == I.Fls(2 * nvec - 1) - 1))
  }

  lemma BlockKeepsQueue(k: I.Irqs, start: nat, count: nat, fds: seq<int>, hosts: seq<I.Host>)
    requires S.VectorsOk(k)
    ensures |k.ctx| == |k.vectors|
    ensures var m := I.SetBlock(k, start, count, fds, hosts).0; m.qmax == k.qmax && m.virqDisabled == k.virqDisabled
  {
    assert |k.ctx| == |k.vectors|;
    hide S.VectorsOk, I.SetBlock;
    S.BlockOutcome(k, start, count, fds, hosts);
  }

  lemma DisableKeepsQueue(k: I.Irqs)
    requires S.VectorsOk(k)
    ensures |k.ctx| == |k.vectors|
    ensures var m := I.MsiDisable(k); m.qmax == k.qmax && m.virqDisabled == k.virqDisabled
  {
    BlockKeepsQueue(k, 0, |k.ctx|, [], []);
    hide S.VectorsOk, I.SetBlock;
  }

  lemma EnableQueue(k: I.Irqs, nvec: nat, msix: bool, mem: bool, got: int)
    requires S.Coherent(k)
    ensures var e := I.MsiEnable(k, nvec, msix, mem, got);
      QueueSet(k, e.0, if msix then 0 else nvec) && (e.1 == 0 ==> S.VectorsOk(e.0))
  {
    S.MsiEnableCoherent(k, nvec, msix, mem, got);
    hide S.Held, I.Fls, I.Repeat;
  }

  // In MSI mode already.
  lemma MsiModeQueue(k: I.Irqs, msix: bool, start: nat, count: nat, data: I.Data, env: I.Env)
    requires S.Coherent(k) && k.mode == I.Mode4(msix)
    ensures k.Shaped() && QueueSet(k, I.SetMsiTrigger(k, msix, start, count, data, env).0, 0)
  {
    assert S.VectorsOk(k);
    S.ShapedOf(k);
    hide S.Coherent, S.VectorsOk, I.SetBlock, I.MsiDisable, I.Loopback, I.Fls;
    DisableKeepsQueue(k);
    LoopbackKeepsQueue(k, start, start, (start + count) % I.U32, data);
    if data.DataEventfd? { BlockKeepsQueue(k, start, count, data.fds, env.hosts); }
  }

  // Enabling, and disabling again if the block fails.
  lemma MsiEnableQueue(k: I.Irqs, msix: bool, start: nat, count: nat, fds: seq<int>, env: I.Env)
    requires S.Coherent(k) && k.mode == I.NoIrq
    ensures k.Shaped()
    ensures QueueSet(k, I.SetMsiTrigger(k, msix, start, count, I.DataEventfd(fds), env).0, if msix then 0 else (start + count) % I.U32)
  {
    hide S.Coherent, S.VectorsOk, I.SetBlock, I.MsiEnable, I.MsiDisable, I.Fls;
    var nvec := (start + count) % I.U32;
    var e := I.MsiEnable(k, nvec, msix, env.mem, env.got);
    S.ShapedOf(k);
    EnableQueue(k, nvec, msix, env.mem, env.got);
    if e.1 == 0 {
      BlockThenDisable(e.0, start, count, fds, env.hosts);
    }
  }

  lemma BlockThenDisable(k: I.Irqs, start: nat, count: nat, fds: seq<int>, hosts: seq<I.Host>)
    requires S.VectorsOk(k)
    ensures |k.ctx| == |k.vectors|
    ensures var m := I.SetBlock(k, start, count, fds, hosts).0;
      && m.qmax == k.qmax && m.virqDisabled == k.virqDisabled
      && |m.ctx| == |m.vectors| && I.MsiDisable(m).qmax == k.qmax && I.MsiDisable(m).virqDisabled == k.virqDisabled
  {
    S.VectorsShape(k);
    hide S.VectorsOk, I.SetBlock, I.MsiDisable;
    BlockKeepsQueue(k, start, count, fds, hosts);
    S.BlockOutcome(k, start, count, fds, hosts);
    DisableKeepsQueue(I.SetBlock(k, start, count, fds, hosts).0);
  }

  lemma MsiQueue(k: I.Irqs, msix: bool, start: nat, count: nat, data: I.Data, env: I.Env)
    requires S.Coherent(k)
    ensures k.Shaped()
    ensures QueueSet(k, I.SetMsiTrigger(k, msix, start, count, data, env).0, if msix then 0 else (start + count) % I.U32)
  {
    S.ShapedOf(k);
    if k.mode == I.Mode4(msix) {
      MsiModeQueue(k, msix, start, count, data, env);
      hide I.SetMsiTrigger, I.Fls, S.Coherent;
    } else if k.mode == I.NoIrq && data.DataEventfd? {
      MsiEnableQueue(k, msix, start, count, data.fds, env);
      hide I.SetMsiTrigger, I.Fls, S.Coherent;
    } else {
      hide I.Fls, S.Coherent, I.SetBlock, I.MsiEnable, I.MsiDisable, I.Loopback;
    }
  }

  lemma {:induction false} LoopbackKeepsQueue(k: I.Irqs, start: nat, i: nat, end: nat, data: I.Data)
    ensures var m := I.Loopback(k, start, i, end, data); m.qmax == k.qmax && m.virqDisabled == k.virqDisabled
    decreases end - i
  {
    if i < end && i < |k.ctx| {
      var chosen := data.DataNone? || (data.DataBool? && i >= start && I.BoolAt(data.bools, i - start));
      LoopbackKeepsQueue(if chosen then I.Signalled(k, k.ctx[i].trigger) else k, start, i + 1, end, data);
    }
  }

  lemma FreeLineKeepsQueue(k: I.Irqs)
    requires |k.ctx| == 1
    ensures var m := I.IntxFree(k); |m.ctx| == 1 && m.qmax == k.qmax && m.virqDisabled == k.virqDisabled
  {
  }

  lemma LineKeepsQueue(k: I.Irqs, fd: int, host: I.Host)
    requires |k.ctx| == 1
    ensures var m := I.IntxSetSignal(k, fd, host).0; |m.ctx| == 1 && m.qmax == k.qmax && m.virqDisabled == k.virqDisabled
    ensures var m := I.IntxDisable(k); m.qmax == k.qmax && m.virqDisabled == k.virqDisabled
  {
    FreeLineKeepsQueue(k);
    S.SignalMoves(k, fd, host);
    hide I.IntxFree, I.IntxSetSignal;
  }

  lemma EnableLineKeepsQueue(k: I.Irqs, mem: bool)
    ensures var e := I.IntxEnable(k, mem); e.0.qmax == k.qmax && e.0.virqDisabled == k.virqDisabled && (e.1 == 0 ==> |e.0.ctx| == 1)
  {
  }

  lemma SendKeepsQueue(k: I.Irqs)
    ensures var m := I.SendIntx(k); m.qmax == k.qmax && m.virqDisabled == k.virqDisabled
  {
  }

  lemma IntxQueue(k: I.Irqs, start: nat, count: nat, data: I.Data, env: I.Env)
    requires k.Shaped()
    ensures QueueSet(k, I.SetIntxTrigger(k, start, count, data, env).0, 0)
  {
    hide I.Fls, I.IntxSetSignal, I.IntxDisable, I.IntxEnable, I.SendIntx;
    SendKeepsQueue(k);
    var fd, host := if data.DataEventfd? then I.FdAt(data.fds, 0) else 0, I.HostAt(env.hosts, 0);
    if k.mode == I.Intx {
      LineKeepsQueue(k, fd, host);
    } else {
      var e := I.IntxEnable(k, env.mem);
      EnableLineKeepsQueue(k, env.mem);
      if e.1 == 0 {
        LineKeepsQueue(e.0, fd, host);
        LineKeepsQueue(I.IntxSetSignal(e.0, fd, host).0, fd, host);
      }
    }
  }

  lemma SingleKeepsQueue(k: I.Irqs, start: nat, count: nat, data: I.Data, env: I.Env)
    ensures QueueSet(k, I.SetErr(k, start, count, data, env).0, 0) && QueueSet(k, I.SetReq(k, start, count, data, env).0, 0)
  {
    hide I.Fls, I.SetSingle;
  }

  lemma MaskQueue(k: I.Irqs, start: nat, count: nat, data: I.Data, env: I.Env)
    ensures QueueSet(k, I.SetIntxMask(k, start, count, data).0, 0) && QueueSet(k, I.SetIntxUnmask(k, start, count, data, env).0, 0)
  {
    MaskQuiet(k);
    UnmaskQuiet(k, env.asserted);
    hide I.Mask, I.Unmask, I.Fls;
  }

  lemma IoctlQueue(k: I.Irqs, index: I.Index, action: I.Action, start: nat, count: nat, data: I.Data, env: I.Env)
    requires S.Coherent(k)
    ensures k.Shaped()
    ensures QueueSet(k, I.Ioctl(k, index, action, start, count, data, env).0, if index == I.MsiIndex then (start + count) % I.U32 else 0)
  {
    S.ShapedOf(k);
    hide S.Coherent, I.SetIntxTrigger, I.SetMsiTrigger, I.SetIntxMask, I.SetIntxUnmask, I.SetErr, I.SetReq, I.Fls;
    match index {
      case IntxIndex => MaskQueue(k, start, count, data, env); IntxQueue(k, start, count, data, env);
      case MsiIndex => MsiQueue(k, false, start, count, data, env);
      case MsixIndex => MsiQueue(k, true, start, count, data, env);
      case _ => SingleKeepsQueue(k, start, count, data, env);
    }
  }

  // ---------------------------------------------------------------- the invariant

  // The two halves agree on everything they share.
  predicate Synced(dev: Vdev, irq: I.Irqs) {
    && dev.virqDisabled == irq.virqDisabled && dev.msiMode == (irq.mode == I.Msi)
    && Num(dev.qmax) == irq.qmax && irq.qmax <= 7
  }

  ghost predicate Inv(j: Joint, caps: set<Cap>) {
    G.Steady(j.dev, caps) && S.Coherent(j.irq) && Synced(j.dev, j.irq)
  }

  lemma ByteIs(n: nat)
    requires n <= 7
    ensures Num(Byte(n)) == n && Byte(n) <= 7
  {
  }

  lemma CountBound(j: Joint)
    ensures MsiCount(j) <= 128
  {
    SizeField(At(j.dev.hw, j.msiCap + 2));
    S.PowGrows(Num((At(j.dev.hw, j.msiCap + 2) & 0x0E) >> 1), 7);
    assert S.Pow2(7) == 128;
  }

  lemma SizeField(b: byte)
    ensures Num((b & 0x0E) >> 1) <= 7
  {
    var f := (b & 0x0E) >> 1;
    assert f <= 7;
  }

  lemma QueueBound(nvec: nat)
    requires 0 < nvec <= 128
    ensures I.Fls(2 * nvec - 1) - 1 <= 7
  {
    assert S.Pow2(7) == 128;
    S.QueueSize(nvec, 7);
  }

  lemma ConfigInv(j: Joint, caps: set<Cap>, c: G.Event, asserted: seq<bool>)
    requires Inv(j, caps) && !c.IrqMode?
    ensures j.irq.Shaped() && Inv(Step(j, Config(c, asserted)), caps)
  {
    var t := G.Step(j.dev, c);
    S.ShapedOf(j.irq);
    hide G.Steady, S.Coherent, Replay, G.Step;
    G.SteadyGood(j.dev, caps);
    G.StepSteady(j.dev, caps, c);
    ConfigExtends(j.dev, caps, c);
    ReplayOk(j.irq, NewCalls(j.dev, t), asserted, t.virqDisabled);
    ConfigKeepsMode(j.dev, c);
  }

  lemma ConfigKeepsMode(s: Vdev, c: G.Event)
    requires !c.IrqMode?
    ensures var t := G.Step(s, c); t.msiMode == s.msiMode && t.qmax == s.qmax
  {
    hide ReadAccess, WriteAccess, G.Settled;
    match c {
      case GuestRead(pos, count) => ReadKeepsMode(s, pos, count);
      case GuestWrite(pos, bytes) => WriteKeepsMode(s, pos, bytes);
      case _ =>
    }
  }

  lemma {:induction false} ReadKeepsMode(s: Vdev, pos: nat, count: nat)
    ensures var t := ReadAccess(s, pos, count).0; t.msiMode == s.msiMode && t.qmax == s.qmax
    decreases count
  {
    hide ReadPrep, ChunkLen, ReadBytes;
    if count > 0 {
      var n := ChunkLen(s.owner, pos, count);
      ReadPrepFrame(s, pos, n);
      ReadKeepsMode(ReadPrep(s, pos, n), pos + n, count - n);
    }
  }

  lemma {:induction false} WriteKeepsMode(s: Vdev, pos: nat, bytes: seq<byte>)
    ensures var t := WriteAccess(s, pos, bytes); t.msiMode == s.msiMode && t.qmax == s.qmax
    decreases |bytes|
  {
    hide WriteChunk, ChunkLen;
    if bytes != [] {
      var n := ChunkLen(s.owner, pos, |bytes|);
      WriteFrame(s, pos, bytes[..n]);
      WriteKeepsMode(WriteChunk(s, pos, bytes[..n]), pos + n, bytes[n..]);
    }
  }

  lemma DeliveryInv(j: Joint, caps: set<Cap>, d: I.Event)
    requires Inv(j, caps) && Admitted(j, d)
    ensures j.irq.Shaped() && Inv(Step(j, Delivery(d)), caps)
  {
    S.ShapedOf(j.irq);
    var k := I.Step(j.irq, d);
    S.StepCoherent(j.irq, d);
    DeliveryQueue(j, caps, d);
    hide G.Steady, S.Coherent, I.Step, Byte, Admitted;
    ByteIs(k.qmax);
    G.StepSteady(j.dev, caps, Mode(k));
  }

  lemma AdmittedQueue(j: Joint, caps: set<Cap>, d: I.Event)
    requires Inv(j, caps) && Admitted(j, d) && d.CallIoctl?
    ensures j.irq.Shaped()
    ensures var k := I.Ioctl(j.irq, d.index, d.action, d.start, d.count, d.data, d.env).0; k.virqDisabled == j.irq.virqDisabled && k.qmax <= 7
  {
    hide Inv, S.Coherent, I.Ioctl, I.Fls, MsiCount, Synced, S.Conserved, Good;
    InvParts(j, caps);
    IoctlQueue(j.irq, d.index, d.action, d.start, d.count, d.data, d.env);
    CountBound(j);
    if d.index == I.MsiIndex && 0 < d.start + d.count {
      assert (d.start + d.count) % I.U32 == d.start + d.count;
      QueueBound(d.start + d.count);
    }
    assert j.irq.qmax <= 7 by { SyncedBound(j); }
  }

  lemma SyncedBound(j: Joint)
    requires Synced(j.dev, j.irq)
    ensures j.irq.qmax <= 7
  {
  }

  lemma DeliveryQueue(j: Joint, caps: set<Cap>, d: I.Event)
    requires Inv(j, caps) && Admitted(j, d)
    ensures j.irq.Shaped() && var k := I.Step(j.irq, d); k.virqDisabled == j.irq.virqDisabled && k.qmax <= 7
  {
    S.ShapedOf(j.irq);
    hide G.Steady, S.Coherent, I.Ioctl, MsiCount, I.Unmask, I.Handler;
    match d {
      case CallIoctl(_, _, _, _, _, _) => AdmittedQueue(j, caps, d);
      case LineFires(asserted) => HandlerQuiet(j.irq, asserted);
      case UnmaskEventfd(asserted) => UnmaskQuiet(j.irq, asserted);
      case VectorFires(_) =>
    }
  }

  lemma StepInv(j: Joint, caps: set<Cap>, e: Event)
    requires Inv(j, caps)
    ensures j.irq.Shaped() && Inv(Step(j, e), caps)
  {
    S.ShapedOf(j.irq);
    hide Inv, I.Step, G.Step, Replay, Admitted;
    match e {
      case Config(c, asserted) => if !c.IrqMode? { ConfigInv(j, caps, c, asserted); }
      case Delivery(d) => if Admitted(j, d) { DeliveryInv(j, caps, d); }
    }
  }

  // ---------------------------------------------------------------- every run

  // `t` is reached from `j` by the events `es`.
  ghost predicate Reaches(j: Joint, es: seq<Event>, t: Joint)
    decreases |es|
  {
    if es == [] then t == j else j.irq.Shaped() && Reaches(Step(j, es[0]), es[1..], t)
  }

  lemma {:induction false} RunInv(j: Joint, caps: set<Cap>, es: seq<Event>, t: Joint)
    requires Inv(j, caps) && Reaches(j, es, t)
    ensures Inv(t, caps)
    decreases |es|
  {
    hide Inv, Step;
    if es != [] {
      StepInv(j, caps, es[0]);
      RunInv(Step(j, es[0]), caps, es[1..], t);
    }
  }

  // A device as opened.
  function Start(x: Plugged, pci23: bool, wired: bool, pcie: bool, msiCap: nat): Joint
    requires x.dev.Valid()
  {
    Joint(Opened(x), I.Fresh(pci23, x.func.nointx, wired, pcie), msiCap)
  }

  // In every run from opening on, configuration space and interrupt code agree on the guest's INTx
  // bit, on whether MSI is on and on the queue maximum, and each keeps its own invariant.
  lemma EveryRun(x: Plugged, ps: seq<nat>, es: seq<nat>, pci23: bool, wired: bool, pcie: bool, msiCap: nat, run: seq<Event>, t: Joint)
    requires WellFormed(x, ps, es) && Reaches(Start(x, pci23, wired, pcie, msiCap), run, t)
    ensures Synced(t.dev, t.irq) && G.Steady(t.dev, x.Caps(ps, es)) && S.Coherent(t.irq)
  {
    StartInv(x, ps, es, pci23, wired, pcie, msiCap);
    RunInv(Start(x, pci23, wired, pcie, msiCap), x.Caps(ps, es), run, t);
    hide WellFormed, Opened, G.Steady, S.Coherent, Start, Reaches;
  }

  lemma StartInv(x: Plugged, ps: seq<nat>, es: seq<nat>, pci23: bool, wired: bool, pcie: bool, msiCap: nat)
    requires WellFormed(x, ps, es)
    ensures Inv(Start(x, pci23, wired, pcie, msiCap), x.Caps(ps, es))
  {
    hide *;
    OpenedSteady(x, ps, es);
    S.FreshCoherent(pci23, x.func.nointx, wired, pcie);
    StartSynced(x, ps, es, pci23, wired, pcie, msiCap);
    InvOf(Start(x, pci23, wired, pcie, msiCap), x.Caps(ps, es));
  }

  lemma InvOf(j: Joint, caps: set<Cap>)
    requires G.Steady(j.dev, caps) && S.Coherent(j.irq) && Synced(j.dev, j.irq)
    ensures Inv(j, caps)
  {
  }

  lemma StartSynced(x: Plugged, ps: seq<nat>, es: seq<nat>, pci23: bool, wired: bool, pcie: bool, msiCap: nat)
    requires WellFormed(x, ps, es)
    ensures x.dev.Valid()
    ensures var j := Start(x, pci23, wired, pcie, msiCap);
      j.dev == Opened(x) && j.irq == I.Fresh(pci23, x.func.nointx, wired, pcie) && Synced(j.dev, j.irq)
  {
    hide Formed, Plugged.Built, SavedBars;
  }

  // ---------------------------------------------------------------- the run of configuration space

  // A write of COMMAND among the events.
  predicate Writes(e: Event, size: nat) { e.Config? && Adjusts(e.access, size) }

  // What configuration space sees of a joint run is a run of its own.
  lemma {:induction false} Projected(j: Joint, es: seq<Event>, t: Joint, size: nat) returns (cs: seq<G.Event>)
    requires Reaches(j, es, t)
    ensures t.dev == G.Run(j.dev, cs)
    ensures (exists c :: c in cs && Adjusts(c, size)) <==> exists e :: e in es && Writes(e, size)
    decreases |es|
  {
    hide G.Step, I.Step, Replay, Admitted, Adjusts;
    if es == [] {
      cs := [];
    } else {
      var first := ProjectedStep(j, es[0], size);
      var rest := Projected(Step(j, es[0]), es[1..], t, size);
      cs := first + rest;
      RunJoin(j.dev, first, rest);
      hide Step, Writes;
      assert forall c :: c in cs <==> c in first || c in rest;
      assert forall e :: e in es <==> e == es[0] || e in es[1..];
    }
  }

  lemma ProjectedStep(j: Joint, e: Event, size: nat) returns (cs: seq<G.Event>)
    requires j.irq.Shaped()
    ensures Step(j, e).dev == G.Run(j.dev, cs)
    ensures (exists c :: c in cs && Adjusts(c, size)) <==> Writes(e, size)
  {
    hide G.Step, I.Step, Replay, Admitted;
    match e {
      case Config(c, _) =>
        if c.IrqMode? { cs := []; } else { cs := [c]; RunOne(j.dev, c); assert c in cs; }
      case Delivery(d) =>
        if Admitted(j, d) { cs := [Mode(I.Step(j.irq, d))]; RunOne(j.dev, cs[0]); } else { cs := []; }
    }
  }

  lemma RunOne(s: Vdev, c: G.Event)
    ensures G.Run(s, [c]) == G.Step(s, c)
  {
    assert [c][1..] == [];
    hide G.Step;
  }

  lemma {:induction false} RunJoin(s: Vdev, a: seq<G.Event>, b: seq<G.Event>)
    ensures G.Run(s, a + b) == G.Run(G.Run(s, a), b)
    decreases |a|
  {
    hide G.Step;
    if a == [] {
      assert a + b == b;
    } else {
      assert (a + b)[1..] == a[1..] + b;
      RunJoin(G.Step(s, a[0]), a[1..], b);
    }
  }

  // In every run, the interrupt code has INTx disabled as the guest's bit says exactly if hardware
  // had it enabled at opening or the guest has written COMMAND since.
  lemma InterruptsFollow(x: Plugged, ps: seq<nat>, es: seq<nat>, pci23: bool, wired: bool, pcie: bool, msiCap: nat, run: seq<Event>, t: Joint)
    requires WellFormed(x, ps, es) && Reaches(Start(x, pci23, wired, pcie, msiCap), run, t)
    ensures t.irq.virqDisabled == (DisableBit(t.dev) != 0) <==>
      At(x.hw, COMMAND + 1) & INTX_DISABLE == 0 || exists e :: e in run && Writes(e, |x.hw|)
  {
    EveryRun(x, ps, es, pci23, wired, pcie, msiCap, run, t);
    hide Reaches, WellFormed, G.Steady, S.Coherent, Opened, Adjusts, Writes, At, Plugged.Caps;
    var cs := Projected(Start(x, pci23, wired, pcie, msiCap), run, t, |x.hw|);
    FollowsExactly(x, ps, es, cs);
  }

  // ---------------------------------------------------------------- the MSI queue

  // The queue size field of the MSI flags.
  function QueueField(flags: byte): nat { Num((flags & 0x70) >> 4) }

  // The MSI flags keep to what the interrupt code set up: MSI is enabled only in MSI mode, and in MSI
  // mode the guest uses fewer than twice the vectors there are.
  predicate FlagsKeep(j: Joint, c: Cap) {
    var flags := At(j.dev.vconfig, c.start + 2);
    && FlagsAgree(j.dev, c.start) && (flags & 0x01 != 0 ==> j.irq.mode == I.Msi)
    && (j.irq.mode == I.Msi ==> S.Pow2(QueueField(flags)) < 2 * |j.irq.ctx|)
  }

  // In every run, after a guest write of any shape that covers the MSI flags, both copies of them
  // agree and keep to what the interrupt code set up.
  lemma QueueInEveryRun(x: Plugged, ps: seq<nat>, es: seq<nat>, pci23: bool, wired: bool, pcie: bool, msiCap: nat, run: seq<Event>, j: Joint,
                        c: Cap, pos: nat, bytes: seq<byte>, asserted: seq<bool>)
    requires WellFormed(x, ps, es) && Reaches(Start(x, pci23, wired, pcie, msiCap), run, j)
    requires c in x.Caps(ps, es) && IsMsi(c) && pos + |bytes| <= |j.dev.owner| && CoversByte(pos, |bytes|, c.start + 2)
    ensures j.irq.Shaped() && FlagsKeep(Step(j, Config(G.GuestWrite(pos, bytes), asserted)), c)
  {
    hide *;
    EveryRun(x, ps, es, pci23, wired, pcie, msiCap, run, j);
    InvOf(j, x.Caps(ps, es));
    QueueWithinVectors(j, x.Caps(ps, es), c, pos, bytes, asserted);
  }

  lemma QueueWithinVectors(j: Joint, caps: set<Cap>, c: Cap, pos: nat, bytes: seq<byte>, asserted: seq<bool>)
    requires Inv(j, caps) && c in caps && IsMsi(c) && pos + |bytes| <= |j.dev.owner| && CoversByte(pos, |bytes|, c.start + 2)
    ensures j.irq.Shaped() && FlagsKeep(Step(j, Config(G.GuestWrite(pos, bytes), asserted)), c)
  {
    var e := Config(G.GuestWrite(pos, bytes), asserted);
    StepInv(j, caps, e);
    InvParts(j, caps);
    var t := Step(j, e);
    assert t.dev == WriteAccess(j.dev, pos, bytes);
    hide *;
    InvParts(t, caps);
    PendingCovered(j.dev, c, pos, |bytes|);
    MsiAccessAgrees(j.dev, caps, c, pos, bytes);
    SettledFits(t, c);
  }

  lemma InvParts(j: Joint, caps: set<Cap>)
    requires Inv(j, caps)
    ensures Good(j.dev, caps) && Synced(j.dev, j.irq) && S.Coherent(j.irq) && j.irq.Shaped()
  {
    G.SteadyGood(j.dev, caps);
    S.ShapedOf(j.irq);
    hide G.Steady, S.Coherent, Good;
  }

  lemma PendingCovered(s: Vdev, c: Cap, pos: nat, count: nat)
    requires CoversByte(pos, count, c.start + 2)
    ensures FlagsPending(s, c, pos, count)
  {
    hide FlagsSettled;
  }

  lemma SettledFits(j: Joint, c: Cap)
    requires FlagsSettled(j.dev, c) && Synced(j.dev, j.irq) && S.Coherent(j.irq)
    ensures FlagsKeep(j, c)
  {
    hide FlagsAgree, S.Coherent, At;
    S.VectorsCoherent(j.irq);
    if j.irq.mode == I.Msi {
      FieldBelow(At(j.dev.vconfig, c.start + 2), j.dev.qmax);
      S.QueueSize(|j.irq.ctx|, QueueField(At(j.dev.vconfig, c.start + 2)));
    }
    hide I.Fls, S.Pow2, QueueField;
  }

  lemma FieldBelow(flags: byte, qmax: byte)
    requires (flags & 0x70) >> 4 <= qmax
    ensures QueueField(flags) <= Num(qmax)
  {
  }
}
