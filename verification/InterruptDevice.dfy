/** The interrupt fields of struct vfio_pci_device and the functions of device/vfio_pci_intrs.c that
    update them, proved against the functions of Interrupts. */
module InterruptDevice {
  import opened Interrupts

  class VfioPciIrqs {
    const pci23: bool
    const nointx: bool
    const wired: bool
    const pcie: bool
    var mode: Mode           // irq_type
    var ctx: seq<Ctx>        // ctx[0 .. num_ctx)
    var virqDisabled: bool
    var qmax: nat
    var disIntx: bool
    var depth: nat
    var requested: bool
    var vectors: seq<bool>
    var err: Trigger
    var req: Trigger
    var taken: nat
    var released: nat
    var log: seq<nat>
    var sent: nat
    var unmasks: nat

    ghost function State(): Irqs
      reads this
    {
      Irqs(pci23, nointx, wired, pcie, mode, ctx, virqDisabled, qmax, disIntx, depth, requested, vectors,
           err, req, taken, released, log, sent, unmasks)
    }

    constructor (pci23: bool, nointx: bool, wired: bool, pcie: bool)
      ensures State() == Fresh(pci23, nointx, wired, pcie)
    {
      this.pci23, this.nointx, this.wired, this.pcie := pci23, nointx, wired, pcie;
      mode, ctx, virqDisabled, qmax, disIntx, depth, requested, vectors := NoIrq, [], false, 0, nointx, 0, false, [];
      err, req, taken, released, log, sent, unmasks := NoTrigger, NoTrigger, 0, 0, [], 0, 0;
    }

    // ---------------------------------------------------------------- INTx

    // eventfd_signal
    method Signal(t: Trigger)
      modifies `log
      ensures State() == Signalled(old(State()), t)
    {
      if t.Eventfd? {
        log := log + [t.id];
      }
    }

    method MarkMasked(masked: bool)
      requires |ctx| == 1
      modifies `ctx
      ensures State() == SetMasked(old(State()), masked)
    {
      ctx := [ctx[0].(masked := masked)];
    }

    // vfio_send_intx_eventfd
    method SendIntxEventfd()
      requires mode == Intx ==> |ctx| == 1
      modifies `log
      ensures State() == SendIntx(old(State()))
    {
      if mode == Intx && !virqDisabled {
        Signal(ctx[0].trigger);
      }
    }

    // The same, counted as a delivery of the handler or of unmasking.
    method DeliverIntx()
      requires mode == Intx ==> |ctx| == 1
      modifies `log, `sent
      ensures State() == Deliver(old(State()))
    {
      var before := |log|;
      SendIntxEventfd();
      if |log| != before {
        sent := sent + 1;
      }
    }

    // vfio_pci_intx_mask
    method IntxMask()
      requires mode == Intx ==> |ctx| == 1
      modifies `ctx, `disIntx, `depth
      ensures State() == Mask(old(State()))
    {
      if mode != Intx {
        if pci23 {
          disIntx := true;
        }
      } else if !ctx[0].masked {
        if pci23 {
          disIntx := true;
        } else {
          depth := depth + 1; // disable_irq_nosync
        }
        MarkMasked(true);
      }
    }

    // vfio_pci_intx_unmask_handler; `asserted` is the line as pci_check_and_unmask_intx finds it.
    method IntxUnmaskHandler(asserted: bool) returns (again: bool)
      requires mode == Intx ==> |ctx| == 1
      modifies `ctx, `disIntx, `depth, `unmasks
      ensures (State(), again) == UnmaskHandler(old(State()), asserted)
    {
      again := false;
      unmasks := unmasks + 1;
      if mode != Intx {
        if pci23 {
          disIntx := false;
        }
      } else if ctx[0].masked && !virqDisabled {
        if pci23 {
          if asserted {
            again := true;
          } else {
            disIntx := false;
          }
        } else {
          depth := Enabled(depth); // enable_irq
        }
        MarkMasked(again);
      }
    }

    // vfio_pci_intx_unmask
    method IntxUnmask(asserted: bool)
      requires mode == Intx ==> |ctx| == 1
      modifies `ctx, `disIntx, `depth, `unmasks, `log, `sent
      ensures State() == Unmask(old(State()), asserted)
    {
      hide UnmaskHandler, Deliver;
      UnmaskShape(State(), asserted);
      var again := IntxUnmaskHandler(asserted);
      if again {
        DeliverIntx();
      }
    }

    // vfio_intx_handler
    method IntxHandler(asserted: bool)
      requires mode == Intx && |ctx| == 1
      modifies `ctx, `disIntx, `depth, `log, `sent
      ensures State() == Handler(old(State()), asserted)
    {
      hide Deliver;
      var handled := false;
      if !pci23 {
        depth := depth + 1;
        MarkMasked(true);
        handled := true;
      } else if !ctx[0].masked && asserted {
        disIntx := true;
        MarkMasked(true);
        handled := true;
      }
      if handled {
        DeliverIntx();
      }
    }

    // The end of vfio_basic_config_write: the guest's INTx disable bit is `disable`.
    method GuestCommandWrite(disable: bool, asserted: bool)
      requires mode == Intx ==> |ctx| == 1
      modifies `virqDisabled, `ctx, `disIntx, `depth, `unmasks, `log, `sent
      ensures State() == GuestDisable(old(State()), disable, asserted)
    {
      hide Mask, Unmask;
      if disable && !virqDisabled {
        virqDisabled := true;
        IntxMask();
      } else if !disable && virqDisabled {
        virqDisabled := false;
        IntxUnmask(asserted);
      }
    }

    // vfio_intx_enable
    method EnableIntx(mem: bool) returns (rc: int)
      modifies `ctx, `disIntx, `mode, `sent, `unmasks
      ensures (State(), rc) == IntxEnable(old(State()), mem)
    {
      if mode != NoIrq {
        return -EINVAL;
      }
      if !wired {
        return -ENODEV;
      }
      if !mem {
        return -ENOMEM;
      }
      ctx := [Ctx(NoTrigger, virqDisabled)];
      if pci23 {
        disIntx := ctx[0].masked;
      }
      mode, sent, unmasks := Intx, 0, 0;
      return 0;
    }

    // The first part of vfio_intx_set_signal.
    method FreeIntx()
      requires |ctx| == 1
      modifies `ctx, `depth, `requested, `released
      ensures State() == IntxFree(old(State()))
    {
      if ctx[0].trigger.Eventfd? {
        requested, depth := false, 1; // free_irq
        released := released + 1;     // eventfd_ctx_put
        ctx := [Ctx(NoTrigger, ctx[0].masked)];
      }
    }

    // vfio_intx_set_signal
    method SetIntxSignal(fd: int, host: Host) returns (rc: int)
      requires |ctx| == 1
      modifies `ctx, `depth, `requested, `taken, `released
      ensures (State(), rc) == IntxSetSignal(old(State()), fd, host)
      ensures |ctx| == 1
    {
      hide IntxFree;
      FreeShape(State());
      FreeIntx();
      if fd < 0 {
        return 0;
      }
      if !host.name {
        return -ENOMEM;
      }
      if !host.fd {
        return -EBADF;
      }
      rc := RequestIntx(fd, host.irq);
    }

    // Its last part: the eventfd is taken and the line requested, which fails with `irq`.
    method RequestIntx(fd: nat, irq: int) returns (rc: int)
      requires |ctx| == 1
      modifies `ctx, `depth, `requested, `taken, `released
      ensures rc == irq && |ctx| == 1
      ensures State() == if irq != 0 then Returned(old(State())) else LineTaken(old(State()), fd)
    {
      taken := taken + 1;
      if irq != 0 {
        released := released + 1;
        return irq;
      }
      ctx := [Ctx(Eventfd(fd), ctx[0].masked)];
      requested, depth := true, 0; // request_irq
      if !pci23 && ctx[0].masked {
        depth := depth + 1;
      }
      return 0;
    }

    // vfio_intx_disable
    method DisableIntx()
      requires |ctx| == 1
      modifies `ctx, `depth, `requested, `released, `mode
      ensures State() == IntxDisable(old(State()))
    {
      FreeIntx();
      mode, ctx := NoIrq, [];
    }

    // ---------------------------------------------------------------- MSI and MSI-X

    // vfio_msi_enable
    method EnableMsi(nvec: nat, msix: bool, mem: bool, got: int) returns (rc: int)
      modifies `ctx, `vectors, `disIntx, `mode, `qmax
      ensures (State(), rc) == MsiEnable(old(State()), nvec, msix, mem, got)
    {
      if mode != NoIrq {
        return -EINVAL;
      }
      if !mem {
        return -ENOMEM;
      }
      rc := Allocated(nvec, got);
      if rc < nvec {
        return;
      }
      ctx, vectors, disIntx := Repeat(Ctx(NoTrigger, false), nvec), Repeat(false, nvec), true;
      mode := if msix then Msix else Msi;
      if !msix {
        FlsPositive(nvec * 2 - 1);
        qmax := Fls(nvec * 2 - 1) - 1;
      }
      return 0;
    }

    // vfio_msi_set_vector_signal
    method SetVectorSignal(v: nat, fd: int, host: Host) returns (rc: int)
      requires |ctx| == |vectors|
      modifies `ctx, `vectors, `taken, `released
      ensures (State(), rc) == SetVector(old(State()), v, fd, host)
      ensures |ctx| == |vectors| == old(|ctx|)
    {
      if v >= |ctx| {
        return -EINVAL;
      }
      if ctx[v].trigger.Eventfd? {
        vectors := vectors[v := false];
        released := released + 1;
        ctx := ctx[v := Ctx(NoTrigger, ctx[v].masked)];
      }
      assert State() == VectorFree(old(State()), v);
      hide VectorFree;
      if fd < 0 {
        return 0;
      }
      if !host.name {
        return -ENOMEM;
      }
      if !host.fd {
        return -EBADF;
      }
      taken := taken + 1;
      if host.irq != 0 {
        released := released + 1;
        return host.irq;
      }
      vectors := vectors[v := true];
      ctx := ctx[v := Ctx(Eventfd(fd), ctx[v].masked)];
      return 0;
    }

    // vfio_msi_set_block
    method SetVectorBlock(start: nat, count: nat, fds: seq<int>, hosts: seq<Host>) returns (ret: int)
      requires |ctx| == |vectors|
      modifies `ctx, `vectors, `taken, `released
      ensures (State(), ret) == SetBlock(old(State()), start, count, fds, hosts)
      ensures |ctx| == |vectors| == old(|ctx|)
    {
      if start >= |ctx| || (start + count) % U32 > |ctx| {
        return -EINVAL;
      }
      hide SetVector, Forward, Rollback;
      var i: nat, j: nat := 0, start;
      ret := 0;
      ghost var s := State();
      while i < count && ret == 0
        invariant j == start + i && i <= count && |ctx| == |vectors| == |s.ctx|
        invariant Forward(s, start, 0, count, fds, hosts) ==
          if ret == 0 then Forward(State(), start, i, count, fds, hosts) else (State(), ret, j)
        decreases count - i
      {
        ForwardStep(State(), start, i, count, fds, hosts);
        ret := SetVectorSignal(j, FdAt(fds, i), HostAt(hosts, i));
        i, j := i + 1, j + 1;
      }
      ForwardEnd(State(), start, i, count, fds, hosts);
      if ret != 0 {
        RollbackBlock(start, j);
      }
    }

    // Its rollback: the vectors below `end` down to `start` lose their signals.
    method RollbackBlock(start: nat, end: nat)
      requires |ctx| == |vectors|
      modifies `ctx, `vectors, `taken, `released
      ensures State() == Rollback(old(State()), start, end)
      ensures |ctx| == |vectors| == old(|ctx|)
    {
      hide SetVector, Rollback;
      ghost var s := State();
      var j: nat := end;
      while j > start
        invariant |ctx| == |vectors| == |s.ctx|
        invariant Rollback(s, start, end) == Rollback(State(), start, j)
      {
        RollbackStep(State(), start, j);
        j := j - 1;
        var _ := SetVectorSignal(j, -1, Host(true, true, 0));
      }
      RollbackEnd(State(), start, j);
    }

    // vfio_msi_disable
    method DisableMsi()
      requires |ctx| == |vectors|
      modifies `ctx, `vectors, `taken, `released, `disIntx, `mode
      ensures State() == MsiDisable(old(State()))
    {
      hide SetBlock;
      var _ := SetVectorBlock(0, |ctx|, [], []);
      vectors, disIntx := [], false; // pci_free_irq_vectors
      if nointx {
        disIntx := true;
      }
      mode, ctx := NoIrq, [];
    }

    // ---------------------------------------------------------------- the ioctl

    // vfio_pci_set_intx_unmask
    method SetIntxUnmaskIrq(start: nat, count: nat, data: Data, env: Env) returns (rc: int)
      requires State().Shaped()
      modifies `ctx, `disIntx, `depth, `unmasks, `log, `sent
      ensures (State(), rc) == SetIntxUnmask(old(State()), start, count, data, env)
    {
      hide Unmask;
      if mode != Intx || start != 0 || count != 1 {
        return -EINVAL;
      }
      if data.DataNone? || (data.DataBool? && BoolAt(data.bools, 0)) {
        IntxUnmask(env.asserted);
      }
      return 0;
    }

    // vfio_pci_set_intx_mask
    method SetIntxMaskIrq(start: nat, count: nat, data: Data) returns (rc: int)
      requires State().Shaped()
      modifies `ctx, `disIntx, `depth
      ensures (State(), rc) == SetIntxMask(old(State()), start, count, data)
    {
      hide Mask;
      if mode != Intx || start != 0 || count != 1 {
        return -EINVAL;
      }
      if data.DataNone? || (data.DataBool? && BoolAt(data.bools, 0)) {
        IntxMask();
      } else if data.DataEventfd? {
        return -ENOTTY;
      }
      return 0;
    }

    // vfio_pci_set_intx_trigger
    method SetIntxTriggerIrq(start: nat, count: nat, data: Data, env: Env) returns (rc: int)
      requires State().Shaped()
      modifies this
      ensures (State(), rc) == SetIntxTrigger(old(State()), start, count, data, env)
    {
      hide IntxEnable, IntxSetSignal, IntxDisable, SendIntx;
      if mode == Intx && count == 0 && data.DataNone? {
        DisableIntx();
        return 0;
      }
      if (mode != Intx && mode != NoIrq) || start != 0 || count != 1 {
        return -EINVAL;
      }
      if data.DataEventfd? {
        var fd, host := FdAt(data.fds, 0), HostAt(env.hosts, 0);
        if mode == Intx {
          rc := SetIntxSignal(fd, host);
          return;
        }
        EnableShape(State(), env.mem);
        rc := EnableIntx(env.mem);
        if rc != 0 {
          return;
        }
        rc := SetIntxSignal(fd, host);
        if rc != 0 {
          DisableIntx();
        }
        return;
      }
      if mode != Intx {
        return -EINVAL;
      }
      if data.DataNone? || BoolAt(data.bools, 0) {
        SendIntxEventfd();
      }
      return 0;
    }

    // The loopback loop of vfio_pci_set_msi_trigger.
    method SignalVectors(start: nat, end: nat, data: Data)
      modifies `log
      ensures State() == Loopback(old(State()), start, start, end, data)
    {
      hide Loopback;
      ghost var s := State();
      var i: nat := start;
      while i < end && i < |ctx|
        invariant Loopback(s, start, start, end, data) == Loopback(State(), start, i, end, data) && start <= i
        invariant ctx == s.ctx
        decreases end - i
      {
        LoopbackStep(State(), start, i, end, data);
        if data.DataNone? || (data.DataBool? && BoolAt(data.bools, i - start)) {
          Signal(ctx[i].trigger);
        }
        i := i + 1;
      }
      LoopbackEnd(State(), start, i, end, data);
    }

    // vfio_pci_set_msi_trigger
    method SetMsiTriggerIrq(msix: bool, start: nat, count: nat, data: Data, env: Env) returns (rc: int)
      requires State().Shaped()
      modifies this
      ensures (State(), rc) == SetMsiTrigger(old(State()), msix, start, count, data, env)
    {
      hide MsiEnable, SetBlock, MsiDisable, Loopback;
      var want := Mode4(msix);
      if mode == want && count == 0 && data.DataNone? {
        DisableMsi();
        return 0;
      }
      if mode != want && mode != NoIrq {
        return -EINVAL;
      }
      var end := (start + count) % U32;
      if data.DataEventfd? {
        if mode == want {
          rc := SetVectorBlock(start, count, data.fds, env.hosts);
          return;
        }
        MsiEnableShape(State(), end, msix, env.mem, env.got);
        rc := EnableMsi(end, msix, env.mem, env.got);
        if rc != 0 {
          return;
        }
        rc := SetVectorBlock(start, count, data.fds, env.hosts);
        if rc != 0 {
          DisableMsi();
        }
        return;
      }
      if mode != want || end > |ctx| {
        return -EINVAL;
      }
      SignalVectors(start, end, data);
      return 0;
    }

    // vfio_pci_set_ctx_trigger_single on a trigger `t`, returning its new value.
    method SetCtxTriggerSingle(t: Trigger, count: nat, data: Data, host: Host) returns (now: Trigger, rc: int)
      modifies `log, `taken, `released
      ensures var r := SetSingle(t, count, data, host); now == r.trigger && rc == r.rc && State() == Accounted(old(State()), t, r)
    {
      now, rc := t, 0;
      match data {
        case DataNone =>
          if t.NoTrigger? {
            rc := -EINVAL;
          } else if count != 0 {
            Signal(t);
          } else {
            released, now := released + 1, NoTrigger;
          }
        case DataBool(bools) =>
          if count == 0 {
            rc := -EINVAL;
          } else if BoolAt(bools, 0) {
            Signal(t);
          }
        case DataEventfd(fds) =>
          var fd := FdAt(fds, 0);
          if count == 0 {
            rc := -EINVAL;
          } else if fd == -1 {
            released, now := released + Has(t), NoTrigger;
          } else if fd >= 0 {
            if !host.fd {
              rc := -EBADF;
            } else {
              taken, released, now := taken + 1, released + Has(t), Eventfd(fd);
            }
          }
      }
    }

    // vfio_pci_set_err_trigger
    method SetErrTrigger(start: nat, count: nat, data: Data, env: Env) returns (rc: int)
      modifies `log, `taken, `released, `err
      ensures (State(), rc) == SetErr(old(State()), start, count, data, env)
    {
      hide SetSingle;
      if start != 0 || count > 1 {
        return -EINVAL;
      }
      err, rc := SetCtxTriggerSingle(err, count, data, HostAt(env.hosts, 0));
    }

    // vfio_pci_set_req_trigger
    method SetReqTrigger(start: nat, count: nat, data: Data, env: Env) returns (rc: int)
      modifies `log, `taken, `released, `req
      ensures (State(), rc) == SetReq(old(State()), start, count, data, env)
    {
      hide SetSingle;
      if start != 0 || count > 1 {
        return -EINVAL;
      }
      req, rc := SetCtxTriggerSingle(req, count, data, HostAt(env.hosts, 0));
    }

    // vfio_pci_set_irqs_ioctl
    method SetIrqs(index: Index, action: Action, start: nat, count: nat, data: Data, env: Env) returns (rc: int)
      requires State().Shaped()
      modifies this
      ensures (State(), rc) == Ioctl(old(State()), index, action, start, count, data, env)
    {
      hide SetIntxMask, SetIntxUnmask, SetIntxTrigger, SetMsiTrigger, SetErr, SetReq;
      match index {
        case IntxIndex =>
          match action {
            case ActMask => rc := SetIntxMaskIrq(start, count, data);
            case ActUnmask => rc := SetIntxUnmaskIrq(start, count, data, env);
            case ActTrigger => rc := SetIntxTriggerIrq(start, count, data, env);
          }
          return;
        case MsiIndex =>
          if action == ActTrigger {
            rc := SetMsiTriggerIrq(false, start, count, data, env);
            return;
          }
        case MsixIndex =>
          if action == ActTrigger {
            rc := SetMsiTriggerIrq(true, start, count, data, env);
            return;
          }
        case ErrIndex =>
          if action == ActTrigger && pcie {
            rc := SetErrTrigger(start, count, data, env);
            return;
          }
        case ReqIndex =>
          if action == ActTrigger {
            rc := SetReqTrigger(start, count, data, env);
            return;
          }
        case NumIrqs =>
      }
      return -ENOTTY;
    }

    // What vfio_pci_disable does to interrupts.
    method DisableIrqs()
      requires State().Shaped()
      modifies this
      ensures State() == Disable(old(State()))
    {
      var _ := SetIrqs(IndexOf(mode), ActTrigger, 0, 0, DataNone, Env(true, 0, [], false));
      virqDisabled := false;
    }
  }

  lemma UnmaskShape(s: Irqs, asserted: bool)
    requires s.mode == Intx ==> |s.ctx| == 1
    ensures var t := UnmaskHandler(s, asserted).0; t.mode == s.mode && (t.mode == Intx ==> |t.ctx| == 1)
  {
    var u := s.(unmasks := s.unmasks + 1);
    hide SetMasked;
    MaskedShape(u);
    MaskedShape(u.(disIntx := false));
    MaskedShape(u.(depth := Enabled(s.depth)));
  }

  lemma MaskedShape(s: Irqs)
    ensures forall masked :: var t := SetMasked(s, masked); t.mode == s.mode && |t.ctx| == |s.ctx|
  {
  }

  lemma FreeShape(s: Irqs)
    requires |s.ctx| == 1
    ensures |IntxFree(s).ctx| == 1 && IntxFree(s).pci23 == s.pci23
  {
  }

  lemma FlsPositive(n: nat)
    requires n > 0
    ensures Fls(n) > 0
  {
  }

  lemma ForwardStep(s: Irqs, start: nat, i: nat, count: nat, fds: seq<int>, hosts: seq<Host>)
    requires |s.ctx| == |s.vectors| && i < count
    ensures var r := SetVector(s, start + i, FdAt(fds, i), HostAt(hosts, i)).0; |r.ctx| == |r.vectors|
    ensures var r := SetVector(s, start + i, FdAt(fds, i), HostAt(hosts, i));
      Forward(s, start, i, count, fds, hosts) ==
        if r.1 != 0 then (r.0, r.1, start + i + 1) else Forward(r.0, start, i + 1, count, fds, hosts)
  {
    hide SetVector;
    SetVectorSize(s, start + i, FdAt(fds, i), HostAt(hosts, i));
  }

  lemma ForwardEnd(s: Irqs, start: nat, i: nat, count: nat, fds: seq<int>, hosts: seq<Host>)
    requires |s.ctx| == |s.vectors|
    ensures i >= count ==> Forward(s, start, i, count, fds, hosts) == (s, 0, start + i)
  {
  }

  lemma RollbackStep(s: Irqs, start: nat, j: nat)
    requires |s.ctx| == |s.vectors| && j > start
    ensures var t := SetVector(s, j - 1, -1, Host(true, true, 0)).0; |t.ctx| == |t.vectors|
    ensures Rollback(s, start, j) == Rollback(SetVector(s, j - 1, -1, Host(true, true, 0)).0, start, j - 1)
  {
    hide SetVector;
    SetVectorSize(s, j - 1, -1, Host(true, true, 0));
  }

  lemma RollbackEnd(s: Irqs, start: nat, j: nat)
    requires |s.ctx| == |s.vectors| && j <= start
    ensures Rollback(s, start, j) == s
  {
  }

  lemma EnableShape(s: Irqs, mem: bool)
    ensures var e := IntxEnable(s, mem); e.1 == 0 ==> |e.0.ctx| == 1
  {
  }

  lemma MsiEnableShape(s: Irqs, nvec: nat, msix: bool, mem: bool, got: int)
    ensures var e := MsiEnable(s, nvec, msix, mem, got); e.1 == 0 ==> |e.0.ctx| == |e.0.vectors|
  {
  }

  lemma LoopbackStep(s: Irqs, start: nat, i: nat, end: nat, data: Data)
    requires i < end && i < |s.ctx| && start <= i
    ensures var chosen := data.DataNone? || (data.DataBool? && BoolAt(data.bools, i - start));
      Loopback(s, start, i, end, data) ==
        Loopback(if chosen then Signalled(s, s.ctx[i].trigger) else s, start, i + 1, end, data)
  {
    hide Signalled;
  }

  lemma LoopbackEnd(s: Irqs, start: nat, i: nat, end: nat, data: Data)
    requires i >= end || i >= |s.ctx|
    ensures Loopback(s, start, i, end, data) == s
  {
  }
}
