/** Interrupt delivery of device/vfio_pci_intrs.c on values: INTx with masking, MSI and MSI-X
    vector blocks, and the eventfds they hold. */
module Interrupts {
  const EBADF := 9
  const ENOMEM := 12
  const ENODEV := 19
  const EINVAL := 22
  const ENOTTY := 25
  const ENOSPC := 28
  const ERANGE := 34
  const U32 := 0x1_0000_0000

  datatype Mode = NoIrq | Intx | Msi | Msix

  datatype Trigger = NoTrigger | Eventfd(id: nat)

  datatype Ctx = Ctx(trigger: Trigger, masked: bool)

  // What the kernel answers while one signal is set up: a name, the eventfd behind a descriptor,
  // and the result of requesting the interrupt.
  datatype Host = Host(name: bool, fd: bool, irq: int)

  // `pci23`: the function can mask INTx itself; `wired`: it has an interrupt line.  `disIntx` is
  // the hardware mask bit, `depth` the disable depth of the line, `requested` and `vectors` the
  // interrupts requested.  `taken` and `released` count eventfd references, `log` the eventfds
  // signalled; `sent` and `unmasks` count, since INTx was enabled, the signals of the interrupt
  // handler and of unmasking, and the calls of the unmask handler.
  datatype Irqs = Irqs(pci23: bool, nointx: bool, wired: bool, pcie: bool,
                       mode: Mode, ctx: seq<Ctx>, virqDisabled: bool, qmax: nat,
                       disIntx: bool, depth: nat, requested: bool, vectors: seq<bool>,
                       err: Trigger, req: Trigger,
                       taken: nat, released: nat, log: seq<nat>, sent: nat, unmasks: nat)
  {
    predicate Shaped() {
      match mode
      case NoIrq => ctx == [] && vectors == []
      case Intx => |ctx| == 1 && vectors == []
      case _ => |ctx| == |vectors| && |ctx| > 0
    }
    predicate Masked() { |ctx| > 0 && ctx[0].masked }
  }

  function Signalled(s: Irqs, t: Trigger): Irqs {
    if t.Eventfd? then s.(log := s.log + [t.id]) else s
  }

  // ---------------------------------------------------------------- INTx

  function SetMasked(s: Irqs, masked: bool): Irqs {
    if |s.ctx| == 1 then s.(ctx := [Ctx(s.ctx[0].trigger, masked)]) else s
  }

  predicate CanSend(s: Irqs) { s.mode == Intx && !s.virqDisabled && |s.ctx| == 1 && s.ctx[0].trigger.Eventfd? }

  // vfio_send_intx_eventfd
  function SendIntx(s: Irqs): Irqs {
    if CanSend(s) then Signalled(s, s.ctx[0].trigger) else s
  }

  // The same, from the interrupt handler or the unmask path.
  function Deliver(s: Irqs): Irqs {
    if CanSend(s) then SendIntx(s).(sent := s.sent + 1) else s
  }

  // vfio_pci_intx_mask
  function Mask(s: Irqs): Irqs {
    if s.mode != Intx then (if s.pci23 then s.(disIntx := true) else s)
    else if !s.Masked() then SetMasked(if s.pci23 then s.(disIntx := true) else s.(depth := s.depth + 1), true)
    else s
  }

  function Enabled(depth: nat): nat { if depth == 0 then 0 else depth - 1 }

  // vfio_pci_intx_unmask_handler: the state and whether the line is still asserted, so that the
  // interrupt has to be sent again.
  function UnmaskHandler(s: Irqs, asserted: bool): (Irqs, bool) {
    var u := s.(unmasks := s.unmasks + 1);
    if s.mode != Intx then ((if s.pci23 then u.(disIntx := false) else u), false)
    else if s.Masked() && !s.virqDisabled then
      if s.pci23 then
        if asserted then (SetMasked(u, true), true) else (SetMasked(u.(disIntx := false), false), false)
      else (SetMasked(u.(depth := Enabled(s.depth)), false), false)
    else (u, false)
  }

  // vfio_pci_intx_unmask
  function Unmask(s: Irqs, asserted: bool): Irqs {
    var r := UnmaskHandler(s, asserted);
    if r.1 then Deliver(r.0) else r.0
  }

  // Whether the line can interrupt the host.
  predicate CanFire(s: Irqs) { s.mode == Intx && s.requested && (s.pci23 || s.depth == 0) }

  // vfio_intx_handler
  function Handler(s: Irqs, asserted: bool): Irqs {
    var masked := if !s.pci23 then SetMasked(s.(depth := s.depth + 1), true) else SetMasked(s.(disIntx := true), true);
    if !s.pci23 || (!s.Masked() && asserted) then Deliver(masked) else s
  }

  // The INTx disable bit of COMMAND changed.
  function GuestDisable(s: Irqs, disable: bool, asserted: bool): Irqs {
    if disable && !s.virqDisabled then Mask(s.(virqDisabled := true))
    else if !disable && s.virqDisabled then Unmask(s.(virqDisabled := false), asserted)
    else s
  }

  // vfio_intx_enable; `mem` says whether there is memory.
  function IntxEnable(s: Irqs, mem: bool): (Irqs, int) {
    if s.mode != NoIrq then (s, -EINVAL)
    else if !s.wired then (s, -ENODEV)
    else if !mem then (s, -ENOMEM)
    else (s.(ctx := [Ctx(NoTrigger, s.virqDisabled)], disIntx := if s.pci23 then s.virqDisabled else s.disIntx,
             mode := Intx, sent := 0, unmasks := 0), 0)
  }

  // Releasing the line shuts it down.
  function IntxFree(s: Irqs): Irqs
    requires |s.ctx| == 1
  {
    if s.ctx[0].trigger.Eventfd?
    then s.(released := s.released + 1, requested := false, depth := 1, ctx := [Ctx(NoTrigger, s.ctx[0].masked)])
    else s
  }

  // An eventfd taken for nothing: the interrupt could not be requested.
  function Returned(f: Irqs): Irqs { f.(taken := f.taken + 1, released := f.released + 1) }

  function LineTaken(f: Irqs, fd: nat): Irqs
    requires |f.ctx| == 1
  {
    f.(taken := f.taken + 1, requested := true, ctx := [Ctx(Eventfd(fd), f.ctx[0].masked)],
       depth := if !f.pci23 && f.Masked() then 1 else 0)
  }

  // vfio_intx_set_signal, as one step: requesting the line starts it enabled, and a masked one is
  // disabled again unless the function masks itself.
  function IntxSetSignal(s: Irqs, fd: int, host: Host): (Irqs, int)
    requires |s.ctx| == 1
  {
    var f := IntxFree(s);
    if fd < 0 then (f, 0)
    else if !host.name then (f, -ENOMEM)
    else if !host.fd then (f, -EBADF)
    else if host.irq != 0 then (Returned(f), host.irq)
    else (LineTaken(f, fd), 0)
  }

  // vfio_intx_disable
  function IntxDisable(s: Irqs): Irqs
    requires |s.ctx| == 1
  {
    IntxFree(s).(mode := NoIrq, ctx := [])
  }

  // ---------------------------------------------------------------- MSI and MSI-X

  // fls: the position of the highest set bit, counted from one.
  function Fls(n: nat): nat { if n == 0 then 0 else 1 + Fls(n / 2) }

  function Repeat<T>(x: T, n: nat): (r: seq<T>)
    ensures |r| == n && forall i :: 0 <= i < n ==> r[i] == x
  {
    if n == 0 then [] else Repeat(x, n - 1) + [x]
  }

  // pci_alloc_irq_vectors for at least one and at most `nvec` vectors.
  function Allocated(nvec: nat, got: int): int {
    if nvec < 1 then -ERANGE else if got == 0 then -ENOSPC else if got > nvec then nvec else got
  }

  function MsiEnabled(s: Irqs, nvec: nat, msix: bool): Irqs
    requires nvec > 0
  {
    s.(ctx := Repeat(Ctx(NoTrigger, false), nvec), vectors := Repeat(false, nvec), disIntx := true,
       mode := if msix then Msix else Msi,
       qmax := if msix then s.qmax else Fls(nvec * 2 - 1) - 1)
  }

  // vfio_msi_enable: on failure the number of vectors there are, or an error.
  function MsiEnable(s: Irqs, nvec: nat, msix: bool, mem: bool, got: int): (Irqs, int) {
    if s.mode != NoIrq then (s, -EINVAL)
    else if !mem then (s, -ENOMEM)
    else if Allocated(nvec, got) < nvec then (s, Allocated(nvec, got))
    else (MsiEnabled(s, nvec, msix), 0)
  }

  function VectorFree(s: Irqs, v: nat): Irqs
    requires v < |s.ctx| == |s.vectors|
  {
    if s.ctx[v].trigger.Eventfd? then
      s.(released := s.released + 1, vectors := s.vectors[v := false], ctx := s.ctx[v := Ctx(NoTrigger, s.ctx[v].masked)])
    else s
  }

  function VectorTaken(f: Irqs, v: nat, fd: nat): Irqs
    requires v < |f.ctx| == |f.vectors|
  {
    f.(taken := f.taken + 1, vectors := f.vectors[v := true], ctx := f.ctx[v := Ctx(Eventfd(fd), f.ctx[v].masked)])
  }

  // vfio_msi_set_vector_signal
  function SetVector(s: Irqs, v: nat, fd: int, host: Host): (Irqs, int)
    requires |s.ctx| == |s.vectors|
  {
    if v >= |s.ctx| then (s, -EINVAL)
    else
      var f := VectorFree(s, v);
      if fd < 0 then (f, 0)
      else if !host.name then (f, -ENOMEM)
      else if !host.fd then (f, -EBADF)
      else if host.irq != 0 then (Returned(f), host.irq)
      else (VectorTaken(f, v, fd), 0)
  }

  lemma SetVectorSize(s: Irqs, v: nat, fd: int, host: Host)
    requires |s.ctx| == |s.vectors|
    ensures var t := SetVector(s, v, fd, host).0; |t.ctx| == |t.vectors| == |s.ctx|
  {
    if v < |s.ctx| {
      FreeSize(s, v);
      hide VectorFree, VectorTaken, Returned;
      TakenSize(VectorFree(s, v), v, if fd < 0 then 0 else fd);
    }
  }

  lemma TakenSize(f: Irqs, v: nat, fd: nat)
    requires v < |f.ctx| == |f.vectors|
    ensures var t := VectorTaken(f, v, fd); |t.ctx| == |t.vectors| == |f.ctx|
    ensures var t := Returned(f); |t.ctx| == |t.vectors| == |f.ctx|
  {
  }

  lemma FreeSize(s: Irqs, v: nat)
    requires v < |s.ctx| == |s.vectors|
    ensures var t := VectorFree(s, v); |t.ctx| == |t.vectors| == |s.ctx|
  {
  }

  function FdAt(fds: seq<int>, i: nat): int { if i < |fds| then fds[i] else -1 }
  function HostAt(hosts: seq<Host>, i: nat): Host { if i < |hosts| then hosts[i] else Host(true, true, 0) }

  // The setting loop of vfio_msi_set_block from step `i` on: the state, the result, and one past
  // the last vector tried.
  function Forward(s: Irqs, start: nat, i: nat, count: nat, fds: seq<int>, hosts: seq<Host>): (r: (Irqs, int, nat))
    requires |s.ctx| == |s.vectors|
    ensures |r.0.ctx| == |r.0.vectors| == |s.ctx|
    decreases count - i
  {
    if i >= count then (s, 0, start + i)
    else
      hide SetVector;
      SetVectorSize(s, start + i, FdAt(fds, i), HostAt(hosts, i));
      var r := SetVector(s, start + i, FdAt(fds, i), HostAt(hosts, i));
      if r.1 != 0 then (r.0, r.1, start + i + 1) else Forward(r.0, start, i + 1, count, fds, hosts)
  }

  // Its rollback loop: every vector below `j` down to `start` loses its signal.
  function Rollback(s: Irqs, start: nat, j: nat): (r: Irqs)
    requires |s.ctx| == |s.vectors|
    ensures |r.ctx| == |r.vectors| == |s.ctx|
    decreases j
  {
    if j <= start then s else Rollback(SetVector(s, j - 1, -1, Host(true, true, 0)).0, start, j - 1)
  }

  // vfio_msi_set_block; the sum of two unsigned 32-bit numbers wraps.
  function SetBlock(s: Irqs, start: nat, count: nat, fds: seq<int>, hosts: seq<Host>): (Irqs, int)
    requires |s.ctx| == |s.vectors|
  {
    if start >= |s.ctx| || (start + count) % U32 > |s.ctx| then (s, -EINVAL)
    else
      var r := Forward(s, start, 0, count, fds, hosts);
      if r.1 != 0 then (Rollback(r.0, start, r.2), r.1) else (r.0, 0)
  }

  // vfio_msi_disable
  function MsiDisable(s: Irqs): Irqs
    requires |s.ctx| == |s.vectors|
  {
    SetBlock(s, 0, |s.ctx|, [], []).0.(mode := NoIrq, ctx := [], vectors := [], disIntx := s.nointx)
  }

  // ---------------------------------------------------------------- the ioctl

  datatype Data = DataNone | DataBool(bools: seq<bool>) | DataEventfd(fds: seq<int>)
  datatype Action = ActMask | ActUnmask | ActTrigger
  datatype Index = IntxIndex | MsiIndex | MsixIndex | ErrIndex | ReqIndex | NumIrqs

  // The answers of the kernel while an ioctl runs, and the state of the INTx line.
  datatype Env = Env(mem: bool, got: int, hosts: seq<Host>, asserted: bool)

  function BoolAt(bools: seq<bool>, i: nat): bool { i < |bools| && bools[i] }

  function SetIntxUnmask(s: Irqs, start: nat, count: nat, data: Data, env: Env): (Irqs, int) {
    if s.mode != Intx || start != 0 || count != 1 then (s, -EINVAL)
    else match data
      case DataNone => (Unmask(s, env.asserted), 0)
      case DataBool(bools) => ((if BoolAt(bools, 0) then Unmask(s, env.asserted) else s), 0)
      case DataEventfd(_) => (s, 0) // the eventfd becomes one more caller of the unmask handler
  }

  function SetIntxMask(s: Irqs, start: nat, count: nat, data: Data): (Irqs, int) {
    if s.mode != Intx || start != 0 || count != 1 then (s, -EINVAL)
    else match data
      case DataNone => (Mask(s), 0)
      case DataBool(bools) => ((if BoolAt(bools, 0) then Mask(s) else s), 0)
      case DataEventfd(_) => (s, -ENOTTY)
  }

  function SetIntxTrigger(s: Irqs, start: nat, count: nat, data: Data, env: Env): (Irqs, int)
    requires s.Shaped()
  {
    if s.mode == Intx && count == 0 && data.DataNone? then (IntxDisable(s), 0)
    else if (s.mode != Intx && s.mode != NoIrq) || start != 0 || count != 1 then (s, -EINVAL)
    else if data.DataEventfd? then
      var fd := FdAt(data.fds, 0);
      if s.mode == Intx then IntxSetSignal(s, fd, HostAt(env.hosts, 0))
      else
        var e := IntxEnable(s, env.mem);
        if e.1 != 0 then e
        else
          var r := IntxSetSignal(e.0, fd, HostAt(env.hosts, 0));
          if r.1 != 0 then (IntxDisable(r.0), r.1) else r
    else if s.mode != Intx then (s, -EINVAL)
    else ((if data.DataNone? || BoolAt(data.bools, 0) then SendIntx(s) else s), 0)
  }

  function Mode4(msix: bool): Mode { if msix then Msix else Msi }

  // Loopback: the eventfds of vectors [i, end) that `data` selects are signalled.
  function Loopback(s: Irqs, start: nat, i: nat, end: nat, data: Data): Irqs
    decreases end - i
  {
    if i >= end || i >= |s.ctx| then s
    else
      var chosen := data.DataNone? || (data.DataBool? && i >= start && BoolAt(data.bools, i - start));
      Loopback(if chosen then Signalled(s, s.ctx[i].trigger) else s, start, i + 1, end, data)
  }

  function SetMsiTrigger(s: Irqs, msix: bool, start: nat, count: nat, data: Data, env: Env): (Irqs, int)
    requires s.Shaped()
  {
    if s.mode == Mode4(msix) && count == 0 && data.DataNone? then (MsiDisable(s), 0)
    else if s.mode != Mode4(msix) && s.mode != NoIrq then (s, -EINVAL)
    else if data.DataEventfd? then
      if s.mode == Mode4(msix) then SetBlock(s, start, count, data.fds, env.hosts)
      else
        var e := MsiEnable(s, (start + count) % U32, msix, env.mem, env.got);
        if e.1 != 0 then e
        else
          var r := SetBlock(e.0, start, count, data.fds, env.hosts);
          if r.1 != 0 then (MsiDisable(r.0), r.1) else r
    else if s.mode != Mode4(msix) || (start + count) % U32 > |s.ctx| then (s, -EINVAL)
    else (Loopback(s, start, start, (start + count) % U32, data), 0)
  }

  // vfio_pci_set_ctx_trigger_single: the new trigger, the result, references taken and released,
  // and whether the old one is signalled.
  datatype Single = Single(trigger: Trigger, rc: int, got: bool, put: bool, signal: bool)

  function SetSingle(old': Trigger, count: nat, data: Data, host: Host): Single {
    match data
    case DataNone =>
      if old'.NoTrigger? then Single(old', -EINVAL, false, false, false)
      else if count != 0 then Single(old', 0, false, false, true)
      else Single(NoTrigger, 0, false, true, false)
    case DataBool(bools) =>
      if count == 0 then Single(old', -EINVAL, false, false, false)
      else Single(old', 0, false, false, BoolAt(bools, 0) && old'.Eventfd?)
    case DataEventfd(fds) =>
      var fd := FdAt(fds, 0);
      if count == 0 then Single(old', -EINVAL, false, false, false)
      else if fd == -1 then Single(NoTrigger, 0, false, old'.Eventfd?, false)
      else if fd < 0 then Single(old', 0, false, false, false)
      else if !host.fd then Single(old', -EBADF, false, false, false)
      else Single(Eventfd(fd), 0, true, old'.Eventfd?, false)
  }

  function One(b: bool): nat { if b then 1 else 0 }

  function Accounted(s: Irqs, old': Trigger, r: Single): Irqs {
    s.(taken := s.taken + One(r.got), released := s.released + One(r.put),
       log := if r.signal && old'.Eventfd? then s.log + [old'.id] else s.log)
  }

  function SetErr(s: Irqs, start: nat, count: nat, data: Data, env: Env): (Irqs, int) {
    if start != 0 || count > 1 then (s, -EINVAL)
    else
      var r := SetSingle(s.err, count, data, HostAt(env.hosts, 0));
      (Accounted(s, s.err, r).(err := r.trigger), r.rc)
  }

  function SetReq(s: Irqs, start: nat, count: nat, data: Data, env: Env): (Irqs, int) {
    if start != 0 || count > 1 then (s, -EINVAL)
    else
      var r := SetSingle(s.req, count, data, HostAt(env.hosts, 0));
      (Accounted(s, s.req, r).(req := r.trigger), r.rc)
  }

  // vfio_pci_set_irqs_ioctl
  function Ioctl(s: Irqs, index: Index, action: Action, start: nat, count: nat, data: Data, env: Env): (Irqs, int)
    requires s.Shaped()
  {
    match (index, action)
    case (IntxIndex, ActMask) => SetIntxMask(s, start, count, data)
    case (IntxIndex, ActUnmask) => SetIntxUnmask(s, start, count, data, env)
    case (IntxIndex, ActTrigger) => SetIntxTrigger(s, start, count, data, env)
    case (MsiIndex, ActTrigger) => SetMsiTrigger(s, false, start, count, data, env)
    case (MsixIndex, ActTrigger) => SetMsiTrigger(s, true, start, count, data, env)
    case (ErrIndex, ActTrigger) => if s.pcie then SetErr(s, start, count, data, env) else (s, -ENOTTY)
    case (ReqIndex, ActTrigger) => SetReq(s, start, count, data, env)
    case (_, _) => (s, -ENOTTY)
  }

  function IndexOf(mode: Mode): Index {
    match mode
    case NoIrq => NumIrqs
    case Intx => IntxIndex
    case Msi => MsiIndex
    case Msix => MsixIndex
  }

  // What vfio_pci_disable does to interrupts: the last ioctl, and the guest's bit is forgotten.
  function Disable(s: Irqs): Irqs
    requires s.Shaped()
  {
    Ioctl(s, IndexOf(s.mode), ActTrigger, 0, 0, DataNone, Env(true, 0, [], false)).0.(virqDisabled := false)
  }

  // ---------------------------------------------------------------- events

  datatype Event =
    | CallIoctl(index: Index, action: Action, start: nat, count: nat, data: Data, env: Env)
    | LineFires(asserted: bool)
    | VectorFires(vector: nat)
    | GuestCommand(disable: bool, asserted: bool)
    | UnmaskEventfd(asserted: bool)
    | Close

  function Step(s: Irqs, e: Event): Irqs
    requires s.Shaped()
  {
    match e
    case CallIoctl(index, action, start, count, data, env) => Ioctl(s, index, action, start, count, data, env).0
    case LineFires(asserted) => if CanFire(s) then Handler(s, asserted) else s
    case VectorFires(v) => if v < |s.vectors| && s.vectors[v] then Signalled(s, s.ctx[v].trigger) else s
    case GuestCommand(disable, asserted) => GuestDisable(s, disable, asserted)
    case UnmaskEventfd(asserted) => Unmask(s, asserted)
    case Close => Disable(s)
  }

  function Has(t: Trigger): nat { if t.Eventfd? then 1 else 0 }

  // A device as opened.
  function Fresh(pci23: bool, nointx: bool, wired: bool, pcie: bool): Irqs {
    Irqs(pci23, nointx, wired, pcie, NoIrq, [], false, 0, nointx, 0, false, [], NoTrigger, NoTrigger, 0, 0, [], 0, 0)
  }
}
