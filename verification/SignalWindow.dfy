/** The window in vfio_intx_set_signal between requesting the line and taking the lock to disable it
    again: what interrupts in between do to the disable depth. */
module SignalWindow {
  import opened Interrupts
  import opened InterruptSafety

  // request_irq enables the line, whether it is masked or not.
  function Requested(f: Irqs, fd: nat): Irqs
    requires |f.ctx| == 1
  {
    f.(taken := f.taken + 1, requested := true, ctx := [Ctx(Eventfd(fd), f.ctx[0].masked)], depth := 0)
  }

  // Interrupts that arrive one after the other; each says whether the device asserts its line.
  function Interrupted(s: Irqs, lines: seq<bool>): Irqs
    decreases |lines|
  {
    if lines == [] then s else Interrupted(if CanFire(s) then Handler(s, lines[0]) else s, lines[1..])
  }

  // Under the lock the line is disabled if it is masked and the function cannot mask itself.
  function Locked(s: Irqs): Irqs { if !s.pci23 && s.Masked() then s.(depth := s.depth + 1) else s }

  // The three parts one after the other.
  function SetSignal(s: Irqs, fd: nat, lines: seq<bool>): Irqs
    requires |s.ctx| == 1
  {
    var f := IntxFree(s);
    if |f.ctx| == 1 then Locked(Interrupted(Requested(f, fd), lines)) else s
  }

  lemma FreedLine(s: Irqs)
    requires IntxOk(s)
    ensures |s.ctx| == 1 && var f := IntxFree(s);
      IntxOk(f) && |f.ctx| == 1 && f.ctx[0].trigger == NoTrigger && f.pci23 == s.pci23
  {
    FreeLineOk(s);
  }

  // Without an interrupt in between, the parts make the one step.
  lemma NoneBetween(s: Irqs, fd: nat)
    requires IntxOk(s)
    ensures |s.ctx| == 1 && SetSignal(s, fd, []) == LineTaken(IntxFree(s), fd) == IntxSetSignal(s, fd, Host(true, true, 0)).0
  {
    FreedLine(s);
    LockedIs(IntxFree(s), fd);
    hide IntxFree, LineTaken, Requested, Locked;
  }

  lemma LockedIs(f: Irqs, fd: nat)
    requires |f.ctx| == 1
    ensures Locked(Requested(f, fd)) == LineTaken(f, fd)
    ensures f.pci23 ==> Requested(f, fd) == LineTaken(f, fd)
  {
  }

  // A function that masks itself keeps its invariant through any number of interrupts.
  lemma {:induction false} SelfMasking(s: Irqs, lines: seq<bool>)
    requires IntxOk(s) && s.pci23
    ensures var t := Interrupted(s, lines); IntxOk(t) && t.pci23
    decreases |lines|
  {
    hide IntxOk, Handler;
    if lines != [] {
      if CanFire(s) {
        HandlerOk(s, lines[0]);
        HandlerKind(s, lines[0]);
      }
      SelfMasking(if CanFire(s) then Handler(s, lines[0]) else s, lines[1..]);
    }
  }

  lemma HandlerKind(s: Irqs, asserted: bool)
    ensures Handler(s, asserted).pci23 == s.pci23
  {
    hide SetMasked, Deliver;
    MaskedKind(s.(depth := s.depth + 1));
    MaskedKind(s.(disIntx := true));
  }

  lemma MaskedKind(s: Irqs)
    ensures var m := SetMasked(s, true); m.pci23 == s.pci23 == Deliver(m).pci23
  {
    DeliverKind(SetMasked(s, true));
    hide Deliver;
  }

  lemma DeliverKind(s: Irqs)
    ensures Deliver(s).pci23 == s.pci23
  {
  }

  // Any other is disabled by the first interrupt, and no further one comes through.
  lemma {:induction false} Disabled(s: Irqs, lines: seq<bool>)
    requires !CanFire(s)
    ensures Interrupted(s, lines) == s
    decreases |lines|
  {
    hide CanFire;
    if lines != [] { Disabled(s, lines[1..]); }
  }

  lemma FirstDisables(f: Irqs, fd: nat, asserted: bool)
    requires IntxOk(f) && !f.pci23
    ensures |f.ctx| == 1
    ensures var r := Requested(f, fd); var h := Handler(r, asserted);
      CanFire(r) && !CanFire(h) && !h.pci23 && h.Masked() && h.depth == 1 && |h.ctx| == 1 && h.requested
  {
  }

  // The line of a function that cannot mask itself ends up disabled twice as soon as one interrupt
  // arrives in between; otherwise the result is right.  So the invariant holds afterwards if and only
  // if the function masks itself or no interrupt arrived.
  lemma WindowExact(s: Irqs, fd: nat, lines: seq<bool>)
    requires IntxOk(s)
    ensures |s.ctx| == 1
    ensures var t := SetSignal(s, fd, lines);
      && (IntxOk(t) <==> s.pci23 || lines == [])
      && (!s.pci23 && lines != [] ==> t.Masked() && t.depth == 2)
  {
    FreedLine(s);
    var f := IntxFree(s);
    LockedIs(f, fd);
    hide IntxFree, LineTaken, Handler, Requested, IntxOk, CanFire;
    LineTakenOk(f, fd);
    if s.pci23 {
      SelfMasking(Requested(f, fd), lines);
    } else if lines != [] {
      FirstDisables(f, fd, lines[0]);
      Disabled(Handler(Requested(f, fd), lines[0]), lines[1..]);
      TwiceIsWrong(SetSignal(s, fd, lines));
    }
  }

  lemma TwiceIsWrong(t: Irqs)
    requires !t.pci23 && t.requested && t.depth == 2
    ensures !IntxOk(t)
  {
  }
}
