/** Interrupts that reach the guest and interrupts that do not: what each event does to the line, to the
    vectors and to the eventfds, said of every state a run can reach. */
module Deliveries {
  import opened Interrupts
  import opened InterruptSafety

  // ---------------------------------------------------------------- interrupts

  // The line interrupts the host.  Unless the function can mask itself and was masked or not the one
  // that asserted the line, the guest is not disabling INTx and has installed an eventfd: it is
  // signalled once and the line is left masked.  Any other interrupt is somebody else's.
  lemma LineReachesGuest(s: Irqs, asserted: bool)
    requires Coherent(s) && s.mode == Intx && s.requested && (s.pci23 || s.depth == 0)
    ensures var t := Step(s, LineFires(asserted)); var trigger := s.ctx[0].trigger;
      if !s.pci23 || (!s.ctx[0].masked && asserted) then
        && trigger.Eventfd? && !s.virqDisabled
        && t.ctx == [Ctx(trigger, true)] && t.log == s.log + [trigger.id] && t.sent == s.sent + 1
        && t == s.(ctx := t.ctx, log := t.log, sent := t.sent, disIntx := t.disIntx, depth := t.depth)
        && (if s.pci23 then t.disIntx && t.depth == s.depth else t.depth == s.depth + 1 && t.disIntx == s.disIntx)
      else t == s
  {
    CoherentIntx(s);
    hide Coherent;
  }

  // No other line reaches the host.
  lemma LineElsewhere(s: Irqs, asserted: bool)
    requires s.Shaped() && (s.mode != Intx || !s.requested || (!s.pci23 && s.depth > 0))
    ensures Step(s, LineFires(asserted)) == s
  {
  }

  // A vector whose interrupt is requested signals the eventfd installed for it, and does nothing else.
  lemma VectorReachesGuest(s: Irqs, v: nat)
    requires Coherent(s)
    ensures var t := Step(s, VectorFires(v));
      if v < |s.ctx| && s.mode in {Msi, Msix} && s.ctx[v].trigger.Eventfd?
      then t == s.(log := s.log + [s.ctx[v].trigger.id])
      else t == s
  {
    hide Held, Fls, Conserved, MasksAgree, Automasked;
  }

  // ---------------------------------------------------------------- masking and unmasking

  // The line masked, as the hardware of the function has it done.
  predicate MaskedFrom(s: Irqs, t: Irqs) {
    if s.mode != Intx then t == s.(disIntx := s.pci23 || s.disIntx)
    else if s.Masked() then t == s
    else
      && |s.ctx| == 1
      && t == if s.pci23 then s.(ctx := [Ctx(s.ctx[0].trigger, true)], disIntx := true)
              else s.(ctx := [Ctx(s.ctx[0].trigger, true)], depth := s.depth + 1)
  }

  // The line unmasked: not while the guest disables INTx, and a line that can be looked at and is
  // still asserted stays masked and signals its eventfd instead.
  predicate UnmaskedFrom(s: Irqs, asserted: bool, t: Irqs) {
    var u := s.(unmasks := s.unmasks + 1);
    if s.mode != Intx then t == u.(disIntx := !s.pci23 && s.disIntx)
    else if !s.Masked() || s.virqDisabled then t == u
    else
      && |s.ctx| == 1
      && var trigger := s.ctx[0].trigger;
         if s.pci23 && asserted then
           t == if trigger.Eventfd? then u.(log := s.log + [trigger.id], sent := s.sent + 1) else u
         else if s.pci23 then t == u.(ctx := [Ctx(trigger, false)], disIntx := false)
         else t == u.(ctx := [Ctx(trigger, false)], depth := if s.depth == 0 then 0 else s.depth - 1)
  }

  lemma MaskMasks(s: Irqs)
    requires s.Shaped()
    ensures MaskedFrom(s, Mask(s))
  {
  }

  lemma UnmaskUnmasks(s: Irqs, asserted: bool)
    requires s.Shaped()
    ensures UnmaskedFrom(s, asserted, Unmask(s, asserted))
  {
    if s.mode == Intx { assert s.ctx == [s.ctx[0]]; }
  }

  // A guest that changes its INTx disable bit masks or unmasks the line; repeating itself it does nothing.
  lemma CommandMasks(s: Irqs, disable: bool, asserted: bool)
    requires s.Shaped()
    ensures var t := Step(s, GuestCommand(disable, asserted));
      if disable == s.virqDisabled then t == s
      else if disable then MaskedFrom(s.(virqDisabled := true), t)
      else UnmaskedFrom(s.(virqDisabled := false), asserted, t)
  {
    hide Mask, Unmask, MaskedFrom, UnmaskedFrom;
    MaskMasks(s.(virqDisabled := true));
    UnmaskUnmasks(s.(virqDisabled := false), asserted);
  }

  // An unmask eventfd that is signalled unmasks.
  lemma EventfdUnmasks(s: Irqs, asserted: bool)
    requires s.Shaped()
    ensures UnmaskedFrom(s, asserted, Step(s, UnmaskEventfd(asserted)))
  {
    hide Unmask, UnmaskedFrom;
    UnmaskUnmasks(s, asserted);
  }

  // Whether data of an action on one interrupt selects it.
  predicate Selects(data: Data) { data.DataNone? || (data.DataBool? && data.bools != [] && data.bools[0]) }

  // The mask action: on the one INTx interrupt, while that is the mode; there is no masking by eventfd.
  lemma MaskIoctl(s: Irqs, start: nat, count: nat, data: Data, env: Env)
    requires s.Shaped()
    ensures var (t, rc) := Ioctl(s, IntxIndex, ActMask, start, count, data, env);
      if s.mode != Intx || start != 0 || count != 1 then t == s && rc == -22
      else if data.DataEventfd? then t == s && rc == -25
      else rc == 0 && if Selects(data) then MaskedFrom(s, t) else t == s
  {
    hide Mask, MaskedFrom;
    MaskMasks(s);
  }

  // The unmask action; an eventfd for it becomes one more source of UnmaskEventfd.
  lemma UnmaskIoctl(s: Irqs, start: nat, count: nat, data: Data, env: Env)
    requires s.Shaped()
    ensures var (t, rc) := Ioctl(s, IntxIndex, ActUnmask, start, count, data, env);
      if s.mode != Intx || start != 0 || count != 1 then t == s && rc == -22
      else rc == 0 && if Selects(data) then UnmaskedFrom(s, env.asserted, t) else t == s
  {
    hide Unmask, UnmaskedFrom;
    UnmaskUnmasks(s, env.asserted);
  }

  // The trigger action without eventfds is a loopback: it signals what an interrupt would, masked or
  // not, unless the guest disables INTx.
  lemma IntxLoopback(s: Irqs, start: nat, count: nat, data: Data, env: Env)
    requires s.Shaped() && !data.DataEventfd? && !(s.mode == Intx && count == 0 && data.DataNone?)
    ensures var (t, rc) := Ioctl(s, IntxIndex, ActTrigger, start, count, data, env);
      if s.mode != Intx || start != 0 || count != 1 then t == s && rc == -22
      else
        && rc == 0
        && t == if Selects(data) && !s.virqDisabled && s.ctx[0].trigger.Eventfd? then s.(log := s.log + [s.ctx[0].trigger.id]) else s
  {
  }

  // Every other combination is refused.
  lemma NoSuchAction(s: Irqs, index: Index, action: Action, start: nat, count: nat, data: Data, env: Env)
    requires s.Shaped() && (action == ActTrigger ==> index == NumIrqs || (index == ErrIndex && !s.pcie))
    requires action in {ActMask, ActUnmask} ==> index != IntxIndex
    ensures Ioctl(s, index, action, start, count, data, env) == (s, -25)
  {
  }

  // ---------------------------------------------------------------- error and request eventfds

  // What an action on one such eventfd does: the eventfd afterwards, the result, the references taken
  // and released, and whether the old one is signalled.
  predicate SingleDone(was: Trigger, start: nat, count: nat, data: Data, fd: bool,
                       now: Trigger, rc: int, taken: nat, released: nat, signalled: bool) {
    var had := if was.Eventfd? then 1 else 0;
    var refused := now == was && taken == 0 && released == 0 && !signalled;
    if start != 0 || count > 1 || (count == 0 && !data.DataNone?) || (data.DataNone? && was.NoTrigger?) then refused && rc == -22
    else if data.DataNone? && count == 0 then rc == 0 && now.NoTrigger? && taken == 0 && released == 1 && !signalled
    else if data.DataNone? then rc == 0 && now == was && taken == released == 0 && signalled
    else if data.DataBool? then rc == 0 && now == was && taken == released == 0 && signalled == (Selects(data) && was.Eventfd?)
    else if data.fds == [] || data.fds[0] == -1 then rc == 0 && now.NoTrigger? && taken == 0 && released == had && !signalled
    else if data.fds[0] < 0 then refused && rc == 0
    else if !fd then refused && rc == -9
    else rc == 0 && now == Eventfd(data.fds[0]) && taken == 1 && released == had && !signalled
  }

  lemma SingleRule(was: Trigger, count: nat, data: Data, host: Host)
    requires count <= 1
    ensures var r := SetSingle(was, count, data, host);
      SingleDone(was, 0, count, data, host.fd, r.trigger, r.rc, One(r.got), One(r.put), r.signal && was.Eventfd?)
  {
  }

  lemma SingleRefused(was: Trigger, start: nat, count: nat, data: Data, fd: bool)
    requires start != 0 || count > 1
    ensures SingleDone(was, start, count, data, fd, was, -22, 0, 0, false)
  {
  }

  // What the accounts say afterwards.
  lemma Counted(s: Irqs, was: Trigger, r: Single)
    ensures var t := Accounted(s, was, r);
      && t == s.(taken := t.taken, released := t.released, log := t.log)
      && t.taken == s.taken + One(r.got) && t.released == s.released + One(r.put)
      && (was.Eventfd? ==> (t.log == s.log + [was.id] <==> r.signal))
      && (!(r.signal && was.Eventfd?) ==> t.log == s.log)
  {
    if was.Eventfd? { assert |s.log + [was.id]| == |s.log| + 1; }
  }

  // Whether the eventfd behind `was` was signalled once between the two states.
  predicate Heard(s: Irqs, t: Irqs, was: Trigger) { was.Eventfd? && t.log == s.log + [was.id] }

  // The two eventfds behave alike, and an action on one leaves the other and all else alone.
  lemma ErrIoctl(s: Irqs, start: nat, count: nat, data: Data, env: Env)
    requires s.Shaped() && s.pcie
    ensures var (t, rc) := Ioctl(s, ErrIndex, ActTrigger, start, count, data, env);
      && t == s.(err := t.err, taken := t.taken, released := t.released, log := t.log)
      && t.taken >= s.taken && t.released >= s.released && (Heard(s, t, s.err) || t.log == s.log)
      && SingleDone(s.err, start, count, data, HostAt(env.hosts, 0).fd, t.err, rc, t.taken - s.taken, t.released - s.released, Heard(s, t, s.err))
  {
    hide SetSingle, Accounted, SingleDone;
    SelfUnheard(s, s.err);
    if start != 0 || count > 1 {
      SingleRefused(s.err, start, count, data, HostAt(env.hosts, 0).fd);
    } else {
      SingleRule(s.err, count, data, HostAt(env.hosts, 0));
      Counted(s, s.err, SetSingle(s.err, count, data, HostAt(env.hosts, 0)));
    }
  }

  lemma ReqIoctl(s: Irqs, start: nat, count: nat, data: Data, env: Env)
    requires s.Shaped()
    ensures var (t, rc) := Ioctl(s, ReqIndex, ActTrigger, start, count, data, env);
      && t == s.(req := t.req, taken := t.taken, released := t.released, log := t.log)
      && t.taken >= s.taken && t.released >= s.released && (Heard(s, t, s.req) || t.log == s.log)
      && SingleDone(s.req, start, count, data, HostAt(env.hosts, 0).fd, t.req, rc, t.taken - s.taken, t.released - s.released, Heard(s, t, s.req))
  {
    hide SetSingle, Accounted, SingleDone;
    SelfUnheard(s, s.req);
    if start != 0 || count > 1 {
      SingleRefused(s.req, start, count, data, HostAt(env.hosts, 0).fd);
    } else {
      SingleRule(s.req, count, data, HostAt(env.hosts, 0));
      Counted(s, s.req, SetSingle(s.req, count, data, HostAt(env.hosts, 0)));
    }
  }

  lemma SelfUnheard(s: Irqs, was: Trigger)
    ensures !Heard(s, s, was)
  {
    if was.Eventfd? { assert |s.log + [was.id]| == |s.log| + 1; }
  }
}
