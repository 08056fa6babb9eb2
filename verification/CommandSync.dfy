/** The INTx disable bit of COMMAND, which the guest sees only virtually: the interrupt code is told
    of every change of it, and of no other. */
module CommandSync {
  import opened Bytes
  import opened PciCaps
  import opened Chains
  import opened StdCapInit
  import opened ExtCapInit
  import opened ConfigInit
  import opened Layout
  import opened Perms
  import opened Routing
  import opened ConfigAccess
  import opened ListLinks
  import opened GuestRuns
  import opened GuestView
  import opened BarGuard

  const INTX_DISABLE: byte := 0x04 // in the upper byte of COMMAND

  predicate FollowsGuest(s: Vdev) { s.virqDisabled == (At(s.vconfig, COMMAND + 1) & INTX_DISABLE != 0) }

  // The calls into the interrupt code alternate, mask first, and the last one made is the state.
  ghost predicate CallsAlternate(s: Vdev) {
    && (forall i :: 0 <= i < |s.calls| ==> s.calls[i] == if i % 2 == 0 then IntxMask else IntxUnmask)
    && s.virqDisabled == (|s.calls| % 2 == 1)
  }

  predicate Commanding(pos: nat) { COMMAND <= pos <= COMMAND + 1 }

  lemma FollowFollows(s: Vdev)
    ensures FollowsGuest(IntxFollow(s)) && IntxFollow(s).vconfig == s.vconfig
    ensures CallsAlternate(s) ==> CallsAlternate(IntxFollow(s))
  {
  }

  // The header handler between its BAR check and its INTx check.
  function BasicStored(s: Vdev, pos: nat, bytes: seq<byte>): Vdev {
    var s1 := if pos == COMMAND && NeedsRestore(s, At(bytes, 0)) then BarRestore(s) else s;
    var s2 := DefaultWrite(s1, Basic, 0, pos, bytes);
    if pos == COMMAND
    then s2.(vconfig := Poke(s2.vconfig, COMMAND, Merge(At(s2.vconfig, COMMAND), At(bytes, 0), 0x03)))
    else s2
  }

  lemma BasicStages(s: Vdev, pos: nat, bytes: seq<byte>)
    ensures var t := BasicWrite(s, pos, bytes); var d := if Commanding(pos) then IntxFollow(BasicStored(s, pos, bytes)) else BasicStored(s, pos, bytes);
      t == d || t == d.(bardirty := true)
  {
    hide DefaultWrite, NeedsRestore, BarRestore, Merge, IntxFollow;
  }

  // The guest's bit reaches the virtual register; nothing else of the handler's state moves.
  lemma StoredBit(s: Vdev, pos: nat, bytes: seq<byte>)
    requires HEADER <= |s.vconfig| == |s.hw|
    ensures var d := BasicStored(s, pos, bytes); var q := COMMAND + 1;
      && d.virqDisabled == s.virqDisabled && d.calls == s.calls
      && At(d.vconfig, q) & INTX_DISABLE == (if CoversByte(pos, |bytes|, q) then bytes[q - pos] else At(s.vconfig, q)) & INTX_DISABLE
  {
    hide DefaultWrite, NeedsRestore, BarRestore, Merge;
    RestoreFrame(s);
    var s1 := if pos == COMMAND && NeedsRestore(s, At(bytes, 0)) then BarRestore(s) else s;
    DefaultByte(s1, Basic, 0, pos, bytes, COMMAND + 1);
    DefaultKeeps(s1, Basic, 0, pos, bytes);
    if CoversByte(pos, |bytes|, COMMAND + 1) {
      MergeBit(At(s.vconfig, COMMAND + 1), bytes[COMMAND + 1 - pos]);
    }
  }

  lemma MergeBit(was: byte, now: byte)
    ensures Merge(was, now, INTX_DISABLE) & INTX_DISABLE == now & INTX_DISABLE
  {
  }

  // Chunks of capabilities leave the interrupt state alone.
  lemma HighQuiet(s: Vdev, pos: nat, bytes: seq<byte>)
    requires KindAt(s.owner, pos) != Basic
    ensures var t := WriteChunk(s, pos, bytes); t.virqDisabled == s.virqDisabled && t.calls == s.calls
  {
    var k, start := KindAt(s.owner, pos), StartOf(s.owner, pos);
    hide KindAt, StartOf, Blend, HwStore, MsiFixed, Merge, Stored, At, VpdOp, MrrsFollow, DefaultWrite;
    DefaultKeeps(s, k, start, pos, bytes);
    if k == Vpd {
      OpQuiet(DefaultWrite(s, k, start, pos, bytes), start);
    } else if k == Exp {
      MrrsQuiet(FlrHandled(DefaultWrite(s, k, start, pos, bytes), start), start, Mrrs(At(s.vconfig, start + 9)));
    }
  }

  lemma OpQuiet(s: Vdev, start: nat)
    ensures var t := VpdOp(s, start); t.virqDisabled == s.virqDisabled && t.calls == s.calls
  {
    hide VpdTakes, VpdDword, VpdAddr, VpdF, VpdFlip, Poke, Poke4, Dword, At;
  }

  lemma MrrsQuiet(e: Vdev, start: nat, before: byte)
    ensures var t := MrrsFollow(e, start, before); t.virqDisabled == e.virqDisabled && t.calls == e.calls && t.resets == e.resets
  {
    hide Stored, Merge, At, Poke;
  }

  lemma CommandChunk(s: Vdev, caps: set<Cap>, pos: nat, count: nat, bytes: seq<byte>)
    requires Good(s, caps) && 0 < count && pos + count <= |s.owner| && |bytes| == ChunkLen(s.owner, pos, count)
    ensures var t := WriteChunk(s, pos, bytes);
      && (Commanding(pos) ==> FollowsGuest(t))
      && (!Commanding(pos) ==> t.virqDisabled == s.virqDisabled)
      && (CallsAlternate(s) ==> CallsAlternate(t))
      && DisableBit(t) == GuestBit(s, pos, bytes)
  {
    Routed(s.owner, caps, s.msi, pos);
    ChunkInside(s.owner, pos, count, |bytes| - 1);
    if pos < HEADER {
      LowCommand(s, pos, bytes);
    } else {
      HighStart(s, caps, pos);
      HighQuiet(s, pos, bytes);
      HighChunkVirt(s, StartOf(s.owner, pos), pos, bytes, COMMAND + 1);
      hide ChunkLen, Laid, WriteChunk, KindAt, StartOf;
    }
  }

  function DisableBit(s: Vdev): byte { At(s.vconfig, COMMAND + 1) & INTX_DISABLE }

  // The bit after the guest wrote `bytes` at `pos`.
  function GuestBit(s: Vdev, pos: nat, bytes: seq<byte>): byte {
    if CoversByte(pos, |bytes|, COMMAND + 1) then bytes[COMMAND + 1 - pos] & INTX_DISABLE else DisableBit(s)
  }

  lemma LowCommand(s: Vdev, pos: nat, bytes: seq<byte>)
    requires KindAt(s.owner, pos) == Basic && HEADER <= |s.vconfig| == |s.hw|
    requires bytes != [] && (pos + |bytes| - 1) / 4 == pos / 4
    ensures var t := WriteChunk(s, pos, bytes);
      && (Commanding(pos) ==> FollowsGuest(t))
      && (!Commanding(pos) ==> t.virqDisabled == s.virqDisabled)
      && (CallsAlternate(s) ==> CallsAlternate(t))
      && DisableBit(t) == GuestBit(s, pos, bytes)
  {
    BasicRoute(s, pos, bytes);
    StoredBit(s, pos, bytes);
    BasicStages(s, pos, bytes);
    FollowFollows(BasicStored(s, pos, bytes));
    hide WriteChunk, BasicWrite, BasicStored, IntxFollow, At;
    var d := BasicStored(s, pos, bytes);
    var t := WriteChunk(s, pos, bytes);
    if Commanding(pos) {
      assert FollowsGuest(t) && t.calls == IntxFollow(d).calls;
    } else {
      assert !CoversByte(pos, |bytes|, COMMAND + 1);
      assert t.vconfig == d.vconfig && t.virqDisabled == s.virqDisabled;
    }
  }

  // Whether a write reaches COMMAND.
  predicate Commands(pos: nat, n: nat) { CoversByte(pos, n, COMMAND) || CoversByte(pos, n, COMMAND + 1) }

  // After any guest write that covers either byte of COMMAND, and through every chunk that
  // follows, the interrupt state is what the guest's bit says; any other write leaves both alone.
  lemma {:induction false} CommandAccess(s: Vdev, caps: set<Cap>, pos: nat, bytes: seq<byte>)
    requires Good(s, caps) && pos + |bytes| <= |s.owner|
    ensures var t := WriteAccess(s, pos, bytes);
      && (Commands(pos, |bytes|) ==> FollowsGuest(t))
      && (!Commands(pos, |bytes|) ==> t.virqDisabled == s.virqDisabled && DisableBit(t) == DisableBit(s))
      && (CallsAlternate(s) ==> CallsAlternate(t))
      && DisableBit(t) == GuestBit(s, pos, bytes)
    decreases |bytes|
  {
    hide Good, WriteChunk, ChunkLen, FollowsGuest, CallsAlternate, DisableBit;
    if bytes != [] {
      var n := ChunkLen(s.owner, pos, |bytes|);
      var t := WriteChunk(s, pos, bytes[..n]);
      WriteFrame(s, pos, bytes[..n]);
      GoodFramed(s, t, caps);
      CommandChunk(s, caps, pos, |bytes|, bytes[..n]);
      FirstDword(s, pos, |bytes|);
      CommandAccess(t, caps, pos + n, bytes[n..]);
      if Commanding(pos) && !Commands(pos + n, |bytes| - n) {
        FollowsSame(t, WriteAccess(t, pos + n, bytes[n..]));
      }
    }
  }

  lemma FollowsSame(s: Vdev, t: Vdev)
    requires t.virqDisabled == s.virqDisabled && DisableBit(t) == DisableBit(s)
    ensures FollowsGuest(t) == FollowsGuest(s)
  {
  }

  // A chunk that covers the lower byte of COMMAND starts there.
  lemma FirstDword(s: Vdev, pos: nat, count: nat)
    requires 0 < count
    ensures CoversByte(pos, ChunkLen(s.owner, pos, count), COMMAND) ==> pos == COMMAND
    ensures CoversByte(pos, ChunkLen(s.owner, pos, count), COMMAND + 1) ==> Commanding(pos)
  {
    ChunkInside(s.owner, pos, count, ChunkLen(s.owner, pos, count) - 1);
    hide ChunkLen;
  }

  lemma {:induction false} ReadCommand(s: Vdev, pos: nat, count: nat)
    ensures var t := ReadAccess(s, pos, count).0; t.virqDisabled == s.virqDisabled && t.calls == s.calls
    decreases count
  {
    hide ReadPrep, ChunkLen, ReadBytes;
    if count > 0 {
      var n := ChunkLen(s.owner, pos, count);
      PrepQuiet(s, pos, n);
      ReadCommand(ReadPrep(s, pos, n), pos + n, count - n);
    }
  }

  lemma PrepQuiet(s: Vdev, pos: nat, n: nat)
    ensures var t := ReadPrep(s, pos, n); t.virqDisabled == s.virqDisabled && t.calls == s.calls && t.resets == s.resets
  {
    hide KindAt, StartOf, BarFixup, At, Poke;
    FixupQuiet(s);
  }

  lemma FixupQuiet(s: Vdev)
    ensures var t := BarFixup(s); t.virqDisabled == s.virqDisabled && t.calls == s.calls && t.resets == s.resets
  {
    hide FixBars, FixRom;
  }

  lemma {:induction false} ReadDisableBit(s: Vdev, caps: set<Cap>, pos: nat, count: nat)
    requires Good(s, caps)
    ensures At(ReadAccess(s, pos, count).0.vconfig, COMMAND + 1) == At(s.vconfig, COMMAND + 1)
    decreases count
  {
    hide Good, ReadPrep, ChunkLen, ReadBytes;
    if count > 0 {
      var n := ChunkLen(s.owner, pos, count);
      ReadPrepFrame(s, pos, n);
      GoodFramed(s, ReadPrep(s, pos, n), caps);
      PrepDisableBit(s, caps, pos, n);
      ReadDisableBit(ReadPrep(s, pos, n), caps, pos + n, count - n);
    }
  }

  lemma PrepDisableBit(s: Vdev, caps: set<Cap>, pos: nat, n: nat)
    requires Good(s, caps)
    ensures At(ReadPrep(s, pos, n).vconfig, COMMAND + 1) == At(s.vconfig, COMMAND + 1)
  {
    hide Layout.Sized, Mapped, KindAt, StartOf, BarFixup;
    FixupAt(s, COMMAND + 1);
    if pos >= HEADER { HighStart(s, caps, pos); } else { Routed(s.owner, caps, s.msi, pos); }
  }

  // An event that makes the driver compare its state with the guest's bit, in a space of `size` bytes.
  predicate Adjusts(e: Event, size: nat) { e.GuestWrite? && e.pos + |e.bytes| <= size && Commands(e.pos, |e.bytes|) }

  // No other event touches either side.
  lemma StepFollows(s: Vdev, caps: set<Cap>, e: Event)
    requires Good(s, caps)
    ensures FollowsGuest(Step(s, e)) <==> FollowsGuest(s) || Adjusts(e, |s.owner|)
    ensures CallsAlternate(s) ==> CallsAlternate(Step(s, e))
  {
    hide Good, ReadAccess, WriteAccess, Settled, DisableBit, Commands, FollowsGuest;
    match e {
      case GuestRead(pos, count) =>
        ReadCommand(s, pos, count);
        ReadDisableBit(s, caps, pos, count);
        FollowsSame(s, Step(s, e)) by { DisableBitIs(s, Step(s, e)); }
      case GuestWrite(pos, bytes) =>
        if pos + |bytes| <= |s.owner| {
          CommandAccess(s, caps, pos, bytes);
          if !Commands(pos, |bytes|) { FollowsSame(s, Step(s, e)); }
        }
      case HwChange(values) => FollowsSame(s, Step(s, e)) by { DisableBitIs(s, Step(s, e)); }
      case IrqMode(msiMode, qmax) => FollowsSame(s, Step(s, e)) by { DisableBitIs(s, Step(s, e)); }
    }
  }

  lemma DisableBitIs(s: Vdev, t: Vdev)
    requires At(t.vconfig, COMMAND + 1) == At(s.vconfig, COMMAND + 1)
    ensures DisableBit(t) == DisableBit(s)
  {
  }

  // Masking and unmasking follow the guest's INTx disable bit after a run exactly if they did before
  // it or the guest wrote COMMAND in it.
  lemma {:induction false} RunFollows(s: Vdev, caps: set<Cap>, es: seq<Event>)
    requires Steady(s, caps)
    ensures FollowsGuest(Run(s, es)) <==> FollowsGuest(s) || exists e :: e in es && Adjusts(e, |s.owner|)
    ensures CallsAlternate(s) ==> CallsAlternate(Run(s, es))
    decreases |es|
  {
    hide Steady, Step, FollowsGuest, CallsAlternate, Adjusts;
    if es != [] {
      SteadyGood(s, caps);
      StepSteady(s, caps, es[0]);
      StepFollows(s, caps, es[0]);
      RunFollows(Step(s, es[0]), caps, es[1..]);
      assert forall e :: e in es <==> e == es[0] || e in es[1..];
    }
  }

  lemma OpenedCommand(x: Plugged, ps: seq<nat>, es: seq<nat>)
    requires WellFormed(x, ps, es)
    ensures At(Opened(x).vconfig, COMMAND + 1) == At(x.hw, COMMAND + 1)
  {
    LowUncovered(x.Lens(), ps, HEADER, STD_SPACE, 2, COMMAND + 1);
    HeaderCommand(x.dev, x.hw, x.rawOwner, x.rawVconfig);
    hide NoTwins, AllCaps, FindsExtended, Uncovered, HeaderInit, Build, StdLens, ExtLens;
    BuildLow(x.dev, x.hw, x.Lens(), x.ELens(), x.rawOwner, x.rawVconfig, ps, es, COMMAND + 1);
  }

  lemma HeaderCommand(dev: Pdev, hw: seq<byte>, rawOwner: seq<byte>, rawVconfig: seq<byte>)
    requires dev.Valid() && |hw| == |rawOwner| == |rawVconfig| == dev.cfgSize
    ensures At(HeaderInit(dev, hw, rawOwner, rawVconfig).vconfig, COMMAND + 1) == At(hw, COMMAND + 1)
  {
  }

  // From opening on, masking and unmasking follow the guest's bit exactly if hardware had INTx
  // enabled at opening or the guest has written COMMAND since.
  lemma FollowsExactly(x: Plugged, ps: seq<nat>, es: seq<nat>, run: seq<Event>)
    requires WellFormed(x, ps, es)
    ensures FollowsGuest(Run(Opened(x), run)) <==>
      At(x.hw, COMMAND + 1) & INTX_DISABLE == 0 || exists e :: e in run && Adjusts(e, |x.hw|)
    ensures CallsAlternate(Run(Opened(x), run))
  {
    OpenedSteady(x, ps, es);
    OpenedCommand(x, ps, es);
    hide Steady, WellFormed, Run, Adjusts, At, StdLens, ExtLens, Build;
    RunFollows(Opened(x), x.Caps(ps, es), run);
  }

  // A device opened with INTx disabled in hardware, as one with broken INTx masking is, shows the
  // guest the bit set while the interrupt code takes it for clear.
  lemma OpenedAhead(x: Plugged, ps: seq<nat>, es: seq<nat>)
    requires WellFormed(x, ps, es) && At(x.hw, COMMAND + 1) & INTX_DISABLE != 0
    ensures !FollowsGuest(Opened(x)) && !Opened(x).virqDisabled && DisableBit(Opened(x)) != 0
  {
    OpenedCommand(x, ps, es);
    hide WellFormed, At, Build;
  }
}
