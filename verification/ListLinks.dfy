/** The bytes of the virtual copy that link the capability lists: no guest access ever changes
    them, and every read of them returns them. */
module ListLinks {
  import opened Bytes
  import opened PciCaps
  import opened StdCapInit
  import opened Layout
  import opened Perms
  import opened Routing
  import opened ConfigAccess

  ghost predicate Good(s: Vdev, caps: set<Cap>) {
    && Laid(s.owner, caps, s.msi)
    && |s.vconfig| == |s.hw| == |s.ro| == |s.owner|
    && s.qmax <= 7 // a three-bit field
  }

  // Capability-list bit and pointer, first two bytes of standard and headers of extended
  // capabilities; the virtual id byte of MSI is not one of them, its read handler scribbles on it.
  ghost predicate Pinned(caps: set<Cap>, q: nat) {
    || q == STATUS || q == CAPABILITY_LIST
    || exists c :: c in caps && Links(c, q)
  }

  predicate Links(c: Cap, q: nat) {
    if c.start < STD_SPACE then q == c.start + 1 || IsId(c, q) else c.start <= q < c.start + 4
  }

  predicate IsId(c: Cap, q: nat) { c.start < STD_SPACE && q == c.start && Num(c.id) != ID_MSI }

  // What no access changes.
  predicate SameFrame(s: Vdev, t: Vdev) {
    && t.func == s.func && t.owner == s.owner && t.ro == s.ro && t.msi == s.msi && t.rbar == s.rbar
    && t.msiMode == s.msiMode && t.qmax == s.qmax
    && |t.vconfig| == |s.vconfig| && |t.hw| == |s.hw|
  }

  lemma GoodFramed(s: Vdev, t: Vdev, caps: set<Cap>)
    requires Good(s, caps) && SameFrame(s, t)
    ensures Good(t, caps) && t.func == s.func && t.owner == s.owner
  {
    hide Laid;
  }

  // A linking byte inside a capability belongs to that capability.
  lemma PinnedIn(s: Vdev, caps: set<Cap>, c: Cap, q: nat)
    requires Good(s, caps) && c in caps && c.Has(q) && Pinned(caps, q)
    ensures Links(c, q)
  {
    hide Sized, Mapped;
    assert CapFits(c, |s.owner|);
    var d :| d in caps && Links(d, q);
    assert CapFits(d, |s.owner|) && d.Has(q);
  }

  // ---------------------------------------------------------------- shapes

  lemma {:induction false} FixBarsSize(v: seq<byte>, bars: seq<Resource>, i: nat)
    ensures |FixBars(v, bars, i)| == |v|
    decreases 6 - i
  {
    hide BarFlags, MaskByte;
    if i < 6 && i < |bars| {
      var w := BarMasked(v, BarAt(i), bars[i].len, 0, BarFlags(bars[i]));
      if !bars[i].mapped {
        FixBarsSize(Filled(v, BarAt(i), 4, 0), bars, i + 1);
      } else if At(w, BarAt(i)) & 0x04 != 0 {
        FixBarsSize(BarMasked(w, BarAt(i) + 4, bars[i].len, 4, 0), bars, i + 2);
      } else {
        FixBarsSize(w, bars, i + 1);
      }
    }
  }

  lemma FixupFrame(s: Vdev)
    ensures SameFrame(s, BarFixup(s)) && BarFixup(s).hw == s.hw
  {
    hide MaskByte, BarFlags, FixBars, At;
    FixBarsSize(s.vconfig, s.func.bars, 0);
  }

  lemma ReadPrepFrame(s: Vdev, pos: nat, count: nat)
    ensures SameFrame(s, ReadPrep(s, pos, count)) && ReadPrep(s, pos, count).hw == s.hw
  {
    hide KindAt, StartOf, BarFixup, Poke, QueueMax, At;
    FixupFrame(s);
  }

  lemma {:induction false} RestoredSize(s: Vdev, n: nat)
    ensures |RestoredBars(s, n)| == |s.hw|
  {
    if n > 0 {
      RestoredSize(s, n - 1);
    }
  }

  lemma BasicFrame(s: Vdev, pos: nat, bytes: seq<byte>)
    ensures SameFrame(s, BasicWrite(s, pos, bytes))
  {
    BasicRest(s, pos, bytes);
    hide BasicWrite;
  }

  // The header handler moves the two copies, the dirty flag and the interrupt state only.
  lemma BasicRest(s: Vdev, pos: nat, bytes: seq<byte>)
    ensures var t := BasicWrite(s, pos, bytes);
      && t == s.(vconfig := t.vconfig, hw := t.hw, bardirty := t.bardirty, virqDisabled := t.virqDisabled, calls := t.calls)
      && |t.vconfig| == |s.vconfig| && |t.hw| == |s.hw|
  {
    hide DefaultWrite, NeedsRestore, BarRestore, Merge, At;
    RestoreFrame(s);
    var s1 := if pos == COMMAND && NeedsRestore(s, At(bytes, 0)) then BarRestore(s) else s;
    DefaultKeeps(s1, Basic, 0, pos, bytes);
  }

  lemma VpdFrame(s: Vdev, start: nat, pos: nat, bytes: seq<byte>)
    requires start <= pos
    ensures SameFrame(s, VpdWrite(s, start, pos, bytes))
  {
    hide Blend, HwBlend, VMasks, HMasks, At, VpdGet, VpdTakes, Num;
  }

  lemma ExpFrame(s: Vdev, start: nat, pos: nat, bytes: seq<byte>)
    requires start <= pos
    ensures SameFrame(s, ExpWrite(s, start, pos, bytes))
  {
    hide Blend, HwBlend, VMasks, HMasks, At, Merge, Stored, MaxByte;
  }

  lemma AfFrame(s: Vdev, start: nat, pos: nat, bytes: seq<byte>)
    requires start <= pos
    ensures SameFrame(s, AfWrite(s, start, pos, bytes))
  {
    hide Blend, HwBlend, VMasks, HMasks, At;
  }

  lemma MsiFrame(s: Vdev, start: nat, pos: nat, bytes: seq<byte>)
    requires start <= pos
    ensures SameFrame(s, MsiWrite(s, start, pos, bytes))
  {
    hide Blend, HwBlend, VMasks, HMasks, At, MsiFixed;
  }

  lemma WriteFrame(s: Vdev, pos: nat, bytes: seq<byte>)
    ensures SameFrame(s, WriteChunk(s, pos, bytes))
  {
    hide Blend, HwBlend, VMasks, HMasks, BasicWrite, VpdWrite, ExpWrite, AfWrite, MsiWrite, KindAt, StartOf;
    var start := StartOf(s.owner, pos);
    match KindAt(s.owner, pos) {
      case Basic => BasicFrame(s, pos, bytes);
      case Vpd => VpdFrame(s, start, pos, bytes);
      case Exp => ExpFrame(s, start, pos, bytes);
      case Af => AfFrame(s, start, pos, bytes);
      case Msi => MsiFrame(s, start, pos, bytes);
      case _ =>
    }
  }

  // ---------------------------------------------------------------- writes leave the links alone

  // No table lets the guest write a linking byte.
  lemma LinksReadOnly(owner: seq<byte>, caps: set<Cap>, msi: MsiFlags, c: Cap, q: nat)
    requires Laid(owner, caps, msi) && c in caps && Links(c, q) && Tabled(KindAt(owner, c.start))
    ensures q >= c.start && Write(KindAt(owner, c.start), msi, q - c.start) == 0
    ensures !IsId(c, q) ==> Virt(KindAt(owner, c.start), msi, q - c.start) == 0xFF
  {
    assert CapFits(c, |owner|) && c.Has(c.start);
    assert At(owner, c.start) == c.id;
  }

  // A table-driven write touches nothing but the two copies.
  lemma DefaultKeeps(s: Vdev, k: Kind, start: nat, pos: nat, bytes: seq<byte>)
    requires start <= pos
    ensures var t := DefaultWrite(s, k, start, pos, bytes);
      t == s.(vconfig := t.vconfig, hw := t.hw) && |t.vconfig| == |s.vconfig| && |t.hw| == |s.hw|
  {
    hide Blend, HwBlend, VMasks, HMasks;
  }

  lemma DefaultPinned(s: Vdev, k: Kind, start: nat, pos: nat, bytes: seq<byte>, q: nat)
    requires start <= pos && q < |s.vconfig| == |s.hw|
    requires pos <= q < pos + |bytes| ==> Write(k, s.msi, q - start) == 0
    ensures At(DefaultWrite(s, k, start, pos, bytes).vconfig, q) == At(s.vconfig, q)
  {
    hide DefaultWrite, Write, Virt;
    DefaultByte(s, k, start, pos, bytes, q);
    if pos <= q < pos + |bytes| {
      MergeFacts(At(s.vconfig, q), bytes[q - pos], 0);
      assert 0 & Virt(k, s.msi, q - start) == 0;
    }
  }

  // Past its default write the handler touches no byte of the copy but COMMAND.
  lemma BasicOther(s: Vdev, pos: nat, bytes: seq<byte>, q: nat)
    requires q != COMMAND
    ensures var s1 := if pos == COMMAND && NeedsRestore(s, At(bytes, 0)) then BarRestore(s) else s;
      At(BasicWrite(s, pos, bytes).vconfig, q) == At(DefaultWrite(s1, Basic, 0, pos, bytes).vconfig, q)
  {
    hide DefaultWrite, NeedsRestore, BarRestore, Merge, IntxFollow;
    FollowVirt(s);
  }

  lemma FollowVirt(s: Vdev)
    ensures forall t: Vdev :: IntxFollow(t).vconfig == t.vconfig
  {
  }

  lemma BasicPinned(s: Vdev, pos: nat, bytes: seq<byte>, q: nat)
    requires q < |s.vconfig| == |s.hw|
    requires q != COMMAND && (pos <= q < pos + |bytes| ==> Write(Basic, s.msi, q) == 0)
    ensures At(BasicWrite(s, pos, bytes).vconfig, q) == At(s.vconfig, q)
  {
    hide DefaultWrite, NeedsRestore, Write, BarRestore, BasicWrite;
    RestoreFrame(s);
    var s1 := if pos == COMMAND && NeedsRestore(s, At(bytes, 0)) then BarRestore(s) else s;
    BasicOther(s, pos, bytes, q);
    DefaultPinned(s1, Basic, 0, pos, bytes, q);
  }

  lemma RestoreFrame(s: Vdev)
    ensures var t := BarRestore(s); t == s.(hw := t.hw) && |t.hw| == |s.hw|
  {
    hide RestoredBars, HwStore, Saved;
    RestoredSize(s, 6);
    HwStoreSize(RestoredBars(s, 6), s.ro, 0x30, Saved(s, 6));
    HwStoreSize(RestoredRom(s), s.ro, COMMAND, IntxOff(RestoredRom(s)));
  }

  lemma VpdPinned(s: Vdev, start: nat, pos: nat, bytes: seq<byte>, q: nat)
    requires start <= pos && q < |s.vconfig| == |s.hw|
    requires !(start + 3 <= q < start + 8) && (pos <= q < pos + |bytes| ==> Write(Vpd, s.msi, q - start) == 0)
    ensures At(VpdWrite(s, start, pos, bytes).vconfig, q) == At(s.vconfig, q)
  {
    DefaultPinned(s, Vpd, start, pos, bytes, q);
    OpPinned(DefaultWrite(s, Vpd, start, pos, bytes), start, q);
    hide DefaultWrite, Write, VpdOp;
  }

  lemma PokeAt(v: seq<byte>, i: nat, b: byte, q: nat)
    requires q != i
    ensures At(Poke(v, i, b), q) == At(v, q)
  {
  }

  lemma Poke4At(v: seq<byte>, at: nat, d: seq<byte>, q: nat)
    requires !(at <= q < at + 4)
    ensures At(Poke4(v, at, d), q) == At(v, q)
  {
    var v1 := Poke(v, at, At(d, 0));
    var v2 := Poke(v1, at + 1, At(d, 1));
    var v3 := Poke(v2, at + 2, At(d, 2));
    hide Poke, At;
    PokeAt(v, at, At(d, 0), q);
    PokeAt(v1, at + 1, At(d, 1), q);
    PokeAt(v2, at + 2, At(d, 2), q);
    PokeAt(v3, at + 3, At(d, 3), q);
  }

  lemma OpPinned(d: Vdev, start: nat, q: nat)
    requires !(start + 3 <= q < start + 8)
    ensures At(VpdOp(d, start).vconfig, q) == At(d.vconfig, q)
  {
    hide VpdTakes, VpdDword, VpdAddr, VpdF, VpdFlip, Dword, Poke, Poke4, At;
    var lo, hi := At(d.vconfig, start + 2), At(d.vconfig, start + 3);
    var data := VpdDword(d.vpd, VpdAddr(lo, hi));
    PokeAt(d.vconfig, start + 3, VpdFlip(hi), q);
    Poke4At(d.vconfig, start + 4, data, q);
    PokeAt(Poke4(d.vconfig, start + 4, data), start + 3, VpdFlip(hi), q);
  }

  lemma ExpPinned(s: Vdev, start: nat, pos: nat, bytes: seq<byte>, q: nat)
    requires start <= pos && q < |s.vconfig| == |s.hw|
    requires q != start + 9 && (pos <= q < pos + |bytes| ==> Write(Exp, s.msi, q - start) == 0)
    ensures At(ExpWrite(s, start, pos, bytes).vconfig, q) == At(s.vconfig, q)
  {
    hide DefaultWrite, Write, MrrsFollow, SetReadrq;
    var d := DefaultWrite(s, Exp, start, pos, bytes);
    DefaultPinned(s, Exp, start, pos, bytes, q);
    MrrsVirtual(FlrHandled(d, start), start, Mrrs(At(s.vconfig, start + 9)));
  }

  lemma MrrsVirtual(e: Vdev, start: nat, before: byte)
    ensures MrrsFollow(e, start, before).vconfig == e.vconfig
  {
    hide Stored, Merge, MaxByte;
  }

  lemma AfPinned(s: Vdev, start: nat, pos: nat, bytes: seq<byte>, q: nat)
    requires start <= pos && q < |s.vconfig| == |s.hw|
    requires q != start + 4 && (pos <= q < pos + |bytes| ==> Write(Af, s.msi, q - start) == 0)
    ensures At(AfWrite(s, start, pos, bytes).vconfig, q) == At(s.vconfig, q)
  {
    DefaultPinned(s, Af, start, pos, bytes, q);
    hide DefaultWrite, Write;
  }

  lemma MsiPinned(s: Vdev, start: nat, pos: nat, bytes: seq<byte>, q: nat)
    requires start <= pos && q < |s.vconfig| == |s.hw|
    requires q != start + 2 && (pos <= q < pos + |bytes| ==> Write(Msi, s.msi, q - start) == 0)
    ensures At(MsiWrite(s, start, pos, bytes).vconfig, q) == At(s.vconfig, q)
  {
    DefaultPinned(s, Msi, start, pos, bytes, q);
    hide DefaultWrite, Write, MsiFixed, HwBlend;
  }

  // The guest never reaches the purely virtual handler.
  lemma NotVirtOnly(owner: seq<byte>, caps: set<Cap>, msi: MsiFlags, pos: nat)
    requires Laid(owner, caps, msi)
    ensures KindAt(owner, pos) != VirtOnly
  {
    hide Sized;
    if pos >= HEADER && At(owner, pos) != INVALID {
      var c :| c in caps && c.Has(pos);
      assert CapFits(c, |owner|) && At(owner, pos) == c.id;
    }
  }

  // No chunk written by the guest changes a linking byte.
  lemma WritePinned(s: Vdev, caps: set<Cap>, pos: nat, count: nat, bytes: seq<byte>, q: nat)
    requires Good(s, caps) && Pinned(caps, q) && pos + count <= |s.owner|
    requires 0 < count && |bytes| == ChunkLen(s.owner, pos, count)
    ensures At(WriteChunk(s, pos, bytes).vconfig, q) == At(s.vconfig, q)
  {
    if q < |s.owner| {
      Routed(s.owner, caps, s.msi, pos);
      NotVirtOnly(s.owner, caps, s.msi, pos);
      if pos < HEADER {
        HeaderPinned(s, caps, pos, count, bytes, q);
      } else if KindAt(s.owner, pos) != Raw {
        var c :| c in caps && c.Has(pos) && StartOf(s.owner, pos) == c.start;
        CapPinned(s, caps, c, pos, count, bytes, q);
      }
    } else {
      WriteFrame(s, pos, bytes);
    }
  }

  lemma HeaderPinned(s: Vdev, caps: set<Cap>, pos: nat, count: nat, bytes: seq<byte>, q: nat)
    requires Good(s, caps) && Pinned(caps, q) && pos < HEADER && q < |s.owner|
    requires 0 < count && |bytes| == ChunkLen(s.owner, pos, count)
    requires KindAt(s.owner, pos) == Basic
    ensures At(WriteChunk(s, pos, bytes).vconfig, q) == At(s.vconfig, q)
  {
    hide Sized, Mapped, BasicWrite, StartOf, KindAt, ChunkLen;
    ChunkInside(s.owner, pos, count, |bytes| - 1);
    if c :| c in caps && Links(c, q) {
      assert CapFits(c, |s.owner|);
    }
    BasicPinned(s, pos, bytes, q);
  }

  lemma CapPinned(s: Vdev, caps: set<Cap>, c: Cap, pos: nat, count: nat, bytes: seq<byte>, q: nat)
    requires Good(s, caps) && Pinned(caps, q) && c in caps && c.Has(pos) && StartOf(s.owner, pos) == c.start && q < |s.owner|
    requires 0 < count && |bytes| == ChunkLen(s.owner, pos, count)
    requires KindAt(s.owner, pos) != VirtOnly && KindAt(s.owner, pos) != Basic
    ensures At(WriteChunk(s, pos, bytes).vconfig, q) == At(s.vconfig, q)
  {
    hide Laid, KindAt, StartOf, Write, WriteChunk, ChunkLen, At, Pinned;
    StartOfCap(s.owner, caps, s.msi, c, pos);
    if Tabled(KindAt(s.owner, pos)) {
      NoLinkHit(s, caps, c, pos, count, bytes, q);
      HandlerSpan(s.owner, caps, s.msi, c);
      HandlerPinned(s, c.start, pos, bytes, q);
    } else {
      UntabledPinned(s, pos, bytes);
    }
  }

  // The bytes past its link that the handler of a capability at `start` patches.
  predicate Patches(k: Kind, start: nat, q: nat) {
    match k
    case Vpd => start + 3 <= q < start + 8
    case Exp => q == start + 9
    case Af => q == start + 4
    case Msi => q == start + 2
    case _ => false
  }

  lemma HandlerPinned(s: Vdev, start: nat, pos: nat, bytes: seq<byte>, q: nat)
    requires start == StartOf(s.owner, pos) <= pos && q < |s.vconfig| == |s.hw|
    requires var k := KindAt(s.owner, pos); Tabled(k) && k != Basic && !Patches(k, start, q)
    requires pos <= q < pos + |bytes| ==> Write(KindAt(s.owner, pos), s.msi, q - start) == 0
    ensures At(WriteChunk(s, pos, bytes).vconfig, q) == At(s.vconfig, q)
  {
    hide KindAt, StartOf, Write, DefaultWrite, VpdWrite, ExpWrite, AfWrite, MsiWrite, BasicWrite;
    match KindAt(s.owner, pos) {
      case Vpd => VpdPinned(s, start, pos, bytes, q);
      case Exp => ExpPinned(s, start, pos, bytes, q);
      case Af => AfPinned(s, start, pos, bytes, q);
      case Msi => MsiPinned(s, start, pos, bytes, q);
      case k => DefaultPinned(s, k, start, pos, bytes, q);
    }
  }

  lemma UntabledPinned(s: Vdev, pos: nat, bytes: seq<byte>)
    requires !Tabled(KindAt(s.owner, pos)) && KindAt(s.owner, pos) != VirtOnly
    ensures WriteChunk(s, pos, bytes).vconfig == s.vconfig
  {
    hide KindAt, StartOf, DefaultWrite, VpdWrite, ExpWrite, AfWrite, MsiWrite, BasicWrite, HwStore;
    match KindAt(s.owner, pos) {
      case Raw =>
      case Vendor =>
      case Direct =>
    }
  }

  // A linking byte that a chunk covers or a capability has is one the guest may not write.
  lemma NoLinkHit(s: Vdev, caps: set<Cap>, c: Cap, pos: nat, count: nat, bytes: seq<byte>, q: nat)
    requires Good(s, caps) && Pinned(caps, q) && c in caps && c.Has(pos) && Tabled(KindAt(s.owner, c.start))
    requires 0 < count && |bytes| == ChunkLen(s.owner, pos, count)
    ensures c.Has(q) ==> Links(c, q)
    ensures pos <= q < pos + |bytes| ==> q >= c.start && Write(KindAt(s.owner, c.start), s.msi, q - c.start) == 0
  {
    hide Laid, KindAt, StartOf, Write, ChunkLen, Pinned;
    if pos <= q < pos + |bytes| {
      ChunkInCap(s.owner, caps, s.msi, c, pos, count, q - pos);
    }
    if c.Has(q) {
      PinnedIn(s, caps, c, q);
      LinksReadOnly(s.owner, caps, s.msi, c, q);
    }
  }

  // The registers the handlers patch lie inside their own capability, past its link.
  lemma HandlerSpan(owner: seq<byte>, caps: set<Cap>, msi: MsiFlags, c: Cap)
    requires Laid(owner, caps, msi) && c in caps
    ensures var k := KindAt(owner, c.start);
      && (k in {Vpd, Exp, Af, Msi} ==> c.start < STD_SPACE)
      && (k == Vpd ==> c.len == 8) && (k == Exp ==> c.len >= 12) && (k == Af ==> c.len == 6) && (k == Msi ==> c.len >= 10)
  {
    assert CapFits(c, |owner|) && Sized(c, msi) && c.Has(c.start);
    assert At(owner, c.start) == c.id;
  }

  // ---------------------------------------------------------------- reads

  lemma BarMaskedAt(v: seq<byte>, at: nat, len: bv64, j: nat, flags: byte, q: nat)
    requires j <= 4 && (q < at || q >= at + 4)
    ensures At(BarMasked(v, at, len, j, flags), q) == At(v, q)
  {
    hide MaskByte;
  }

  lemma {:induction false} FixBarsAt(v: seq<byte>, bars: seq<Resource>, i: nat, q: nat)
    requires q < 0x10 || q >= 0x2C
    ensures At(FixBars(v, bars, i), q) == At(v, q)
    decreases 6 - i
  {
    hide BarFlags, BarMasked;
    if i < 6 && i < |bars| {
      var w := BarMasked(v, BarAt(i), bars[i].len, 0, BarFlags(bars[i]));
      BarMaskedAt(v, BarAt(i), bars[i].len, 0, BarFlags(bars[i]), q);
      BarMaskedAt(w, BarAt(i) + 4, bars[i].len, 4, 0, q);
      if !bars[i].mapped {
        FixBarsAt(Filled(v, BarAt(i), 4, 0), bars, i + 1, q);
      } else if At(w, BarAt(i)) & 0x04 != 0 {
        FixBarsAt(BarMasked(w, BarAt(i) + 4, bars[i].len, 4, 0), bars, i + 2, q);
      } else {
        FixBarsAt(w, bars, i + 1, q);
      }
    }
  }

  lemma FixRomAt(v: seq<byte>, func: Func, q: nat)
    requires !(0x30 <= q < 0x34)
    ensures At(FixRom(v, func), q) == At(v, q)
  {
    hide BarMasked, MaskByte, RomFirst, RomThere, RomLen;
    BarMaskedAt(v, 0x30, RomLen(func), 0, 0, q);
  }

  // BAR sizing only touches the base address registers.
  lemma FixupAt(s: Vdev, q: nat)
    requires (q < 0x10 || q >= 0x2C) && !(0x30 <= q < 0x34)
    ensures At(BarFixup(s).vconfig, q) == At(s.vconfig, q)
  {
    hide FixBars, FixRom;
    FixBarsAt(s.vconfig, s.func.bars, 0, q);
    FixRomAt(FixBars(s.vconfig, s.func.bars, 0), s.func, q);
  }

  // The read handlers, with the misplaced update of the MSI handler, leave the links alone.
  lemma ReadPrepPinned(s: Vdev, caps: set<Cap>, pos: nat, count: nat, q: nat)
    requires Good(s, caps) && Pinned(caps, q)
    ensures At(ReadPrep(s, pos, count).vconfig, q) == At(s.vconfig, q)
  {
    hide Laid, KindAt, StartOf, BarFixup;
    if KindAt(s.owner, pos) == Msi {
      MsiStartFree(s, caps, pos, q);
    } else {
      PinnedOffBars(s, caps, q);
      FixupAt(s, q);
    }
  }

  // The byte the MSI handler scribbles on is no link.
  lemma MsiStartFree(s: Vdev, caps: set<Cap>, pos: nat, q: nat)
    requires Good(s, caps) && Pinned(caps, q) && KindAt(s.owner, pos) == Msi
    ensures q != StartOf(s.owner, pos)
  {
    hide Laid, KindAt, StartOf, Pinned;
    Routed(s.owner, caps, s.msi, pos);
    var c :| c in caps && c.Has(pos) && StartOf(s.owner, pos) == c.start;
    StartOfCap(s.owner, caps, s.msi, c, pos);
    if q == c.start {
      assert c.Has(c.start);
      PinnedIn(s, caps, c, q);
      MsiId(s.owner, caps, s.msi, c);
    }
  }

  lemma MsiId(owner: seq<byte>, caps: set<Cap>, msi: MsiFlags, c: Cap)
    requires Laid(owner, caps, msi) && c in caps && c.len > 0 && KindAt(owner, c.start) == Msi
    ensures c.start < STD_SPACE && Num(c.id) == ID_MSI
  {
    CapBytes(owner, caps, msi, c);
    hide Laid;
    assert c.Has(c.start);
  }

  lemma PinnedOffBars(s: Vdev, caps: set<Cap>, q: nat)
    requires Good(s, caps) && Pinned(caps, q)
    ensures (q < 0x10 || q >= 0x2C) && !(0x30 <= q < 0x34)
  {
    hide Sized, Mapped;
    if c :| c in caps && Links(c, q) {
      assert CapFits(c, |s.owner|);
    }
  }

  // A chunk that covers a linking byte returns it: all of it, or for the status register the bit
  // that announces the list.
  lemma ReadPinned(s: Vdev, caps: set<Cap>, pos: nat, count: nat, i: nat)
    requires Good(s, caps) && Pinned(caps, pos + i) && pos + count <= |s.owner|
    requires forall c :: c in caps ==> !IsId(c, pos + i)
    requires 0 < count && i < ChunkLen(s.owner, pos, count)
    ensures var n := ChunkLen(s.owner, pos, count); var b := ReadByte(s, pos, n, i);
      if pos + i == STATUS then b & STATUS_CAP_LIST == At(s.vconfig, STATUS) & STATUS_CAP_LIST
      else b == At(s.vconfig, pos + i)
  {
    hide Laid, ChunkLen, ReadByte, KindAt, StartOf, Virt, IsId, Links;
    var q := pos + i;
    var n := ChunkLen(s.owner, pos, count);
    ChunkInside(s.owner, pos, count, i);
    Routed(s.owner, caps, s.msi, pos);
    if pos < HEADER {
      HeaderReadPinned(s, caps, pos, n, i);
    } else {
      var c :| c in caps && Links(c, q);
      LinkChunk(s, caps, c, pos, q);
      CapReadPinned(s, c, pos, n, i);
    }
  }

  lemma HeaderReadPinned(s: Vdev, caps: set<Cap>, pos: nat, n: nat, i: nat)
    requires Good(s, caps) && Pinned(caps, pos + i) && pos < HEADER && (pos + i) / 4 == pos / 4
    requires KindAt(s.owner, pos) == Basic && StartOf(s.owner, pos) == 0
    ensures var b := ReadByte(s, pos, n, i);
      if pos + i == STATUS then b & STATUS_CAP_LIST == At(s.vconfig, STATUS) & STATUS_CAP_LIST
      else b == At(s.vconfig, pos + i)
  {
    var q := pos + i;
    assert q < HEADER;
    if c :| c in caps && Links(c, q) {
      assert CapFits(c, |s.owner|);
    }
    hide Laid, KindAt, StartOf;
    StatusBit(At(s.hw, q), At(s.vconfig, q));
    MergeFacts(At(s.hw, q), At(s.vconfig, q), 0);
  }

  lemma StatusBit(hw: byte, v: byte)
    ensures Merge(hw, v, STATUS_CAP_LIST) & STATUS_CAP_LIST == v & STATUS_CAP_LIST
  {
  }

  // A chunk that covers a link starts in the same capability, at its first or second byte.
  lemma LinkChunk(s: Vdev, caps: set<Cap>, c: Cap, pos: nat, q: nat)
    requires Good(s, caps) && c in caps && Links(c, q) && pos <= q && q / 4 == pos / 4
    ensures c.Has(pos) && c.Has(q) && KindAt(s.owner, pos) == KindAt(s.owner, c.start) && StartOf(s.owner, pos) == c.start
    ensures KindAt(s.owner, pos) in {Direct, Vendor} || Tabled(KindAt(s.owner, pos))
    ensures KindAt(s.owner, pos) != Basic && pos >= HEADER && (pos >= STD_SPACE <==> c.start >= STD_SPACE)
    ensures Tabled(KindAt(s.owner, pos)) && !IsId(c, q) ==> Virt(KindAt(s.owner, pos), s.msi, q - c.start) == 0xFF
  {
    assert CapFits(c, |s.owner|);
    assert c.Has(pos) && c.Has(c.start);
    StartOfCap(s.owner, caps, s.msi, c, pos);
    NotVirtOnly(s.owner, caps, s.msi, pos);
    hide Sized, Virt, StartOf, KindAt, Write;
    KindOfCap(s.owner, caps, s.msi, c, pos);
    if Tabled(KindAt(s.owner, pos)) {
      LinksReadOnly(s.owner, caps, s.msi, c, q);
    }
  }

  lemma KindOfCap(owner: seq<byte>, caps: set<Cap>, msi: MsiFlags, c: Cap, pos: nat)
    requires Laid(owner, caps, msi) && c in caps && c.Has(pos) && KindAt(owner, pos) != VirtOnly
    ensures KindAt(owner, pos) !in {Raw, Basic} && (KindAt(owner, pos) in {Direct, Vendor} || Tabled(KindAt(owner, pos)))
  {
    assert CapFits(c, |owner|) && At(owner, pos) == c.id;
    hide Sized;
  }

  lemma CapReadPinned(s: Vdev, c: Cap, pos: nat, n: nat, i: nat)
    requires var q := pos + i; var k := KindAt(s.owner, pos);
      && Links(c, q) && !IsId(c, q) && c.start <= pos && StartOf(s.owner, pos) == c.start && i < n
      && (k in {Direct, Vendor} || Tabled(k)) && k != Basic && pos >= HEADER
      && (pos >= STD_SPACE <==> c.start >= STD_SPACE)
      && (Tabled(k) ==> Virt(k, s.msi, q - c.start) == 0xFF)
    ensures ReadByte(s, pos, n, i) == At(s.vconfig, pos + i)
  {
    hide KindAt, StartOf, Virt;
    MergeFacts(At(s.hw, pos + i), At(s.vconfig, pos + i), 0);
  }

  // ---------------------------------------------------------------- bytes a chunk leaves alone

  // Chunks of other capabilities leave the registers of this one alone.
  lemma Elsewhere(s: Vdev, caps: set<Cap>, c: Cap, pos: nat, count: nat, bytes: seq<byte>, q: nat)
    requires Good(s, caps) && c in caps && c.Has(q) && !c.Has(pos)
    requires 0 < count && |bytes| == ChunkLen(s.owner, pos, count)
    ensures At(WriteChunk(s, pos, bytes).vconfig, q) == At(s.vconfig, q) && !CoversByte(pos, |bytes|, q)
  {
    ChunkApart(s, caps, c, pos, count, bytes, q);
    Routed(s.owner, caps, s.msi, pos);
    NotVirtOnly(s.owner, caps, s.msi, pos);
    assert q < |s.owner| && q >= HEADER by { assert CapFits(c, |s.owner|); }
    if pos < HEADER {
      LowElsewhere(s, pos, bytes, q);
    } else if KindAt(s.owner, pos) != Raw {
      var d :| d in caps && d.Has(pos) && StartOf(s.owner, pos) == d.start;
      OtherHandler(s, caps, d, pos, bytes, q);
    }
  }

  lemma OtherHandler(s: Vdev, caps: set<Cap>, d: Cap, pos: nat, bytes: seq<byte>, q: nat)
    requires Good(s, caps) && d in caps && d.Has(pos) && !d.Has(q) && !CoversByte(pos, |bytes|, q) && q < |s.owner|
    requires StartOf(s.owner, pos) == d.start && KindAt(s.owner, pos) !in {Raw, VirtOnly, Basic}
    ensures At(WriteChunk(s, pos, bytes).vconfig, q) == At(s.vconfig, q)
  {
    StartOfCap(s.owner, caps, s.msi, d, pos);
    HandlerSpan(s.owner, caps, s.msi, d);
    hide Laid, KindAt, StartOf, Write, DefaultWrite, VpdWrite, ExpWrite, AfWrite, MsiWrite, ChunkLen, BasicWrite;
    match KindAt(s.owner, pos) {
      case Direct =>
      case Vendor =>
      case Vpd => VpdPinned(s, d.start, pos, bytes, q);
      case Exp => ExpPinned(s, d.start, pos, bytes, q);
      case Af => AfPinned(s, d.start, pos, bytes, q);
      case Msi => MsiPinned(s, d.start, pos, bytes, q);
      case k => DefaultPinned(s, k, d.start, pos, bytes, q);
    }
  }

  lemma LowElsewhere(s: Vdev, pos: nat, bytes: seq<byte>, q: nat)
    requires KindAt(s.owner, pos) == Basic && !CoversByte(pos, |bytes|, q) && HEADER <= q < |s.vconfig| == |s.hw|
    ensures At(WriteChunk(s, pos, bytes).vconfig, q) == At(s.vconfig, q)
  {
    hide KindAt, StartOf, BasicWrite;
    BasicPinned(s, pos, bytes, q);
  }

  // A chunk outside a capability covers none of its bytes.
  lemma ChunkApart(s: Vdev, caps: set<Cap>, c: Cap, pos: nat, count: nat, bytes: seq<byte>, q: nat)
    requires Good(s, caps) && c in caps && c.Has(q) && !c.Has(pos)
    requires 0 < count && |bytes| == ChunkLen(s.owner, pos, count)
    ensures !CoversByte(pos, |bytes|, q)
  {
    assert c.start % 4 == 0 by { assert CapFits(c, |s.owner|); }
    hide Good, ChunkLen;
    if CoversByte(pos, |bytes|, q) {
      ChunkInside(s.owner, pos, count, q - pos);
      OtherDword(pos, c.start, q);
    }
  }

  lemma OtherDword(pos: nat, start: nat, q: nat)
    requires pos < start <= q && start % 4 == 0
    ensures q / 4 != pos / 4
  {
  }

  lemma HighChunkVirt(s: Vdev, start: nat, pos: nat, bytes: seq<byte>, q: nat)
    requires KindAt(s.owner, pos) != Basic && StartOf(s.owner, pos) == start
    requires HEADER <= pos && HEADER <= start <= pos && q < HEADER <= |s.vconfig| == |s.hw|
    ensures At(WriteChunk(s, pos, bytes).vconfig, q) == At(s.vconfig, q)
  {
    hide KindAt, StartOf, VpdWrite, ExpWrite, AfWrite, MsiWrite, DefaultWrite, HwStore, Merge, At;
    match KindAt(s.owner, pos) {
      case Raw =>
      case Vendor =>
      case Direct =>
      case VirtOnly => BlendOutside(s.vconfig, pos, bytes, [0xFF, 0xFF, 0xFF, 0xFF], q);
      case Vpd => VpdPinned(s, start, pos, bytes, q);
      case Exp => ExpPinned(s, start, pos, bytes, q);
      case Af => AfPinned(s, start, pos, bytes, q);
      case Msi => MsiPinned(s, start, pos, bytes, q);
      case k => DefaultPinned(s, k, start, pos, bytes, q);
    }
  }

  lemma BlendOutside(v: seq<byte>, pos: nat, bytes: seq<byte>, masks: seq<byte>, q: nat)
    requires q < pos
    ensures At(Blend(v, pos, bytes, masks), q) == At(v, q)
  {
    hide Merge;
  }
}
