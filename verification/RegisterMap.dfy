/** What a guest sees and reaches of a register byte over whole runs, stated without the permission
    tables: the bits it reads virtually, the bits its writes move in the virtual copy and the bits
    they move in hardware. */
module RegisterMap {
  import opened Bytes
  import opened PciCaps
  import opened StdCapInit
  import opened Layout
  import opened Perms
  import opened Routing
  import opened ConfigAccess
  import opened ListLinks
  import opened GuestRuns
  import opened HardwareBytes
  import opened ByteRules
  import opened BarGuard

  // ---------------------------------------------------------------- runs on one byte

  // The bits of a mask that are not read-only.
  function Unlocked(mask: byte, ro: byte): byte { mask & !ro }

  // A virtual byte after a run: guest writes in a space of `size` bytes move the bits of `mask`.
  function VirtAfter(es: seq<Event>, size: nat, q: nat, was: byte, mask: byte): byte
    decreases |es|
  {
    if es == [] then was
    else
      var e := es[0];
      var now := if e.GuestWrite? && e.pos + |e.bytes| <= size && CoversByte(e.pos, |e.bytes|, q)
                 then Merge(was, e.bytes[q - e.pos], mask) else was;
      VirtAfter(es[1..], size, q, now, mask)
  }

  // A hardware byte after a run: guest writes move the bits of `mask` that are not read-only, and
  // hardware moves what it likes of those.
  function HwAfter(es: seq<Event>, size: nat, q: nat, was: byte, ro: byte, mask: byte): byte
    decreases |es|
  {
    if es == [] then was
    else
      var e := es[0];
      var now := if e.GuestWrite? && e.pos + |e.bytes| <= size && CoversByte(e.pos, |e.bytes|, q)
                   then Merge(was, e.bytes[q - e.pos], Unlocked(mask, ro))
                 else if e.HwChange? then Merge(was, At(e.values, q), Unlocked(0xFF, ro))
                 else was;
      HwAfter(es[1..], size, q, now, ro, mask)
  }

  // In every run the bits `bits` of hardware byte `q` move only with hardware and with those of `hmask`
  // that a guest writes.
  ghost predicate Reaches(s: Vdev, q: nat, bits: byte, hmask: byte) {
    forall es: seq<Event> :: Same(At(Run(s, es).hw, q), HwAfter(es, |s.owner|, q, At(s.hw, q), At(s.ro, q), hmask), bits)
  }

  // In every run a read of any shape that covers it shows, of the bits `bits`, those of `virt` of a
  // virtual byte of which a guest writes `vmask`, and the rest of hardware.
  ghost predicate Reads(s: Vdev, q: nat, bits: byte, virt: byte, vmask: byte, hmask: byte) {
    forall es: seq<Event>, pos: nat, count: nat :: pos <= q < pos + count && pos + count <= |s.owner| ==>
      Same(Got(Run(s, es), pos, count, q),
           Merge(HwAfter(es, |s.owner|, q, At(s.hw, q), At(s.ro, q), hmask), VirtAfter(es, |s.owner|, q, At(s.vconfig, q), vmask), virt), bits)
  }

  // Both, of all bits.
  ghost predicate Behaves(s: Vdev, q: nat, virt: byte, vmask: byte, hmask: byte) {
    Reaches(s, q, 0xFF, hmask) && Reads(s, q, 0xFF, virt, vmask, hmask)
  }

  lemma SameAll(a: byte, b: byte)
    ensures Same(a, b, 0xFF) <==> a == b
  {
  }

  lemma SameTrans(a: byte, b: byte, c: byte, bits: byte)
    requires Same(a, b, bits) && Same(b, c, bits)
    ensures Same(a, c, bits)
  {
  }

  lemma SameMerge(a: byte, b: byte, now: byte, mask: byte, bits: byte)
    requires Same(a, b, bits)
    ensures Same(Merge(a, now, mask), Merge(b, now, mask), bits)
  {
    MergeBits(a, now, mask, bits);
    MergeBits(b, now, mask, bits);
    hide Merge;
  }

  lemma MergeBits(a: byte, now: byte, mask: byte, bits: byte)
    ensures Merge(a, now, mask) & bits == Merge(a & bits, now & bits, mask)
  {
  }

  // ---------------------------------------------------------------- bits no handler patches

  // Bits of a hardware byte that no handler changes beyond its table: of the upper byte of Device
  // Control the maximum read request size is the host's, and MsiSync rules the flags of MSI.
  function HwFree(s: Vdev, q: nat): byte {
    match KindAt(s.owner, q)
    case Basic => SparedBits(q)
    case Exp => if q == StartOf(s.owner, q) + 9 then 0x8F else 0xFF
    case Msi => if q == StartOf(s.owner, q) + 2 || q == StartOf(s.owner, q) + 3 then 0 else 0xFF
    case VirtOnly => 0
    case _ => 0xFF
  }

  // ... and those of a virtual byte: reset and handshake bits read back as the handler leaves them.
  function PatchBits(k: Kind, off: nat): byte {
    match k
    case Basic => if off == COMMAND then 0xFC else 0xFF
    case Vpd => if off == 3 then 0x7F else if 4 <= off < 8 then 0 else 0xFF
    case Exp => if off == 9 then 0x7F else 0xFF
    case Af => if off == 4 then 0xFE else 0xFF
    case Msi => if off == 2 then 0 else 0xFF
    case VirtOnly => 0
    case _ => 0xFF
  }

  function VirtFree(s: Vdev, q: nat): byte {
    if Readable(s, q) && VirtSeen(s, q) != 0 then PatchBits(KindAt(s.owner, q), q - StartOf(s.owner, q)) else 0
  }

  // What a covering write makes of a byte.
  function HwThen(s: Vdev, pos: nat, bytes: seq<byte>, q: nat): byte {
    if CoversByte(pos, |bytes|, q) then Merge(At(s.hw, q), bytes[q - pos], Unlocked(HwReach(s, q), At(s.ro, q))) else At(s.hw, q)
  }

  function VirtThen(s: Vdev, pos: nat, bytes: seq<byte>, q: nat): byte {
    if CoversByte(pos, |bytes|, q) then Merge(At(s.vconfig, q), bytes[q - pos], VirtReach(s, q)) else At(s.vconfig, q)
  }

  // A chunk that covers a byte is of its kind and of its capability.
  lemma CoveredRoute(s: Vdev, caps: set<Cap>, pos: nat, count: nat, bytes: seq<byte>, q: nat)
    requires Good(s, caps) && 0 < count && pos + count <= |s.owner| && |bytes| == ChunkLen(s.owner, pos, count)
    ensures CoversByte(pos, |bytes|, q) ==> KindAt(s.owner, q) == KindAt(s.owner, pos)
    ensures CoversByte(pos, |bytes|, q) ==> KindAt(s.owner, pos) in {Raw, VirtOnly} || StartOf(s.owner, q) == StartOf(s.owner, pos)
    ensures |bytes| <= 4
  {
    hide ChunkLen, Good, KindAt, StartOf;
    if CoversByte(pos, |bytes|, q) { SameRoute(s, caps, pos, count, q - pos); }
  }

  // What the table of the chunk's capability does to one byte.
  lemma TableWritten(s: Vdev, k: Kind, start: nat, pos: nat, bytes: seq<byte>, q: nat)
    requires start <= pos && q < |s.vconfig| == |s.hw| && Tabled(k)
    requires CoversByte(pos, |bytes|, q) ==> KindAt(s.owner, q) == k && StartOf(s.owner, q) == start
    ensures var w := DefaultWrite(s, k, start, pos, bytes);
      At(w.hw, q) == HwThen(s, pos, bytes, q) && At(w.vconfig, q) == VirtThen(s, pos, bytes, q)
  {
    hide KindAt, StartOf, Stored, Merge, DefaultWrite, VMask, HMask, At, HwReach, VirtReach, Unlocked;
    DefaultMasks(s, k, start, pos, bytes, q);
    if CoversByte(pos, |bytes|, q) {
      TableReach(s, q);
      StoredUnlocked(At(s.hw, q), bytes[q - pos], HwReach(s, q), At(s.ro, q));
    }
  }

  lemma StoredUnlocked(was: byte, now: byte, mask: byte, ro: byte)
    ensures Stored(was, Merge(was, now, mask), ro) == Merge(was, now, Unlocked(mask, ro))
  {
    StoredMerge(was, now, mask, ro);
    hide Stored, Merge;
  }

  // A byte of the header.
  lemma BasicHw(s: Vdev, pos: nat, bytes: seq<byte>, q: nat)
    requires KindAt(s.owner, pos) == Basic && StartOf(s.owner, pos) == 0 && q < |s.vconfig| == |s.hw| && HEADER <= |s.hw|
    requires CoversByte(pos, |bytes|, q) ==> KindAt(s.owner, q) == Basic && StartOf(s.owner, q) == 0
    ensures Same(At(WriteChunk(s, pos, bytes).hw, q), HwThen(s, pos, bytes, q), SparedBits(q))
  {
    var s1 := if pos == COMMAND && NeedsRestore(s, At(bytes, 0)) then BarRestore(s) else s;
    hide KindAt, StartOf, BasicWrite, DefaultWrite, NeedsRestore, BarRestore, At, WriteChunk, HwReach, VirtReach, Unlocked, Merge, Same, SparedBits, HwThen;
    BasicRoute(s, pos, bytes);
    BasicTail(s, pos, bytes, s1);
    RestoredSame(s, s1, q);
    TableWritten(s1, Basic, 0, pos, bytes, q);
    SameThen(s, s1, pos, bytes, q);
  }

  lemma SameThen(s: Vdev, s1: Vdev, pos: nat, bytes: seq<byte>, q: nat)
    requires s1 == s.(hw := s1.hw) && Same(At(s1.hw, q), At(s.hw, q), SparedBits(q))
    ensures Same(HwThen(s1, pos, bytes, q), HwThen(s, pos, bytes, q), SparedBits(q))
  {
    hide Same, SparedBits, At, HwReach, Unlocked, Merge;
    SameReach(s, s1, q);
    if CoversByte(pos, |bytes|, q) {
      SameMerge(At(s1.hw, q), At(s.hw, q), bytes[q - pos], Unlocked(HwReach(s, q), At(s.ro, q)), SparedBits(q));
    }
  }


  lemma RestoredSame(s: Vdev, s1: Vdev, q: nat)
    requires (s1 == s || s1 == BarRestore(s)) && HEADER <= |s.hw|
    ensures s1 == s.(hw := s1.hw) && |s1.hw| == |s.hw| && Same(At(s1.hw, q), At(s.hw, q), SparedBits(q))
  {
    hide BarRestore, At, Same, SparedBits;
    RestoreFrame(s);
    RestoreBits(s, q);
    SameSelf(At(s.hw, q), SparedBits(q));
  }

  lemma BasicVirt(s: Vdev, pos: nat, bytes: seq<byte>, q: nat)
    requires KindAt(s.owner, pos) == Basic && StartOf(s.owner, pos) == 0 && q < |s.vconfig| == |s.hw| && q != COMMAND
    requires CoversByte(pos, |bytes|, q) ==> KindAt(s.owner, q) == Basic && StartOf(s.owner, q) == 0
    ensures At(WriteChunk(s, pos, bytes).vconfig, q) == VirtThen(s, pos, bytes, q)
  {
    var s1 := if pos == COMMAND && NeedsRestore(s, At(bytes, 0)) then BarRestore(s) else s;
    hide KindAt, StartOf, BasicWrite, DefaultWrite, NeedsRestore, BarRestore, At, WriteChunk, HwReach, VirtReach, Unlocked, Merge;
    BasicRoute(s, pos, bytes);
    BasicOther(s, pos, bytes, q);
    RestoreFrame(s);
    TableWritten(s1, Basic, 0, pos, bytes, q);
    SameReach(s, s1, q);
  }

  // Bits of a hardware byte that the handler of kind `k` at `start` leaves to its table.
  function HandlerBits(k: Kind, start: nat, q: nat): byte {
    if k == Exp && q == start + 9 then 0x8F else if k == Msi && start + 2 <= q < start + 4 then 0 else 0xFF
  }

  function HandlerVirt(k: Kind, start: nat, q: nat): byte { if q < start then 0xFF else PatchBits(k, q - start) }

  // A handler leaves its table's result alone but for the bits it patches.
  lemma HandlerByte(s: Vdev, pos: nat, bytes: seq<byte>, q: nat)
    requires KindAt(s.owner, pos) in {Vpd, Exp, Af, Msi}
    ensures var k := KindAt(s.owner, pos); var start := StartOf(s.owner, pos);
      var w := DefaultWrite(s, k, start, pos, bytes); var t := WriteChunk(s, pos, bytes);
      && Same(At(t.vconfig, q), At(w.vconfig, q), HandlerVirt(k, start, q))
      && Same(At(t.hw, q), At(w.hw, q), HandlerBits(k, start, q))
  {
    var k, start := KindAt(s.owner, pos), StartOf(s.owner, pos);
    var w := DefaultWrite(s, k, start, pos, bytes);
    HandlerRoute(s, pos, bytes);
    hide KindAt, StartOf, DefaultWrite, WriteChunk, MrrsFollow, FlrHandled, AfReset, VpdOp, MsiPatched, At, Same, HandlerVirt, HandlerBits, Mrrs;
    SameSelf(At(w.vconfig, q), HandlerVirt(k, start, q));
    SameSelf(At(w.hw, q), HandlerBits(k, start, q));
    match k {
      case Vpd => VpdPatch(w, start, q);
      case Exp => ExpPatch(w, start, Mrrs(At(s.vconfig, start + 9)), q);
      case Af => AfPatch(w, start, q);
      case Msi => MsiPatch(w, start, q);
    }
  }

  // The correction that follows a write of the flags.
  function MsiPatched(w: Vdev, start: nat): Vdev {
    var flags := MsiFixed(w, At(w.vconfig, start + 2));
    w.(vconfig := Poke(w.vconfig, start + 2, flags), hw := HwStore(w.hw, w.ro, start + 2, [flags, At(w.vconfig, start + 3)]))
  }

  // What a handler makes of its table's result.
  lemma HandlerRoute(s: Vdev, pos: nat, bytes: seq<byte>)
    requires KindAt(s.owner, pos) in {Vpd, Exp, Af, Msi}
    ensures var k := KindAt(s.owner, pos); var start := StartOf(s.owner, pos);
      var w := DefaultWrite(s, k, start, pos, bytes); var t := WriteChunk(s, pos, bytes);
      && (k == Vpd ==> t == w || t == VpdOp(w, start))
      && (k == Exp ==> t == MrrsFollow(FlrHandled(w, start), start, Mrrs(At(s.vconfig, start + 9))))
      && (k == Af ==> t == AfReset(w, start))
      && (k == Msi ==> t == w || t == MsiPatched(w, start))
  {
    hide KindAt, StartOf, DefaultWrite, VpdOp, MrrsFollow, FlrHandled, AfReset, MsiFixed, HwStore, At, Mrrs;
  }

  lemma VpdPatch(w: Vdev, start: nat, q: nat)
    ensures var t := VpdOp(w, start); t.hw == w.hw && Same(At(t.vconfig, q), At(w.vconfig, q), HandlerVirt(Vpd, start, q))
  {
    VpdHw(w, start);
    SameSelf(At(w.vconfig, q), 0xFF);
    if start + 4 <= q < start + 8 {
      NoBits(At(VpdOp(w, start).vconfig, q), At(w.vconfig, q));
    } else if q == start + 3 {
      VpdFlag(w, start);
    } else {
      OpPinned(w, start, q);
    }
    hide VpdOp, At, Same;
  }

  // The address register keeps its 15 bits of address.
  lemma VpdFlag(w: Vdev, start: nat)
    ensures Same(At(VpdOp(w, start).vconfig, start + 3), At(w.vconfig, start + 3), 0x7F)
  {
    hide VpdTakes, VpdDword, VpdAddr, VpdF, VpdFlip, Dword, Poke, Poke4, At, Same;
    var lo, hi := At(w.vconfig, start + 2), At(w.vconfig, start + 3);
    var data := VpdDword(w.vpd, VpdAddr(lo, hi));
    FlipSame(hi);
    SameSelf(hi, 0x7F);
    PokeSelf(w.vconfig, start + 3, VpdFlip(hi));
    Poke4At(w.vconfig, start + 4, data, start + 3);
    PokeSelf(Poke4(w.vconfig, start + 4, data), start + 3, VpdFlip(hi));
    OutSame(At(Poke(w.vconfig, start + 3, VpdFlip(hi)), start + 3), hi, VpdFlip(hi));
  }

  // A byte poked, or out of range.
  lemma PokeSelf(v: seq<byte>, i: nat, b: byte)
    ensures At(Poke(v, i, b), i) == b || (At(Poke(v, i, b), i) == At(v, i))
  {
  }

  lemma FlipSame(hi: byte)
    ensures Same(VpdFlip(hi), hi, 0x7F)
  {
  }

  lemma OutSame(a: byte, hi: byte, flipped: byte)
    requires a == hi || a == flipped
    ensures Same(flipped, hi, 0x7F) ==> Same(a, hi, 0x7F)
  {
    SameSelf(hi, 0x7F);
    hide Same;
  }

  lemma ExpPatch(w: Vdev, start: nat, before: byte, q: nat)
    ensures var t := MrrsFollow(FlrHandled(w, start), start, before);
      && Same(At(t.vconfig, q), At(w.vconfig, q), HandlerVirt(Exp, start, q))
      && Same(At(t.hw, q), At(w.hw, q), HandlerBits(Exp, start, q))
  {
    hide MrrsFollow, FlrHandled, At, Same, Poke, Mrrs;
    var d := FlrHandled(w, start);
    SameSelf(At(w.vconfig, q), HandlerVirt(Exp, start, q));
    SameSelf(At(w.hw, q), HandlerBits(Exp, start, q));
    MrrsVirtual(d, start, before);
    FlrVirtual(w, start, q);
    if q == start + 9 {
      FlrHw(w, start);
      ReadrqBits(d, start, before);
    } else {
      ExpHw(w, start, before, q);
    }
  }

  // A reset request is the only thing its handler takes out of the copy.
  lemma FlrVirtual(w: Vdev, start: nat, q: nat)
    ensures Same(At(FlrHandled(w, start).vconfig, q), At(w.vconfig, q), HandlerVirt(Exp, start, q))
  {
    var b := At(w.vconfig, start + 9);
    SameSelf(At(w.vconfig, q), HandlerVirt(Exp, start, q));
    ClearSame(b);
    PokeSelf(w.vconfig, start + 9, Initiated(b));
    SameSelf(b, 0x7F);
    if q != start + 9 { PokeAt(w.vconfig, start + 9, Initiated(b), q); }
    hide Same, At, Poke, Initiated;
  }

  lemma ClearSame(b: byte)
    ensures Same(Initiated(b), b, 0x7F) && Same(AfInitiated(b), b, 0xFE)
  {
  }

  lemma ReadrqBits(e: Vdev, start: nat, before: byte)
    ensures Same(At(MrrsFollow(e, start, before).hw, start + 9), At(e.hw, start + 9), 0x8F)
  {
    hide Mrrs, Mps, MaxByte, Stored, Merge, Same, At, Poke;
    var was, ro := At(e.hw, start + 9), At(e.ro, start + 9);
    var code := MaxByte(Mrrs(At(e.vconfig, start + 9)), Mps(At(e.hw, start + 8)));
    SameSelf(was, 0x8F);
    ReadrqSame(was, code << 4, ro);
    PokeSelf(e.hw, start + 9, Stored(was, Merge(was, code << 4, 0x70), ro));
  }

  lemma ReadrqSame(was: byte, now: byte, ro: byte)
    ensures Same(Stored(was, Merge(was, now, 0x70), ro), was, 0x8F)
  {
  }

  lemma AfPatch(w: Vdev, start: nat, q: nat)
    ensures var t := AfReset(w, start); t.hw == w.hw && Same(At(t.vconfig, q), At(w.vconfig, q), HandlerVirt(Af, start, q))
  {
    var b := At(w.vconfig, start + 4);
    SameSelf(At(w.vconfig, q), HandlerVirt(Af, start, q));
    ClearSame(b);
    PokeSelf(w.vconfig, start + 4, AfInitiated(b));
    SameSelf(b, 0xFE);
    if q != start + 4 { PokeAt(w.vconfig, start + 4, AfInitiated(b), q); }
    hide Same, At, Poke, AfInitiated;
  }

  lemma MsiPatch(w: Vdev, start: nat, q: nat)
    ensures var t := MsiPatched(w, start);
      && Same(At(t.vconfig, q), At(w.vconfig, q), HandlerVirt(Msi, start, q))
      && Same(At(t.hw, q), At(w.hw, q), HandlerBits(Msi, start, q))
  {
    hide MsiFixed, HwStore, At, Same;
    var flags := MsiFixed(w, At(w.vconfig, start + 2));
    var t := MsiPatched(w, start);
    NoBits(At(t.vconfig, q), At(w.vconfig, q));
    NoBits(At(t.hw, q), At(w.hw, q));
    SameSelf(At(w.vconfig, q), 0xFF);
    SameSelf(At(w.hw, q), 0xFF);
    if q != start + 2 { PokeAt(w.vconfig, start + 2, flags, q); }
    if !(start + 2 <= q < start + 4) { HwStoreOutside(w.hw, w.ro, start + 2, [flags, At(w.vconfig, start + 3)], q); }
  }

  // A byte that some handler patches belongs to that handler's capability.
  lemma PatchedOwn(s: Vdev, caps: set<Cap>, pos: nat, q: nat)
    requires Good(s, caps) && KindAt(s.owner, pos) in {Vpd, Exp, Af, Msi}
    ensures var k := KindAt(s.owner, pos); var start := StartOf(s.owner, pos);
      Patches(k, start, q) || (k == Msi && q == start + 3) ==> KindAt(s.owner, q) == k && StartOf(s.owner, q) == start
  {
    hide KindAt, StartOf, Laid;
    var k := KindAt(s.owner, pos);
    Routed(s.owner, caps, s.msi, pos);
    var c :| c in caps && c.Has(pos) && StartOf(s.owner, pos) == c.start;
    StartOfCap(s.owner, caps, s.msi, c, pos);
    HandlerSpan(s.owner, caps, s.msi, c);
    if c.Has(q) { StartOfCap(s.owner, caps, s.msi, c, q); }
  }

  // The bits of one byte that a handler patches are not free.
  lemma FreeOwn(s: Vdev, caps: set<Cap>, pos: nat, q: nat)
    requires Good(s, caps) && KindAt(s.owner, pos) in {Vpd, Exp, Af, Msi}
    ensures var k := KindAt(s.owner, pos); var start := StartOf(s.owner, pos);
      && (HandlerBits(k, start, q) == 0xFF || HandlerBits(k, start, q) == HwFree(s, q))
      && (HandlerVirt(k, start, q) == 0xFF || VirtFree(s, q) == 0 || HandlerVirt(k, start, q) == VirtFree(s, q))
  {
    hide KindAt, StartOf, VirtSeen, Readable;
    PatchedOwn(s, caps, pos, q);
  }

  lemma SameFewer(a: byte, b: byte, bits: byte, fewer: byte)
    requires Same(a, b, bits) && (bits == 0xFF || fewer == 0 || bits == fewer)
    ensures Same(a, b, fewer)
  {
    SameAll(a, b);
    NoBits(a, b);
    SameSelf(a, fewer);
    hide Same;
  }

  // One chunk and one byte, on the bits that no handler patches.
  lemma ChunkByte(s: Vdev, caps: set<Cap>, pos: nat, count: nat, bytes: seq<byte>, q: nat)
    requires Good(s, caps) && 0 < count && pos + count <= |s.owner| && |bytes| == ChunkLen(s.owner, pos, count) && q < |s.owner|
    ensures var t := WriteChunk(s, pos, bytes);
      Same(At(t.hw, q), HwThen(s, pos, bytes, q), HwFree(s, q)) && Same(At(t.vconfig, q), VirtThen(s, pos, bytes, q), VirtFree(s, q))
  {
    hide *;
    CoveredRoute(s, caps, pos, count, bytes, q);
    GoodSizes(s, caps);
    var k := KindAt(s.owner, pos);
    ChunkKinds(s, caps, pos);
    if k in {Raw, Direct, Vendor, Pm, PciX, Err, Pwr} {
      PlainByte(s, pos, bytes, q);
    } else if k == Basic {
      HeaderByte(s, caps, pos, bytes, q);
    } else {
      TableWritten(s, k, StartOf(s.owner, pos), pos, bytes, q);
      HandlerByte(s, pos, bytes, q);
      FreeOwn(s, caps, pos, q);
      var t := WriteChunk(s, pos, bytes);
      SameFewer(At(t.hw, q), HwThen(s, pos, bytes, q), HandlerBits(k, StartOf(s.owner, pos), q), HwFree(s, q));
      SameFewer(At(t.vconfig, q), VirtThen(s, pos, bytes, q), HandlerVirt(k, StartOf(s.owner, pos), q), VirtFree(s, q));
    }
  }

  lemma ChunkKinds(s: Vdev, caps: set<Cap>, pos: nat)
    requires Good(s, caps)
    ensures var k := KindAt(s.owner, pos);
      && (k in {Raw, Direct, Vendor, Pm, PciX, Err, Pwr} ==> PlainWrite(s, pos))
      && (k in {Raw, Direct, Vendor, Pm, PciX, Err, Pwr} || k == Basic || (Tabled(k) && k in {Vpd, Exp, Af, Msi}))
      && (k == Basic ==> StartOf(s.owner, pos) == 0)
  {
    NotVirtOnly(s.owner, caps, s.msi, pos);
    Routed(s.owner, caps, s.msi, pos);
    hide KindAt, StartOf, Laid;
  }

  lemma HeaderByte(s: Vdev, caps: set<Cap>, pos: nat, bytes: seq<byte>, q: nat)
    requires Good(s, caps) && KindAt(s.owner, pos) == Basic && StartOf(s.owner, pos) == 0 && q < |s.owner|
    requires CoversByte(pos, |bytes|, q) ==> KindAt(s.owner, q) == Basic && StartOf(s.owner, q) == 0
    ensures var t := WriteChunk(s, pos, bytes);
      Same(At(t.hw, q), HwThen(s, pos, bytes, q), HwFree(s, q)) && Same(At(t.vconfig, q), VirtThen(s, pos, bytes, q), VirtFree(s, q))
  {
    hide *;
    GoodSizes(s, caps);
    HeaderFree(s, caps, q);
    BasicHw(s, pos, bytes, q);
    var t := WriteChunk(s, pos, bytes);
    SameFewer(At(t.hw, q), HwThen(s, pos, bytes, q), SparedBits(q), HwFree(s, q));
    if VirtFree(s, q) == 0 {
      NoBits(At(t.vconfig, q), VirtThen(s, pos, bytes, q));
    } else {
      BasicVirt(s, pos, bytes, q);
      SameSelf(At(t.vconfig, q), VirtFree(s, q));
    }
  }

  // The bits that the header handler spares; the guest sees none of COMMAND's lower byte virtually.
  lemma HeaderFree(s: Vdev, caps: set<Cap>, q: nat)
    requires Good(s, caps)
    ensures HwFree(s, q) == SparedBits(q) || SparedBits(q) == 0xFF
    ensures q == COMMAND ==> VirtFree(s, q) == 0
  {
    Routed(s.owner, caps, s.msi, q);
    hide Laid, KindAt, StartOf;
  }

  lemma PlainByte(s: Vdev, pos: nat, bytes: seq<byte>, q: nat)
    requires PlainWrite(s, pos) && q < |s.vconfig| == |s.hw| && |bytes| <= 4
    requires CoversByte(pos, |bytes|, q) ==>
      KindAt(s.owner, q) == KindAt(s.owner, pos) && (KindAt(s.owner, pos) in {Raw, VirtOnly} || StartOf(s.owner, q) == StartOf(s.owner, pos))
    ensures var t := WriteChunk(s, pos, bytes);
      Same(At(t.hw, q), HwThen(s, pos, bytes, q), HwFree(s, q)) && Same(At(t.vconfig, q), VirtThen(s, pos, bytes, q), VirtFree(s, q))
  {
    hide KindAt, StartOf, WriteChunk, HwReach, VirtReach, At, Merge, Same, HwFree, VirtFree;
    WriteByteRule(s, pos, bytes, q);
    assert Unlocked(HwReach(s, q), At(s.ro, q)) == HwReach(s, q) & !At(s.ro, q);
    SameSelf(HwThen(s, pos, bytes, q), HwFree(s, q));
    SameSelf(VirtThen(s, pos, bytes, q), VirtFree(s, q));
  }

  // ---------------------------------------------------------------- accesses

  // The parts of the state that say what a byte is.
  predicate SameMap(s: Vdev, t: Vdev) { t.owner == s.owner && t.msi == s.msi && t.ro == s.ro && t.func == s.func }

  lemma MapFree(s: Vdev, t: Vdev, q: nat)
    requires SameMap(s, t)
    ensures HwFree(t, q) == HwFree(s, q) && VirtFree(t, q) == VirtFree(s, q)
    ensures HwReach(t, q) == HwReach(s, q) && VirtReach(t, q) == VirtReach(s, q)
    ensures VirtSeen(t, q) == VirtSeen(s, q) && Readable(t, q) == Readable(s, q)
  {
    hide KindAt, StartOf, HwReach, VirtReach, VirtSeen, PatchBits, SparedBits, IsBar;
    SameReach(s, t, q);
    SameSeen(s, t, q);
    SameFree(s, t, q);
  }

  lemma SameFree(s: Vdev, t: Vdev, q: nat)
    requires t.owner == s.owner
    ensures HwFree(t, q) == HwFree(s, q)
  {
    hide KindAt, StartOf, SparedBits;
  }

  // What a write makes of a byte, from any values of it.
  function HwPut(pos: nat, bytes: seq<byte>, q: nat, was: byte, ro: byte, mask: byte): byte {
    if CoversByte(pos, |bytes|, q) then Merge(was, bytes[q - pos], Unlocked(mask, ro)) else was
  }

  function VirtPut(pos: nat, bytes: seq<byte>, q: nat, was: byte, mask: byte): byte {
    if CoversByte(pos, |bytes|, q) then Merge(was, bytes[q - pos], mask) else was
  }

  lemma PutIs(s: Vdev, pos: nat, bytes: seq<byte>, q: nat)
    ensures HwThen(s, pos, bytes, q) == HwPut(pos, bytes, q, At(s.hw, q), At(s.ro, q), HwReach(s, q))
    ensures VirtThen(s, pos, bytes, q) == VirtPut(pos, bytes, q, At(s.vconfig, q), VirtReach(s, q))
  {
    hide Merge, Unlocked, HwReach, VirtReach, At;
  }

  // One part of a write after the other, on some bits.
  lemma PutThen(pos: nat, bytes: seq<byte>, n: nat, q: nat, was: byte, between: byte, ro: byte, mask: byte, bits: byte)
    requires n <= |bytes|
    ensures Same(between, HwPut(pos, bytes[..n], q, was, ro, mask), bits) ==>
      Same(HwPut(pos + n, bytes[n..], q, between, ro, mask), HwPut(pos, bytes, q, was, ro, mask), bits)
    ensures Same(between, VirtPut(pos, bytes[..n], q, was, mask), bits) ==>
      Same(VirtPut(pos + n, bytes[n..], q, between, mask), VirtPut(pos, bytes, q, was, mask), bits)
  {
    hide Merge, Unlocked, Same;
    if CoversByte(pos + n, |bytes| - n, q) {
      if Same(between, was, bits) {
        SameMerge(between, was, bytes[q - pos], Unlocked(mask, ro), bits);
        SameMerge(between, was, bytes[q - pos], mask, bits);
      }
    }
  }

  // The rule for writes of any position and length.
  lemma {:induction false} AccessByte(s: Vdev, caps: set<Cap>, pos: nat, bytes: seq<byte>, q: nat)
    requires Good(s, caps) && pos + |bytes| <= |s.owner| && q < |s.owner|
    ensures var t := WriteAccess(s, pos, bytes);
      && SameMap(s, t)
      && Same(At(t.hw, q), HwThen(s, pos, bytes, q), HwFree(s, q))
      && Same(At(t.vconfig, q), VirtThen(s, pos, bytes, q), VirtFree(s, q))
    decreases |bytes|
  {
    hide *;
    if bytes == [] {
      NothingWritten(s, pos, q);
    } else {
      var n := ChunkLen(s.owner, pos, |bytes|);
      var t := WriteChunk(s, pos, bytes[..n]);
      var u := WriteAccess(s, pos, bytes);
      WriteUnfolds(s, pos, bytes);
      WriteFrame(s, pos, bytes[..n]);
      FrameMap(s, t);
      GoodFramed(s, t, caps);
      ChunkByte(s, caps, pos, |bytes|, bytes[..n], q);
      MapFree(s, t, q);
      AccessByte(t, caps, pos + n, bytes[n..], q);
      MapThen(s, t, u);
      PutIs(s, pos, bytes[..n], q);
      PutIs(s, pos, bytes, q);
      PutIs(t, pos + n, bytes[n..], q);
      PutThen(pos, bytes, n, q, At(s.hw, q), At(t.hw, q), At(s.ro, q), HwReach(s, q), HwFree(s, q));
      PutThen(pos, bytes, n, q, At(s.vconfig, q), At(t.vconfig, q), 0, VirtReach(s, q), VirtFree(s, q));
      SameTrans(At(u.hw, q), HwThen(t, pos + n, bytes[n..], q), HwThen(s, pos, bytes, q), HwFree(s, q));
      SameTrans(At(u.vconfig, q), VirtThen(t, pos + n, bytes[n..], q), VirtThen(s, pos, bytes, q), VirtFree(s, q));
    }
  }

  lemma NothingWritten(s: Vdev, pos: nat, q: nat)
    ensures WriteAccess(s, pos, []) == s && HwThen(s, pos, [], q) == At(s.hw, q) && VirtThen(s, pos, [], q) == At(s.vconfig, q)
    ensures SameMap(s, s) && Same(At(s.hw, q), At(s.hw, q), HwFree(s, q)) && Same(At(s.vconfig, q), At(s.vconfig, q), VirtFree(s, q))
  {
    hide At, HwFree, VirtFree;
  }

  lemma WriteUnfolds(s: Vdev, pos: nat, bytes: seq<byte>)
    requires bytes != []
    ensures var n := ChunkLen(s.owner, pos, |bytes|);
      n <= |bytes| && WriteAccess(s, pos, bytes) == WriteAccess(WriteChunk(s, pos, bytes[..n]), pos + n, bytes[n..])
  {
    hide WriteChunk, ChunkLen;
  }

  lemma FrameMap(s: Vdev, t: Vdev)
    requires SameFrame(s, t)
    ensures SameMap(s, t) && t.owner == s.owner && t.ro == s.ro
  {
  }

  lemma MapThen(s: Vdev, t: Vdev, u: Vdev)
    requires SameMap(s, t) && SameMap(t, u)
    ensures SameMap(s, u) && t.ro == s.ro && t.owner == s.owner
  {
  }

  // A read changes no hardware, and of the copy only what does not show.
  lemma {:induction false} ReadByteKept(s: Vdev, caps: set<Cap>, pos: nat, count: nat, q: nat)
    requires Good(s, caps)
    ensures var t := ReadAccess(s, pos, count).0;
      SameMap(s, t) && t.hw == s.hw && (VirtFree(s, q) != 0 ==> At(t.vconfig, q) == At(s.vconfig, q))
    decreases count
  {
    hide Good, ReadPrep, ChunkLen, ReadBytes, VirtFree, HwFree, At;
    if count > 0 {
      var n := ChunkLen(s.owner, pos, count);
      var t := ReadPrep(s, pos, n);
      ReadPrepFrame(s, pos, n);
      GoodFramed(s, t, caps);
      PrepHw(s, pos, n);
      PrepFree(s, caps, pos, n, q);
      MapFree(s, t, q);
      ReadByteKept(t, caps, pos + n, count - n, q);
    }
  }

  lemma PrepFree(s: Vdev, caps: set<Cap>, pos: nat, n: nat, q: nat)
    requires Good(s, caps)
    ensures VirtFree(s, q) != 0 ==> At(ReadPrep(s, pos, n).vconfig, q) == At(s.vconfig, q)
  {
    hide Good, ReadPrep, Readable, VirtSeen, At, PatchBits;
    if VirtFree(s, q) != 0 { PrepAt(s, caps, pos, n, q); }
  }

  lemma PrepHw(s: Vdev, pos: nat, n: nat)
    ensures ReadPrep(s, pos, n).hw == s.hw
  {
    FixupHw(s);
    hide KindAt, StartOf, BarFixup;
  }

  // ---------------------------------------------------------------- runs

  lemma StoredIs(was: byte, now: byte, ro: byte)
    ensures Stored(was, now, ro) == Merge(was, now, Unlocked(0xFF, ro))
  {
  }

  lemma StepByte(s: Vdev, caps: set<Cap>, e: Event, q: nat)
    requires Good(s, caps) && q < |s.owner|
    ensures var t := Step(s, e);
      && SameMap(s, t)
      && Same(At(t.hw, q), HwAfter([e], |s.owner|, q, At(s.hw, q), At(s.ro, q), HwReach(s, q)), HwFree(s, q))
      && Same(At(t.vconfig, q), VirtAfter([e], |s.owner|, q, At(s.vconfig, q), VirtReach(s, q)), VirtFree(s, q))
  {
    hide Good, ReadAccess, WriteAccess, HwFree, VirtFree, HwReach, VirtReach, Merge, Stored, Same, Unlocked;
    assert [e][1..] == [];
    SameSelf(At(s.hw, q), HwFree(s, q));
    SameSelf(At(s.vconfig, q), VirtFree(s, q));
    match e {
      case GuestRead(pos, count) =>
        ReadByteKept(s, caps, pos, count, q);
        NoBits(At(ReadAccess(s, pos, count).0.vconfig, q), At(s.vconfig, q));
      case GuestWrite(pos, bytes) => if pos + |bytes| <= |s.owner| { AccessByte(s, caps, pos, bytes, q); }
      case HwChange(values) =>
        assert q < |s.hw| by { GoodSizes(s, caps); }
        StoredIs(At(s.hw, q), At(values, q), At(s.ro, q));
        SameSelf(At(Step(s, e).hw, q), HwFree(s, q));
      case IrqMode(msiMode, qmax) =>
    }
  }

  lemma GoodSizes(s: Vdev, caps: set<Cap>)
    requires Good(s, caps)
    ensures HEADER <= |s.hw| == |s.vconfig| == |s.owner|
  {
  }

  lemma {:induction false} AfterSame(es: seq<Event>, size: nat, q: nat, a: byte, b: byte, ro: byte, mask: byte, bits: byte)
    requires Same(a, b, bits)
    ensures Same(HwAfter(es, size, q, a, ro, mask), HwAfter(es, size, q, b, ro, mask), bits)
    ensures Same(VirtAfter(es, size, q, a, mask), VirtAfter(es, size, q, b, mask), bits)
    decreases |es|
  {
    if es != [] {
      hide Merge, At, Same, Unlocked;
      var e := es[0];
      HwCons(e, es[1..], size, q, a, ro, mask);
      HwCons(e, es[1..], size, q, b, ro, mask);
      assert es == [e] + es[1..];
      OneSame(e, size, q, a, b, ro, mask, bits);
      hide HwAfter, VirtAfter;
      AfterSame(es[1..], size, q, HwAfter([e], size, q, a, ro, mask), HwAfter([e], size, q, b, ro, mask), ro, mask, bits);
      AfterSame(es[1..], size, q, VirtAfter([e], size, q, a, mask), VirtAfter([e], size, q, b, mask), ro, mask, bits);
    }
  }

  lemma OneSame(e: Event, size: nat, q: nat, a: byte, b: byte, ro: byte, mask: byte, bits: byte)
    requires Same(a, b, bits)
    ensures Same(HwAfter([e], size, q, a, ro, mask), HwAfter([e], size, q, b, ro, mask), bits)
    ensures Same(VirtAfter([e], size, q, a, mask), VirtAfter([e], size, q, b, mask), bits)
  {
    hide Merge, At, Same, Unlocked;
    assert [e][1..] == [];
    if e.GuestWrite? && CoversByte(e.pos, |e.bytes|, q) {
      SameMerge(a, b, e.bytes[q - e.pos], Unlocked(mask, ro), bits);
      SameMerge(a, b, e.bytes[q - e.pos], mask, bits);
    } else if e.HwChange? {
      SameMerge(a, b, At(e.values, q), Unlocked(0xFF, ro), bits);
    }
  }

  lemma HwCons(e: Event, es: seq<Event>, size: nat, q: nat, was: byte, ro: byte, mask: byte)
    ensures HwAfter([e] + es, size, q, was, ro, mask) == HwAfter(es, size, q, HwAfter([e], size, q, was, ro, mask), ro, mask)
    ensures VirtAfter([e] + es, size, q, was, mask) == VirtAfter(es, size, q, VirtAfter([e], size, q, was, mask), mask)
  {
    hide Merge, At;
    assert ([e] + es)[1..] == es && [e][1..] == [];
  }

  lemma {:induction false} RunByte(s: Vdev, caps: set<Cap>, es: seq<Event>, q: nat)
    requires Steady(s, caps) && q < |s.owner|
    ensures var t := Run(s, es);
      && SameMap(s, t) && Steady(t, caps)
      && Same(At(t.hw, q), HwAfter(es, |s.owner|, q, At(s.hw, q), At(s.ro, q), HwReach(s, q)), HwFree(s, q))
      && Same(At(t.vconfig, q), VirtAfter(es, |s.owner|, q, At(s.vconfig, q), VirtReach(s, q)), VirtFree(s, q))
    decreases |es|
  {
    hide *;
    if es == [] {
      NoRun(s, q);
    } else {
      var e := es[0];
      var t := Step(s, e);
      var u := Run(s, es);
      RunUnfolds(s, es);
      SteadyGood(s, caps);
      StepSteady(s, caps, e);
      StepByte(s, caps, e, q);
      MapThen(s, t, t) by { MapSelf(t); }
      MapFree(s, t, q);
      RunByte(t, caps, es[1..], q);
      MapThen(s, t, u);
      HwCons(e, es[1..], |s.owner|, q, At(s.hw, q), At(s.ro, q), HwReach(s, q));
      HwCons(e, es[1..], |s.owner|, q, At(s.vconfig, q), At(s.ro, q), VirtReach(s, q));
      assert es == [e] + es[1..];
      var h := HwAfter([e], |s.owner|, q, At(s.hw, q), At(s.ro, q), HwReach(s, q));
      var v := VirtAfter([e], |s.owner|, q, At(s.vconfig, q), VirtReach(s, q));
      AfterSame(es[1..], |s.owner|, q, At(t.hw, q), h, At(s.ro, q), HwReach(s, q), HwFree(s, q));
      AfterSame(es[1..], |s.owner|, q, At(t.vconfig, q), v, At(s.ro, q), VirtReach(s, q), VirtFree(s, q));
      SameTrans(At(u.hw, q), HwAfter(es[1..], |s.owner|, q, At(t.hw, q), At(s.ro, q), HwReach(s, q)),
                HwAfter(es, |s.owner|, q, At(s.hw, q), At(s.ro, q), HwReach(s, q)), HwFree(s, q));
      SameTrans(At(u.vconfig, q), VirtAfter(es[1..], |s.owner|, q, At(t.vconfig, q), VirtReach(s, q)),
                VirtAfter(es, |s.owner|, q, At(s.vconfig, q), VirtReach(s, q)), VirtFree(s, q));
    }
  }

  lemma NoRun(s: Vdev, q: nat)
    ensures Run(s, []) == s && SameMap(s, s)
    ensures Same(At(s.hw, q), HwAfter([], |s.owner|, q, At(s.hw, q), At(s.ro, q), HwReach(s, q)), HwFree(s, q))
    ensures Same(At(s.vconfig, q), VirtAfter([], |s.owner|, q, At(s.vconfig, q), VirtReach(s, q)), VirtFree(s, q))
  {
    hide At, HwFree, VirtFree, HwReach, VirtReach;
  }

  lemma MapSelf(s: Vdev)
    ensures SameMap(s, s)
  {
  }

  lemma RunUnfolds(s: Vdev, es: seq<Event>)
    requires es != []
    ensures Run(s, es) == Run(Step(s, es[0]), es[1..])
  {
    hide Step;
  }

  lemma Reaching(s: Vdev, caps: set<Cap>, q: nat)
    requires Steady(s, caps) && q < |s.owner|
    ensures Reaches(s, q, HwFree(s, q), HwReach(s, q))
  {
    hide Steady, HwFree, HwReach, Run, HwAfter, At, Same;
    forall es: seq<Event> ensures Same(At(Run(s, es).hw, q), HwAfter(es, |s.owner|, q, At(s.hw, q), At(s.ro, q), HwReach(s, q)), HwFree(s, q)) {
      RunByte(s, caps, es, q);
    }
  }

  // Of the bits a guest reads, those that are ruled by the table.
  function ReadFree(s: Vdev, q: nat): byte { Merge(HwFree(s, q), VirtFree(s, q), VirtSeen(s, q)) }

  lemma Reading(s: Vdev, caps: set<Cap>, q: nat)
    requires Steady(s, caps) && q < |s.owner| && Readable(s, q)
    ensures Reads(s, q, ReadFree(s, q), VirtSeen(s, q), VirtReach(s, q), HwReach(s, q))
  {
    hide *;
    forall es: seq<Event>, pos: nat, count: nat | pos <= q < pos + count && pos + count <= |s.owner|
      ensures Same(Got(Run(s, es), pos, count, q),
        Merge(HwAfter(es, |s.owner|, q, At(s.hw, q), At(s.ro, q), HwReach(s, q)),
              VirtAfter(es, |s.owner|, q, At(s.vconfig, q), VirtReach(s, q)), VirtSeen(s, q)), ReadFree(s, q))
    {
      ReadingOne(s, caps, es, q, pos, count);
    }
    ReadsAll(s, q, ReadFree(s, q), VirtSeen(s, q), VirtReach(s, q), HwReach(s, q));
  }

  lemma ReadsAll(s: Vdev, q: nat, bits: byte, virt: byte, vmask: byte, hmask: byte)
    requires forall es: seq<Event>, pos: nat, count: nat :: pos <= q < pos + count && pos + count <= |s.owner| ==>
      Same(Got(Run(s, es), pos, count, q),
           Merge(HwAfter(es, |s.owner|, q, At(s.hw, q), At(s.ro, q), hmask), VirtAfter(es, |s.owner|, q, At(s.vconfig, q), vmask), virt), bits)
    ensures Reads(s, q, bits, virt, vmask, hmask)
  {
    hide Same, Got, Run, Merge, HwAfter, VirtAfter, At;
  }

  lemma ReadingOne(s: Vdev, caps: set<Cap>, es: seq<Event>, q: nat, pos: nat, count: nat)
    requires Steady(s, caps) && q < |s.owner| && Readable(s, q) && pos <= q < pos + count && pos + count <= |s.owner|
    ensures Same(Got(Run(s, es), pos, count, q),
      Merge(HwAfter(es, |s.owner|, q, At(s.hw, q), At(s.ro, q), HwReach(s, q)),
            VirtAfter(es, |s.owner|, q, At(s.vconfig, q), VirtReach(s, q)), VirtSeen(s, q)), ReadFree(s, q))
  {
    hide *;
    var t := Run(s, es);
    RunByte(s, caps, es, q);
    MapFree(s, t, q);
    MapThen(s, t, t) by { MapSelf(t); }
    ReadRule(t, caps, pos, count, q);
    SeenIs(t, q);
    SameMerged(At(t.hw, q), HwAfter(es, |s.owner|, q, At(s.hw, q), At(s.ro, q), HwReach(s, q)), HwFree(s, q),
               At(t.vconfig, q), VirtAfter(es, |s.owner|, q, At(s.vconfig, q), VirtReach(s, q)), VirtFree(s, q), VirtSeen(s, q));
    FreeIs(s, q);
  }

  lemma SeenIs(t: Vdev, q: nat)
    ensures Seen(t, q) == Merge(At(t.hw, q), At(t.vconfig, q), VirtSeen(t, q))
  {
    hide Merge, At, VirtSeen;
  }

  lemma FreeIs(s: Vdev, q: nat)
    ensures ReadFree(s, q) == Merge(HwFree(s, q), VirtFree(s, q), VirtSeen(s, q))
  {
    hide Merge, HwFree, VirtFree, VirtSeen;
  }

  lemma SameMerged(h: byte, h': byte, hbits: byte, v: byte, v': byte, vbits: byte, virt: byte)
    requires Same(h, h', hbits) && Same(v, v', vbits)
    ensures Same(Merge(h, v, virt), Merge(h', v', virt), Merge(hbits, vbits, virt))
  {
    SplitMerge(h, v, hbits, vbits, virt);
    SplitMerge(h', v', hbits, vbits, virt);
    hide Merge;
  }

  lemma SplitMerge(h: byte, v: byte, hbits: byte, vbits: byte, virt: byte)
    ensures Merge(h, v, virt) & Merge(hbits, vbits, virt) == Merge(h & hbits, v & vbits, virt)
  {
  }

  lemma Behaving(s: Vdev, caps: set<Cap>, q: nat)
    requires Steady(s, caps) && q < |s.owner| && Readable(s, q) && HwFree(s, q) == 0xFF == ReadFree(s, q)
    ensures Behaves(s, q, VirtSeen(s, q), VirtReach(s, q), HwReach(s, q))
  {
    hide *;
    Reaching(s, caps, q);
    Reading(s, caps, q);
    BothAll(s, q, VirtSeen(s, q), VirtReach(s, q), HwReach(s, q));
  }

  lemma BothAll(s: Vdev, q: nat, virt: byte, vmask: byte, hmask: byte)
    requires Reaches(s, q, 0xFF, hmask) && Reads(s, q, 0xFF, virt, vmask, hmask)
    ensures Behaves(s, q, virt, vmask, hmask)
  {
    hide Reaches, Reads;
  }
}
