/** Guest reads and writes of configuration space, chunk by chunk: the handlers of
    device/vfio_pci_config.c on values. */
module ConfigAccess {
  import opened Bytes
  import opened PciCaps
  import opened StdCapInit
  import opened Perms

  // A memory or I/O range behind a base address register; `mapped` if the host gave it an address.
  datatype Resource = Resource(mapped: bool, len: bv64, io: bool, prefetch: bool, mem64: bool)

  datatype Func = Func(isVirtfn: bool, nointx: bool, bars: seq<Resource>, rom: Resource, romShadow: bool)

  // Calls into the interrupt code made by the COMMAND handler.
  datatype IrqCall = IntxMask | IntxUnmask

  // `hw` is the configuration space of the hardware, whose bits set in `ro` ignore writes;
  // `rbar` keeps the seven registers that vfio_bar_restore puts back; `vpd` is the storage behind
  // the VPD capability; `resets` counts function resets the guest asked for.
  datatype Vdev = Vdev(func: Func, owner: seq<byte>, vconfig: seq<byte>, hw: seq<byte>, ro: seq<byte>,
                       msi: MsiFlags, rbar: seq<byte>, bardirty: bool, virqDisabled: bool,
                       msiMode: bool, qmax: byte, vpd: seq<byte>, resets: nat, calls: seq<IrqCall>)

  // ---------------------------------------------------------------- masked copies

  // Byte i of `bytes` is merged into v[pos + i] under mask i.
  function Blend(v: seq<byte>, pos: nat, bytes: seq<byte>, masks: seq<byte>): (r: seq<byte>)
    ensures |r| == |v|
    ensures forall q :: 0 <= q < |v| ==>
      r[q] == if pos <= q < pos + |bytes| then Merge(v[q], bytes[q - pos], At(masks, q - pos)) else v[q]
    decreases |bytes|
  {
    if bytes == [] then v
    else
      var n := |bytes| - 1;
      Poke(Blend(v, pos, bytes[..n], masks), pos + n, Merge(At(v, pos + n), bytes[n], At(masks, n)))
  }

  // The same on hardware, whose read-only bits keep their value.
  function HwBlend(hw: seq<byte>, ro: seq<byte>, pos: nat, bytes: seq<byte>, masks: seq<byte>): (r: seq<byte>)
    ensures |r| == |hw|
    ensures forall q :: 0 <= q < |hw| ==>
      r[q] == if pos <= q < pos + |bytes| then Stored(hw[q], Merge(hw[q], bytes[q - pos], At(masks, q - pos)), At(ro, q))
              else hw[q]
    decreases |bytes|
  {
    if bytes == [] then hw
    else
      var n := |bytes| - 1;
      Poke(HwBlend(hw, ro, pos, bytes[..n], masks), pos + n,
           Stored(At(hw, pos + n), Merge(At(hw, pos + n), bytes[n], At(masks, n)), At(ro, pos + n)))
  }

  function Stored(was: byte, now: byte, ro: byte): byte { Merge(was, now, !ro) }

  function HwStore(hw: seq<byte>, ro: seq<byte>, pos: nat, bytes: seq<byte>): seq<byte> {
    HwBlend(hw, ro, pos, bytes, [0xFF, 0xFF, 0xFF, 0xFF])
  }

  lemma HwStoreSize(hw: seq<byte>, ro: seq<byte>, pos: nat, bytes: seq<byte>)
    ensures |HwStore(hw, ro, pos, bytes)| == |hw|
  {
  }

  lemma HwStoreByte(hw: seq<byte>, ro: seq<byte>, pos: nat, bytes: seq<byte>, q: nat)
    requires |bytes| <= 4 && q < |hw|
    ensures At(HwStore(hw, ro, pos, bytes), q) ==
      if pos <= q < pos + |bytes| then Stored(At(hw, q), Merge(At(hw, q), bytes[q - pos], 0xFF), At(ro, q)) else At(hw, q)
  {
    hide Stored, Merge;
  }

  predicate CoversByte(pos: nat, n: nat, q: nat) { pos <= q < pos + n }

  // The byte a write of `bytes` at `pos` leaves at `q` of a writable register.
  function Put(pos: nat, bytes: seq<byte>, q: nat, was: byte): byte {
    if CoversByte(pos, |bytes|, q) then bytes[q - pos] else was
  }

  // The bits of byte `off` of a table that a write changes in the virtual copy and in hardware.
  function VMask(k: Kind, msi: MsiFlags, off: nat): byte { Write(k, msi, off) & Virt(k, msi, off) }
  function HMask(k: Kind, msi: MsiFlags, off: nat): byte { Write(k, msi, off) & !Virt(k, msi, off) }

  // The masks of `n` bytes from `off` on.
  function VMasks(k: Kind, msi: MsiFlags, off: nat, n: nat): (r: seq<byte>)
    ensures |r| == n && forall i :: 0 <= i < n ==> r[i] == VMask(k, msi, off + i)
  {
    hide VMask;
    if n == 0 then [] else VMasks(k, msi, off, n - 1) + [VMask(k, msi, off + n - 1)]
  }

  function HMasks(k: Kind, msi: MsiFlags, off: nat, n: nat): (r: seq<byte>)
    ensures |r| == n && forall i :: 0 <= i < n ==> r[i] == HMask(k, msi, off + i)
  {
    hide HMask;
    if n == 0 then [] else HMasks(k, msi, off, n - 1) + [HMask(k, msi, off + n - 1)]
  }

  function Poke4(v: seq<byte>, at: nat, d: seq<byte>): seq<byte> {
    Poke(Poke(Poke(Poke(v, at, At(d, 0)), at + 1, At(d, 1)), at + 2, At(d, 2)), at + 3, At(d, 3))
  }

  // ---------------------------------------------------------------- base address registers

  // Byte j of a 64-bit word, lowest first.
  function ByteOf(w: bv64, j: nat): byte {
    if j == 0 then (w & 0xFF) as byte
    else if j == 1 then ((w >> 8) & 0xFF) as byte
    else if j == 2 then ((w >> 16) & 0xFF) as byte
    else if j == 3 then ((w >> 24) & 0xFF) as byte
    else if j == 4 then ((w >> 32) & 0xFF) as byte
    else if j == 5 then ((w >> 40) & 0xFF) as byte
    else if j == 6 then ((w >> 48) & 0xFF) as byte
    else ((w >> 56) & 0xFF) as byte
  }

  // The address bits a range of `len` bytes decodes.
  function MaskByte(len: bv64, j: nat): byte { ByteOf(!(len - 1), j) }

  // The four bytes at `at` kept under bytes j..j+3 of the mask, with `flags` or'ed into the first.
  function BarMasked(v: seq<byte>, at: nat, len: bv64, j: nat, flags: byte): seq<byte>
    requires j <= 4
  {
    Poke(Poke(Poke(Poke(v, at, (At(v, at) & MaskByte(len, j)) | flags),
                   at + 1, At(v, at + 1) & MaskByte(len, j + 1)),
              at + 2, At(v, at + 2) & MaskByte(len, j + 2)),
         at + 3, At(v, at + 3) & MaskByte(len, j + 3))
  }

  // vfio_generate_bar_flags.
  function BarFlags(res: Resource): byte {
    if res.io then 0x01
    else (if res.prefetch then 0x08 else 0) | (if res.mem64 then 0x04 else 0)
  }

  function BarAt(i: nat): nat { 0x10 + 4 * i }

  // The loop of vfio_bar_fixup from BAR `i` on.
  function FixBars(v: seq<byte>, bars: seq<Resource>, i: nat): seq<byte>
    decreases 6 - i
  {
    if i >= 6 || i >= |bars| then v
    else if !bars[i].mapped then FixBars(Filled(v, BarAt(i), 4, 0), bars, i + 1)
    else
      var w := BarMasked(v, BarAt(i), bars[i].len, 0, BarFlags(bars[i]));
      if At(w, BarAt(i)) & 0x04 != 0
      then FixBars(BarMasked(w, BarAt(i) + 4, bars[i].len, 4, 0), bars, i + 2)
      else FixBars(w, bars, i + 1)
  }

  // The expansion ROM: its own range, or the shadow copy of 128 KiB.
  predicate RomThere(func: Func) { func.rom.mapped || func.romShadow }
  function RomLen(func: Func): bv64 { if func.rom.mapped then func.rom.len else 0x20000 }

  // Its first byte, whose enable bit the guest keeps.
  function RomFirst(x: byte, len: bv64): byte { x & (MaskByte(len, 0) | 0x01) }

  function FixRom(v: seq<byte>, func: Func): seq<byte> {
    if RomThere(func) then Poke(BarMasked(v, 0x30, RomLen(func), 0, 0), 0x30, RomFirst(At(v, 0x30), RomLen(func)))
    else Filled(v, 0x30, 4, 0)
  }

  function BarFixup(s: Vdev): Vdev {
    s.(vconfig := FixRom(FixBars(s.vconfig, s.func.bars, 0), s.func), bardirty := false)
  }

  function Dword(bytes: seq<byte>, at: nat): seq<byte> {
    [At(bytes, at), At(bytes, at + 1), At(bytes, at + 2), At(bytes, at + 3)]
  }

  // Saved register `i`: six BARs and the ROM.
  function Saved(s: Vdev, i: nat): seq<byte> { Dword(s.rbar, 4 * i) }

  predicate BarHolds(s: Vdev, i: nat) {
    Saved(s, i) != [0, 0, 0, 0] ==> Dword(s.hw, BarAt(i)) == Saved(s, i)
  }

  predicate BarsHold(s: Vdev) { forall i :: 0 <= i < 6 ==> BarHolds(s, i) }

  // The loop of vfio_bar_restore over the first `n` BARs.
  function RestoredBars(s: Vdev, n: nat): seq<byte> {
    if n == 0 then s.hw else HwStore(RestoredBars(s, n - 1), s.ro, BarAt(n - 1), Saved(s, n - 1))
  }

  // COMMAND with INTx disabled.
  function IntxOff(hw: seq<byte>): seq<byte> { [At(hw, COMMAND), At(hw, COMMAND + 1) | 0x04] }

  function RestoredRom(s: Vdev): seq<byte> { HwStore(RestoredBars(s, 6), s.ro, 0x30, Saved(s, 6)) }

  function BarRestore(s: Vdev): Vdev {
    if s.func.isVirtfn then s
    else
      var hw := RestoredRom(s);
      s.(hw := if s.func.nointx then HwStore(hw, s.ro, COMMAND, IntxOff(hw)) else hw)
  }

  // ---------------------------------------------------------------- reads

  // What a read does to the virtual copy before it looks.
  function ReadPrep(s: Vdev, pos: nat, count: nat): Vdev {
    match KindAt(s.owner, pos)
    case Basic => if IsBar(pos) then BarFixup(s) else s
    case Msi =>
      var start := StartOf(s.owner, pos);
      if pos - start <= 2 && pos - start + count >= 2
      then s.(vconfig := Poke(s.vconfig, start, QueueMax(At(s.vconfig, start), s.qmax)))
      else s
    case _ => s
  }

  function QueueMax(b: byte, qmax: byte): byte { (b & !0x0E) | (qmax << 1) }

  // Byte i of a chunk of `count` bytes at `pos`.
  function ReadByte(s: Vdev, pos: nat, count: nat, i: nat): byte {
    var k := KindAt(s.owner, pos);
    var q := pos + i;
    var off := pos - StartOf(s.owner, pos);
    if k == Raw then At(s.hw, q)
    else if k == VirtOnly then At(s.vconfig, q)
    else if k == Direct || k == Vendor then
      if pos >= STD_SPACE then (if off < 4 then At(s.vconfig, q) else At(s.hw, q))
      else if pos >= HEADER && ((off == 0 && count > 1 && i < 2) || (off == 1 && i == 0)) then At(s.vconfig, q)
      else At(s.hw, q)
    else
      var b := Merge(At(s.hw, q), At(s.vconfig, q), Virt(k, s.msi, off + i));
      if k == Basic && q == COMMAND && pos == COMMAND && s.func.isVirtfn then b | (At(s.vconfig, COMMAND) & 0x02) else b
  }

  function ReadBytes(s: Vdev, pos: nat, count: nat, n: nat): (r: seq<byte>)
    ensures |r| == n && forall i :: 0 <= i < n ==> r[i] == ReadByte(s, pos, count, i)
  {
    if n == 0 then [] else ReadBytes(s, pos, count, n - 1) + [ReadByte(s, pos, count, n - 1)]
  }

  // ---------------------------------------------------------------- writes

  function DefaultWrite(s: Vdev, k: Kind, start: nat, pos: nat, bytes: seq<byte>): Vdev
    requires start <= pos
  {
    s.(vconfig := Blend(s.vconfig, pos, bytes, VMasks(k, s.msi, pos - start, |bytes|)),
       hw := HwBlend(s.hw, s.ro, pos, bytes, HMasks(k, s.msi, pos - start, |bytes|)))
  }

  // The per-byte rule of vfio_default_config_write.
  lemma DefaultByte(s: Vdev, k: Kind, start: nat, pos: nat, bytes: seq<byte>, q: nat)
    requires start <= pos && q < |s.vconfig| == |s.hw|
    ensures var t := DefaultWrite(s, k, start, pos, bytes);
      && (pos <= q < pos + |bytes| ==>
            && At(t.vconfig, q) == Merge(At(s.vconfig, q), bytes[q - pos], Write(k, s.msi, q - start) & Virt(k, s.msi, q - start))
            && At(t.hw, q) == Stored(At(s.hw, q), Merge(At(s.hw, q), bytes[q - pos], Write(k, s.msi, q - start) & !Virt(k, s.msi, q - start)), At(s.ro, q)))
      && (!(pos <= q < pos + |bytes|) ==> At(t.vconfig, q) == At(s.vconfig, q) && At(t.hw, q) == At(s.hw, q))
  {
    hide Write, Virt, Merge, Stored;
  }

  // The same with the masks named.
  lemma DefaultMasks(s: Vdev, k: Kind, start: nat, pos: nat, bytes: seq<byte>, q: nat)
    requires start <= pos && q < |s.vconfig| == |s.hw|
    ensures var t := DefaultWrite(s, k, start, pos, bytes);
      && (pos <= q < pos + |bytes| ==>
            && At(t.vconfig, q) == Merge(At(s.vconfig, q), bytes[q - pos], VMask(k, s.msi, q - start))
            && At(t.hw, q) == Stored(At(s.hw, q), Merge(At(s.hw, q), bytes[q - pos], HMask(k, s.msi, q - start)), At(s.ro, q)))
      && (!(pos <= q < pos + |bytes|) ==> At(t.vconfig, q) == At(s.vconfig, q) && At(t.hw, q) == At(s.hw, q))
  {
    hide VMask, HMask, Merge, Stored;
  }

  // A decode enable the guest believes on is off in hardware, or a BAR lost its value.
  predicate NeedsRestore(s: Vdev, val: byte) {
    var virt := At(s.vconfig, COMMAND);
    var phys := At(s.hw, COMMAND);
    val & virt & !phys & 0x03 != 0 || !BarsHold(s)
  }

  function IntxFollow(s: Vdev): Vdev {
    var disable := At(s.vconfig, COMMAND + 1) & 0x04 != 0;
    if disable && !s.virqDisabled then s.(virqDisabled := true, calls := s.calls + [IntxMask])
    else if !disable && s.virqDisabled then s.(virqDisabled := false, calls := s.calls + [IntxUnmask])
    else s
  }

  function BasicWrite(s: Vdev, pos: nat, bytes: seq<byte>): Vdev {
    var s1 := if pos == COMMAND && NeedsRestore(s, At(bytes, 0)) then BarRestore(s) else s;
    var s2 := DefaultWrite(s1, Basic, 0, pos, bytes);
    var s3 := if pos == COMMAND
              then s2.(vconfig := Poke(s2.vconfig, COMMAND, Merge(At(s2.vconfig, COMMAND), At(bytes, 0), 0x03)))
              else s2;
    var s4 := if COMMAND <= pos <= COMMAND + 1 then IntxFollow(s3) else s3;
    if IsBar(pos) then s4.(bardirty := true) else s4
  }

  // Storage accepts aligned dwords inside it and reads zeros past its end.
  predicate VpdTakes(vpd: seq<byte>, addr: nat) { addr % 4 == 0 && addr + 4 <= |vpd| }

  function VpdGet(vpd: seq<byte>, addr: nat): byte { if addr < |vpd| then vpd[addr] else 0 }

  function VpdDword(vpd: seq<byte>, addr: nat): seq<byte> {
    [VpdGet(vpd, addr), VpdGet(vpd, addr + 1), VpdGet(vpd, addr + 2), VpdGet(vpd, addr + 3)]
  }

  // The address register: 15 bits and the F bit.
  function VpdAddr(lo: byte, hi: byte): nat { Num(lo) + 256 * Num(hi & 0x7F) }
  predicate VpdF(hi: byte) { hi & 0x80 != 0 }
  function VpdFlip(hi: byte): byte { hi ^ 0x80 }

  // The operation that setting the address register triggers.
  function VpdOp(s: Vdev, start: nat): Vdev {
    var lo := At(s.vconfig, start + 2);
    var hi := At(s.vconfig, start + 3);
    var addr := VpdAddr(lo, hi);
    if VpdF(hi) then
      if VpdTakes(s.vpd, addr)
      then s.(vpd := Poke4(s.vpd, addr, Dword(s.vconfig, start + 4)),
              vconfig := Poke(s.vconfig, start + 3, VpdFlip(hi)))
      else s
    else if s.vpd == [] then s
    else s.(vconfig := Poke(Poke4(s.vconfig, start + 4, VpdDword(s.vpd, addr)), start + 3, VpdFlip(hi)))
  }

  function VpdWrite(s: Vdev, start: nat, pos: nat, bytes: seq<byte>): Vdev
    requires start <= pos
  {
    var d := DefaultWrite(s, Vpd, start, pos, bytes);
    if pos - start > 3 || pos - start + |bytes| <= 3 then d else VpdOp(d, start)
  }

  // pcie_set_readrq takes encodings 0 to 5 (128 to 4096 bytes) and refuses the rest.
  function SetReadrq(s: Vdev, start: nat, code: byte): Vdev {
    if code <= 5
    then s.(hw := Poke(s.hw, start + 9, Stored(At(s.hw, start + 9), Merge(At(s.hw, start + 9), code << 4, 0x70), At(s.ro, start + 9))))
    else s
  }

  function MaxByte(a: byte, b: byte): byte { if a >= b then a else b }

  // Encodings in Device Control: the maximum read request size in its upper byte, the maximum
  // payload size in its lower one.
  function Mrrs(ctl: byte): byte { (ctl & 0x70) >> 4 }
  function Mps(ctl: byte): byte { (ctl & 0xE0) >> 5 }

  // Function level reset: requested if the device supports it, and always read back as zero.
  function FlrHandled(d: Vdev, start: nat): Vdev {
    if Initiates(At(d.vconfig, start + 9))
    then d.(vconfig := Poke(d.vconfig, start + 9, Initiated(At(d.vconfig, start + 9))),
            resets := if CanReset(At(d.hw, start + 7)) then d.resets + 1 else d.resets)
    else d
  }

  // The reset bits of Device Control and Device Capabilities.
  predicate Initiates(ctl: byte) { ctl & 0x80 != 0 }
  function Initiated(ctl: byte): byte { ctl & 0x7F }
  predicate CanReset(cap: byte) { cap & 0x10 != 0 }

  // A new maximum read request size goes to hardware, with the maximum payload size as a floor.
  function MrrsFollow(e: Vdev, start: nat, before: byte): Vdev {
    var after := Mrrs(At(e.vconfig, start + 9));
    if before != after then SetReadrq(e, start, MaxByte(after, Mps(At(e.hw, start + 8)))) else e
  }

  function ExpWrite(s: Vdev, start: nat, pos: nat, bytes: seq<byte>): Vdev
    requires start <= pos
  {
    MrrsFollow(FlrHandled(DefaultWrite(s, Exp, start, pos, bytes), start), start, Mrrs(At(s.vconfig, start + 9)))
  }

  function AfReset(d: Vdev, start: nat): Vdev {
    if AfInitiates(At(d.vconfig, start + 4))
    then d.(vconfig := Poke(d.vconfig, start + 4, AfInitiated(At(d.vconfig, start + 4))),
            resets := if AfCanReset(At(d.hw, start + 3)) then d.resets + 1 else d.resets)
    else d
  }

  // The reset bit of AF Control, and the two bits of AF Capabilities that a reset needs.
  predicate AfInitiates(ctl: byte) { ctl & 0x01 != 0 }
  function AfInitiated(ctl: byte): byte { ctl & 0xFE }
  predicate AfCanReset(cap: byte) { cap & 0x03 == 0x03 }

  function AfWrite(s: Vdev, start: nat, pos: nat, bytes: seq<byte>): Vdev
    requires start <= pos
  {
    AfReset(DefaultWrite(s, Af, start, pos, bytes), start)
  }

  function MsiFixed(s: Vdev, flags: byte): byte {
    var f := if s.msiMode then flags else flags & 0xFE;
    if (f & 0x70) >> 4 > s.qmax then (f & !0x70) | (s.qmax << 4) else f
  }

  function MsiWrite(s: Vdev, start: nat, pos: nat, bytes: seq<byte>): Vdev
    requires start <= pos
  {
    var d := DefaultWrite(s, Msi, start, pos, bytes);
    if pos - start <= 2 && pos - start + |bytes| >= 2 then
      var flags := MsiFixed(d, At(d.vconfig, start + 2));
      d.(vconfig := Poke(d.vconfig, start + 2, flags),
         hw := HwStore(d.hw, d.ro, start + 2, [flags, At(d.vconfig, start + 3)]))
    else d
  }

  function WriteChunk(s: Vdev, pos: nat, bytes: seq<byte>): Vdev {
    var start := StartOf(s.owner, pos);
    match KindAt(s.owner, pos)
    case Raw => s.(hw := HwStore(s.hw, s.ro, pos, bytes))
    case VirtOnly => s.(vconfig := Blend(s.vconfig, pos, bytes, [0xFF, 0xFF, 0xFF, 0xFF]))
    case Direct => s
    case Vendor => s.(hw := HwStore(s.hw, s.ro, pos, bytes))
    case Basic => BasicWrite(s, pos, bytes)
    case Vpd => VpdWrite(s, start, pos, bytes)
    case Exp => ExpWrite(s, start, pos, bytes)
    case Af => AfWrite(s, start, pos, bytes)
    case Msi => MsiWrite(s, start, pos, bytes)
    case k => DefaultWrite(s, k, start, pos, bytes) // PM, PCI-X, error reporting, power budgeting
  }

  // ---------------------------------------------------------------- whole accesses

  // The loop of vfio_pci_config_rw on reads: the state afterwards and the bytes read.
  function ReadAccess(s: Vdev, pos: nat, count: nat): (r: (Vdev, seq<byte>))
    ensures |r.1| == count
    decreases count
  {
    if count == 0 then (s, [])
    else
      var n := ChunkLen(s.owner, pos, count);
      var t := ReadPrep(s, pos, n);
      var rest := ReadAccess(t, pos + n, count - n);
      (rest.0, ReadBytes(t, pos, n, n) + rest.1)
  }

  // The byte at `q` that a read of `count` bytes at `pos` returns.
  function Got(s: Vdev, pos: nat, count: nat, q: nat): byte {
    if q < pos then 0xFF else At(ReadAccess(s, pos, count).1, q - pos)
  }

  function WriteAccess(s: Vdev, pos: nat, bytes: seq<byte>): Vdev
    decreases |bytes|
  {
    if bytes == [] then s
    else
      var n := ChunkLen(s.owner, pos, |bytes|);
      WriteAccess(WriteChunk(s, pos, bytes[..n]), pos + n, bytes[n..])
  }
}
