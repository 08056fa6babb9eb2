/** What kind of range a guest finds behind a base address register, by the type bits it reads, and
    the register of the expansion ROM. */
module BarTypes {
  import opened Bytes
  import opened PciCaps
  import opened StdCapInit
  import opened Layout
  import opened Perms
  import opened Routing
  import opened ConfigAccess
  import opened ListLinks
  import opened GuestRuns
  import opened HardwareBytes
  import opened BarGuard
  import opened BarSizing

  // ---------------------------------------------------------------- type bits

  // The type bits of a register: bit 0 tells I/O space; of a memory range bit 1 is zero, bit 2 tells
  // 64-bit addresses and bit 3 prefetchable memory.
  predicate TypeBits(res: Resource, b: byte) {
    && (b & 0x01 != 0 <==> res.io)
    && b & 0x02 == 0
    && (!res.io ==> (b & 0x04 != 0 <==> res.mem64) && (b & 0x08 != 0 <==> res.prefetch))
  }

  // Whatever a guest wrote before and however it reads, a register tells it what its range is.
  lemma GuestSeesType(s: Vdev, caps: set<Cap>, i: nat, pos: nat, count: nat)
    requires Sizable(s, caps, i) && Legal(s.func.bars[i]) && pos <= 0x10 + 4 * i < pos + count
    ensures TypeBits(s.func.bars[i], Got(s, pos, count, 0x10 + 4 * i))
  {
    hide AllFaithful, Good, Got, SizedAt, Starts, MaskByte, BarFlags, TypeBits, PowerOfTwo, Legal, LowByte;
    var x := At(s.vconfig, 0x10 + 4 * i);
    FaithfulLen(s.func.bars);
    ReadBars(s, caps, pos, count, 0x10 + 4 * i);
    SizedAtIs(s.func.bars, i, 0, x);
    LowTyped(s.func.bars[i], x);
  }

  lemma LowTyped(res: Resource, x: byte)
    requires res.mapped && Legal(res)
    ensures TypeBits(res, LowByte(res, 0, x))
  {
    LowMasked4(res.len);
    if !res.io { LowMasked16(res.len); }
    hide MaskByte, BarFlags, TypeBits, PowerOfTwo;
    FlagBits(x, MaskByte(res.len, 0), res);
  }

  lemma LowMasked4(len: bv64)
    requires 4 <= len && PowerOfTwo(len)
    ensures MaskByte(len, 0) & 0x03 == 0
  {
  }

  lemma LowMasked16(len: bv64)
    requires PowerOfTwo(len) && 16 <= len
    ensures MaskByte(len, 0) & 0x0F == 0
  {
  }

  lemma FlagBits(x: byte, m: byte, res: Resource)
    requires m & 0x03 == 0 && (!res.io ==> m & 0x0F == 0)
    ensures TypeBits(res, (x & m) | BarFlags(res))
  {
  }

  // A register without a range reads as zero, whatever was written.
  lemma GuestSeesNone(s: Vdev, caps: set<Cap>, i: nat, b: nat, pos: nat, count: nat)
    requires Good(s, caps) && AllFaithful(s.func.bars) && i < 6 && b < 4 && !s.func.bars[i].mapped && Starts(s.func.bars, i)
    requires pos <= 0x10 + 4 * i + b < pos + count
    ensures Got(s, pos, count, 0x10 + 4 * i + b) == 0
  {
    hide AllFaithful, Good, Got, SizedAt, Starts, MaskByte, BarFlags, At;
    var q := 0x10 + 4 * i + b;
    var x := At(s.vconfig, q);
    FaithfulLen(s.func.bars);
    ReadBars(s, caps, pos, count, q);
    SizedAtIs(s.func.bars, i, b, x);
  }

  // ---------------------------------------------------------------- the expansion ROM

  predicate InRom(q: nat) { 0x30 <= q < 0x34 }

  lemma FixupRom(s: Vdev, q: nat)
    requires InRom(q) && 0x40 <= |s.vconfig|
    ensures At(BarFixup(s).vconfig, q) == RomByte(s.func, q - 0x30, At(s.vconfig, q))
  {
    hide FixBars, FixRom, RomByte, At;
    FixBarsSize(s.vconfig, s.func.bars, 0);
    FixBarsAt(s.vconfig, s.func.bars, 0, q);
    RomAt(FixBars(s.vconfig, s.func.bars, 0), s.func, q - 0x30);
  }

  lemma PrepRom(s: Vdev, caps: set<Cap>, pos: nat, n: nat, q: nat)
    requires Good(s, caps) && InRom(q)
    ensures var was, now := At(s.vconfig, q), At(ReadPrep(s, pos, n).vconfig, q);
      && RomByte(s.func, q - 0x30, now) == RomByte(s.func, q - 0x30, was)
      && (IsBar(pos) ==> now == RomByte(s.func, q - 0x30, was))
  {
    hide KindAt, StartOf, BarFixup, RomByte, Layout.Sized, Mapped;
    FixupRom(s, q);
    RomByteTwice(s.func, q - 0x30, At(s.vconfig, q));
    Routed(s.owner, caps, s.msi, pos);
    if pos >= HEADER { HighStart(s, caps, pos); }
  }

  lemma RomChunk(s: Vdev, caps: set<Cap>, pos: nat, count: nat, q: nat)
    requires Good(s, caps) && 0 < count && InRom(q) && pos <= q < pos + ChunkLen(s.owner, pos, count)
    ensures ReadByte(s, pos, ChunkLen(s.owner, pos, count), q - pos) == At(s.vconfig, q) && InRom(pos)
  {
    hide KindAt, StartOf, ChunkLen, Layout.Sized, Mapped, Merge;
    ChunkInside(s.owner, pos, count, q - pos);
    Routed(s.owner, caps, s.msi, pos);
    MergeFacts(At(s.hw, q), At(s.vconfig, q), 0);
  }

  lemma {:induction false} ReadRom(s: Vdev, caps: set<Cap>, pos: nat, count: nat, q: nat)
    requires Good(s, caps) && InRom(q) && pos <= q < pos + count
    ensures Got(s, pos, count, q) == RomByte(s.func, q - 0x30, At(s.vconfig, q))
    decreases count
  {
    hide *;
    var n := ChunkLen(s.owner, pos, count);
    var t := ReadPrep(s, pos, n);
    GotAt(s, pos, count, q);
    ReadPrepFrame(s, pos, n);
    GoodFramed(s, t, caps);
    PrepRom(s, caps, pos, n, q);
    if q < pos + n {
      RomChunk(t, caps, pos, count, q);
      RomIsBar(pos);
    } else {
      ReadRom(t, caps, pos + n, count - n, q);
    }
  }

  lemma RomIsBar(q: nat)
    requires InRom(q)
    ensures IsBar(q)
  {
  }

  // The ROM register as a dword read returns it, and with `w` written to it.
  function ReadRom32(s: Vdev): bv64 {
    Word(Got(s, 0x30, 4, 0x30), Got(s, 0x30, 4, 0x31), Got(s, 0x30, 4, 0x32), Got(s, 0x30, 4, 0x33))
  }

  // What should be read back: the base bits above the ROM's length, or above those of the 128 KiB
  // shadow, with the enable bit; zero without a ROM.
  function RomSeen(func: Func, w: bv64): bv64 {
    if func.rom.mapped then Masked32(w, func.rom.len) else if func.romShadow then Masked32(w, 0x2_0000) else 0
  }

  function Masked32(w: bv64, len: bv64): bv64 { (w & 0xFFFF_FFFF) & (!(len - 1) | 1) }

  // A guest that writes the register reads that back.
  lemma RomReadsBack(s: Vdev, caps: set<Cap>, w: bv64)
    requires Good(s, caps)
    ensures ReadRom32(WriteAccess(s, 0x30, Bytes4(w, 0))) == RomSeen(s.func, w)
  {
    hide WriteAccess, Got, Good, ByteOf, RomByte, Word, Bytes4, RomSeen;
    RomWritten(s, caps, w, 0);
    RomWritten(s, caps, w, 1);
    RomWritten(s, caps, w, 2);
    RomWritten(s, caps, w, 3);
    RomWord(s.func, w);
  }

  lemma RomWritten(s: Vdev, caps: set<Cap>, w: bv64, b: nat)
    requires Good(s, caps) && b < 4
    ensures Got(WriteAccess(s, 0x30, Bytes4(w, 0)), 0x30, 4, 0x30 + b) == RomByte(s.func, b, ByteOf(w, b))
  {
    hide WriteAccess, Got, Good, ByteOf, RomByte, Bytes4, At;
    RoomForRom(s, caps);
    Bytes4At(w, 0, b);
    WriteBars(s, caps, 0x30, Bytes4(w, 0), 0x30 + b);
    ReadRom(WriteAccess(s, 0x30, Bytes4(w, 0)), caps, 0x30, 4, 0x30 + b);
  }

  lemma RoomForRom(s: Vdev, caps: set<Cap>)
    requires Good(s, caps)
    ensures |s.owner| >= 64
  {
  }

  lemma RomWord(func: Func, w: bv64)
    ensures Word(RomByte(func, 0, ByteOf(w, 0)), RomByte(func, 1, ByteOf(w, 1)), RomByte(func, 2, ByteOf(w, 2)), RomByte(func, 3, ByteOf(w, 3)))
      == RomSeen(func, w)
  {
    hide ByteOf, Word, MaskByte, RomFirst, Masked32, RomSeen, RomLen;
    if RomThere(func) {
      RomWordOf(w, RomLen(func));
      SeenMasked(func, w);
    } else {
      NoWord();
      SeenNone(func, w);
    }
  }

  lemma SeenMasked(func: Func, w: bv64)
    requires RomThere(func)
    ensures RomSeen(func, w) == Masked32(w, RomLen(func))
  {
    hide Masked32;
  }

  lemma SeenNone(func: Func, w: bv64)
    requires !RomThere(func)
    ensures RomSeen(func, w) == 0
  {
  }

  lemma RomWordOf(w: bv64, len: bv64)
    ensures Word(RomFirst(ByteOf(w, 0), len), ByteOf(w, 1) & MaskByte(len, 1), ByteOf(w, 2) & MaskByte(len, 2), ByteOf(w, 3) & MaskByte(len, 3))
      == Masked32(w, len)
  {
    hide ByteOf, Word;
    MaskedWord(w, !(len - 1));
  }

  lemma NoWord()
    ensures Word(0, 0, 0, 0) == 0
  {
  }

  lemma MaskedWord(w: bv64, m: bv64)
    ensures Word(ByteOf(w, 0) & (ByteOf(m, 0) | 0x01), ByteOf(w, 1) & ByteOf(m, 1), ByteOf(w, 2) & ByteOf(m, 2), ByteOf(w, 3) & ByteOf(m, 3))
      == (w & 0xFFFF_FFFF) & (m | 1)
  {
  }

  // Sized as firmware does it, all ones but the enable bit written, it gives the length.
  lemma GuestSizesRom(s: Vdev, caps: set<Cap>)
    requires Good(s, caps) && s.func.rom.mapped && PowerOfTwo(s.func.rom.len) && 0x800 <= s.func.rom.len <= 0x8000_0000
    ensures var back := ReadRom32(WriteAccess(s, 0x30, Bytes4(0xFFFF_F800, 0)));
      Low(!(back & 0xFFFF_F800) + 1) == s.func.rom.len
  {
    hide Good, WriteAccess, ReadRom32, Bytes4, PowerOfTwo, Low, RomSeen;
    RomReadsBack(s, caps, 0xFFFF_F800);
    RomSize(s.func);
  }

  lemma RomSize(func: Func)
    requires func.rom.mapped && PowerOfTwo(func.rom.len) && 0x800 <= func.rom.len <= 0x8000_0000
    ensures Low(!(RomSeen(func, 0xFFFF_F800) & 0xFFFF_F800) + 1) == func.rom.len
  {
  }
}
