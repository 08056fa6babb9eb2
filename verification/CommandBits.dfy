/** The COMMAND register bit by bit, and when exactly a write of it puts the base address registers
    back. */
module CommandBits {
  import opened Bytes
  import opened PciCaps
  import opened StdCapInit
  import opened Layout
  import opened Perms
  import opened Routing
  import opened ConfigAccess
  import opened ListLinks
  import opened GuestRuns
  import opened HardwareBytes
  import opened GuestView
  import opened BarGuard
  import opened RegisterMap

  // ---------------------------------------------------------------- when registers are put back

  // The guest turns on an enable it believes on while hardware has it off: I/O is bit 0, memory bit 1.
  predicate Wakes(s: Vdev, now: byte) {
    || (now & 0x01 != 0 && At(s.vconfig, 4) & 0x01 != 0 && At(s.hw, 4) & 0x01 == 0)
    || (now & 0x02 != 0 && At(s.vconfig, 4) & 0x02 != 0 && At(s.hw, 4) & 0x02 == 0)
  }

  // Register `i` was saved with a value and has another now.
  predicate Lost(s: Vdev, i: nat) {
    var saved := 4 * i;
    var at := 0x10 + 4 * i;
    && !(At(s.rbar, saved) == At(s.rbar, saved + 1) == At(s.rbar, saved + 2) == At(s.rbar, saved + 3) == 0)
    && !(At(s.hw, at) == At(s.rbar, saved) && At(s.hw, at + 1) == At(s.rbar, saved + 1)
         && At(s.hw, at + 2) == At(s.rbar, saved + 2) && At(s.hw, at + 3) == At(s.rbar, saved + 3))
  }

  ghost predicate Restores(s: Vdev, now: byte) { Wakes(s, now) || exists i :: 0 <= i < 6 && Lost(s, i) }

  lemma NeedsIs(s: Vdev, now: byte)
    ensures NeedsRestore(s, now) <==> Restores(s, now)
  {
    EnableBits(now, At(s.vconfig, COMMAND), At(s.hw, COMMAND));
    forall i: nat | i < 6 ensures Lost(s, i) <==> !BarHolds(s, i) {
      hide At;
    }
    hide Lost, BarHolds, At;
  }

  lemma EnableBits(now: byte, virt: byte, phys: byte)
    ensures now & virt & !phys & 0x03 != 0 <==>
      (now & 0x01 != 0 && virt & 0x01 != 0 && phys & 0x01 == 0) || (now & 0x02 != 0 && virt & 0x02 != 0 && phys & 0x02 == 0)
  {
  }

  // Where the value of a register byte is kept: six base address registers and the ROM.
  function SavedAt(q: nat): nat
    requires IsBar(q)
  {
    if q < 0x28 then q - 0x10 else q - 0x30 + 24
  }

  // The saved value, in the bits that can be written.
  function PutBack(was: byte, saved: byte, ro: byte): byte { (was & ro) | (saved & !ro) }

  // A base address register byte after a write of `bytes` at `pos`: put back where it can be written, if
  // the write covers COMMAND, the registers need it and the function is not virtual.
  ghost function BarAfter(s: Vdev, pos: nat, bytes: seq<byte>, q: nat): byte
    requires IsBar(q)
  {
    if CoversByte(pos, |bytes|, 4) && Restores(s, bytes[4 - pos]) && !s.func.isVirtfn
    then PutBack(At(s.hw, q), At(s.rbar, SavedAt(q)), At(s.ro, q))
    else At(s.hw, q)
  }

  // Opening saves them all.
  lemma OpenedSaves(x: Plugged, q: nat)
    requires x.dev.Valid() && IsBar(q)
    ensures At(Opened(x).rbar, SavedAt(q)) == At(x.hw, q)
  {
    hide Build, At;
    SavedIs(x.hw, q);
  }

  lemma SavedIs(hw: seq<byte>, q: nat)
    requires IsBar(q)
    ensures At(SavedBars(hw), SavedAt(q)) == At(hw, q)
  {
    var i := SavedAt(q);
    assert SavedBars(hw)[i] == if i < 24 then BarBytes(hw, 24)[i] else Dword(hw, 0x30)[i - 24];
  }

  lemma StoredIn(was: byte, saved: byte, ro: byte)
    ensures Stored(was, Merge(was, saved, 0xFF), ro) == PutBack(was, saved, ro)
  {
  }

  lemma {:induction false} RestoredIn(s: Vdev, n: nat, i: nat)
    requires n <= 6 && i < 24 && 64 <= |s.hw|
    ensures |RestoredBars(s, n)| == |s.hw|
    ensures var was, ro := At(s.hw, 0x10 + i), At(s.ro, 0x10 + i);
      At(RestoredBars(s, n), 0x10 + i) == if i < 4 * n then PutBack(was, At(s.rbar, i), ro) else was
  {
    hide HwStore, Stored, Merge, Saved, At, PutBack;
    if n > 0 {
      RestoredIn(s, n - 1, i);
      SavedByte(s, n - 1, i);
      HwStoreByte(RestoredBars(s, n - 1), s.ro, BarAt(n - 1), Saved(s, n - 1), 0x10 + i);
      StoredIn(At(s.hw, 0x10 + i), At(s.rbar, i), At(s.ro, 0x10 + i));
      HwStoreSize(RestoredBars(s, n - 1), s.ro, BarAt(n - 1), Saved(s, n - 1));
    }
  }

  lemma RestorePuts(s: Vdev, q: nat)
    requires !s.func.isVirtfn && IsBar(q) && 64 <= |s.hw|
    ensures At(BarRestore(s).hw, q) == PutBack(At(s.hw, q), At(s.rbar, SavedAt(q)), At(s.ro, q))
  {
    hide HwStore, RestoredBars, At, Saved, Stored, Merge, BarRestore, PutBack;
    var bars := RestoredBars(s, 6);
    var hw := HwStore(bars, s.ro, 0x30, Saved(s, 6));
    SavedLen(s, 6);
    RestoredIn(s, 6, if q < 0x28 then q - 0x10 else 0);
    if q < 0x28 {
      HwStoreOutside(bars, s.ro, 0x30, Saved(s, 6), q);
    } else {
      SavedByte(s, 6, SavedAt(q));
      StoreRom(s, bars, q);
    }
    RestoreTail(s, q);
  }

  lemma StoreRom(s: Vdev, bars: seq<byte>, q: nat)
    requires bars == RestoredBars(s, 6) && 0x30 <= q < 0x34 && 64 <= |s.hw| == |bars| && |Saved(s, 6)| == 4
    ensures At(HwStore(bars, s.ro, 0x30, Saved(s, 6)), q) == PutBack(At(s.hw, q), Saved(s, 6)[q - 0x30], At(s.ro, q))
  {
    hide HwStore, RestoredBars, At, Saved, Stored, Merge, PutBack;
    RomUntouched(s, 6, q);
    HwStoreByte(bars, s.ro, 0x30, Saved(s, 6), q);
    StoredIn(At(s.hw, q), Saved(s, 6)[q - 0x30], At(s.ro, q));
  }

  lemma {:induction false} RomUntouched(s: Vdev, n: nat, q: nat)
    requires n <= 6 && q >= 0x28
    ensures At(RestoredBars(s, n), q) == At(s.hw, q)
  {
    hide HwStore, Saved, At;
    if n > 0 {
      RomUntouched(s, n - 1, q);
      SavedLen(s, n - 1);
      HwStoreOutside(RestoredBars(s, n - 1), s.ro, BarAt(n - 1), Saved(s, n - 1), q);
    }
  }

  lemma RestoreTail(s: Vdev, q: nat)
    requires !s.func.isVirtfn && IsBar(q)
    ensures At(BarRestore(s).hw, q) == At(RestoredRom(s), q)
  {
    hide HwStore, RestoredRom, At;
    var rom := RestoredRom(s);
    IntxOffLen(rom);
    HwStoreOutside(rom, s.ro, COMMAND, IntxOff(rom), q);
  }

  // The table lets no write through to a base address register.
  lemma TableSpares(s: Vdev, pos: nat, bytes: seq<byte>, q: nat)
    requires |s.vconfig| == |s.hw| && q < |s.hw| && IsBar(q)
    ensures At(DefaultWrite(s, Basic, 0, pos, bytes).hw, q) == At(s.hw, q)
  {
    hide DefaultWrite, Merge, Stored;
    DefaultByte(s, Basic, 0, pos, bytes, q);
    if pos <= q < pos + |bytes| {
      MergeFacts(At(s.hw, q), bytes[q - pos], 0);
      StoredSame(At(s.hw, q), At(s.ro, q));
    }
  }

  lemma BarChunk(s: Vdev, caps: set<Cap>, pos: nat, count: nat, bytes: seq<byte>, q: nat)
    requires Good(s, caps) && 0 < count && pos + count <= |s.owner| && |bytes| == ChunkLen(s.owner, pos, count) && IsBar(q)
    ensures At(WriteChunk(s, pos, bytes).hw, q) == BarAfter(s, pos, bytes, q)
  {
    GoodSizes(s, caps);
    ChunkAligned(s.owner, pos, count);
    hide ChunkLen, WriteChunk, KindAt, StartOf, At, Restores, IsBar, Good;
    assert q < HEADER by { BarLow(q); }
    if pos < HEADER {
      HeaderRoute(s, caps, pos);
      HeaderBar(s, pos, bytes, q);
    } else {
      HighStart(s, caps, pos);
      HighChunk(s, pos, bytes, q);
    }
  }

  lemma BarLow(q: nat)
    requires IsBar(q)
    ensures 4 < q < HEADER
  {
  }

  // A chunk that covers COMMAND begins there.
  lemma ChunkAligned(owner: seq<byte>, pos: nat, count: nat)
    requires 0 < count
    ensures CoversByte(pos, ChunkLen(owner, pos, count), 4) ==> pos == 4
  {
    if CoversByte(pos, ChunkLen(owner, pos, count), 4) {
      ChunkInside(owner, pos, count, 4 - pos);
    }
  }

  lemma HeaderRoute(s: Vdev, caps: set<Cap>, pos: nat)
    requires Good(s, caps) && pos < HEADER
    ensures KindAt(s.owner, pos) == Basic && StartOf(s.owner, pos) == 0
  {
  }

  lemma HeaderBar(s: Vdev, pos: nat, bytes: seq<byte>, q: nat)
    requires KindAt(s.owner, pos) == Basic && HEADER <= |s.hw| == |s.vconfig| && IsBar(q) && q < HEADER
    requires CoversByte(pos, |bytes|, 4) ==> pos == 4
    requires bytes != []
    ensures At(WriteChunk(s, pos, bytes).hw, q) == BarAfter(s, pos, bytes, q)
  {
    hide DefaultWrite, NeedsRestore, BarRestore, At, BasicWrite, WriteChunk, KindAt, IsBar, Restores;
    var s1 := if pos == COMMAND && NeedsRestore(s, At(bytes, 0)) then BarRestore(s) else s;
    BasicRoute(s, pos, bytes);
    BasicTail(s, pos, bytes, s1);
    RestoreFrame(s);
    TableSpares(s1, pos, bytes, q);
    NeedsIs(s, bytes[0]);
    assert At(bytes, 0) == bytes[0] by { FirstByte(bytes); }
    if pos == COMMAND && NeedsRestore(s, bytes[0]) {
      if s.func.isVirtfn { VirtfnSpared(s); } else { RestorePuts(s, q); }
    }
  }

  lemma FirstByte(bytes: seq<byte>)
    requires bytes != []
    ensures At(bytes, 0) == bytes[0]
  {
  }

  lemma VirtfnSpared(s: Vdev)
    requires s.func.isVirtfn
    ensures BarRestore(s) == s
  {
  }

  // What decides about the next chunk.
  ghost predicate SameRegisters(s: Vdev, t: Vdev) {
    && t.func == s.func && t.ro == s.ro && t.rbar == s.rbar && At(t.vconfig, 4) == At(s.vconfig, 4) && At(t.hw, 4) == At(s.hw, 4)
    && forall q: nat :: IsBar(q) ==> At(t.hw, q) == At(s.hw, q)
  }

  lemma SameAfter(s: Vdev, t: Vdev, pos: nat, bytes: seq<byte>, q: nat)
    requires SameRegisters(s, t) && IsBar(q)
    ensures BarAfter(t, pos, bytes, q) == BarAfter(s, pos, bytes, q)
  {
    forall i: nat | i < 6 ensures Lost(t, i) == Lost(s, i) {
      var at := 0x10 + 4 * i;
      assert IsBar(at) && IsBar(at + 1) && IsBar(at + 2) && IsBar(at + 3);
      hide At;
    }
    hide Lost, At, IsBar;
  }

  // A write of any position and length restores a register or leaves it alone, as the write of COMMAND
  // in it asks for.
  lemma {:induction false} RestoresExactly(s: Vdev, caps: set<Cap>, pos: nat, bytes: seq<byte>, q: nat)
    requires Good(s, caps) && pos + |bytes| <= |s.owner| && IsBar(q)
    ensures At(WriteAccess(s, pos, bytes).hw, q) == BarAfter(s, pos, bytes, q)
    decreases |bytes|
  {
    hide *;
    if bytes == [] {
      NothingAfter(s, pos, q);
    } else {
      var n := ChunkLen(s.owner, pos, |bytes|);
      var t := WriteChunk(s, pos, bytes[..n]);
      WriteUnfolds(s, pos, bytes);
      WriteFrame(s, pos, bytes[..n]);
      GoodFramed(s, t, caps);
      BarChunk(s, caps, pos, |bytes|, bytes[..n], q);
      RestoresExactly(t, caps, pos + n, bytes[n..], q);
      Uncovered4(s, t, pos, bytes, n, q);
      if !CoversByte(pos, n, 4) {
        UncoveredSame(s, caps, pos, |bytes|, bytes[..n]);
        SameAfter(s, t, pos + n, bytes[n..], q);
      }
    }
  }

  lemma NothingAfter(s: Vdev, pos: nat, q: nat)
    requires IsBar(q)
    ensures WriteAccess(s, pos, []) == s && BarAfter(s, pos, [], q) == At(s.hw, q)
  {
    hide At, Restores;
  }

  // The part of a write that covers COMMAND decides, and what precedes it decides nothing.
  lemma Uncovered4(s: Vdev, t: Vdev, pos: nat, bytes: seq<byte>, n: nat, q: nat)
    requires 0 < n <= |bytes| && IsBar(q)
    ensures CoversByte(pos, n, 4) ==> BarAfter(t, pos + n, bytes[n..], q) == At(t.hw, q) && BarAfter(s, pos, bytes[..n], q) == BarAfter(s, pos, bytes, q)
    ensures !CoversByte(pos, n, 4) ==> BarAfter(s, pos, bytes[..n], q) == At(s.hw, q) && BarAfter(s, pos + n, bytes[n..], q) == BarAfter(s, pos, bytes, q)
  {
    hide At, Restores, IsBar;
  }

  lemma UncoveredSame(s: Vdev, caps: set<Cap>, pos: nat, count: nat, bytes: seq<byte>)
    requires Good(s, caps) && 0 < count && pos + count <= |s.owner| && |bytes| == ChunkLen(s.owner, pos, count)
    requires !CoversByte(pos, |bytes|, 4)
    ensures SameRegisters(s, WriteChunk(s, pos, bytes))
  {
    hide ChunkLen, WriteChunk, Good, At, IsBar, Restores;
    var t := WriteChunk(s, pos, bytes);
    WriteFrame(s, pos, bytes);
    forall q: nat | IsBar(q) ensures At(t.hw, q) == At(s.hw, q) {
      BarChunk(s, caps, pos, count, bytes, q);
    }
    CommandChunk(s, caps, pos, count, bytes);
  }

  // ---------------------------------------------------------------- COMMAND itself

  // The lower byte of COMMAND: of the copy the two enables are the guest's, hardware takes all of it.
  lemma CommandChunk(s: Vdev, caps: set<Cap>, pos: nat, count: nat, bytes: seq<byte>)
    requires Good(s, caps) && 0 < count && pos + count <= |s.owner| && |bytes| == ChunkLen(s.owner, pos, count)
    ensures var t := WriteChunk(s, pos, bytes);
      if CoversByte(pos, |bytes|, 4) then At(t.vconfig, 4) == Merge(At(s.vconfig, 4), bytes[4 - pos], 0x03)
      else At(t.vconfig, 4) == At(s.vconfig, 4) && At(t.hw, 4) == At(s.hw, 4)
  {
    GoodSizes(s, caps);
    ChunkAligned(s.owner, pos, count);
    hide ChunkLen, WriteChunk, KindAt, StartOf, At, Good, Merge;
    if pos < HEADER {
      HeaderRoute(s, caps, pos);
      LowCommand(s, pos, bytes);
    } else {
      HighStart(s, caps, pos);
      HighChunk(s, pos, bytes, 4);
      HighChunkVirt(s, StartOf(s.owner, pos), pos, bytes, 4);
    }
  }

  lemma LowCommand(s: Vdev, pos: nat, bytes: seq<byte>)
    requires KindAt(s.owner, pos) == Basic && HEADER <= |s.hw| == |s.vconfig|
    requires CoversByte(pos, |bytes|, 4) ==> pos == 4
    requires bytes != []
    ensures var t := WriteChunk(s, pos, bytes);
      if CoversByte(pos, |bytes|, 4) then At(t.vconfig, 4) == Merge(At(s.vconfig, 4), bytes[4 - pos], 0x03)
      else At(t.vconfig, 4) == At(s.vconfig, 4) && At(t.hw, 4) == At(s.hw, 4)
  {
    hide DefaultWrite, NeedsRestore, BarRestore, At, BasicWrite, WriteChunk, KindAt, Merge, IntxFollow, Stored;
    var s1 := if pos == COMMAND && NeedsRestore(s, At(bytes, 0)) then BarRestore(s) else s;
    BasicRoute(s, pos, bytes);
    BasicTail(s, pos, bytes, s1);
    RestoreFrame(s);
    LowStored(s1, pos, bytes);
    CommandStored(s, pos, bytes, s1);
    FirstByte(bytes);
  }

  // The table leaves the copy of the lower byte alone.
  lemma LowStored(s: Vdev, pos: nat, bytes: seq<byte>)
    requires HEADER <= |s.hw| == |s.vconfig| && (CoversByte(pos, |bytes|, 4) ==> pos == 4) && bytes != []
    ensures var d := DefaultWrite(s, Basic, 0, pos, bytes);
      At(d.vconfig, 4) == At(s.vconfig, 4) && (!CoversByte(pos, |bytes|, 4) ==> At(d.hw, 4) == At(s.hw, 4))
  {
    hide DefaultWrite, At, Merge, Stored, Write, Virt;
    DefaultByte(s, Basic, 0, pos, bytes, 4);
    if pos == 4 { NothingVirtual(s.msi, At(s.vconfig, 4), bytes[0]); }
  }

  lemma NothingVirtual(msi: MsiFlags, was: byte, now: byte)
    ensures Merge(was, now, Write(Basic, msi, 4) & Virt(Basic, msi, 4)) == was
  {
    MergeFacts(was, now, 0);
    hide Merge;
  }

  lemma CommandStored(s: Vdev, pos: nat, bytes: seq<byte>, s1: Vdev)
    requires s1 == if pos == COMMAND && NeedsRestore(s, At(bytes, 0)) then BarRestore(s) else s
    requires HEADER <= |s1.vconfig|
    ensures var d := DefaultWrite(s1, Basic, 0, pos, bytes); var t := BasicWrite(s, pos, bytes);
      At(t.vconfig, 4) == if pos == COMMAND then Merge(At(d.vconfig, 4), At(bytes, 0), 0x03) else At(d.vconfig, 4)
  {
    hide NeedsRestore, BarRestore, Merge, IntxFollow, VMasks, HMasks, HwBlend;
    var s2 := DefaultWrite(s1, Basic, 0, pos, bytes);
    FollowVirt(s2);
    FollowVirt(s2.(vconfig := Poke(s2.vconfig, COMMAND, Merge(At(s2.vconfig, COMMAND), At(bytes, 0), 0x03))));
  }

  // A write of any position and length moves the two enables of the copy, if it covers them.
  lemma {:induction false} EnablesFollow(s: Vdev, caps: set<Cap>, pos: nat, bytes: seq<byte>)
    requires Good(s, caps) && pos + |bytes| <= |s.owner|
    ensures At(WriteAccess(s, pos, bytes).vconfig, 4) ==
      if pos <= 4 < pos + |bytes| then (At(s.vconfig, 4) & 0xFC) | (bytes[4 - pos] & 0x03) else At(s.vconfig, 4)
    decreases |bytes|
  {
    hide *;
    if bytes == [] {
      NothingAfter(s, pos, 0x10) by { BarAt0(); }
    } else {
      var n := ChunkLen(s.owner, pos, |bytes|);
      var t := WriteChunk(s, pos, bytes[..n]);
      WriteUnfolds(s, pos, bytes);
      WriteFrame(s, pos, bytes[..n]);
      GoodFramed(s, t, caps);
      CommandChunk(s, caps, pos, |bytes|, bytes[..n]);
      CoversIs(pos, n, 4);
      EnablesFollow(t, caps, pos + n, bytes[n..]);
      if pos <= 4 < pos + n { EnableMerge(At(s.vconfig, 4), bytes[4 - pos]); }
    }
  }

  lemma BarAt0()
    ensures IsBar(0x10)
  {
  }

  lemma CoversIs(pos: nat, n: nat, q: nat)
    ensures CoversByte(pos, n, q) <==> pos <= q < pos + n
  {
  }

  lemma EnableMerge(was: byte, now: byte)
    ensures Merge(was, now, 0x03) == (was & 0xFC) | (now & 0x03)
  {
  }

  // ---------------------------------------------------------------- INTX_DISABLE in hardware

  // Restoring a function whose INTx is hidden turns its INTX_DISABLE on; the guest never moves the bit.
  ghost function DisableAfter(s: Vdev, pos: nat, bytes: seq<byte>): bool {
    if CoversByte(pos, |bytes|, 4) && Restores(s, bytes[4 - pos]) && !s.func.isVirtfn && s.func.nointx && At(s.ro, 5) & 0x04 == 0
    then true else At(s.hw, 5) & 0x04 != 0
  }

  lemma DisableBits(was: byte, now: byte, ro: byte, mask: byte)
    requires mask & 0x04 == 0
    ensures Stored(was, Merge(was, now, mask), ro) & 0x04 == was & 0x04
    ensures Stored(was, Merge(was, was | 0x04, 0xFF), ro) & 0x04 != 0 <==> was & 0x04 != 0 || ro & 0x04 == 0
  {
  }

  lemma RestoreDisables(s: Vdev)
    requires !s.func.isVirtfn && 64 <= |s.hw|
    ensures At(BarRestore(s).hw, 5) & 0x04 != 0 <==> At(s.hw, 5) & 0x04 != 0 || (s.func.nointx && At(s.ro, 5) & 0x04 == 0)
  {
    hide HwStore, RestoredBars, Saved, At, Stored, Merge;
    var rom := RestoredRom(s);
    SparedIn(s, 6, 5);
    SavedLen(s, 6);
    RestoredSize(s, 6);
    HwStoreSize(RestoredBars(s, 6), s.ro, 0x30, Saved(s, 6));
    HwStoreOutside(RestoredBars(s, 6), s.ro, 0x30, Saved(s, 6), 5);
    HwStoreByte(rom, s.ro, COMMAND, IntxOff(rom), 5);
    DisableBits(At(rom, 5), 0, At(s.ro, 5), 0);
  }

  lemma TableDisable(s: Vdev, pos: nat, bytes: seq<byte>)
    requires |s.vconfig| == |s.hw| && 5 < |s.hw|
    ensures At(DefaultWrite(s, Basic, 0, pos, bytes).hw, 5) & 0x04 == At(s.hw, 5) & 0x04
  {
    hide DefaultWrite, Merge, Stored, At;
    DefaultByte(s, Basic, 0, pos, bytes, 5);
    if pos <= 5 < pos + |bytes| {
      DisableBits(At(s.hw, 5), bytes[5 - pos], At(s.ro, 5), Write(Basic, s.msi, 5) & !Virt(Basic, s.msi, 5));
    }
  }

  lemma DisableChunk(s: Vdev, caps: set<Cap>, pos: nat, count: nat, bytes: seq<byte>)
    requires Good(s, caps) && 0 < count && pos + count <= |s.owner| && |bytes| == ChunkLen(s.owner, pos, count)
    ensures (At(WriteChunk(s, pos, bytes).hw, 5) & 0x04 != 0) == DisableAfter(s, pos, bytes)
  {
    GoodSizes(s, caps);
    ChunkAligned(s.owner, pos, count);
    hide ChunkLen, WriteChunk, KindAt, StartOf, At, Restores, Good;
    if pos < HEADER {
      HeaderRoute(s, caps, pos);
      HeaderDisable(s, pos, bytes);
    } else {
      HighStart(s, caps, pos);
      HighChunk(s, pos, bytes, 5);
    }
  }

  lemma HeaderDisable(s: Vdev, pos: nat, bytes: seq<byte>)
    requires KindAt(s.owner, pos) == Basic && HEADER <= |s.hw| == |s.vconfig|
    requires CoversByte(pos, |bytes|, 4) ==> pos == 4
    requires bytes != []
    ensures (At(WriteChunk(s, pos, bytes).hw, 5) & 0x04 != 0) == DisableAfter(s, pos, bytes)
  {
    hide DefaultWrite, NeedsRestore, BarRestore, At, BasicWrite, WriteChunk, KindAt, Restores;
    var s1 := if pos == COMMAND && NeedsRestore(s, At(bytes, 0)) then BarRestore(s) else s;
    BasicRoute(s, pos, bytes);
    BasicTail(s, pos, bytes, s1);
    RestoreFrame(s);
    TableDisable(s1, pos, bytes);
    NeedsIs(s, bytes[0]);
    assert At(bytes, 0) == bytes[0] by { FirstByte(bytes); }
    if pos == COMMAND && NeedsRestore(s, bytes[0]) {
      if s.func.isVirtfn { VirtfnSpared(s); } else { RestoreDisables(s); }
    }
  }

  lemma {:induction false} DisablesExactly(s: Vdev, caps: set<Cap>, pos: nat, bytes: seq<byte>)
    requires Good(s, caps) && pos + |bytes| <= |s.owner|
    ensures (At(WriteAccess(s, pos, bytes).hw, 5) & 0x04 != 0) == DisableAfter(s, pos, bytes)
    decreases |bytes|
  {
    hide *;
    if bytes == [] {
      NoDisable(s, pos);
    } else {
      var n := ChunkLen(s.owner, pos, |bytes|);
      var t := WriteChunk(s, pos, bytes[..n]);
      WriteUnfolds(s, pos, bytes);
      WriteFrame(s, pos, bytes[..n]);
      GoodFramed(s, t, caps);
      DisableChunk(s, caps, pos, |bytes|, bytes[..n]);
      DisablesExactly(t, caps, pos + n, bytes[n..]);
      if !CoversByte(pos, n, 4) {
        UncoveredSame(s, caps, pos, |bytes|, bytes[..n]);
        forall now: byte ensures Restores(t, now) == Restores(s, now) { SameRestores(s, t, now); }
      }
      DisableThen(s, t, pos, bytes, n);
    }
  }

  lemma NoDisable(s: Vdev, pos: nat)
    ensures WriteAccess(s, pos, []) == s && (At(s.hw, 5) & 0x04 != 0) == DisableAfter(s, pos, [])
  {
    hide At, Restores;
  }

  lemma SameRestores(s: Vdev, t: Vdev, now: byte)
    requires SameRegisters(s, t)
    ensures Restores(t, now) == Restores(s, now)
  {
    forall i: nat | i < 6 ensures Lost(t, i) == Lost(s, i) {
      var at := 0x10 + 4 * i;
      assert IsBar(at) && IsBar(at + 1) && IsBar(at + 2) && IsBar(at + 3);
      hide At;
    }
    hide Lost, At, IsBar;
  }

  lemma DisableThen(s: Vdev, t: Vdev, pos: nat, bytes: seq<byte>, n: nat)
    requires 0 < n <= |bytes| && SameFrame(s, t) && (At(t.hw, 5) & 0x04 != 0) == DisableAfter(s, pos, bytes[..n])
    requires !CoversByte(pos, n, 4) ==> forall now: byte :: Restores(t, now) == Restores(s, now)
    ensures DisableAfter(t, pos + n, bytes[n..]) == DisableAfter(s, pos, bytes)
  {
    hide At, Restores;
  }

  // ---------------------------------------------------------------- virtual functions

  // A virtual function has no memory enable of its own: a guest reads the one it wrote beside what
  // hardware has, in any shape.
  lemma {:induction false} VirtualMemory(s: Vdev, caps: set<Cap>, pos: nat, count: nat)
    requires Steady(s, caps) && s.func.isVirtfn && pos + count <= |s.owner| && pos <= 4 < pos + count
    ensures Got(s, pos, count, 4) == At(s.hw, 4) | (At(s.vconfig, 4) & 0x02)
    decreases count
  {
    hide *;
    var n := ChunkLen(s.owner, pos, count);
    var t := ReadPrep(s, pos, n);
    GotAt(s, pos, count, 4);
    SteadyGood(s, caps);
    ReadPrepFrame(s, pos, n);
    ReadChunkSteady(s, caps, pos, n);
    SameCommand(s, caps, pos, n);
    FrameFunc(s, t);
    if 4 < pos + n {
      SteadyGood(t, caps);
      CommandByte(t, caps, pos, count);
    } else {
      VirtualMemory(t, caps, pos + n, count - n);
    }
  }

  lemma FrameFunc(s: Vdev, t: Vdev)
    requires SameFrame(s, t)
    ensures t.func == s.func && t.owner == s.owner
  {
  }

  lemma SameCommand(s: Vdev, caps: set<Cap>, pos: nat, n: nat)
    requires Good(s, caps)
    ensures var t := ReadPrep(s, pos, n);
      t.hw == s.hw && At(t.vconfig, 4) == At(s.vconfig, 4) && t.func == s.func && t.owner == s.owner
  {
    PrepHw(s, pos, n);
    ReadPrepFrame(s, pos, n);
    PrepLow(s, caps, pos, n);
    hide ReadPrep, Good, At;
  }

  lemma PrepLow(s: Vdev, caps: set<Cap>, pos: nat, n: nat)
    requires Good(s, caps)
    ensures At(ReadPrep(s, pos, n).vconfig, 4) == At(s.vconfig, 4)
  {
    hide KindAt, StartOf, BarFixup, Good, At, QueueMax;
    FixupAt(s, 4);
    if KindAt(s.owner, pos) == Msi {
      MsiHigh(s, caps, pos);
      PokeAt(s.vconfig, StartOf(s.owner, pos), QueueMax(At(s.vconfig, StartOf(s.owner, pos)), s.qmax), 4);
    }
  }

  lemma MsiHigh(s: Vdev, caps: set<Cap>, pos: nat)
    requires Good(s, caps) && KindAt(s.owner, pos) == Msi
    ensures StartOf(s.owner, pos) >= HEADER
  {
    Routed(s.owner, caps, s.msi, pos);
    if pos >= HEADER { HighStart(s, caps, pos); }
    hide KindAt, StartOf, Laid;
  }

  lemma CommandByte(s: Vdev, caps: set<Cap>, pos: nat, count: nat)
    requires Good(s, caps) && s.func.isVirtfn && 0 < count && pos <= 4 < pos + ChunkLen(s.owner, pos, count)
    ensures ReadByte(s, pos, ChunkLen(s.owner, pos, count), 4 - pos) == At(s.hw, 4) | (At(s.vconfig, 4) & 0x02)
  {
    CoversIs(pos, ChunkLen(s.owner, pos, count), 4);
    ChunkAligned(s.owner, pos, count);
    HeaderRoute(s, caps, 4);
    hide KindAt, StartOf, ChunkLen, Good, Merge;
    MergeFacts(At(s.hw, 4), At(s.vconfig, 4), 0);
  }
}
