/** Which hardware bytes a chunk of a guest write can change. */
module HardwareBytes {
  import opened Bytes
  import opened PciCaps
  import opened StdCapInit
  import opened Perms
  import opened ConfigAccess
  import opened ListLinks
  import opened GuestRuns

  lemma HwStoreOutside(hw: seq<byte>, ro: seq<byte>, pos: nat, bytes: seq<byte>, q: nat)
    requires q < pos || pos + |bytes| <= q
    ensures At(HwStore(hw, ro, pos, bytes), q) == At(hw, q)
  {
    hide Stored, Merge;
  }

  lemma RawHw(s: Vdev, pos: nat, bytes: seq<byte>, q: nat)
    requires KindAt(s.owner, pos) in {Raw, Vendor} && !CoversByte(pos, |bytes|, q)
    ensures At(WriteChunk(s, pos, bytes).hw, q) == At(s.hw, q)
  {
    hide KindAt, StartOf, HwStore;
    HwStoreOutside(s.hw, s.ro, pos, bytes, q);
  }

  lemma KindHw(s: Vdev, start: nat, pos: nat, bytes: seq<byte>, q: nat)
    requires KindAt(s.owner, pos) !in {Raw, Basic} && StartOf(s.owner, pos) == start <= pos && !CoversByte(pos, |bytes|, q)
    requires KindAt(s.owner, pos) == Exp ==> q != start + 9
    requires KindAt(s.owner, pos) == Msi ==> q != start + 2 && q != start + 3
    requires q < |s.vconfig| == |s.hw|
    ensures At(WriteChunk(s, pos, bytes).hw, q) == At(s.hw, q)
  {
    var k := KindAt(s.owner, pos);
    hide KindAt, StartOf, DefaultWrite, HwStore, MsiFixed, MrrsFollow, FlrHandled, AfReset, VpdOp, At, Blend;
    DefaultByte(s, k, start, pos, bytes, q);
    var w := DefaultWrite(s, k, start, pos, bytes);
    match k {
      case Vendor => RawHw(s, pos, bytes, q);
      case Exp => ExpHw(w, start, Mrrs(At(s.vconfig, start + 9)), q);
      case Af => AfHw(w, start);
      case Vpd => VpdHw(w, start);
      case Msi => HwStoreOutside(w.hw, w.ro, start + 2, [MsiFixed(w, At(w.vconfig, start + 2)), At(w.vconfig, start + 3)], q);
      case _ =>
    }
  }

  lemma ExpHw(w: Vdev, start: nat, before: byte, q: nat)
    requires q != start + 9
    ensures At(MrrsFollow(FlrHandled(w, start), start, before).hw, q) == At(w.hw, q)
  {
    FlrHw(w, start);
    hide Stored, Merge, MaxByte, Mrrs, Mps, FlrHandled;
  }

  lemma AfHw(w: Vdev, start: nat)
    ensures AfReset(w, start).hw == w.hw
  {
  }

  lemma VpdHw(w: Vdev, start: nat)
    ensures VpdOp(w, start).hw == w.hw
  {
    hide VpdTakes, VpdDword, VpdAddr, VpdF, VpdFlip, Poke, Poke4, Dword, At;
  }

  // Bytes that restoring the registers does not reach.
  predicate Spared(q: nat) { !IsBar(q) && q != COMMAND && q != COMMAND + 1 }

  lemma SavedLen(s: Vdev, i: nat)
    ensures |Saved(s, i)| == 4
  {
  }

  // Restoring the base address registers stays inside the header.
  lemma RestoreSpares(s: Vdev, q: nat)
    requires Spared(q)
    ensures At(BarRestore(s).hw, q) == At(s.hw, q)
  {
    hide HwStore, RestoredBars, Saved, IntxOff, At;
    SparedIn(s, 6, q);
    SavedLen(s, 6);
    var rom := RestoredRom(s);
    HwStoreOutside(RestoredBars(s, 6), s.ro, 0x30, Saved(s, 6), q);
    IntxOffLen(rom);
    HwStoreOutside(rom, s.ro, COMMAND, IntxOff(rom), q);
  }

  lemma IntxOffLen(hw: seq<byte>)
    ensures |IntxOff(hw)| == 2
  {
    hide At;
  }

  lemma {:induction false} SparedIn(s: Vdev, n: nat, q: nat)
    requires !IsBar(q) && n <= 6
    ensures At(RestoredBars(s, n), q) == At(s.hw, q)
  {
    hide HwStore, Saved;
    if n > 0 {
      SparedIn(s, n - 1, q);
      SavedLen(s, n - 1);
      HwStoreOutside(RestoredBars(s, n - 1), s.ro, BarAt(n - 1), Saved(s, n - 1), q);
    }
  }

  // The bits of a register byte that restoring spares; with INTx hidden it sets INTX_DISABLE.
  function SparedBits(q: nat): byte { if IsBar(q) then 0 else if q == COMMAND + 1 then 0xFB else 0xFF }

  predicate Same(a: byte, b: byte, bits: byte) { a & bits == b & bits }

  lemma SameSelf(a: byte, bits: byte)
    ensures Same(a, a, bits)
  {
  }

  lemma RestoreBits(s: Vdev, q: nat)
    requires HEADER <= |s.hw|
    ensures Same(At(BarRestore(s).hw, q), At(s.hw, q), SparedBits(q))
  {
    hide HwStore, RestoredBars, Saved, IntxOff, At, BarRestore, Same;
    SameSelf(At(s.hw, q), SparedBits(q));
    if IsBar(q) {
      NoBits(At(BarRestore(s).hw, q), At(s.hw, q));
    } else if Spared(q) {
      RestoreSpares(s, q);
    } else {
      RestoreCommand(s, q);
    }
  }

  lemma NoBits(a: byte, b: byte)
    ensures Same(a, b, 0)
  {
  }

  lemma RestoreCommand(s: Vdev, q: nat)
    requires HEADER <= |s.hw| && q in {COMMAND, COMMAND + 1}
    ensures Same(At(BarRestore(s).hw, q), At(s.hw, q), SparedBits(q))
  {
    hide HwStore, RestoredBars, Saved, At, Stored, Same;
    SparedIn(s, 6, q);
    SavedLen(s, 6);
    RestoredSize(s, 6);
    var rom := RestoredRom(s);
    HwStoreSize(RestoredBars(s, 6), s.ro, 0x30, Saved(s, 6));
    HwStoreOutside(RestoredBars(s, 6), s.ro, 0x30, Saved(s, 6), q);
    HwStoreByte(rom, s.ro, COMMAND, IntxOff(rom), q);
    IntxStored(At(rom, q), At(s.ro, q));
    SameSelf(At(s.hw, q), SparedBits(q));
  }

  lemma IntxStored(was: byte, ro: byte)
    ensures Stored(was, Merge(was, was, 0xFF), ro) == was
    ensures Same(Stored(was, Merge(was, was | 0x04, 0xFF), ro), was, 0xFB)
    ensures Same(was, was, 0xFF)
  {
  }
}
