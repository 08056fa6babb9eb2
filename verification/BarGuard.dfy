/** Memory and I/O decoding of a physical function: whatever resets the device behind the driver's
    back, the guest can only turn decoding on while the base address registers hold what the host
    put in them. */
module BarGuard {
  import opened Bytes
  import opened PciCaps
  import opened StdCapInit
  import opened Layout
  import opened Perms
  import opened Routing
  import opened ConfigAccess
  import opened ListLinks
  import opened GuestRuns
  import opened HardwareBytes
  import opened GuestView

  const DECODE: byte := 0x03 // PCI_COMMAND_IO and PCI_COMMAND_MEMORY

  predicate Decoding(s: Vdev) { At(s.hw, COMMAND) & DECODE != 0 }

  // Read-only bits of a base address register agree with the saved copy.
  predicate RoAgrees(s: Vdev, i: nat) {
    At(s.hw, 0x10 + i) & At(s.ro, 0x10 + i) == At(s.rbar, i) & At(s.ro, 0x10 + i)
  }

  ghost predicate Guarded(s: Vdev) {
    && !s.func.isVirtfn
    && At(s.hw, COMMAND) & At(s.ro, COMMAND) & DECODE == 0 // decoding is not stuck on
    && (forall i: nat :: i < 24 ==> RoAgrees(s, i))
    && (Decoding(s) ==> BarsHold(s))
  }

  // What happens behind the driver's back: a reset may change anything but turns decoding off, and
  // any other change leaves the decode bits and the base address registers alone.
  predicate Backdoor(s: Vdev, e: Event) { e.HwChange? ==> At(e.values, COMMAND) & DECODE == 0 || Spares(s, e.values) }

  predicate Spares(s: Vdev, values: seq<byte>) {
    && At(values, COMMAND) & DECODE == At(s.hw, COMMAND) & DECODE
    && forall q :: 0x10 <= q < 0x28 ==> At(values, q) == At(s.hw, q)
  }

  // Every hardware change of the run is one of these.
  ghost predicate Backdoors(s: Vdev, es: seq<Event>)
    decreases |es|
  {
    es == [] || (Backdoor(s, es[0]) && Backdoors(Step(s, es[0]), es[1..]))
  }

  // ---------------------------------------------------------------- restoring

  lemma StoredSaved(was: byte, saved: byte, ro: byte)
    requires was & ro == saved & ro
    ensures Stored(was, Merge(was, saved, 0xFF), ro) == saved
  {
  }

  lemma SavedByte(s: Vdev, j: nat, i: nat)
    ensures |Saved(s, j)| == 4 && (4 * j <= i < 4 * j + 4 ==> Saved(s, j)[i - 4 * j] == At(s.rbar, i))
  {
    hide At;
  }

  // After the first `n` stores the first `n` registers hold their saved values.
  lemma {:induction false} RestoredHolds(s: Vdev, n: nat, i: nat)
    requires n <= 6 && i < 24 && RoAgrees(s, i) && 64 <= |s.hw|
    ensures |RestoredBars(s, n)| == |s.hw|
    ensures At(RestoredBars(s, n), 0x10 + i) == if i < 4 * n then At(s.rbar, i) else At(s.hw, 0x10 + i)
  {
    hide HwStore, Stored, Merge, Saved, At;
    if n > 0 {
      RestoredHolds(s, n - 1, i);
      SavedByte(s, n - 1, i);
      HwStoreByte(RestoredBars(s, n - 1), s.ro, BarAt(n - 1), Saved(s, n - 1), 0x10 + i);
      if 4 * (n - 1) <= i < 4 * n {
        StoredSaved(At(s.hw, 0x10 + i), At(s.rbar, i), At(s.ro, 0x10 + i));
      }
      HwStoreSize(RestoredBars(s, n - 1), s.ro, BarAt(n - 1), Saved(s, n - 1));
    }
  }

  // vfio_bar_restore puts every saved register back.
  lemma RestoreHolds(s: Vdev, i: nat)
    requires !s.func.isVirtfn && i < 24 && RoAgrees(s, i) && 64 <= |s.hw|
    ensures At(BarRestore(s).hw, 0x10 + i) == At(s.rbar, i)
    ensures |BarRestore(s).hw| == |s.hw|
  {
    hide HwStore, RestoredBars, At, Saved;
    RestoredHolds(s, 6, i);
    var bars := RestoredBars(s, 6);
    SavedLen(s, 6);
    var hw := HwStore(bars, s.ro, 0x30, Saved(s, 6));
    HwStoreOutside(bars, s.ro, 0x30, Saved(s, 6), 0x10 + i);
    HwStoreSize(bars, s.ro, 0x30, Saved(s, 6));
    var command := IntxOff(hw);
    HwStoreOutside(hw, s.ro, COMMAND, command, 0x10 + i);
    HwStoreSize(hw, s.ro, COMMAND, command);
  }

  lemma BytesHold(s: Vdev)
    requires forall i: nat :: i < 24 ==> At(s.hw, 0x10 + i) == At(s.rbar, i)
    ensures BarsHold(s)
  {
    forall i | 0 <= i < 6 ensures BarHolds(s, i) {
      assert At(s.hw, 0x10 + 4 * i) == At(s.rbar, 4 * i);
      assert At(s.hw, 0x10 + (4 * i + 1)) == At(s.rbar, 4 * i + 1);
      assert At(s.hw, 0x10 + (4 * i + 2)) == At(s.rbar, 4 * i + 2);
      assert At(s.hw, 0x10 + (4 * i + 3)) == At(s.rbar, 4 * i + 3);
      hide At;
    }
  }

  // Same registers, same verdict.
  lemma SameHold(s: Vdev, t: Vdev)
    requires t.rbar == s.rbar && BarsHold(s) && forall q: nat :: 0x10 <= q < 0x28 ==> At(t.hw, q) == At(s.hw, q)
    ensures BarsHold(t)
  {
    forall i | 0 <= i < 6 ensures BarHolds(t, i) {
      assert BarHolds(s, i);
      hide At;
    }
  }

  // ---------------------------------------------------------------- one chunk

  // No table-driven write of the header reaches a base address register in hardware.
  lemma DefaultBars(s: Vdev, pos: nat, bytes: seq<byte>, q: nat)
    requires |s.vconfig| == |s.hw| && q < |s.hw| && (0x10 <= q < 0x28 || (q == COMMAND && !(pos <= q < pos + |bytes|)))
    ensures At(DefaultWrite(s, Basic, 0, pos, bytes).hw, q) == At(s.hw, q)
  {
    hide DefaultWrite, Merge, Stored;
    DefaultByte(s, Basic, 0, pos, bytes, q);
    if pos <= q < pos + |bytes| {
      assert IsBar(q);
      MergeFacts(At(s.hw, q), bytes[q - pos], 0);
      StoredSame(At(s.hw, q), At(s.ro, q));
    }
  }

  lemma StoredSame(was: byte, ro: byte)
    ensures Stored(was, was, ro) == was
  {
  }

  // Whatever the guest writes to COMMAND, the registers hold their saved values afterwards.
  lemma CommandRestores(s: Vdev, bytes: seq<byte>)
    requires Guarded(s) && 64 <= |s.hw| == |s.vconfig|
    ensures BarsHold(BasicWrite(s, COMMAND, bytes))
  {
    hide DefaultWrite, BarsHold, BarRestore, At, Merge;
    var s1 := if NeedsRestore(s, At(bytes, 0)) then BarRestore(s) else s;
    if NeedsRestore(s, At(bytes, 0)) {
      forall i: nat | i < 24 ensures At(s1.hw, 0x10 + i) == At(s1.rbar, i) && |s1.hw| == |s.hw| {
        assert RoAgrees(s, i);
        RestoreHolds(s, i);
        RestoreFrame(s);
      }
      assert At(s1.hw, 0x10 + 0) == At(s1.rbar, 0);
      BytesHold(s1);
    }
    RestoreFrame(s);
    DefaultKeepsBars(s1, COMMAND, bytes);
    SameHold(s1, DefaultWrite(s1, Basic, 0, COMMAND, bytes));
    BasicTail(s, COMMAND, bytes, s1);
    SameHold(DefaultWrite(s1, Basic, 0, COMMAND, bytes), BasicWrite(s, COMMAND, bytes));
  }

  lemma DefaultKeepsBars(s: Vdev, pos: nat, bytes: seq<byte>)
    requires 64 <= |s.hw| == |s.vconfig|
    ensures var t := DefaultWrite(s, Basic, 0, pos, bytes);
      t.rbar == s.rbar && forall q: nat :: 0x10 <= q < 0x28 ==> At(t.hw, q) == At(s.hw, q)
  {
    hide Blend, HwBlend, VMasks, HMasks;
    forall q: nat | 0x10 <= q < 0x28 ensures At(DefaultWrite(s, Basic, 0, pos, bytes).hw, q) == At(s.hw, q) {
      DefaultBars(s, pos, bytes, q);
    }
  }

  // After the table-driven part, the COMMAND handler leaves hardware alone.
  lemma BasicTail(s: Vdev, pos: nat, bytes: seq<byte>, s1: Vdev)
    requires s1 == if pos == COMMAND && NeedsRestore(s, At(bytes, 0)) then BarRestore(s) else s
    ensures var d := DefaultWrite(s1, Basic, 0, pos, bytes); var t := BasicWrite(s, pos, bytes); t.hw == d.hw && t.rbar == d.rbar
  {
    hide DefaultWrite, NeedsRestore, BarRestore, At, Merge;
  }

  // Chunks of capabilities do not reach the header.
  lemma HighChunk(s: Vdev, pos: nat, bytes: seq<byte>, q: nat)
    requires KindAt(s.owner, pos) != Basic && HEADER <= pos && HEADER <= StartOf(s.owner, pos) <= pos
    requires q < HEADER && q < |s.vconfig| == |s.hw|
    ensures At(WriteChunk(s, pos, bytes).hw, q) == At(s.hw, q)
  {
    hide WriteChunk, KindAt, StartOf, At;
    if KindAt(s.owner, pos) == Raw {
      RawHw(s, pos, bytes, q);
    } else {
      KindHw(s, StartOf(s.owner, pos), pos, bytes, q);
    }
  }

  lemma ChunkGuarded(s: Vdev, caps: set<Cap>, pos: nat, count: nat, bytes: seq<byte>)
    requires Good(s, caps) && Guarded(s) && 0 < count && pos + count <= |s.owner| && |bytes| == ChunkLen(s.owner, pos, count)
    ensures Guarded(WriteChunk(s, pos, bytes))
  {
    hide ChunkLen, WriteChunk, Laid, KindAt, StartOf, BarsHold, BarHolds;
    var t := WriteChunk(s, pos, bytes);
    WriteFrame(s, pos, bytes);
    RoKept(s, t, pos, bytes);
    DecodeGuarded(s, caps, pos, count, bytes);
  }

  lemma RoKept(s: Vdev, t: Vdev, pos: nat, bytes: seq<byte>)
    requires t == WriteChunk(s, pos, bytes) && SameFrame(s, t) && forall i: nat :: i < 24 ==> RoAgrees(s, i)
    ensures forall i: nat :: i < 24 ==> RoAgrees(t, i)
    ensures At(t.hw, COMMAND) & At(t.ro, COMMAND) == At(s.hw, COMMAND) & At(s.ro, COMMAND)
  {
    hide WriteChunk, At;
    forall i: nat | i < 24 ensures RoAgrees(t, i) {
      WriteRo(s, pos, bytes, 0x10 + i);
      assert RoAgrees(s, i);
    }
    WriteRo(s, pos, bytes, COMMAND);
  }

  lemma DecodeGuarded(s: Vdev, caps: set<Cap>, pos: nat, count: nat, bytes: seq<byte>)
    requires Good(s, caps) && Guarded(s) && 0 < count && pos + count <= |s.owner| && |bytes| == ChunkLen(s.owner, pos, count)
    ensures var t := WriteChunk(s, pos, bytes); Decoding(t) ==> BarsHold(t)
  {
    hide ChunkLen, WriteChunk, KindAt, StartOf, BarsHold, At, Layout.Sized, Mapped;
    var t := WriteChunk(s, pos, bytes);
    WriteFrame(s, pos, bytes);
    Routed(s.owner, caps, s.msi, pos);
    ChunkInside(s.owner, pos, count, |bytes| - 1);
    if pos >= HEADER {
      HighStart(s, caps, pos);
      forall q: nat | q < HEADER ensures At(t.hw, q) == At(s.hw, q) {
        HighChunk(s, pos, bytes, q);
      }
      if Decoding(t) { SameHold(s, t); }
    } else {
      BasicRoute(s, pos, bytes);
      if pos == COMMAND {
        CommandRestores(s, bytes);
      } else {
        DefaultKeepsBars(s, pos, bytes);
        DefaultBars(s, pos, bytes, COMMAND);
        BasicTail(s, pos, bytes, s);
        if Decoding(t) { SameHold(s, t); }
      }
    }
  }

  lemma BasicRoute(s: Vdev, pos: nat, bytes: seq<byte>)
    requires KindAt(s.owner, pos) == Basic
    ensures WriteChunk(s, pos, bytes) == BasicWrite(s, pos, bytes)
  {
    hide BasicWrite, KindAt, StartOf;
  }

  lemma HighStart(s: Vdev, caps: set<Cap>, pos: nat)
    requires Good(s, caps) && pos >= HEADER
    ensures KindAt(s.owner, pos) != Basic && StartOf(s.owner, pos) >= HEADER
  {
    hide Layout.Sized, Mapped;
    Routed(s.owner, caps, s.msi, pos);
    if KindAt(s.owner, pos) != Raw {
      var c :| c in caps && c.Has(pos) && StartOf(s.owner, pos) == c.start;
      assert CapFits(c, |s.owner|);
    }
  }

  // ---------------------------------------------------------------- whole runs

  lemma {:induction false} WriteGuarded(s: Vdev, caps: set<Cap>, pos: nat, bytes: seq<byte>)
    requires Good(s, caps) && Guarded(s) && pos + |bytes| <= |s.owner|
    ensures Good(WriteAccess(s, pos, bytes), caps) && Guarded(WriteAccess(s, pos, bytes))
    decreases |bytes|
  {
    hide Guarded, WriteChunk, ChunkLen, Laid;
    if bytes != [] {
      var n := ChunkLen(s.owner, pos, |bytes|);
      WriteFrame(s, pos, bytes[..n]);
      ChunkGuarded(s, caps, pos, |bytes|, bytes[..n]);
      WriteGuarded(WriteChunk(s, pos, bytes[..n]), caps, pos + n, bytes[n..]);
    }
  }

  lemma {:induction false} ReadGuarded(s: Vdev, caps: set<Cap>, pos: nat, count: nat)
    requires Good(s, caps) && Guarded(s)
    ensures Good(ReadAccess(s, pos, count).0, caps) && Guarded(ReadAccess(s, pos, count).0)
    decreases count
  {
    hide Guarded, ReadPrep, ChunkLen, Laid, ReadBytes;
    if count > 0 {
      var n := ChunkLen(s.owner, pos, count);
      ReadPrepFrame(s, pos, n);
      SameGuarded(s, ReadPrep(s, pos, n));
      ReadGuarded(ReadPrep(s, pos, n), caps, pos + n, count - n);
    }
  }

  lemma SameGuarded(s: Vdev, t: Vdev)
    requires Guarded(s) && SameFrame(s, t) && t.hw == s.hw
    ensures Guarded(t)
  {
    hide At;
    forall i: nat | i < 24 ensures RoAgrees(t, i) {
      assert RoAgrees(s, i);
    }
    if Decoding(t) {
      SameHold(s, t);
    }
  }

  lemma ResetGuarded(s: Vdev, values: seq<byte>)
    requires Guarded(s) && 64 <= |s.hw| && Backdoor(s, HwChange(values))
    ensures Guarded(Step(s, HwChange(values)))
  {
    hide Settled, BarsHold, Spares;
    var t := Step(s, HwChange(values));
    forall i: nat | i < 24 ensures RoAgrees(t, i) {
      assert RoAgrees(s, i);
      StoredRo(At(s.hw, 0x10 + i), At(values, 0x10 + i), At(s.ro, 0x10 + i));
    }
    StoredRo(At(s.hw, COMMAND), At(values, COMMAND), At(s.ro, COMMAND));
    assert At(t.hw, COMMAND) & At(t.ro, COMMAND) & DECODE == 0;
    if At(values, COMMAND) & DECODE == 0 {
      DecodeOff(At(s.hw, COMMAND), At(values, COMMAND), At(s.ro, COMMAND));
    } else {
      SparedHolds(s, values);
    }
  }

  // A change that spares decode bits and registers leaves both as they were.
  lemma SparedHolds(s: Vdev, values: seq<byte>)
    requires Spares(s, values) && 64 <= |s.hw|
    ensures var t := Step(s, HwChange(values)); Decoding(t) == Decoding(s) && (BarsHold(s) ==> BarsHold(t))
  {
    hide Settled, BarsHold, Stored;
    var t := Step(s, HwChange(values));
    DecodeKept(At(s.hw, COMMAND), At(values, COMMAND), At(s.ro, COMMAND));
    forall q: nat | 0x10 <= q < 0x28 ensures At(t.hw, q) == At(s.hw, q) {
      StoredSame(At(s.hw, q), At(s.ro, q));
    }
    if BarsHold(s) { SameHold(s, t); }
  }

  lemma DecodeKept(was: byte, now: byte, ro: byte)
    requires now & DECODE == was & DECODE
    ensures Stored(was, now, ro) & DECODE == was & DECODE
  {
  }

  lemma DecodeOff(was: byte, now: byte, ro: byte)
    requires was & ro & DECODE == 0 && now & DECODE == 0
    ensures Stored(was, now, ro) & DECODE == 0
  {
  }

  lemma StepGuarded(s: Vdev, caps: set<Cap>, e: Event)
    requires Good(s, caps) && Guarded(s) && Backdoor(s, e)
    ensures Good(Step(s, e), caps) && Guarded(Step(s, e))
  {
    hide Guarded, ReadAccess, WriteAccess, Mapped, Layout.Sized, At, Settled;
    match e {
      case GuestRead(pos, count) => ReadGuarded(s, caps, pos, count);
      case GuestWrite(pos, bytes) => if pos + |bytes| <= |s.owner| { WriteGuarded(s, caps, pos, bytes); }
      case HwChange(values) => ResetGuarded(s, values);
      case IrqMode(msiMode, qmax) => if qmax <= 7 { ModeGuarded(s, msiMode, qmax); }
    }
  }

  lemma ModeGuarded(s: Vdev, msiMode: bool, qmax: byte)
    requires Guarded(s)
    ensures Guarded(s.(msiMode := msiMode, qmax := qmax))
  {
    hide At;
    var t := s.(msiMode := msiMode, qmax := qmax);
    forall i: nat | i < 24 ensures RoAgrees(t, i) {
      assert RoAgrees(s, i);
    }
    if Decoding(t) {
      SameHold(s, t);
    }
  }

  lemma {:induction false} RunGuarded(s: Vdev, caps: set<Cap>, es: seq<Event>)
    requires Good(s, caps) && Guarded(s) && Backdoors(s, es)
    ensures Good(Run(s, es), caps) && Guarded(Run(s, es))
    decreases |es|
  {
    hide Guarded, Step, Good, Backdoor;
    if es != [] {
      StepGuarded(s, caps, es[0]);
      RunGuarded(Step(s, es[0]), caps, es[1..]);
    }
  }

  lemma OpenedGuarded(x: Plugged)
    requires x.Sized() && !x.func.isVirtfn && At(x.hw, COMMAND) & At(x.ro, COMMAND) & DECODE == 0
    ensures Guarded(Opened(x))
  {
    hide Plugged.Built, At;
    forall i: nat | i < 24 ensures At(Opened(x).hw, 0x10 + i) == At(Opened(x).rbar, i) {
      SavedAt(x.hw, i);
    }
    BytesHold(Opened(x));
  }

  lemma SavedAt(hw: seq<byte>, i: nat)
    requires i < 24
    ensures At(SavedBars(hw), i) == At(hw, 0x10 + i)
  {
  }

  // In every run of guest accesses, resets behind the driver's back and other hardware changes, hardware decodes memory
  // or I/O only while every register the host programmed holds its value.
  lemma DecodeMeansRestored(x: Plugged, ps: seq<nat>, es: seq<nat>, run: seq<Event>, i: nat)
    requires WellFormed(x, ps, es) && !x.func.isVirtfn && At(x.hw, COMMAND) & At(x.ro, COMMAND) & DECODE == 0
    requires Backdoors(Opened(x), run) && i < 6
    requires Decoding(Run(Opened(x), run))
    ensures BarHolds(Run(Opened(x), run), i)
  {
    hide Formed, AllCaps, Run, Laid, BarHolds, Opened;
    OpenedSteady(x, ps, es);
    OpenedGuarded(x);
    RunGuarded(Opened(x), x.Caps(ps, es), run);
  }
}
