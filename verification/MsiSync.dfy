/** The flags of the MSI capability: both copies agree, enable is set only in MSI mode, and the queue
    size is one the host allows. */
module MsiSync {
  import opened Bytes
  import opened PciCaps
  import opened StdCapInit
  import opened Layout
  import opened Perms
  import opened Routing
  import opened ConfigAccess
  import opened ListLinks
  import opened GuestRuns
  import opened HardwareBytes
  import opened BarGuard

  // What the guest may have set in the flags: enable only in MSI mode, and no more vectors than
  // the host allows.
  predicate FlagsLegal(s: Vdev, flags: byte) {
    (flags & 0x01 != 0 ==> s.msiMode) && (flags & 0x70) >> 4 <= s.qmax
  }

  lemma FixedLegal(s: Vdev, flags: byte)
    requires s.qmax <= 7
    ensures FlagsLegal(s, MsiFixed(s, flags))
    ensures FlagsLegal(s, flags) ==> MsiFixed(s, flags) == flags
  {
  }

  // Both copies of the flags word agree on every bit the hardware can hold.
  predicate FlagsAgree(s: Vdev, start: nat) {
    && Agrees(At(s.hw, start + 2), At(s.vconfig, start + 2), At(s.ro, start + 2))
    && Agrees(At(s.hw, start + 3), At(s.vconfig, start + 3), At(s.ro, start + 3))
  }

  predicate Agrees(hw: byte, v: byte, ro: byte) { hw & !ro == v & !ro }

  lemma StoredAgrees(was: byte, now: byte, ro: byte)
    ensures Agrees(Stored(was, Merge(was, now, 0xFF), ro), now, ro)
  {
  }

  // After every write that reaches the flags, enable and queue size are legal and both copies agree.
  lemma MsiWriteAgrees(s: Vdev, start: nat, pos: nat, bytes: seq<byte>)
    requires start <= pos <= start + 2 <= pos + |bytes| && start + 4 <= |s.vconfig| == |s.hw| == |s.ro| && s.qmax <= 7
    ensures var t := MsiWrite(s, start, pos, bytes); FlagsAgree(t, start) && FlagsLegal(t, At(t.vconfig, start + 2))
  {
    var d := DefaultWrite(s, Msi, start, pos, bytes);
    DefaultKeeps(s, Msi, start, pos, bytes);
    var lo, hi := MsiFixed(d, At(d.vconfig, start + 2)), At(d.vconfig, start + 3);
    FixedLegal(d, At(d.vconfig, start + 2));
    HwStoreByte(d.hw, d.ro, start + 2, [lo, hi], start + 2);
    HwStoreByte(d.hw, d.ro, start + 2, [lo, hi], start + 3);
    StoredAgrees(At(d.hw, start + 2), lo, At(d.ro, start + 2));
    StoredAgrees(At(d.hw, start + 3), hi, At(d.ro, start + 3));
    hide DefaultWrite, HwStore, MsiFixed, Stored, Merge, Agrees, FlagsLegal;
    FlagsLegalSame(d, MsiWrite(s, start, pos, bytes), lo);
  }

  lemma FlagsLegalSame(s: Vdev, t: Vdev, flags: byte)
    requires FlagsLegal(s, flags) && t.msiMode == s.msiMode && t.qmax == s.qmax
    ensures FlagsLegal(t, flags)
  {
  }

  // Chunks outside a capability leave its hardware registers alone.
  lemma HwElsewhere(s: Vdev, caps: set<Cap>, c: Cap, pos: nat, count: nat, bytes: seq<byte>, q: nat)
    requires Good(s, caps) && c in caps && c.Has(q) && !c.Has(pos)
    requires 0 < count && |bytes| == ChunkLen(s.owner, pos, count)
    ensures At(WriteChunk(s, pos, bytes).hw, q) == At(s.hw, q)
  {
    ChunkApart(s, caps, c, pos, count, bytes, q);
    Routed(s.owner, caps, s.msi, pos);
    assert q < |s.owner| && q >= HEADER by { assert CapFits(c, |s.owner|); }
    if pos < HEADER {
      LowHw(s, pos, bytes, q);
    } else if KindAt(s.owner, pos) == Raw {
      RawHw(s, pos, bytes, q);
    } else {
      var d :| d in caps && d.Has(pos) && StartOf(s.owner, pos) == d.start;
      OtherHw(s, caps, d, pos, bytes, q);
    }
  }

  lemma LowHw(s: Vdev, pos: nat, bytes: seq<byte>, q: nat)
    requires KindAt(s.owner, pos) == Basic && !CoversByte(pos, |bytes|, q) && HEADER <= q < |s.vconfig| == |s.hw|
    ensures At(WriteChunk(s, pos, bytes).hw, q) == At(s.hw, q)
  {
    hide KindAt, StartOf, BasicWrite, DefaultWrite, NeedsRestore, BarRestore, At;
    BasicRoute(s, pos, bytes);
    var s1 := if pos == COMMAND && NeedsRestore(s, At(bytes, 0)) then BarRestore(s) else s;
    BasicTail(s, pos, bytes, s1);
    RestoreFrame(s);
    RestoreSpares(s, q);
    DefaultByte(s1, Basic, 0, pos, bytes, q);
  }

  lemma OtherHw(s: Vdev, caps: set<Cap>, d: Cap, pos: nat, bytes: seq<byte>, q: nat)
    requires Good(s, caps) && d in caps && d.Has(pos) && !d.Has(q) && !CoversByte(pos, |bytes|, q) && q < |s.owner|
    requires StartOf(s.owner, pos) == d.start && KindAt(s.owner, pos) !in {Raw, Basic}
    ensures At(WriteChunk(s, pos, bytes).hw, q) == At(s.hw, q)
  {
    StartOfCap(s.owner, caps, s.msi, d, pos);
    HandlerSpan(s.owner, caps, s.msi, d);
    KindHw(s, d.start, pos, bytes, q);
    hide WriteChunk, Laid;
  }

  predicate IsMsi(c: Cap) { c.start < STD_SPACE && Num(c.id) == ID_MSI }

  // Flags that agree and are legal stay so through chunks that do not reach them.
  lemma FlagsStay(s: Vdev, caps: set<Cap>, c: Cap, pos: nat, count: nat, bytes: seq<byte>)
    requires Good(s, caps) && c in caps && IsMsi(c) && !CoversByte(pos, |bytes|, c.start + 2) && pos > c.start + 2
    requires 0 < count && pos + count <= |s.owner| && |bytes| == ChunkLen(s.owner, pos, count)
    ensures var t := WriteChunk(s, pos, bytes);
      forall q :: c.start + 2 <= q < c.start + 4 ==> At(t.vconfig, q) == At(s.vconfig, q) && At(t.hw, q) == At(s.hw, q)
  {
    MsiRoute(s, caps, c, pos);
    hide WriteChunk, KindAt, StartOf, ChunkLen, Good, At;
    forall q | c.start + 2 <= q < c.start + 4
      ensures At(WriteChunk(s, pos, bytes).vconfig, q) == At(s.vconfig, q) && At(WriteChunk(s, pos, bytes).hw, q) == At(s.hw, q)
    {
      if c.Has(pos) {
        OwnFlags(s, c, pos, bytes, q);
      } else {
        Elsewhere(s, caps, c, pos, count, bytes, q);
        HwElsewhere(s, caps, c, pos, count, bytes, q);
      }
    }
  }

  lemma MsiRoute(s: Vdev, caps: set<Cap>, c: Cap, pos: nat)
    requires Good(s, caps) && c in caps && IsMsi(c)
    ensures c.start % 4 == 0 && c.start + 10 <= |s.owner| == |s.vconfig| == |s.hw| == |s.ro| && c.len >= 10 && s.qmax <= 7
    ensures c.Has(pos) ==> KindAt(s.owner, pos) == Msi && StartOf(s.owner, pos) == c.start
  {
    assert CapFits(c, |s.owner|) && Layout.Sized(c, s.msi);
    if c.Has(pos) {
      StartOfCap(s.owner, caps, s.msi, c, pos);
    }
  }

  // Past its flags byte the capability is only table-driven, and the upper flags byte is read-only.
  lemma OwnFlags(s: Vdev, c: Cap, pos: nat, bytes: seq<byte>, q: nat)
    requires KindAt(s.owner, pos) == Msi && StartOf(s.owner, pos) == c.start && pos > c.start + 2
    requires c.start + 2 <= q < c.start + 4 && q < |s.vconfig| == |s.hw|
    ensures var t := WriteChunk(s, pos, bytes); At(t.vconfig, q) == At(s.vconfig, q) && At(t.hw, q) == At(s.hw, q)
  {
    hide KindAt, StartOf, DefaultWrite;
    DefaultByte(s, Msi, c.start, pos, bytes, q);
    if CoversByte(pos, |bytes|, q) {
      MergeFacts(At(s.vconfig, q), bytes[q - pos], 0);
      MergeFacts(At(s.hw, q), bytes[q - pos], 0);
      StoredSame(At(s.hw, q), At(s.ro, q));
    }
  }

  // After every access that covers the flags, however it is split and whatever else it covers,
  // both copies agree, enable is set only in MSI mode and the queue size is one the host allows.
  lemma {:induction false} MsiAccessAgrees(s: Vdev, caps: set<Cap>, c: Cap, pos: nat, bytes: seq<byte>)
    requires Good(s, caps) && c in caps && IsMsi(c) && pos + |bytes| <= |s.owner|
    requires FlagsPending(s, c, pos, |bytes|)
    ensures FlagsSettled(WriteAccess(s, pos, bytes), c)
    decreases |bytes|
  {
    if bytes != [] {
      hide *;
      var n := ChunkLen(s.owner, pos, |bytes|);
      var t := WriteChunk(s, pos, bytes[..n]);
      WriteUnfold(s, pos, bytes);
      WriteFrame(s, pos, bytes[..n]);
      GoodFramed(s, t, caps);
      FlagsAfter(s, caps, c, pos, bytes);
      MsiAccessAgrees(t, caps, c, pos + n, bytes[n..]);
    } else {
      hide Good, FlagsSettled, WriteChunk, ChunkLen;
    }
  }

  // The flags agree and are legal, or the access still has to reach them.
  predicate FlagsSettled(s: Vdev, c: Cap) { FlagsAgree(s, c.start) && FlagsLegal(s, At(s.vconfig, c.start + 2)) }

  predicate FlagsPending(s: Vdev, c: Cap, pos: nat, count: nat) {
    CoversByte(pos, count, c.start + 2) || (pos > c.start + 2 && FlagsSettled(s, c))
  }

  lemma WriteUnfold(s: Vdev, pos: nat, bytes: seq<byte>)
    requires bytes != []
    ensures var n := ChunkLen(s.owner, pos, |bytes|);
      WriteAccess(s, pos, bytes) == WriteAccess(WriteChunk(s, pos, bytes[..n]), pos + n, bytes[n..])
  {
    hide WriteChunk, ChunkLen;
  }

  lemma FlagsAfter(s: Vdev, caps: set<Cap>, c: Cap, pos: nat, bytes: seq<byte>)
    requires Good(s, caps) && c in caps && IsMsi(c) && pos + |bytes| <= |s.owner| && bytes != []
    requires FlagsPending(s, c, pos, |bytes|)
    ensures var n := ChunkLen(s.owner, pos, |bytes|); FlagsPending(WriteChunk(s, pos, bytes[..n]), c, pos + n, |bytes| - n)
  {
    var n := ChunkLen(s.owner, pos, |bytes|);
    hide WriteChunk, ChunkLen, Good, FlagsSettled;
    if CoversByte(pos, n, c.start + 2) {
      FlagsChunk(s, caps, c, pos, |bytes|, bytes[..n]);
    } else if pos > c.start + 2 {
      FlagsKept(s, caps, c, pos, |bytes|, bytes[..n]);
    }
  }

  lemma FlagsKept(s: Vdev, caps: set<Cap>, c: Cap, pos: nat, count: nat, bytes: seq<byte>)
    requires Good(s, caps) && c in caps && IsMsi(c) && pos > c.start + 2 && FlagsSettled(s, c)
    requires 0 < count && pos + count <= |s.owner| && |bytes| == ChunkLen(s.owner, pos, count)
    ensures FlagsSettled(WriteChunk(s, pos, bytes), c)
  {
    hide WriteChunk, ChunkLen, Good, Agrees, At, IsMsi;
    var t := WriteChunk(s, pos, bytes);
    WriteFrame(s, pos, bytes);
    FlagsStay(s, caps, c, pos, count, bytes);
    assert At(t.vconfig, c.start + 2) == At(s.vconfig, c.start + 2) && At(t.vconfig, c.start + 3) == At(s.vconfig, c.start + 3);
  }

  // The chunk that covers the flags byte starts at the capability or at the flags.
  lemma FlagsChunk(s: Vdev, caps: set<Cap>, c: Cap, pos: nat, count: nat, bytes: seq<byte>)
    requires Good(s, caps) && c in caps && IsMsi(c) && 0 < count && pos + count <= |s.owner|
    requires |bytes| == ChunkLen(s.owner, pos, count) && CoversByte(pos, |bytes|, c.start + 2)
    ensures FlagsSettled(WriteChunk(s, pos, bytes), c)
  {
    ChunkInside(s.owner, pos, count, c.start + 2 - pos);
    MsiRoute(s, caps, c, c.start);
    hide ChunkLen, Good, WriteChunk, KindAt, StartOf, IsMsi, FlagsSettled;
    OnceInDword(pos, c.start);
    MsiRoute(s, caps, c, pos);
    OwnFlagsChunk(s, c, pos, bytes);
  }

  lemma OwnFlagsChunk(s: Vdev, c: Cap, pos: nat, bytes: seq<byte>)
    requires KindAt(s.owner, pos) == Msi && StartOf(s.owner, pos) == c.start && c.start <= pos && CoversByte(pos, |bytes|, c.start + 2)
    requires c.start + 4 <= |s.vconfig| == |s.hw| == |s.ro| && s.qmax <= 7
    ensures FlagsSettled(WriteChunk(s, pos, bytes), c)
  {
    hide FlagsAgree, FlagsLegal, WriteChunk, MsiWrite, KindAt, StartOf;
    MsiWriteAgrees(s, c.start, pos, bytes);
    MsiHandled(s, pos, bytes);
  }

  lemma OnceInDword(pos: nat, start: nat)
    requires start % 4 == 0 && pos <= start + 2 && (start + 2) / 4 == pos / 4
    ensures start <= pos
  {
  }

  lemma MsiHandled(s: Vdev, pos: nat, bytes: seq<byte>)
    requires KindAt(s.owner, pos) == Msi
    ensures WriteChunk(s, pos, bytes) == MsiWrite(s, StartOf(s.owner, pos), pos, bytes)
  {
    hide KindAt, StartOf, MsiWrite;
  }
}
