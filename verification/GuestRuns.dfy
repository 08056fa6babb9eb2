/** Whole runs of guest accesses: the lists built at initialisation stay exactly what the guest
    sees, however it reads them. */
module GuestRuns {
  import opened Bytes
  import opened PciCaps
  import opened Chains
  import opened StdCapInit
  import opened ExtCapInit
  import opened ConfigInit
  import opened Layout
  import opened Perms
  import opened Routing
  import opened ConfigAccess
  import opened ListLinks

  // What can happen to an open device: guest accesses, anything the hardware or a reset does to
  // the writable bits of its registers, and a change of interrupt mode.
  datatype Event =
    | GuestRead(pos: nat, count: nat)
    | GuestWrite(pos: nat, bytes: seq<byte>)
    | HwChange(values: seq<byte>)
    | IrqMode(msiMode: bool, qmax: byte)

  function Step(s: Vdev, e: Event): Vdev {
    match e
    case GuestRead(pos, count) => if pos + count <= |s.owner| then ReadAccess(s, pos, count).0 else s
    case GuestWrite(pos, bytes) => if pos + |bytes| <= |s.owner| then WriteAccess(s, pos, bytes) else s
    case HwChange(values) => s.(hw := Settled(s.hw, s.ro, values, |s.hw|))
    case IrqMode(msiMode, qmax) => if qmax <= 7 then s.(msiMode := msiMode, qmax := qmax) else s
  }

  // The first `n` registers take new values in their writable bits.
  function Settled(hw: seq<byte>, ro: seq<byte>, values: seq<byte>, n: nat): (r: seq<byte>)
    ensures |r| == |hw|
    ensures forall q :: 0 <= q < |hw| ==> r[q] == if q < n then Stored(hw[q], At(values, q), At(ro, q)) else hw[q]
  {
    if n == 0 then hw
    else Poke(Settled(hw, ro, values, n - 1), n - 1, Stored(At(hw, n - 1), At(values, n - 1), At(ro, n - 1)))
  }

  function Run(s: Vdev, es: seq<Event>): Vdev
    decreases |es|
  {
    if es == [] then s else Run(Step(s, es[0]), es[1..])
  }

  // The byte a guest last wrote at `q` of a space of `size` bytes, or `was` if it wrote none.
  function LastWritten(es: seq<Event>, size: nat, q: nat, was: byte): byte
    decreases |es|
  {
    if es == [] then was
    else
      var now := if es[0].GuestWrite? && es[0].pos + |es[0].bytes| <= size then Put(es[0].pos, es[0].bytes, q, was) else was;
      LastWritten(es[1..], size, q, now)
  }

  // ---------------------------------------------------------------- read-only hardware bits

  // The read-only bits of byte `q` are the same in `hw'` as in `hw`.
  predicate RoSame(hw: seq<byte>, hw': seq<byte>, ro: seq<byte>, q: nat) {
    |hw'| == |hw| && At(hw', q) & At(ro, q) == At(hw, q) & At(ro, q)
  }

  lemma StoredRo(was: byte, now: byte, ro: byte)
    ensures Stored(was, now, ro) & ro == was & ro
  {
  }

  lemma HwBlendRo(hw: seq<byte>, ro: seq<byte>, pos: nat, bytes: seq<byte>, masks: seq<byte>, q: nat)
    ensures RoSame(hw, HwBlend(hw, ro, pos, bytes, masks), ro, q)
  {
    hide Stored, Merge;
    if q < |hw| && pos <= q < pos + |bytes| {
      StoredRo(hw[q], Merge(hw[q], bytes[q - pos], At(masks, q - pos)), At(ro, q));
    }
  }

  lemma HwStoreRo(hw: seq<byte>, ro: seq<byte>, pos: nat, bytes: seq<byte>, q: nat)
    ensures RoSame(hw, HwStore(hw, ro, pos, bytes), ro, q)
  {
    HwBlendRo(hw, ro, pos, bytes, [0xFF, 0xFF, 0xFF, 0xFF], q);
  }

  lemma {:induction false} RestoredRo(s: Vdev, n: nat, q: nat)
    ensures RoSame(s.hw, RestoredBars(s, n), s.ro, q)
  {
    hide HwStore, Saved;
    if n > 0 {
      RestoredRo(s, n - 1, q);
      HwStoreRo(RestoredBars(s, n - 1), s.ro, BarAt(n - 1), Saved(s, n - 1), q);
    }
  }

  lemma RoTrans(a: seq<byte>, b: seq<byte>, c: seq<byte>, ro: seq<byte>, q: nat)
    requires RoSame(a, b, ro, q) && RoSame(b, c, ro, q)
    ensures RoSame(a, c, ro, q)
  {
  }

  lemma RestoreRo(s: Vdev, q: nat)
    ensures RoSame(s.hw, BarRestore(s).hw, s.ro, q) && BarRestore(s).ro == s.ro
  {
    hide HwStore, Saved, RestoredBars, RoSame, At;
    var bars := RestoredBars(s, 6);
    var hw := HwStore(bars, s.ro, 0x30, Saved(s, 6));
    RestoredRo(s, 6, q);
    HwStoreRo(bars, s.ro, 0x30, Saved(s, 6), q);
    RoTrans(s.hw, bars, hw, s.ro, q);
    var command := IntxOff(hw);
    HwStoreRo(hw, s.ro, COMMAND, command, q);
    RoTrans(s.hw, hw, HwStore(hw, s.ro, COMMAND, command), s.ro, q);
    RoSelf(s.hw, s.ro, q);
  }

  lemma RoSelf(hw: seq<byte>, ro: seq<byte>, q: nat)
    ensures RoSame(hw, hw, ro, q)
  {
  }

  lemma DefaultRo(s: Vdev, k: Kind, start: nat, pos: nat, bytes: seq<byte>, q: nat)
    requires start <= pos
    ensures var t := DefaultWrite(s, k, start, pos, bytes); RoSame(s.hw, t.hw, s.ro, q) && t.ro == s.ro
  {
    hide HwBlend, HMasks, Blend;
    HwBlendRo(s.hw, s.ro, pos, bytes, HMasks(k, s.msi, pos - start, |bytes|), q);
  }

  lemma BasicRo(s: Vdev, pos: nat, bytes: seq<byte>, q: nat)
    ensures RoSame(s.hw, BasicWrite(s, pos, bytes).hw, s.ro, q)
  {
    hide DefaultWrite, BarRestore, NeedsRestore, Merge;
    RestoreRo(s, q);
    DefaultRo(BarRestore(s), Basic, 0, pos, bytes, q);
    DefaultRo(s, Basic, 0, pos, bytes, q);
  }

  lemma ReadrqRo(s: Vdev, start: nat, code: byte, q: nat)
    ensures RoSame(s.hw, SetReadrq(s, start, code).hw, s.ro, q)
  {
    hide Stored, Merge;
    StoredRo(At(s.hw, q), Merge(At(s.hw, q), code << 4, 0x70), At(s.ro, q));
  }

  lemma ExpRo(s: Vdev, start: nat, pos: nat, bytes: seq<byte>, q: nat)
    requires start <= pos
    ensures RoSame(s.hw, ExpWrite(s, start, pos, bytes).hw, s.ro, q)
  {
    hide DefaultWrite, MaxByte, SetReadrq, Mrrs, Mps;
    DefaultRo(s, Exp, start, pos, bytes, q);
    var e := FlrHandled(DefaultWrite(s, Exp, start, pos, bytes), start);
    FlrHw(DefaultWrite(s, Exp, start, pos, bytes), start);
    hide FlrHandled;
    ReadrqRo(e, start, MaxByte(Mrrs(At(e.vconfig, start + 9)), Mps(At(e.hw, start + 8))), q);
  }

  lemma FlrHw(d: Vdev, start: nat)
    ensures var e := FlrHandled(d, start); e.hw == d.hw && e.ro == d.ro
  {
  }

  lemma MsiRo(s: Vdev, start: nat, pos: nat, bytes: seq<byte>, q: nat)
    requires start <= pos
    ensures RoSame(s.hw, MsiWrite(s, start, pos, bytes).hw, s.ro, q)
  {
    hide DefaultWrite, HwStore, MsiFixed;
    DefaultRo(s, Msi, start, pos, bytes, q);
    var d := DefaultWrite(s, Msi, start, pos, bytes);
    HwStoreRo(d.hw, d.ro, start + 2, [MsiFixed(d, At(d.vconfig, start + 2)), At(d.vconfig, start + 3)], q);
  }

  // No guest write changes a read-only bit of the hardware.
  lemma WriteRo(s: Vdev, pos: nat, bytes: seq<byte>, q: nat)
    ensures RoSame(s.hw, WriteChunk(s, pos, bytes).hw, s.ro, q)
  {
    hide HwStore, Blend, DefaultWrite, KindAt, StartOf, BasicWrite, ExpWrite, MsiWrite, VpdGet, VpdTakes, Num;
    var start := StartOf(s.owner, pos);
    var k := KindAt(s.owner, pos);
    match k {
      case Raw => HwStoreRo(s.hw, s.ro, pos, bytes, q);
      case Vendor => HwStoreRo(s.hw, s.ro, pos, bytes, q);
      case VirtOnly =>
      case Direct =>
      case Basic => BasicRo(s, pos, bytes, q);
      case Exp => ExpRo(s, start, pos, bytes, q);
      case Msi => MsiRo(s, start, pos, bytes, q);
      case _ => DefaultRo(s, k, start, pos, bytes, q);
    }
  }

  predicate Frozen(s: Vdev, q: nat) { At(s.ro, q) == 0xFF && q < |s.ro| == |s.hw| }

  // ---------------------------------------------------------------- the invariant of a run

  // The hardware cannot change the ids of its capabilities.
  ghost predicate Steady(s: Vdev, caps: set<Cap>) {
    && Good(s, caps)
    && forall c :: c in caps && c.start < STD_SPACE ==>
         At(s.hw, c.start) == c.id && Frozen(s, c.start) && (Num(c.id) != ID_MSI ==> At(s.vconfig, c.start) == c.id)
  }

  // `t` links the same lists as `s`.
  ghost predicate SameLinks(s: Vdev, t: Vdev, caps: set<Cap>) {
    forall q :: Pinned(caps, q) ==> At(t.vconfig, q) == At(s.vconfig, q)
  }

  lemma SteadyAfter(s: Vdev, t: Vdev, caps: set<Cap>)
    requires Steady(s, caps) && SameFrame(s, t) && SameLinks(s, t, caps)
    requires forall q :: Frozen(s, q) ==> At(t.hw, q) == At(s.hw, q)
    ensures Steady(t, caps)
  {
    hide Laid, SameLinks;
    forall c | c in caps && c.start < STD_SPACE
      ensures At(t.hw, c.start) == c.id && Frozen(t, c.start) && (Num(c.id) != ID_MSI ==> At(t.vconfig, c.start) == c.id)
    {
      assert Frozen(s, c.start);
      if Num(c.id) != ID_MSI {
        assert Links(c, c.start);
        assert At(t.vconfig, c.start) == At(s.vconfig, c.start) by { SameLink(s, t, caps, c.start); }
      }
    }
  }

  lemma SameLink(s: Vdev, t: Vdev, caps: set<Cap>, q: nat)
    requires SameLinks(s, t, caps) && Pinned(caps, q)
    ensures At(t.vconfig, q) == At(s.vconfig, q)
  {
  }

  lemma ReadChunkSteady(s: Vdev, caps: set<Cap>, pos: nat, n: nat)
    requires Steady(s, caps)
    ensures var t := ReadPrep(s, pos, n); Steady(t, caps) && SameLinks(s, t, caps) && SameFrame(s, t)
  {
    hide ReadPrep, Steady;
    assert Good(s, caps) by { SteadyGood(s, caps); }
    var t := ReadPrep(s, pos, n);
    ReadPrepFrame(s, pos, n);
    forall q | Pinned(caps, q) ensures At(t.vconfig, q) == At(s.vconfig, q) {
      ReadPrepPinned(s, caps, pos, n, q);
    }
    SteadyAfter(s, t, caps);
  }

  lemma SteadyGood(s: Vdev, caps: set<Cap>)
    requires Steady(s, caps)
    ensures Good(s, caps)
  {
  }

  lemma WriteChunkSteady(s: Vdev, caps: set<Cap>, pos: nat, count: nat, bytes: seq<byte>)
    requires Steady(s, caps) && pos + count <= |s.owner| && 0 < count && |bytes| == ChunkLen(s.owner, pos, count)
    ensures var t := WriteChunk(s, pos, bytes); Steady(t, caps) && SameLinks(s, t, caps) && SameFrame(s, t)
  {
    hide WriteChunk, Steady, ChunkLen;
    assert Good(s, caps) by { SteadyGood(s, caps); }
    var t := WriteChunk(s, pos, bytes);
    WriteFrame(s, pos, bytes);
    forall q | Pinned(caps, q) ensures At(t.vconfig, q) == At(s.vconfig, q) {
      WritePinned(s, caps, pos, count, bytes, q);
    }
    forall q | Frozen(s, q) ensures At(t.hw, q) == At(s.hw, q) {
      WriteRo(s, pos, bytes, q);
    }
    SteadyAfter(s, t, caps);
  }

  lemma {:induction false} ReadSteady(s: Vdev, caps: set<Cap>, pos: nat, count: nat)
    requires Steady(s, caps)
    ensures var t := ReadAccess(s, pos, count).0; Steady(t, caps) && SameLinks(s, t, caps) && SameFrame(s, t)
    decreases count
  {
    hide Steady, ReadPrep, ChunkLen, ReadBytes;
    if count > 0 {
      var n := ChunkLen(s.owner, pos, count);
      ReadChunkSteady(s, caps, pos, n);
      ReadSteady(ReadPrep(s, pos, n), caps, pos + n, count - n);
    }
  }

  lemma {:induction false} WriteSteady(s: Vdev, caps: set<Cap>, pos: nat, bytes: seq<byte>)
    requires Steady(s, caps) && pos + |bytes| <= |s.owner|
    ensures var t := WriteAccess(s, pos, bytes); Steady(t, caps) && SameLinks(s, t, caps) && SameFrame(s, t)
    decreases |bytes|
  {
    hide Steady, WriteChunk, ChunkLen;
    if bytes != [] {
      var n := ChunkLen(s.owner, pos, |bytes|);
      WriteChunkSteady(s, caps, pos, |bytes|, bytes[..n]);
      WriteSteady(WriteChunk(s, pos, bytes[..n]), caps, pos + n, bytes[n..]);
    }
  }

  lemma StepSteady(s: Vdev, caps: set<Cap>, e: Event)
    requires Steady(s, caps)
    ensures Steady(Step(s, e), caps) && SameLinks(s, Step(s, e), caps) && |Step(s, e).owner| == |s.owner|
  {
    match e {
      case GuestRead(pos, count) => ReadSteady(s, caps, pos, count);
      case GuestWrite(pos, bytes) =>
        if pos + |bytes| <= |s.owner| { WriteSteady(s, caps, pos, bytes); }
      case HwChange(values) => ChangeSteady(s, caps, values);
      case IrqMode(msiMode, qmax) => ModeSteady(s, caps, msiMode, qmax);
    }
  }

  lemma ChangeSteady(s: Vdev, caps: set<Cap>, values: seq<byte>)
    requires Steady(s, caps)
    ensures Steady(Step(s, HwChange(values)), caps)
  {
    hide Laid, Settled;
    forall c | c in caps && c.start < STD_SPACE
      ensures At(Settled(s.hw, s.ro, values, |s.hw|), c.start) == c.id
    {
      assert Frozen(s, c.start);
      StoredRo(At(s.hw, c.start), At(values, c.start), At(s.ro, c.start));
    }
  }

  lemma ModeSteady(s: Vdev, caps: set<Cap>, msiMode: bool, qmax: byte)
    requires Steady(s, caps)
    ensures Steady(Step(s, IrqMode(msiMode, qmax)), caps)
  {
    hide Laid;
  }

  // In every run, whatever the guest and the hardware do, the links stay as initialised.
  lemma {:induction false} RunSteady(s: Vdev, caps: set<Cap>, es: seq<Event>)
    requires Steady(s, caps)
    ensures Steady(Run(s, es), caps) && SameLinks(s, Run(s, es), caps) && |Run(s, es).owner| == |s.owner|
    decreases |es|
  {
    hide Steady, Step;
    if es != [] {
      StepSteady(s, caps, es[0]);
      RunSteady(Step(s, es[0]), caps, es[1..]);
    }
  }

  // ---------------------------------------------------------------- what a read returns

  // The bytes of an access: those of its first chunk, then those of the rest.
  lemma GotAt(s: Vdev, pos: nat, count: nat, q: nat)
    requires pos <= q < pos + count
    ensures var n := ChunkLen(s.owner, pos, count); var t := ReadPrep(s, pos, n);
      Got(s, pos, count, q) == if q < pos + n then ReadByte(t, pos, n, q - pos) else Got(t, pos + n, count - n, q)
  {
    hide ReadPrep, ChunkLen, ReadByte, ReadBytes;
    var n := ChunkLen(s.owner, pos, count);
    var t := ReadPrep(s, pos, n);
    assert ReadAccess(s, pos, count).1 == ReadBytes(t, pos, n, n) + ReadAccess(t, pos + n, count - n).1;
    hide ReadAccess;
    ReadJoin(ReadBytes(t, pos, n, n), ReadAccess(t, pos + n, count - n).1, q - pos);
  }

  lemma ReadJoin(head: seq<byte>, rest: seq<byte>, i: nat)
    requires i < |head| + |rest|
    ensures (head + rest)[i] == if i < |head| then head[i] else rest[i - |head|]
  {
  }

  ghost predicate Shows(s: Vdev, q: nat, b: byte) {
    if q == STATUS then b & STATUS_CAP_LIST == At(s.vconfig, STATUS) & STATUS_CAP_LIST else b == At(s.vconfig, q)
  }

  // An access of any width, alignment and length that covers a linking byte returns it.
  lemma {:induction false} ReadShows(s: Vdev, caps: set<Cap>, pos: nat, count: nat, q: nat)
    requires Steady(s, caps) && pos <= q < pos + count && pos + count <= |s.owner|
    requires Pinned(caps, q) && forall c :: c in caps ==> !IsId(c, q)
    ensures Shows(s, q, Got(s, pos, count, q))
    decreases count
  {
    hide Steady, ReadPrep, ChunkLen, ReadByte, Pinned, IsId, Got;
    var n := ChunkLen(s.owner, pos, count);
    var t := ReadPrep(s, pos, n);
    ReadChunkSteady(s, caps, pos, n);
    SameLink(s, t, caps, q);
    assert At(t.vconfig, STATUS) == At(s.vconfig, STATUS) || q != STATUS;
    GotAt(s, pos, count, q);
    if q < pos + n {
      SteadyGood(t, caps);
      ReadPinned(t, caps, pos, count, q - pos);
    } else {
      ReadShows(t, caps, pos + n, count - n, q);
    }
  }

  // ... and one that covers the first byte of a standard capability returns its id.
  lemma {:induction false} ReadShowsId(s: Vdev, caps: set<Cap>, c: Cap, pos: nat, count: nat)
    requires Steady(s, caps) && c in caps && c.start < STD_SPACE && pos <= c.start < pos + count && pos + count <= |s.owner|
    ensures Got(s, pos, count, c.start) == c.id
    decreases count
  {
    hide Steady, ReadPrep, ChunkLen, ReadByte, Got;
    var n := ChunkLen(s.owner, pos, count);
    var t := ReadPrep(s, pos, n);
    ReadChunkSteady(s, caps, pos, n);
    GotAt(s, pos, count, c.start);
    if c.start < pos + n {
      IdByte(t, caps, c, pos, count);
    } else {
      ReadShowsId(t, caps, c, pos + n, count - n);
    }
  }

  lemma IdByte(s: Vdev, caps: set<Cap>, c: Cap, pos: nat, count: nat)
    requires Steady(s, caps) && c in caps && c.start < STD_SPACE && 0 < count
    requires pos <= c.start < pos + ChunkLen(s.owner, pos, count)
    ensures ReadByte(s, pos, ChunkLen(s.owner, pos, count), c.start - pos) == c.id
  {
    hide ReadByte, ChunkLen, KindAt, StartOf, Mapped, Sized;
    var n := ChunkLen(s.owner, pos, count);
    ChunkInside(s.owner, pos, count, c.start - pos);
    assert CapFits(c, |s.owner|);
    assert pos == c.start && c.Has(pos);
    StartOfCap(s.owner, caps, s.msi, c, pos);
    NotVirtOnly(s.owner, caps, s.msi, pos);
    IdRoute(s, c, n);
  }

  lemma IdRoute(s: Vdev, c: Cap, n: nat)
    requires At(s.owner, c.start) == c.id && StartOf(s.owner, c.start) == c.start && HEADER <= c.start < STD_SPACE
    requires 1 <= Num(c.id) <= ID_MAX && KindAt(s.owner, c.start) != VirtOnly && n > 0
    requires At(s.hw, c.start) == c.id && (Num(c.id) != ID_MSI ==> At(s.vconfig, c.start) == c.id)
    ensures ReadByte(s, c.start, n, 0) == c.id
  {
    hide StartOf;
    MergeFacts(At(s.hw, c.start), At(s.vconfig, c.start), 0);
  }
}
