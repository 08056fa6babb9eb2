/** However an access is chopped, it obeys a rule stated bit by bit: writes change only the bits a
    table calls writable, virtual ones in the virtual copy and the others in hardware; reads take
    virtual bits from the virtual copy and the others from hardware. */
module ByteRules {
  import opened Bytes
  import opened PciCaps
  import opened StdCapInit
  import opened Layout
  import opened Perms
  import opened Routing
  import opened ConfigAccess
  import opened ListLinks
  import opened GuestRuns

  // Bytes whose writes have no effect beyond the table.
  predicate PlainWrite(s: Vdev, q: nat) {
    KindAt(s.owner, q) in {Raw, Direct, Vendor, Pm, PciX, Err, Pwr}
  }

  // Bytes whose reads show what the table says.
  predicate Readable(s: Vdev, q: nat) {
    KindAt(s.owner, q) != VirtOnly && !(KindAt(s.owner, q) == Basic && (IsBar(q) || (q == COMMAND && s.func.isVirtfn)))
  }

  // ... and have no effect.
  predicate PlainRead(s: Vdev, q: nat) { Readable(s, q) && KindAt(s.owner, q) != Msi }

  // The bits of byte `q` that a guest write reaches in the virtual copy and in hardware.
  function VirtReach(s: Vdev, q: nat): byte {
    var k := KindAt(s.owner, q);
    var off := q - StartOf(s.owner, q);
    if Tabled(k) then VMask(k, s.msi, off) else 0
  }

  function HwReach(s: Vdev, q: nat): byte {
    var k := KindAt(s.owner, q);
    var off := q - StartOf(s.owner, q);
    if Tabled(k) then HMask(k, s.msi, off)
    else if k in {Raw, Vendor} then 0xFF else 0
  }

  // The bits of byte `q` that a guest read takes from the virtual copy.
  function VirtSeen(s: Vdev, q: nat): byte {
    var k := KindAt(s.owner, q);
    var off := q - StartOf(s.owner, q);
    if Tabled(k) then Virt(k, s.msi, off)
    else if k in {Direct, Vendor} && (if q >= STD_SPACE then off < 4 else off == 1) then 0xFF
    else 0
  }

  // A chunk has one kind and one capability.
  lemma SameRoute(s: Vdev, caps: set<Cap>, pos: nat, count: nat, i: nat)
    requires Good(s, caps) && 0 < count && pos + count <= |s.owner| && i < ChunkLen(s.owner, pos, count)
    ensures KindAt(s.owner, pos + i) == KindAt(s.owner, pos)
    ensures KindAt(s.owner, pos) in {Raw, VirtOnly} || StartOf(s.owner, pos + i) == StartOf(s.owner, pos)
    ensures pos + i >= STD_SPACE <==> pos >= STD_SPACE
    ensures (pos + i) / 4 == pos / 4
  {
    hide ChunkLen, Laid, StartOf, KindAt;
    SameDword(s, pos, count, i);
    Routed(s.owner, caps, s.msi, pos);
    if pos >= HEADER && KindAt(s.owner, pos) != Raw {
      var c :| c in caps && c.Has(pos) && StartOf(s.owner, pos) == c.start;
      ChunkInCap(s.owner, caps, s.msi, c, pos, count, i);
      StartOfCap(s.owner, caps, s.msi, c, pos + i);
      StartOfCap(s.owner, caps, s.msi, c, pos);
    } else {
      Routed(s.owner, caps, s.msi, pos + i);
    }
  }

  lemma SameDword(s: Vdev, pos: nat, count: nat, i: nat)
    requires 0 < count && i < ChunkLen(s.owner, pos, count)
    ensures KindAt(s.owner, pos + i) == KindAt(s.owner, pos) && (pos + i) / 4 == pos / 4
  {
    ChunkInside(s.owner, pos, count, i);
    hide ChunkLen, KindAt;
    SameKind(s.owner, pos, pos + i);
  }

  lemma SameKind(owner: seq<byte>, p: nat, q: nat)
    requires At(owner, p) == At(owner, q) && p / 4 == q / 4
    ensures KindAt(owner, p) == KindAt(owner, q)
  {
    assert p >= STD_SPACE <==> q >= STD_SPACE;
    hide At;
  }

  // ---------------------------------------------------------------- writes

  ghost predicate Written(s: Vdev, t: Vdev, pos: nat, bytes: seq<byte>) {
    && t == s.(vconfig := t.vconfig, hw := t.hw) && |t.vconfig| == |s.vconfig| && |t.hw| == |s.hw|
    && forall q: nat :: q < |s.vconfig| ==> ByteWritten(s, t, pos, bytes, q)
  }

  lemma StoredMerge(was: byte, now: byte, mask: byte, ro: byte)
    ensures Stored(was, Merge(was, now, mask), ro) == Merge(was, now, mask & !ro)
  {
  }

  ghost predicate ByteWritten(s: Vdev, t: Vdev, pos: nat, bytes: seq<byte>, q: nat) {
    if pos <= q < pos + |bytes| then
      && At(t.vconfig, q) == Merge(At(s.vconfig, q), bytes[q - pos], VirtReach(s, q))
      && At(t.hw, q) == Merge(At(s.hw, q), bytes[q - pos], HwReach(s, q) & !At(s.ro, q))
    else At(t.vconfig, q) == At(s.vconfig, q) && At(t.hw, q) == At(s.hw, q)
  }

  lemma WriteChunkRule(s: Vdev, caps: set<Cap>, pos: nat, count: nat, bytes: seq<byte>)
    requires Good(s, caps) && 0 < count && pos + count <= |s.owner| && |bytes| == ChunkLen(s.owner, pos, count)
    requires PlainWrite(s, pos)
    ensures Written(s, WriteChunk(s, pos, bytes), pos, bytes)
  {
    hide ChunkLen, Laid, StartOf, KindAt, WriteChunk, VirtReach, HwReach, Merge;
    var t := WriteChunk(s, pos, bytes);
    WriteFrame(s, pos, bytes);
    PlainFrame(s, pos, bytes);
    forall q: nat | q < |s.vconfig| ensures ByteWritten(s, t, pos, bytes, q) {
      if pos <= q < pos + |bytes| {
        SameRoute(s, caps, pos, count, q - pos);
      }
      WriteByteRule(s, pos, bytes, q);
    }
  }

  lemma PlainFrame(s: Vdev, pos: nat, bytes: seq<byte>)
    requires PlainWrite(s, pos)
    ensures var t := WriteChunk(s, pos, bytes); t == s.(vconfig := t.vconfig, hw := t.hw)
  {
    hide KindAt, StartOf, Blend, HwBlend, VMasks, HMasks;
  }

  lemma WriteByteRule(s: Vdev, pos: nat, bytes: seq<byte>, q: nat)
    requires PlainWrite(s, pos) && q < |s.vconfig| == |s.hw| && |bytes| <= 4
    requires pos <= q < pos + |bytes| ==>
      && KindAt(s.owner, q) == KindAt(s.owner, pos)
      && (KindAt(s.owner, pos) == Raw || StartOf(s.owner, q) == StartOf(s.owner, pos))
    ensures ByteWritten(s, WriteChunk(s, pos, bytes), pos, bytes, q)
  {
    match KindAt(s.owner, pos) {
      case Raw => RawByteRule(s, pos, bytes, q);
      case Vendor => RawByteRule(s, pos, bytes, q);
      case Direct => DirectByteRule(s, pos, bytes, q);
      case _ => TableByteRule(s, pos, bytes, q);
    }
  }

  lemma RawByteRule(s: Vdev, pos: nat, bytes: seq<byte>, q: nat)
    requires KindAt(s.owner, pos) in {Raw, Vendor} && q < |s.vconfig| == |s.hw| && |bytes| <= 4
    requires pos <= q < pos + |bytes| ==> KindAt(s.owner, q) == KindAt(s.owner, pos)
    ensures ByteWritten(s, WriteChunk(s, pos, bytes), pos, bytes, q)
  {
    hide KindAt, StartOf, Stored, Merge, HwStore, Write, Virt;
    HwStoreByte(s.hw, s.ro, pos, bytes, q);
    if pos <= q < pos + |bytes| {
      StoredMerge(At(s.hw, q), bytes[q - pos], 0xFF, At(s.ro, q));
      MergeFacts(At(s.vconfig, q), bytes[q - pos], 0);
    }
  }

  lemma DirectByteRule(s: Vdev, pos: nat, bytes: seq<byte>, q: nat)
    requires KindAt(s.owner, pos) == Direct && q < |s.vconfig| == |s.hw|
    requires pos <= q < pos + |bytes| ==> KindAt(s.owner, q) == Direct
    ensures ByteWritten(s, WriteChunk(s, pos, bytes), pos, bytes, q)
  {
    hide KindAt, StartOf, Merge, Write, Virt;
    if pos <= q < pos + |bytes| {
      MergeFacts(At(s.vconfig, q), bytes[q - pos], 0);
      MergeFacts(At(s.hw, q), bytes[q - pos], 0);
      assert 0 & !At(s.ro, q) == 0;
    }
  }

  lemma TableByteRule(s: Vdev, pos: nat, bytes: seq<byte>, q: nat)
    requires KindAt(s.owner, pos) in {Pm, PciX, Err, Pwr} && q < |s.vconfig| == |s.hw|
    requires pos <= q < pos + |bytes| ==>
      KindAt(s.owner, q) == KindAt(s.owner, pos) && StartOf(s.owner, q) == StartOf(s.owner, pos)
    ensures ByteWritten(s, WriteChunk(s, pos, bytes), pos, bytes, q)
  {
    hide KindAt, StartOf, Stored, Merge, DefaultWrite, VMask, HMask, WriteChunk, VirtReach, HwReach, At;
    var k, start := KindAt(s.owner, pos), StartOf(s.owner, pos);
    TableRoute(s, pos, bytes);
    DefaultMasks(s, k, start, pos, bytes, q);
    if pos <= q < pos + |bytes| {
      TableReach(s, q);
      StoredMerge(At(s.hw, q), bytes[q - pos], HwReach(s, q), At(s.ro, q));
    }
  }

  lemma TableRoute(s: Vdev, pos: nat, bytes: seq<byte>)
    requires KindAt(s.owner, pos) in {Pm, PciX, Err, Pwr}
    ensures WriteChunk(s, pos, bytes) == DefaultWrite(s, KindAt(s.owner, pos), StartOf(s.owner, pos), pos, bytes)
  {
    hide KindAt, StartOf, DefaultWrite;
  }

  lemma TableReach(s: Vdev, q: nat)
    requires Tabled(KindAt(s.owner, q))
    ensures var k := KindAt(s.owner, q); var off := q - StartOf(s.owner, q);
      VirtReach(s, q) == VMask(k, s.msi, off) && HwReach(s, q) == HMask(k, s.msi, off)
  {
    hide KindAt, StartOf, VMask, HMask;
  }

  // The rule for writes of any position and length.
  lemma {:induction false} WriteRule(s: Vdev, caps: set<Cap>, pos: nat, bytes: seq<byte>)
    requires Good(s, caps) && pos + |bytes| <= |s.owner|
    requires forall q :: pos <= q < pos + |bytes| ==> PlainWrite(s, q)
    ensures Written(s, WriteAccess(s, pos, bytes), pos, bytes)
    decreases |bytes|
  {
    hide *;
    if bytes == [] {
      WrittenNone(s, pos);
    } else {
      var n := FirstRule(s, caps, pos, bytes);
      var t := WriteChunk(s, pos, bytes[..n]);
      WriteRule(t, caps, pos + n, bytes[n..]);
      WrittenThen(s, t, WriteAccess(t, pos + n, bytes[n..]), pos, bytes, n);
    }
  }

  lemma WrittenNone(s: Vdev, pos: nat)
    ensures WriteAccess(s, pos, []) == s && Written(s, s, pos, [])
  {
    hide WriteChunk, VirtReach, HwReach;
  }

  // The first chunk obeys the rule and leaves the rest of the access plain.
  lemma FirstRule(s: Vdev, caps: set<Cap>, pos: nat, bytes: seq<byte>) returns (n: nat)
    requires Good(s, caps) && pos + |bytes| <= |s.owner| && bytes != []
    requires forall q :: pos <= q < pos + |bytes| ==> PlainWrite(s, q)
    ensures 0 < n <= |bytes| && |s.vconfig| == |s.hw|
    ensures var t := WriteChunk(s, pos, bytes[..n]);
      && WriteAccess(s, pos, bytes) == WriteAccess(t, pos + n, bytes[n..])
      && Written(s, t, pos, bytes[..n]) && Good(t, caps) && |t.owner| == |s.owner|
      && forall q :: pos + n <= q < pos + |bytes| ==> PlainWrite(t, q)
  {
    hide PlainWrite, Good, Written, WriteChunk;
    n := ChunkLen(s.owner, pos, |bytes|);
    var t := WriteChunk(s, pos, bytes[..n]);
    hide ChunkLen;
    assert PlainWrite(s, pos);
    WriteChunkRule(s, caps, pos, |bytes|, bytes[..n]);
    PlainAfter(s, t, caps, pos, bytes, n);
  }

  lemma PlainAfter(s: Vdev, t: Vdev, caps: set<Cap>, pos: nat, bytes: seq<byte>, n: nat)
    requires Good(s, caps) && n <= |bytes| && Written(s, t, pos, bytes[..n])
    requires forall q :: pos <= q < pos + |bytes| ==> PlainWrite(s, q)
    ensures Good(t, caps) && |s.vconfig| == |s.hw| && t.owner == s.owner
    ensures forall q :: pos + n <= q < pos + |bytes| ==> PlainWrite(t, q)
  {
    hide Laid, KindAt, ByteWritten;
    forall q | pos + n <= q < pos + |bytes| ensures PlainWrite(t, q) {
      assert PlainWrite(s, q);
    }
  }

  lemma WrittenThen(s: Vdev, t: Vdev, u: Vdev, pos: nat, bytes: seq<byte>, n: nat)
    requires n <= |bytes| && |s.vconfig| == |s.hw|
    requires Written(s, t, pos, bytes[..n]) && Written(t, u, pos + n, bytes[n..])
    ensures Written(s, u, pos, bytes)
  {
    hide Merge, VirtReach, HwReach;
    forall q: nat | q < |s.vconfig| ensures ByteWritten(s, u, pos, bytes, q) {
      assert ByteWritten(s, t, pos, bytes[..n], q) && ByteWritten(t, u, pos + n, bytes[n..], q);
      SameReach(s, t, q);
    }
  }

  lemma SameReach(s: Vdev, t: Vdev, q: nat)
    requires t.owner == s.owner && t.msi == s.msi
    ensures VirtReach(t, q) == VirtReach(s, q) && HwReach(t, q) == HwReach(s, q)
  {
    hide KindAt, StartOf, Write, Virt, VMask, HMask;
  }

  // ---------------------------------------------------------------- reads

  function Seen(s: Vdev, q: nat): byte { Merge(At(s.hw, q), At(s.vconfig, q), VirtSeen(s, q)) }

  lemma ReadByteRule(s: Vdev, caps: set<Cap>, pos: nat, count: nat, i: nat)
    requires Steady(s, caps) && 0 < count && pos + count <= |s.owner| && i < ChunkLen(s.owner, pos, count)
    requires Readable(s, pos + i)
    ensures PlainRead(s, pos + i) ==> ReadPrep(s, pos, ChunkLen(s.owner, pos, count)) == s
    ensures ReadByte(s, pos, ChunkLen(s.owner, pos, count), i) == Seen(s, pos + i)
  {
    hide ChunkLen, Laid, StartOf, KindAt, Virt, Merge;
    var n := ChunkLen(s.owner, pos, count);
    var q := pos + i;
    SameRoute(s, caps, pos, count, i);
    MergeFacts(At(s.hw, q), At(s.vconfig, q), 0);
    assert !(KindAt(s.owner, pos) == Basic && IsBar(pos));
    if KindAt(s.owner, pos) in {Direct, Vendor} {
      DirectSeen(s, caps, pos, count, i);
    }
  }

  lemma DirectSeen(s: Vdev, caps: set<Cap>, pos: nat, count: nat, i: nat)
    requires Steady(s, caps) && 0 < count && pos + count <= |s.owner| && i < ChunkLen(s.owner, pos, count)
    requires KindAt(s.owner, pos) in {Direct, Vendor}
    ensures ReadByte(s, pos, ChunkLen(s.owner, pos, count), i) == Seen(s, pos + i)
  {
    hide ChunkLen, StartOf, KindAt, Steady, ReadByte, Seen;
    var n := ChunkLen(s.owner, pos, count);
    SteadyGood(s, caps);
    SameRoute(s, caps, pos, count, i);
    var start := DirectOwner(s, caps, pos);
    DirectByte(s, pos, n, i, start);
  }

  // The capability a directly read byte belongs to: its first byte is the same in both copies.
  lemma DirectOwner(s: Vdev, caps: set<Cap>, pos: nat) returns (start: nat)
    requires Steady(s, caps) && KindAt(s.owner, pos) in {Direct, Vendor}
    ensures start == StartOf(s.owner, pos) && HEADER <= start && start % 4 == 0 && (start >= STD_SPACE <==> pos >= STD_SPACE)
    ensures start < STD_SPACE ==> At(s.vconfig, start) == At(s.hw, start)
  {
    hide StartOf, KindAt, Layout.Sized, Mapped;
    Routed(s.owner, caps, s.msi, pos);
    var c :| c in caps && c.Has(pos) && StartOf(s.owner, pos) == c.start;
    start := c.start;
    CapBytes(s.owner, caps, s.msi, c);
    if start < STD_SPACE {
      NotMsi(s, caps, c, pos);
    }
  }

  lemma DirectByte(s: Vdev, pos: nat, n: nat, i: nat, start: nat)
    requires KindAt(s.owner, pos) in {Direct, Vendor} && KindAt(s.owner, pos + i) == KindAt(s.owner, pos) && i < n
    requires start == StartOf(s.owner, pos) == StartOf(s.owner, pos + i) && HEADER <= start <= pos && start % 4 == 0
    requires (start >= STD_SPACE <==> pos >= STD_SPACE) && (pos + i >= STD_SPACE <==> pos >= STD_SPACE) && (pos + i) / 4 == pos / 4
    requires start < STD_SPACE ==> At(s.vconfig, start) == At(s.hw, start)
    ensures ReadByte(s, pos, n, i) == Seen(s, pos + i)
  {
    hide StartOf, KindAt, Virt, Merge, At;
    var q := pos + i;
    MergeFacts(At(s.hw, q), At(s.vconfig, q), 0);
  }

  lemma NotMsi(s: Vdev, caps: set<Cap>, c: Cap, pos: nat)
    requires Steady(s, caps) && c in caps && c.Has(pos) && c.start < STD_SPACE && KindAt(s.owner, pos) != Msi
    ensures At(s.vconfig, c.start) == c.id == At(s.hw, c.start)
  {
    StartOfCap(s.owner, caps, s.msi, c, pos);
    assert CapFits(c, |s.owner|);
  }

  // What a chunk does to the copy before it is read does not show in such a byte.
  lemma PrepSeen(s: Vdev, caps: set<Cap>, pos: nat, n: nat, q: nat)
    requires Good(s, caps) && Readable(s, q)
    ensures var t := ReadPrep(s, pos, n); Readable(t, q) && Seen(t, q) == Seen(s, q)
  {
    hide VirtSeen, Merge, ReadPrep, KindAt, StartOf, Laid;
    ReadPrepFrame(s, pos, n);
    SameSeen(s, ReadPrep(s, pos, n), q);
    PrepAt(s, caps, pos, n, q);
    MergeFacts(At(s.hw, q), At(s.vconfig, q), 0);
    MergeFacts(At(s.hw, q), At(ReadPrep(s, pos, n).vconfig, q), 0);
  }

  lemma PrepAt(s: Vdev, caps: set<Cap>, pos: nat, n: nat, q: nat)
    requires Good(s, caps) && Readable(s, q)
    ensures var t := ReadPrep(s, pos, n); (At(t.vconfig, q) == At(s.vconfig, q) || VirtSeen(s, q) == 0) && t.hw == s.hw
  {
    hide Laid, KindAt, StartOf, BarFixup, VirtSeen;
    if KindAt(s.owner, pos) == Msi {
      MsiStart(s, caps, pos);
      if q == StartOf(s.owner, pos) { MsiFirst(s, caps, pos); }
    } else if KindAt(s.owner, pos) == Basic && IsBar(pos) {
      PlainOffBars(s, caps, q);
      FixupHw(s);
    }
  }

  // The MSI handler scribbles on the first byte of its capability.
  lemma MsiStart(s: Vdev, caps: set<Cap>, pos: nat)
    requires Good(s, caps) && KindAt(s.owner, pos) == Msi
    ensures KindAt(s.owner, StartOf(s.owner, pos)) == Msi
  {
    Routed(s.owner, caps, s.msi, pos);
    var d :| d in caps && d.Has(pos) && StartOf(s.owner, pos) == d.start;
    StartOfCap(s.owner, caps, s.msi, d, pos);
    hide Laid, KindAt, StartOf;
  }

  // ... which the guest sees as hardware has it.
  lemma MsiFirst(s: Vdev, caps: set<Cap>, pos: nat)
    requires Good(s, caps) && KindAt(s.owner, pos) == Msi
    ensures VirtSeen(s, StartOf(s.owner, pos)) == 0
  {
    Routed(s.owner, caps, s.msi, pos);
    var d :| d in caps && d.Has(pos) && StartOf(s.owner, pos) == d.start;
    StartOfCap(s.owner, caps, s.msi, d, pos);
    assert d.Has(d.start);
    StartOfCap(s.owner, caps, s.msi, d, d.start);
    hide Laid, KindAt, StartOf;
  }

  // The fixup reaches no such byte but the dword after the last register, which is not virtual.
  lemma PlainOffBars(s: Vdev, caps: set<Cap>, q: nat)
    requires Good(s, caps) && Readable(s, q)
    ensures At(BarFixup(s).vconfig, q) == At(s.vconfig, q) || VirtSeen(s, q) == 0
  {
    Routed(s.owner, caps, s.msi, q);
    hide Laid, KindAt, StartOf, BarFixup;
    if 0x28 <= q < 0x2C {
      assert VirtSeen(s, q) == 0;
    } else {
      FixupAt(s, q);
    }
  }

  lemma FixupHw(s: Vdev)
    ensures BarFixup(s).hw == s.hw
  {
    hide FixBars, FixRom;
  }

  lemma SameSeen(s: Vdev, t: Vdev, q: nat)
    requires t.owner == s.owner && t.msi == s.msi
    ensures VirtSeen(t, q) == VirtSeen(s, q)
  {
    hide KindAt, StartOf, Virt;
  }

  // The rule for reads of any position and length that cover such a byte.
  lemma {:induction false} ReadRule(s: Vdev, caps: set<Cap>, pos: nat, count: nat, q: nat)
    requires Steady(s, caps) && pos + count <= |s.owner| && pos <= q < pos + count && Readable(s, q)
    ensures Got(s, pos, count, q) == Seen(s, q)
    decreases count
  {
    hide Steady, ChunkLen, ReadPrep, ReadByte, Seen, Readable, Got;
    var n := ChunkLen(s.owner, pos, count);
    GotAt(s, pos, count, q);
    SteadyGood(s, caps);
    PrepSeen(s, caps, pos, n, q);
    ReadChunkSteady(s, caps, pos, n);
    if q < pos + n {
      ReadByteRule(ReadPrep(s, pos, n), caps, pos, count, q - pos);
    } else {
      ReadRule(ReadPrep(s, pos, n), caps, pos + n, count - n, q);
    }
  }

  // Plain reads change nothing.
  lemma {:induction false} ReadQuiet(s: Vdev, caps: set<Cap>, pos: nat, count: nat)
    requires Steady(s, caps) && pos + count <= |s.owner|
    requires forall q :: pos <= q < pos + count ==> PlainRead(s, q)
    ensures ReadAccess(s, pos, count).0 == s
    decreases count
  {
    hide Steady, ChunkLen, ReadPrep, ReadByte, ReadBytes, Seen, PlainRead;
    if count > 0 {
      FirstChunkRule(s, caps, pos, count);
      ReadQuiet(s, caps, pos + ChunkLen(s.owner, pos, count), count - ChunkLen(s.owner, pos, count));
    }
  }

  lemma FirstChunkRule(s: Vdev, caps: set<Cap>, pos: nat, count: nat)
    requires Steady(s, caps) && pos + count <= |s.owner| && 0 < count
    requires forall q :: pos <= q < pos + count ==> PlainRead(s, q)
    ensures var n := ChunkLen(s.owner, pos, count);
      ReadPrep(s, pos, n) == s && forall i :: 0 <= i < n ==> ReadByte(s, pos, n, i) == Seen(s, pos + i)
  {
    hide Steady, ChunkLen, ReadPrep, ReadByte, Seen, Readable, KindAt;
    var n := ChunkLen(s.owner, pos, count);
    forall i | 0 <= i < n ensures ReadPrep(s, pos, n) == s && ReadByte(s, pos, n, i) == Seen(s, pos + i) {
      assert PlainRead(s, pos + i);
      ReadByteRule(s, caps, pos, count, i);
    }
    assert ReadByte(s, pos, n, 0) == Seen(s, pos + 0);
  }
}
