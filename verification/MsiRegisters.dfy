/** The registers of an MSI capability from opening on: the guest's message address and data stay out
    of hardware and read back as last written, and a write of the flags leaves exactly what it asked
    for where the host allows it. */
module MsiRegisters {
  import opened Bytes
  import opened PciCaps
  import opened Chains
  import opened StdCapInit
  import opened ExtCapInit
  import opened Layout
  import opened Perms
  import opened Routing
  import opened ConfigAccess
  import opened ListLinks
  import opened GuestRuns
  import opened GuestView
  import opened HardwareBytes
  import opened ByteRules
  import opened MsiSync
  import opened CapLengths
  import opened RegisterMap
  import opened RegisterBits

  // ---------------------------------------------------------------- address and data

  // A byte of hardware if only hardware changes it.
  function Untouched(es: seq<Event>, q: nat, was: byte, ro: byte): byte
    decreases |es|
  {
    if es == [] then was
    else
      var e := es[0];
      Untouched(es[1..], q, if e.HwChange? then (was & ro) | (At(e.values, q) & !ro) else was, ro)
  }

  lemma {:induction false} AllWritten(es: seq<Event>, size: nat, q: nat, was: byte)
    ensures VirtAfter(es, size, q, was, 0xFF) == LastWritten(es, size, q, was)
    decreases |es|
  {
    if es != [] {
      var e := es[0];
      if e.GuestWrite? && e.pos + |e.bytes| <= size && CoversByte(e.pos, |e.bytes|, q) {
        MergeFacts(was, e.bytes[q - e.pos], 0);
        AllWritten(es[1..], size, q, e.bytes[q - e.pos]);
      } else {
        AllWritten(es[1..], size, q, was);
      }
      hide Merge;
    }
  }

  lemma {:induction false} NoneWritten(es: seq<Event>, size: nat, q: nat, was: byte, ro: byte)
    ensures HwAfter(es, size, q, was, ro, 0) == Untouched(es, q, was, ro)
    decreases |es|
  {
    if es != [] {
      var e := es[0];
      hide Merge, Unlocked, At;
      if e.GuestWrite? && e.pos + |e.bytes| <= size && CoversByte(e.pos, |e.bytes|, q) {
        assert Merge(was, e.bytes[q - e.pos], Unlocked(0, ro)) == was by { LockedMerge(was, e.bytes[q - e.pos], ro); }
        NoneWritten(es[1..], size, q, was, ro);
      } else if e.HwChange? {
        ChangeMerge(was, At(e.values, q), ro);
        NoneWritten(es[1..], size, q, Merge(was, At(e.values, q), Unlocked(0xFF, ro)), ro);
      } else {
        NoneWritten(es[1..], size, q, was, ro);
      }
    }
  }

  lemma LockedMerge(was: byte, now: byte, ro: byte)
    ensures Merge(was, now, Unlocked(0, ro)) == was
  {
  }

  lemma ChangeMerge(was: byte, now: byte, ro: byte)
    ensures Merge(was, now, Unlocked(0xFF, ro)) == (was & ro) | (now & !ro)
  {
  }

  // Bytes of which a guest reaches nothing in hardware.
  lemma Shielded(s: Vdev, q: nat, es: seq<Event>)
    requires Reaches(s, q, 0xFF, 0)
    ensures At(Run(s, es).hw, q) == Untouched(es, q, At(s.hw, q), At(s.ro, q))
  {
    hide Run, HwAfter, At, Same;
    SameAll(At(Run(s, es).hw, q), HwAfter(es, |s.owner|, q, At(s.hw, q), At(s.ro, q), 0));
    NoneWritten(es, |s.owner|, q, At(s.hw, q), At(s.ro, q));
  }

  // ... and everything in the copy.
  lemma Remembered(s: Vdev, q: nat, es: seq<Event>, pos: nat, count: nat)
    requires Behaves(s, q, 0xFF, 0xFF, 0) && pos <= q < pos + count && pos + count <= |s.owner|
    ensures Got(Run(s, es), pos, count, q) == LastWritten(es, |s.owner|, q, At(s.vconfig, q))
  {
    hide Run, HwAfter, VirtAfter, LastWritten, Got, At, Merge, Same;
    var h, v := HwAfter(es, |s.owner|, q, At(s.hw, q), At(s.ro, q), 0), VirtAfter(es, |s.owner|, q, At(s.vconfig, q), 0xFF);
    AllWritten(es, |s.owner|, q, At(s.vconfig, q));
    SameAll(Got(Run(s, es), pos, count, q), Merge(h, v, 0xFF));
    MergeFacts(h, v, 0);
  }

  // Where the data register of an MSI capability at `p` is, by the 64-bit flag.
  function DataAt(hw: seq<byte>, p: nat): nat { if At(hw, p + 2) & 0x80 != 0 then p + 12 else p + 8 }

  // In every run from opening on, no guest write moves a hardware byte of an MSI capability but the
  // flags and, with per-vector masking, the mask and pending dwords after the data.
  lemma MsiShielded(x: Plugged, ps: seq<nat>, es: seq<nat>, p: nat, q: nat, run: seq<Event>)
    requires WellFormed(x, ps, es) && p in ps && At(x.hw, p) == 5 && p <= q
    requires var data := DataAt(x.hw, p); q < data + 2 || (At(x.hw, p + 3) & 0x01 != 0 && q < data + 4)
    requires q !in {p + 2, p + 3}
    ensures At(Run(Opened(x), run).hw, q) == Untouched(run, q, At(x.hw, q), At(x.ro, q))
  {
    hide Run, Opened, WellFormed, DataAt, Steady, Untouched, Behaves;
    var c := MsiCap(x, ps, es, p, q);
    OpenedMsi(x, ps, es, p);
    OpenedSame(x);
    MsiBytes(Opened(x), x.Caps(ps, es), c, q);
    MsiReach(x, p, c, q);
    Shielded(Opened(x), q, run);
  }

  lemma MsiReach(x: Plugged, p: nat, c: Cap, q: nat)
    requires x.dev.Valid() && c.start == p <= q && q !in {p + 2, p + 3}
    requires var data := DataAt(x.hw, p); q < data + 2 || (At(x.hw, p + 3) & 0x01 != 0 && q < data + 4)
    requires var s := Opened(x); s.msi == MsiFlags(At(x.hw, p + 2), At(x.hw, p + 3))
    requires var s := Opened(x); var off := q - c.start; var data := if s.msi.lo & 0x80 != 0 then 12 else 8;
      && (off == 1 ==> Behaves(s, q, 0xFF, 0, 0))
      && (4 <= off < data + 2 ==> Behaves(s, q, 0xFF, 0xFF, 0))
      && (off == 0 || data + 2 <= off < data + 4 ==> Behaves(s, q, 0, 0, 0))
    ensures Reaches(Opened(x), q, 0xFF, 0)
  {
    hide Opened, Reaches;
  }

  // In every run from opening on, a guest that reads message address or data in any shape finds what
  // it last wrote there.
  lemma MsiRemembered(x: Plugged, ps: seq<nat>, es: seq<nat>, p: nat, q: nat, run: seq<Event>, pos: nat, count: nat)
    requires WellFormed(x, ps, es) && p in ps && At(x.hw, p) == 5 && p + 4 <= q < DataAt(x.hw, p) + 2
    requires pos <= q < pos + count && pos + count <= |x.hw|
    ensures Got(Run(Opened(x), run), pos, count, q) == LastWritten(run, |x.hw|, q, At(x.hw, q))
  {
    hide Run, Opened, WellFormed, Steady, LastWritten, Behaves, Got;
    var c := MsiCap(x, ps, es, p, q);
    OpenedMsi(x, ps, es, p);
    OpenedSame(x);
    OpenedCap(x, ps, es, c, q);
    MsiBytes(Opened(x), x.Caps(ps, es), c, q);
    Remembered(Opened(x), q, run, pos, count);
  }

  // The capability is as long as its flags say.
  lemma MsiCap(x: Plugged, ps: seq<nat>, es: seq<nat>, p: nat, q: nat) returns (c: Cap)
    requires WellFormed(x, ps, es) && p in ps && At(x.hw, p) == 5 && p <= q
    requires var data := DataAt(x.hw, p); q < data + 2 || (At(x.hw, p + 3) & 0x01 != 0 && q < data + 12)
    ensures x.dev.Valid() && |Opened(x).owner| == |x.hw|
    ensures c in x.Caps(ps, es) && c.start == p < STD_SPACE && c.id == 5 && c.Has(q) && Steady(Opened(x), x.Caps(ps, es))
  {
    OpenedSteady(x, ps, es);
    InSpace(x, ps, es, p);
    MsiLengths(x.dev, x.hw, p);
    c := Cap(p, LenAt(x.Lens(), p), At(x.hw, p));
    hide Opened, WellFormed, Steady, StdLens, ExtLens;
    CapIn(x, ps, es, p);
  }

  lemma CapIn(x: Plugged, ps: seq<nat>, es: seq<nat>, p: nat)
    requires p in ps && LenAt(x.Lens(), p) != 0
    ensures Cap(p, LenAt(x.Lens(), p), At(x.hw, p)) in x.Caps(ps, es)
  {
    hide StdLens, ExtLens, LenAt;
    assert Cap(p, LenAt(x.Lens(), p), At(x.hw, p)) in CapsOf(x.hw, x.Lens(), ps);
  }

  lemma OpenedMsi(x: Plugged, ps: seq<nat>, es: seq<nat>, p: nat)
    requires WellFormed(x, ps, es) && p in ps && At(x.hw, p) == 5
    ensures Opened(x).msi == MsiFlags(At(x.hw, p + 2), At(x.hw, p + 3))
  {
    hide StdLens, ExtLens, Formed, Build;
    BuildMsi(x.dev, x.hw, x.Lens(), x.ELens(), x.rawOwner, x.rawVconfig, ps, es, p);
  }

  lemma OpenedSame(x: Plugged)
    requires x.dev.Valid()
    ensures Opened(x).hw == x.hw && Opened(x).ro == x.ro
  {
    hide Build;
  }

  // ---------------------------------------------------------------- flags

  // What a host in this mode with this queue maximum makes of flags asked for: the enable bit only in
  // MSI mode, the queue size asked for up to the maximum, every other bit as asked.
  predicate FlagsFrom(asked: byte, msiMode: bool, qmax: byte, flags: byte) {
    && (flags & 0x01 != 0 <==> asked & 0x01 != 0 && msiMode)
    && (flags & 0x70) >> 4 == (if (asked & 0x70) >> 4 <= qmax then (asked & 0x70) >> 4 else qmax)
    && flags & 0x8E == asked & 0x8E
  }

  lemma FixedExact(s: Vdev, asked: byte)
    requires s.qmax <= 7
    ensures FlagsFrom(asked, s.msiMode, s.qmax, MsiFixed(s, asked))
  {
  }

  // An access that covers the flags leaves them so, however it is split and whatever else it covers.
  lemma {:induction false} MsiFlagsExact(s: Vdev, caps: set<Cap>, c: Cap, pos: nat, bytes: seq<byte>)
    requires Good(s, caps) && c in caps && IsMsi(c) && pos <= c.start + 2 < pos + |bytes| <= |s.owner|
    ensures FlagsFrom(bytes[c.start + 2 - pos], s.msiMode, s.qmax, At(WriteAccess(s, pos, bytes).vconfig, c.start + 2))
    decreases |bytes|
  {
    hide *;
    var n := ChunkLen(s.owner, pos, |bytes|);
    var t := WriteChunk(s, pos, bytes[..n]);
    WriteUnfold(s, pos, bytes);
    WriteFrame(s, pos, bytes[..n]);
    GoodFramed(s, t, caps);
    SameMode(s, t);
    if c.start + 2 < pos + n {
      FlagsChunkExact(s, caps, c, pos, |bytes|, bytes[..n]);
      FlagsLater(t, caps, c, pos + n, bytes[n..]);
    } else {
      MsiFlagsExact(t, caps, c, pos + n, bytes[n..]);
    }
  }

  lemma SameMode(s: Vdev, t: Vdev)
    requires SameFrame(s, t)
    ensures t.msiMode == s.msiMode && t.qmax == s.qmax && |t.owner| == |s.owner|
  {
  }

  lemma FlagsChunkExact(s: Vdev, caps: set<Cap>, c: Cap, pos: nat, count: nat, bytes: seq<byte>)
    requires Good(s, caps) && c in caps && IsMsi(c) && 0 < count && pos + count <= |s.owner|
    requires |bytes| == ChunkLen(s.owner, pos, count) && pos <= c.start + 2 < pos + |bytes|
    ensures FlagsFrom(bytes[c.start + 2 - pos], s.msiMode, s.qmax, At(WriteChunk(s, pos, bytes).vconfig, c.start + 2))
  {
    hide *;
    ChunkInside(s.owner, pos, count, c.start + 2 - pos);
    MsiRoute(s, caps, c, c.start);
    OnceInDword(pos, c.start);
    HasEarly(c, pos);
    MsiRoute(s, caps, c, pos);
    MsiHandled(s, pos, bytes);
    MsiWriteExact(s, c.start, pos, bytes);
  }

  lemma MsiWriteExact(s: Vdev, start: nat, pos: nat, bytes: seq<byte>)
    requires start <= pos <= start + 2 < pos + |bytes| && start + 4 <= |s.vconfig| == |s.hw| && s.qmax <= 7
    ensures FlagsFrom(bytes[start + 2 - pos], s.msiMode, s.qmax, At(MsiWrite(s, start, pos, bytes).vconfig, start + 2))
  {
    var d := DefaultWrite(s, Msi, start, pos, bytes);
    var asked := bytes[start + 2 - pos];
    DefaultByte(s, Msi, start, pos, bytes, start + 2);
    MergeFacts(At(s.vconfig, start + 2), asked, 0);
    FixedExact(d, asked);
    hide HwStore, MsiFixed, FlagsFrom, Merge, Stored;
  }

  // Later chunks leave the flags alone.
  lemma {:induction false} FlagsLater(s: Vdev, caps: set<Cap>, c: Cap, pos: nat, bytes: seq<byte>)
    requires Good(s, caps) && c in caps && IsMsi(c) && pos > c.start + 2 && pos + |bytes| <= |s.owner|
    ensures At(WriteAccess(s, pos, bytes).vconfig, c.start + 2) == At(s.vconfig, c.start + 2)
    decreases |bytes|
  {
    hide *;
    if bytes == [] {
      NoBytes(s, pos);
    } else {
      var n := ChunkLen(s.owner, pos, |bytes|);
      var t := WriteChunk(s, pos, bytes[..n]);
      WriteUnfold(s, pos, bytes);
      WriteFrame(s, pos, bytes[..n]);
      SameMode(s, t);
      GoodFramed(s, t, caps);
      NotCovered(pos, n, c.start + 2);
      FlagsStay(s, caps, c, pos, |bytes|, bytes[..n]);
      FlagsLater(t, caps, c, pos + n, bytes[n..]);
    }
  }

  lemma NoBytes(s: Vdev, pos: nat)
    ensures WriteAccess(s, pos, []) == s
  {
  }

  lemma NotCovered(pos: nat, n: nat, q: nat)
    requires q < pos
    ensures !CoversByte(pos, n, q)
  {
  }

  // The guest reads the flags it is left with, and of the upper byte what hardware has.
  lemma MsiFlagsRead(s: Vdev, caps: set<Cap>, c: Cap, pos: nat, count: nat)
    requires Steady(s, caps) && c in caps && IsMsi(c) && pos + count <= |s.owner|
    ensures pos <= c.start + 2 < pos + count ==> Got(s, pos, count, c.start + 2) == At(s.vconfig, c.start + 2)
    ensures pos <= c.start + 3 < pos + count ==> Got(s, pos, count, c.start + 3) == At(s.hw, c.start + 3)
  {
    hide *;
    SteadyGood(s, caps);
    MsiRoute(s, caps, c, c.start);
    HasEarly(c, c.start + 2);
    HasEarly(c, c.start + 3);
    MsiRoute(s, caps, c, c.start + 2);
    MsiRoute(s, caps, c, c.start + 3);
    if pos <= c.start + 2 < pos + count {
      FlagsSeen(s, c.start, c.start + 2);
      ReadRule(s, caps, pos, count, c.start + 2);
    }
    if pos <= c.start + 3 < pos + count {
      FlagsSeen(s, c.start, c.start + 3);
      ReadRule(s, caps, pos, count, c.start + 3);
    }
  }

  lemma HasEarly(c: Cap, q: nat)
    requires c.start <= q < c.start + 4 <= c.start + c.len
    ensures c.Has(q)
  {
  }

  lemma FlagsSeen(s: Vdev, start: nat, q: nat)
    requires KindAt(s.owner, q) == Msi && StartOf(s.owner, q) == start && q in {start + 2, start + 3}
    ensures Readable(s, q) && Seen(s, q) == if q == start + 2 then At(s.vconfig, q) else At(s.hw, q)
  {
    hide KindAt, StartOf, At, Merge;
    MergeFacts(At(s.hw, q), At(s.vconfig, q), 0);
  }

  // A read that comes to the flags enters the queue maximum in the copy of the capability's first
  // byte, bits 1 to 3, where no guest sees it.
  lemma MsiReadScribbles(s: Vdev, pos: nat, n: nat)
    requires KindAt(s.owner, pos) == Msi && s.qmax <= 7 && StartOf(s.owner, pos) < |s.vconfig|
    ensures var start := StartOf(s.owner, pos); var t := ReadPrep(s, pos, n);
      if start <= pos <= start + 2 <= pos + n then
        && t == s.(vconfig := s.vconfig[start := t.vconfig[start]])
        && (t.vconfig[start] & 0x0E) >> 1 == s.qmax && t.vconfig[start] & 0xF1 == s.vconfig[start] & 0xF1
      else t == s
  {
    hide KindAt, StartOf, QueueMax, Poke;
    var start := StartOf(s.owner, pos);
    var b := QueueMax(s.vconfig[start], s.qmax);
    QueueBits(s.vconfig[start], s.qmax);
    PokeIn(s.vconfig, start, b);
    if start <= pos <= start + 2 <= pos + n { assert ReadPrep(s, pos, n) == s.(vconfig := s.vconfig[start := b]); }
  }

  lemma PokeIn(v: seq<byte>, i: nat, b: byte)
    requires i < |v|
    ensures Poke(v, i, b) == v[i := b]
  {
  }

  lemma QueueBits(was: byte, qmax: byte)
    requires qmax <= 7
    ensures var b := QueueMax(was, qmax); (b & 0x0E) >> 1 == qmax && b & 0xF1 == was & 0xF1
  {
  }
}
