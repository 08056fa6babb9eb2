/** Requests a guest makes through Device Control and AF Control: function level resets and the
    maximum read request size. */
module FunctionReset {
  import opened Bytes
  import opened PciCaps
  import opened StdCapInit
  import opened Layout
  import opened Perms
  import opened Routing
  import opened ConfigAccess
  import opened ListLinks
  import opened GuestRuns
  import opened HardwareBytes
  import opened BarGuard
  import opened CommandSync
  import opened MsiSync
  import opened ByteRules
  import opened GuestView
  import opened ExtCapInit

  // ---------------------------------------------------------------- function level reset

  // The reset bit of a PCI Express or Advanced Features capability.
  predicate ResetReg(c: Cap, q: nat, bit: byte) {
    c.start < STD_SPACE && ((Num(c.id) == ID_EXP && q == c.start + 9 && bit == 0x80) || (Num(c.id) == ID_AF && q == c.start + 4 && bit == 0x01))
  }

  lemma ResetRoute(s: Vdev, caps: set<Cap>, c: Cap, q: nat, bit: byte, pos: nat)
    requires Good(s, caps) && c in caps && ResetReg(c, q, bit)
    ensures c.Has(q) && q < |s.owner| == |s.vconfig|
    ensures c.Has(pos) ==> StartOf(s.owner, pos) == c.start <= pos && KindAt(s.owner, pos) == if Num(c.id) == ID_EXP then Exp else Af
  {
    assert CapFits(c, |s.owner|) && Layout.Sized(c, s.msi);
    if c.Has(pos) {
      StartOfCap(s.owner, caps, s.msi, c, pos);
    }
    hide Layout.Sized, Mapped, StartOf;
  }

  // Whatever a chunk does to such a capability, the bit is clear afterwards.
  lemma ResetCleared(s: Vdev, pos: nat, bytes: seq<byte>, start: nat, q: nat, bit: byte)
    requires start <= pos && q < |s.vconfig|
    ensures q == start + 9 && bit == 0x80 ==> At(ExpWrite(s, start, pos, bytes).vconfig, q) & bit == 0
    ensures q == start + 4 && bit == 0x01 ==> At(AfWrite(s, start, pos, bytes).vconfig, q) & bit == 0
  {
    hide DefaultWrite, MrrsFollow;
    DefaultKeeps(s, Exp, start, pos, bytes);
    DefaultKeeps(s, Af, start, pos, bytes);
    MrrsVirtual(FlrHandled(DefaultWrite(s, Exp, start, pos, bytes), start), start, Mrrs(At(s.vconfig, start + 9)));
  }

  lemma ChunkReset(s: Vdev, caps: set<Cap>, c: Cap, q: nat, bit: byte, pos: nat, count: nat, bytes: seq<byte>)
    requires Good(s, caps) && c in caps && ResetReg(c, q, bit) && At(s.vconfig, q) & bit == 0
    requires 0 < count && pos + count <= |s.owner| && |bytes| == ChunkLen(s.owner, pos, count)
    ensures At(WriteChunk(s, pos, bytes).vconfig, q) & bit == 0
  {
    hide KindAt, StartOf, ExpWrite, AfWrite, ChunkLen, Good, WriteChunk, At;
    ResetRoute(s, caps, c, q, bit, pos);
    if c.Has(pos) {
      OwnReset(s, c, q, bit, pos, bytes);
    } else {
      Elsewhere(s, caps, c, pos, count, bytes, q);
    }
  }

  lemma OwnReset(s: Vdev, c: Cap, q: nat, bit: byte, pos: nat, bytes: seq<byte>)
    requires ResetReg(c, q, bit) && StartOf(s.owner, pos) == c.start <= pos && q < |s.vconfig|
    requires KindAt(s.owner, pos) == if Num(c.id) == ID_EXP then Exp else Af
    ensures At(WriteChunk(s, pos, bytes).vconfig, q) & bit == 0
  {
    hide KindAt, StartOf, ExpWrite, AfWrite, At;
    ResetCleared(s, pos, bytes, c.start, q, bit);
  }

  lemma {:induction false} AccessReset(s: Vdev, caps: set<Cap>, c: Cap, q: nat, bit: byte, pos: nat, bytes: seq<byte>)
    requires Good(s, caps) && c in caps && ResetReg(c, q, bit) && At(s.vconfig, q) & bit == 0 && pos + |bytes| <= |s.owner|
    ensures At(WriteAccess(s, pos, bytes).vconfig, q) & bit == 0
    decreases |bytes|
  {
    hide Good, WriteChunk, ChunkLen, ResetReg, At;
    if bytes != [] {
      var n := ChunkLen(s.owner, pos, |bytes|);
      WriteFrame(s, pos, bytes[..n]);
      GoodFramed(s, WriteChunk(s, pos, bytes[..n]), caps);
      ChunkReset(s, caps, c, q, bit, pos, |bytes|, bytes[..n]);
      AccessReset(WriteChunk(s, pos, bytes[..n]), caps, c, q, bit, pos + n, bytes[n..]);
    }
  }

  lemma {:induction false} ReadReset(s: Vdev, caps: set<Cap>, c: Cap, q: nat, bit: byte, pos: nat, count: nat)
    requires Good(s, caps) && c in caps && ResetReg(c, q, bit)
    ensures At(ReadAccess(s, pos, count).0.vconfig, q) == At(s.vconfig, q)
    decreases count
  {
    hide Good, ReadPrep, ChunkLen, ReadBytes, ResetReg, At;
    if count > 0 {
      var n := ChunkLen(s.owner, pos, count);
      ReadPrepFrame(s, pos, n);
      GoodFramed(s, ReadPrep(s, pos, n), caps);
      PrepReset(s, caps, c, q, bit, pos, n);
      ReadReset(ReadPrep(s, pos, n), caps, c, q, bit, pos + n, count - n);
    }
  }

  lemma PrepReset(s: Vdev, caps: set<Cap>, c: Cap, q: nat, bit: byte, pos: nat, n: nat)
    requires Good(s, caps) && c in caps && ResetReg(c, q, bit)
    ensures At(ReadPrep(s, pos, n).vconfig, q) == At(s.vconfig, q)
  {
    Routed(s.owner, caps, s.msi, pos);
    assert CapFits(c, |s.owner|);
    FixupAt(s, q);
    if KindAt(s.owner, pos) == Msi {
      var d :| d in caps && d.Has(pos) && StartOf(s.owner, pos) == d.start;
      StartOfCap(s.owner, caps, s.msi, d, pos);
      ResetRoute(s, caps, c, q, bit, d.start);
    }
    hide Laid, KindAt, StartOf, BarFixup;
  }

  // A clear reset bit of the copy stays clear in every run.
  lemma {:induction false} RunReset(s: Vdev, caps: set<Cap>, c: Cap, q: nat, bit: byte, es: seq<Event>)
    requires Steady(s, caps) && c in caps && ResetReg(c, q, bit) && At(s.vconfig, q) & bit == 0
    ensures At(Run(s, es).vconfig, q) & bit == 0
    decreases |es|
  {
    hide Steady, ReadAccess, WriteAccess, Settled, ResetReg, At;
    if es != [] {
      SteadyGood(s, caps);
      StepSteady(s, caps, es[0]);
      match es[0] {
        case GuestRead(pos, count) => ReadReset(s, caps, c, q, bit, pos, count);
        case GuestWrite(pos, bytes) => if pos + |bytes| <= |s.owner| { AccessReset(s, caps, c, q, bit, pos, bytes); }
        case HwChange(values) =>
        case IrqMode(msiMode, qmax) =>
      }
      RunReset(Step(s, es[0]), caps, c, q, bit, es[1..]);
    }
  }

  // The reset bits read as zero in every reachable state of a device whose hardware shows them so.
  lemma ResetReadsZero(x: Plugged, ps: seq<nat>, es: seq<nat>, run: seq<Event>, c: Cap, q: nat, bit: byte, pos: nat, count: nat)
    requires WellFormed(x, ps, es) && c in x.Caps(ps, es) && ResetReg(c, q, bit) && At(x.hw, q) & bit == 0
    requires pos <= q < pos + count && pos + count <= |x.hw|
    ensures Got(Run(Opened(x), run), pos, count, q) & bit == 0
  {
    var s := Opened(x);
    hide *;
    OpenedSteady(x, ps, es);
    OpenedReset(x, ps, es, c, q, bit);
    RunReset(s, x.Caps(ps, es), c, q, bit, run);
    RunSteady(s, x.Caps(ps, es), run);
    ResetSeen(Run(s, run), x.Caps(ps, es), c, q, bit, pos, count);
  }

  lemma OpenedReset(x: Plugged, ps: seq<nat>, es: seq<nat>, c: Cap, q: nat, bit: byte)
    requires WellFormed(x, ps, es) && c in x.Caps(ps, es) && ResetReg(c, q, bit)
    ensures At(Opened(x).vconfig, q) == At(x.hw, q)
  {
    OpenedSteady(x, ps, es);
    SteadyGood(Opened(x), x.Caps(ps, es));
    ResetRoute(Opened(x), x.Caps(ps, es), c, q, bit, q);
    hide Good, Steady, Build, StdLens, ExtLens, ResetReg;
    OpenedCap(x, ps, es, c, q);
  }

  // What a guest sees of such a bit is the copy's.
  lemma ResetSeen(s: Vdev, caps: set<Cap>, c: Cap, q: nat, bit: byte, pos: nat, count: nat)
    requires Steady(s, caps) && c in caps && ResetReg(c, q, bit) && pos <= q < pos + count && pos + count <= |s.owner|
    ensures Got(s, pos, count, q) & bit == At(s.vconfig, q) & bit
  {
    hide Good, Steady, KindAt, StartOf, Got, Seen, At, Readable;
    SteadyGood(s, caps);
    ResetRoute(s, caps, c, q, bit, q);
    SeenReset(s, q, bit);
    ReadRule(s, caps, pos, count, q);
  }

  lemma SeenReset(s: Vdev, q: nat, bit: byte)
    requires (KindAt(s.owner, q) == Exp && q == StartOf(s.owner, q) + 9 && bit == 0x80)
          || (KindAt(s.owner, q) == Af && q == StartOf(s.owner, q) + 4 && bit == 0x01)
    ensures Readable(s, q) && Seen(s, q) & bit == At(s.vconfig, q) & bit
  {
    hide KindAt, StartOf, Merge, At;
    SeenBits(At(s.hw, q), At(s.vconfig, q));
  }

  lemma SeenBits(was: byte, now: byte)
    ensures Merge(was, now, 0xF0) & 0x80 == now & 0x80 && Merge(was, now, 0x01) & 0x01 == now & 0x01
  {
  }

  // ---------------------------------------------------------------- resets asked for

  // Byte `b` written at `q` asks for a reset: the bit is set, and the function has the capability.
  predicate Asks(s: Vdev, q: nat, b: byte) {
    var start := StartOf(s.owner, q);
    match KindAt(s.owner, q)
    case Exp => q == start + 9 && b & 0x80 != 0 && At(s.hw, start + 7) & 0x10 != 0
    case Af => q == start + 4 && b & 0x01 != 0 && At(s.hw, start + 3) & 0x03 == 0x03
    case _ => false
  }

  // How many bytes of a write ask for one.
  function ResetsAsked(s: Vdev, pos: nat, bytes: seq<byte>): nat
    decreases |bytes|
  {
    if bytes == [] then 0 else (if Asks(s, pos, bytes[0]) then 1 else 0) + ResetsAsked(s, pos + 1, bytes[1..])
  }

  lemma {:induction false} AskedSplit(s: Vdev, pos: nat, bytes: seq<byte>, n: nat)
    requires n <= |bytes|
    ensures ResetsAsked(s, pos, bytes) == ResetsAsked(s, pos, bytes[..n]) + ResetsAsked(s, pos + n, bytes[n..])
    decreases n
  {
    hide Asks;
    if n == 0 {
      assert bytes[0..] == bytes;
    } else {
      AskedSplit(s, pos + 1, bytes[1..], n - 1);
      assert bytes[..n][1..] == bytes[1..][..n - 1] && bytes[1..][n - 1..] == bytes[n..] && bytes[..n][0] == bytes[0];
    }
  }

  // Only byte `r` can ask.
  lemma {:induction false} AskedOnce(s: Vdev, pos: nat, bytes: seq<byte>, r: nat)
    requires forall i :: 0 <= i < |bytes| && pos + i != r ==> !Asks(s, pos + i, bytes[i])
    ensures ResetsAsked(s, pos, bytes) == if CoversByte(pos, |bytes|, r) && Asks(s, r, bytes[r - pos]) then 1 else 0
    decreases |bytes|
  {
    hide Asks;
    if bytes != [] {
      forall i | 0 <= i < |bytes[1..]| && pos + 1 + i != r ensures !Asks(s, pos + 1 + i, bytes[1..][i]) {
        assert bytes[1..][i] == bytes[i + 1] && pos + (i + 1) != r;
        assert !Asks(s, pos + (i + 1), bytes[i + 1]);
      }
      AskedOnce(s, pos + 1, bytes[1..], r);
      assert pos != r ==> !Asks(s, pos + 0, bytes[0]);
    }
  }

  lemma {:induction false} AskedSame(s: Vdev, t: Vdev, pos: nat, bytes: seq<byte>)
    requires forall q: nat, b: byte :: Asks(t, q, b) == Asks(s, q, b)
    ensures ResetsAsked(t, pos, bytes) == ResetsAsked(s, pos, bytes)
    decreases |bytes|
  {
    hide Asks;
    if bytes != [] {
      assert Asks(t, pos, bytes[0]) == Asks(s, pos, bytes[0]);
      AskedSame(s, t, pos + 1, bytes[1..]);
    }
  }

  // The PCI Express handler requests a reset exactly when it is given a one for the bit.
  lemma ExpRequested(s: Vdev, start: nat, pos: nat, bytes: seq<byte>)
    requires start <= pos && start + 12 <= |s.vconfig| == |s.hw| && At(s.vconfig, start + 9) & 0x80 == 0
    ensures ExpWrite(s, start, pos, bytes).resets ==
      s.resets + if CoversByte(pos, |bytes|, start + 9) && bytes[start + 9 - pos] & 0x80 != 0 && At(s.hw, start + 7) & 0x10 != 0 then 1 else 0
  {
    hide DefaultWrite, MrrsFollow;
    var d := DefaultWrite(s, Exp, start, pos, bytes);
    DefaultByte(s, Exp, start, pos, bytes, start + 9);
    HwReadOnly(s, Exp, start, pos, bytes, start + 7);
    DefaultKeeps(s, Exp, start, pos, bytes);
    MrrsQuiet(FlrHandled(d, start), start, Mrrs(At(s.vconfig, start + 9)));
    if CoversByte(pos, |bytes|, start + 9) {
      FlrBit(At(s.vconfig, start + 9), bytes[start + 9 - pos]);
    }
    hide Merge, Stored;
  }

  // ... and so does the Advanced Features handler.
  lemma AfRequested(s: Vdev, start: nat, pos: nat, bytes: seq<byte>)
    requires start <= pos && start + 6 <= |s.vconfig| == |s.hw| && At(s.vconfig, start + 4) & 0x01 == 0
    ensures AfWrite(s, start, pos, bytes).resets ==
      s.resets + if CoversByte(pos, |bytes|, start + 4) && bytes[start + 4 - pos] & 0x01 != 0 && At(s.hw, start + 3) & 0x03 == 0x03 then 1 else 0
  {
    hide DefaultWrite;
    DefaultByte(s, Af, start, pos, bytes, start + 4);
    HwReadOnly(s, Af, start, pos, bytes, start + 3);
    DefaultKeeps(s, Af, start, pos, bytes);
    if CoversByte(pos, |bytes|, start + 4) {
      FlrBit(At(s.vconfig, start + 4), bytes[start + 4 - pos]);
    }
    hide Merge, Stored;
  }

  lemma FlrBit(was: byte, now: byte)
    ensures Merge(was, now, 0xFD & 0xF0) & 0x80 == now & 0x80 && Merge(was, now, 0x01 & 0x01) & 0x01 == now & 0x01
  {
  }

  lemma HwReadOnly(s: Vdev, k: Kind, start: nat, pos: nat, bytes: seq<byte>, q: nat)
    requires start <= pos && start <= q < |s.vconfig| == |s.hw| && Write(k, s.msi, q - start) == 0
    ensures At(DefaultWrite(s, k, start, pos, bytes).hw, q) == At(s.hw, q)
  {
    hide DefaultWrite, Write, Virt;
    DefaultByte(s, k, start, pos, bytes, q);
    if CoversByte(pos, |bytes|, q) {
      MergeFacts(At(s.hw, q), bytes[q - pos], 0);
      StoredSame(At(s.hw, q), At(s.ro, q));
      assert 0 & !Virt(k, s.msi, q - start) == 0;
    }
  }

  // The byte of capability `c` that says whether the function can be reset.
  predicate Enables(c: Cap, q: nat) {
    c.start < STD_SPACE && ((Num(c.id) == ID_EXP && q == c.start + 7) || (Num(c.id) == ID_AF && q == c.start + 3))
  }

  lemma EnablesRoute(s: Vdev, caps: set<Cap>, c: Cap, q: nat, pos: nat)
    requires Good(s, caps) && c in caps && Enables(c, q)
    ensures c.Has(q) && q < |s.owner| == |s.vconfig| == |s.hw| && (Num(c.id) == ID_EXP ==> c.start + 12 <= |s.owner|) && c.start + 6 <= |s.owner|
    ensures c.Has(pos) ==> StartOf(s.owner, pos) == c.start <= pos && KindAt(s.owner, pos) == if Num(c.id) == ID_EXP then Exp else Af
  {
    ResetRoute(s, caps, c, if Num(c.id) == ID_EXP then c.start + 9 else c.start + 4, if Num(c.id) == ID_EXP then 0x80 else 0x01, pos);
    assert CapFits(c, |s.owner|) && Layout.Sized(c, s.msi);
    hide Laid, StartOf, KindAt;
  }

  // No chunk changes it.
  lemma EnablesStays(s: Vdev, caps: set<Cap>, c: Cap, q: nat, pos: nat, count: nat, bytes: seq<byte>)
    requires Good(s, caps) && c in caps && Enables(c, q) && 0 < count && |bytes| == ChunkLen(s.owner, pos, count)
    ensures At(WriteChunk(s, pos, bytes).hw, q) == At(s.hw, q)
  {
    EnablesRoute(s, caps, c, q, pos);
    hide Good, KindAt, StartOf, WriteChunk, ChunkLen, At;
    if c.Has(pos) {
      OwnEnables(s, c, q, pos, bytes);
    } else {
      HwElsewhere(s, caps, c, pos, count, bytes, q);
    }
  }

  lemma OwnEnables(s: Vdev, c: Cap, q: nat, pos: nat, bytes: seq<byte>)
    requires Enables(c, q) && StartOf(s.owner, pos) == c.start <= pos && q < |s.vconfig| == |s.hw|
    requires KindAt(s.owner, pos) == if Num(c.id) == ID_EXP then Exp else Af
    ensures At(WriteChunk(s, pos, bytes).hw, q) == At(s.hw, q)
  {
    hide KindAt, StartOf, DefaultWrite, MrrsFollow, FlrHandled, AfReset, At;
    var k := KindAt(s.owner, pos);
    HwReadOnly(s, k, c.start, pos, bytes, q);
    var d := DefaultWrite(s, k, c.start, pos, bytes);
    if k == Exp {
      ExpHw(d, c.start, Mrrs(At(s.vconfig, c.start + 9)), q);
    } else {
      AfHw(d, c.start);
    }
  }

  // What asks for a reset is the same before and after a chunk.
  lemma AsksSame(s: Vdev, caps: set<Cap>, pos: nat, count: nat, bytes: seq<byte>)
    requires Good(s, caps) && 0 < count && |bytes| == ChunkLen(s.owner, pos, count)
    ensures forall q: nat, b: byte :: Asks(WriteChunk(s, pos, bytes), q, b) == Asks(s, q, b)
  {
    hide Good, KindAt, StartOf, WriteChunk, ChunkLen, At, Enables;
    WriteFrame(s, pos, bytes);
    var t := WriteChunk(s, pos, bytes);
    forall q: nat, b: byte ensures Asks(t, q, b) == Asks(s, q, b) {
      if KindAt(s.owner, q) in {Exp, Af} {
        var c := ResetOwner(s, caps, q);
        var r := c.start + if KindAt(s.owner, q) == Exp then 7 else 3;
        EnablesStays(s, caps, c, r, pos, count, bytes);
      }
    }
  }

  lemma ResetOwner(s: Vdev, caps: set<Cap>, q: nat) returns (c: Cap)
    requires Good(s, caps) && KindAt(s.owner, q) in {Exp, Af}
    ensures c in caps && c.Has(q) && StartOf(s.owner, q) == c.start && c.start < STD_SPACE
    ensures KindAt(s.owner, q) == Exp ==> Num(c.id) == ID_EXP && Enables(c, c.start + 7) && ResetReg(c, c.start + 9, 0x80)
    ensures KindAt(s.owner, q) == Af ==> Num(c.id) == ID_AF && Enables(c, c.start + 3) && ResetReg(c, c.start + 4, 0x01)
  {
    hide Laid, StartOf;
    Routed(s.owner, caps, s.msi, q);
    c :| c in caps && c.Has(q) && StartOf(s.owner, q) == c.start;
    StartOfCap(s.owner, caps, s.msi, c, q);
  }

  // Every reset bit of the copy is clear.
  ghost predicate ResetsClear(s: Vdev, caps: set<Cap>) {
    forall c, q, bit :: c in caps && ResetReg(c, q, bit) ==> At(s.vconfig, q) & bit == 0
  }

  // A chunk requests as many resets as its bytes ask for.
  lemma ChunkRequests(s: Vdev, caps: set<Cap>, pos: nat, count: nat, bytes: seq<byte>)
    requires Good(s, caps) && ResetsClear(s, caps) && 0 < count && pos + count <= |s.owner| && |bytes| == ChunkLen(s.owner, pos, count)
    ensures WriteChunk(s, pos, bytes).resets == s.resets + ResetsAsked(s, pos, bytes)
  {
    hide Good, WriteChunk, ChunkLen, ResetsClear, ResetsAsked, StartOf, KindAt;
    if KindAt(s.owner, pos) in {Exp, Af} {
      var c := ResetOwner(s, caps, pos);
      OwnRequests(s, caps, c, pos, count, bytes);
    } else {
      OthersRequest(s, pos, bytes);
      NoneAsked(s, caps, pos, count, bytes);
    }
  }

  lemma NoneAsked(s: Vdev, caps: set<Cap>, pos: nat, count: nat, bytes: seq<byte>)
    requires Good(s, caps) && 0 < count && pos + count <= |s.owner| && |bytes| == ChunkLen(s.owner, pos, count)
    requires KindAt(s.owner, pos) !in {Exp, Af}
    ensures ResetsAsked(s, pos, bytes) == 0
  {
    hide Good, ChunkLen, ResetsAsked, StartOf, KindAt;
    forall i | 0 <= i < |bytes| ensures !Asks(s, pos + i, bytes[i]) {
      SameRoute(s, caps, pos, count, i);
    }
    AskedOnce(s, pos, bytes, pos + |bytes|);
  }

  lemma OthersRequest(s: Vdev, pos: nat, bytes: seq<byte>)
    requires KindAt(s.owner, pos) !in {Exp, Af}
    ensures WriteChunk(s, pos, bytes).resets == s.resets
  {
    var k, start := KindAt(s.owner, pos), StartOf(s.owner, pos);
    hide KindAt, StartOf, Blend, HwStore, MsiFixed, Merge, Stored, At, VpdOp, DefaultWrite, BasicWrite;
    DefaultKeeps(s, k, start, pos, bytes);
    if k == Basic {
      BasicRest(s, pos, bytes);
    } else if k == Vpd {
      VpdResets(DefaultWrite(s, k, start, pos, bytes), start);
    }
  }

  lemma VpdResets(s: Vdev, start: nat)
    ensures VpdOp(s, start).resets == s.resets
  {
    hide VpdTakes, VpdDword, VpdAddr, VpdF, VpdFlip, Poke, Poke4, Dword, At;
  }

  lemma OwnRequests(s: Vdev, caps: set<Cap>, c: Cap, pos: nat, count: nat, bytes: seq<byte>)
    requires Good(s, caps) && ResetsClear(s, caps) && 0 < count && pos + count <= |s.owner| && |bytes| == ChunkLen(s.owner, pos, count)
    requires c in caps && c.Has(pos) && StartOf(s.owner, pos) == c.start && c.start < STD_SPACE
    requires KindAt(s.owner, pos) == Exp ==> Num(c.id) == ID_EXP && Enables(c, c.start + 7) && ResetReg(c, c.start + 9, 0x80)
    requires KindAt(s.owner, pos) == Af ==> Num(c.id) == ID_AF && Enables(c, c.start + 3) && ResetReg(c, c.start + 4, 0x01)
    requires KindAt(s.owner, pos) in {Exp, Af}
    ensures WriteChunk(s, pos, bytes).resets == s.resets + ResetsAsked(s, pos, bytes)
  {
    var k := KindAt(s.owner, pos);
    var r := c.start + if k == Exp then 9 else 4;
    hide Good, WriteChunk, ChunkLen, ResetsAsked, StartOf, KindAt, ExpWrite, AfWrite, At;
    EnablesRoute(s, caps, c, if k == Exp then c.start + 7 else c.start + 3, pos);
    forall i | 0 <= i < |bytes| && pos + i != r ensures !Asks(s, pos + i, bytes[i]) {
      SameRoute(s, caps, pos, count, i);
    }
    AskedOnce(s, pos, bytes, r);
    Handled(s, pos, bytes);
    if CoversByte(pos, |bytes|, r) {
      SameRoute(s, caps, pos, count, r - pos);
    }
    if k == Exp {
      ExpRequested(s, c.start, pos, bytes);
    } else {
      AfRequested(s, c.start, pos, bytes);
    }
  }

  lemma Handled(s: Vdev, pos: nat, bytes: seq<byte>)
    ensures KindAt(s.owner, pos) == Exp ==> WriteChunk(s, pos, bytes) == ExpWrite(s, StartOf(s.owner, pos), pos, bytes)
    ensures KindAt(s.owner, pos) == Af ==> WriteChunk(s, pos, bytes) == AfWrite(s, StartOf(s.owner, pos), pos, bytes)
  {
    hide KindAt, StartOf, ExpWrite, AfWrite;
  }

  lemma ClearAfter(s: Vdev, caps: set<Cap>, pos: nat, count: nat, bytes: seq<byte>)
    requires Good(s, caps) && ResetsClear(s, caps) && 0 < count && pos + count <= |s.owner| && |bytes| == ChunkLen(s.owner, pos, count)
    ensures ResetsClear(WriteChunk(s, pos, bytes), caps)
  {
    hide Good, WriteChunk, ChunkLen, ResetReg, At;
    forall c, q: nat, bit | c in caps && ResetReg(c, q, bit) ensures At(WriteChunk(s, pos, bytes).vconfig, q) & bit == 0 {
      ChunkReset(s, caps, c, q, bit, pos, count, bytes);
    }
  }

  // A guest write of any position and length requests as many resets as its bytes ask for.
  lemma {:induction false} ResetsRequested(s: Vdev, caps: set<Cap>, pos: nat, bytes: seq<byte>)
    requires Good(s, caps) && ResetsClear(s, caps) && pos + |bytes| <= |s.owner|
    ensures WriteAccess(s, pos, bytes).resets == s.resets + ResetsAsked(s, pos, bytes) && ResetsClear(WriteAccess(s, pos, bytes), caps)
    decreases |bytes|
  {
    hide Good, WriteChunk, ChunkLen, ResetsClear, Asks;
    if bytes != [] {
      var n := ChunkLen(s.owner, pos, |bytes|);
      var t := WriteChunk(s, pos, bytes[..n]);
      WriteFrame(s, pos, bytes[..n]);
      GoodFramed(s, t, caps);
      ChunkRequests(s, caps, pos, |bytes|, bytes[..n]);
      ClearAfter(s, caps, pos, |bytes|, bytes[..n]);
      AsksSame(s, caps, pos, |bytes|, bytes[..n]);
      ResetsRequested(t, caps, pos + n, bytes[n..]);
      AskedSame(s, t, pos + n, bytes[n..]);
      AskedSplit(s, pos, bytes, n);
    }
  }

  // ... in every reachable state of a device whose hardware shows the reset bits clear.
  lemma ReachableRequests(x: Plugged, ps: seq<nat>, es: seq<nat>, run: seq<Event>, pos: nat, bytes: seq<byte>)
    requires WellFormed(x, ps, es) && pos + |bytes| <= |x.hw|
    requires forall c, q, bit :: c in x.Caps(ps, es) && ResetReg(c, q, bit) ==> At(x.hw, q) & bit == 0
    ensures var s := Run(Opened(x), run); WriteAccess(s, pos, bytes).resets == s.resets + ResetsAsked(s, pos, bytes)
  {
    var s, caps := Run(Opened(x), run), x.Caps(ps, es);
    hide Steady, WellFormed, Run, WriteAccess, ResetsAsked, ResetReg, At, Opened, Plugged.Caps;
    OpenedSteady(x, ps, es);
    forall c, q: nat, bit | c in caps && ResetReg(c, q, bit) ensures At(s.vconfig, q) & bit == 0 {
      OpenedReset(x, ps, es, c, q, bit);
      RunReset(Opened(x), caps, c, q, bit, run);
    }
    RunSteady(Opened(x), caps, run);
    SteadyGood(s, caps);
    ResetsRequested(s, caps, pos, bytes);
  }

  // ---------------------------------------------------------------- maximum read request size

  predicate IsExp(c: Cap) { c.start < STD_SPACE && Num(c.id) == ID_EXP }

  // The size hardware gets when the guest changes its own from `before` to `after`.
  function Granted(before: byte, after: byte, payload: byte, was: byte): byte {
    var larger := if payload < after then after else payload;
    if before != after && larger <= 5 then larger else was
  }

  lemma MrrsFloor(e: Vdev, start: nat, before: byte)
    requires start + 9 < |e.hw| && At(e.ro, start + 9) & 0x70 == 0
    ensures var t := MrrsFollow(e, start, before);
      Mrrs(At(t.hw, start + 9)) == Granted(before, Mrrs(At(e.vconfig, start + 9)), Mps(At(e.hw, start + 8)), Mrrs(At(e.hw, start + 9)))
      && At(t.hw, start + 8) == At(e.hw, start + 8) && t.vconfig == e.vconfig
  {
    MrrsStored(At(e.hw, start + 9), MaxByte(Mrrs(At(e.vconfig, start + 9)), Mps(At(e.hw, start + 8))), At(e.ro, start + 9));
    hide Stored, Merge, Mrrs, Mps;
  }

  lemma MrrsStored(was: byte, code: byte, ro: byte)
    requires ro & 0x70 == 0
    ensures code <= 5 ==> Mrrs(Stored(was, Merge(was, code << 4, 0x70), ro)) == code
  {
  }

  // What the table lets through: of the lower byte all but the payload size, of the upper one
  // nothing of the request size in hardware and all of it in the copy.
  lemma ControlBits(was: byte, now: byte, ro: byte)
    ensures Mps(Stored(was, Merge(was, now, 0xFF & !0xE0), ro)) == Mps(was)
    ensures Mrrs(Stored(was, Merge(was, now, 0xFD & !0xF0), ro)) == Mrrs(was)
    ensures Mrrs(Merge(was, now, 0xFD & 0xF0)) == Mrrs(now)
  {
  }

  lemma InitiatedBits(ctl: byte)
    ensures Mrrs(Initiated(ctl)) == Mrrs(ctl)
  {
  }

  // What the table stores.
  lemma StoredControl(s: Vdev, start: nat, pos: nat, bytes: seq<byte>)
    requires start <= pos && start + 12 <= |s.vconfig| == |s.hw|
    ensures var d := DefaultWrite(s, Exp, start, pos, bytes); var r := start + 9;
      && Mrrs(At(d.vconfig, r)) == Mrrs(Put(pos, bytes, r, At(s.vconfig, r))) && Mrrs(At(d.hw, r)) == Mrrs(At(s.hw, r))
      && Mps(At(d.hw, r - 1)) == Mps(At(s.hw, r - 1))
  {
    var r := start + 9;
    DefaultByte(s, Exp, start, pos, bytes, r);
    DefaultByte(s, Exp, start, pos, bytes, r - 1);
    hide DefaultWrite, Mrrs, Mps;
    if CoversByte(pos, |bytes|, r) {
      ControlBits(At(s.vconfig, r), bytes[r - pos], 0);
      ControlBits(At(s.hw, r), bytes[r - pos], At(s.ro, r));
    }
    if CoversByte(pos, |bytes|, r - 1) {
      ControlBits(At(s.hw, r - 1), bytes[r - 1 - pos], At(s.ro, r - 1));
    }
    hide Merge, Stored;
  }

  // One write of the handler.
  lemma ExpControl(s: Vdev, start: nat, pos: nat, bytes: seq<byte>)
    requires start <= pos && start + 12 <= |s.vconfig| == |s.hw| && At(s.ro, start + 9) & 0x70 == 0
    ensures var t := ExpWrite(s, start, pos, bytes); var r := start + 9;
      Moved(s, t, r, Mrrs(Put(pos, bytes, r, At(s.vconfig, r))))
  {
    hide DefaultWrite, Mrrs, Mps, FlrHandled, MrrsFollow, At;
    var d := DefaultWrite(s, Exp, start, pos, bytes);
    StoredControl(s, start, pos, bytes);
    DefaultKeeps(s, Exp, start, pos, bytes);
    FlrKeepsMrrs(d, start);
    FlrHw(d, start);
    MrrsFloor(FlrHandled(d, start), start, Mrrs(At(s.vconfig, start + 9)));
  }

  lemma FlrKeepsMrrs(d: Vdev, start: nat)
    requires start + 9 < |d.vconfig|
    ensures Mrrs(At(FlrHandled(d, start).vconfig, start + 9)) == Mrrs(At(d.vconfig, start + 9))
  {
    InitiatedBits(At(d.vconfig, start + 9));
    hide Mrrs, Initiated;
  }

  // From `s` to `t` the guest's size at `r` became `after`, and hardware followed.
  predicate Moved(s: Vdev, t: Vdev, r: nat, after: byte)
    requires r > 0
  {
    && Mrrs(At(t.vconfig, r)) == after
    && Mps(At(t.hw, r - 1)) == Mps(At(s.hw, r - 1))
    && Mrrs(At(t.hw, r)) == Granted(Mrrs(At(s.vconfig, r)), after, Mps(At(s.hw, r - 1)), Mrrs(At(s.hw, r)))
  }

  lemma ControlChunk(s: Vdev, caps: set<Cap>, c: Cap, pos: nat, count: nat, bytes: seq<byte>)
    requires Good(s, caps) && c in caps && IsExp(c) && At(s.ro, c.start + 9) & 0x70 == 0
    requires 0 < count && |bytes| == ChunkLen(s.owner, pos, count)
    ensures var r := c.start + 9; Moved(s, WriteChunk(s, pos, bytes), r, Mrrs(Put(pos, bytes, r, At(s.vconfig, r))))
  {
    EnablesRoute(s, caps, c, c.start + 7, pos);
    ResetRoute(s, caps, c, c.start + 9, 0x80, pos);
    hide Good, WriteChunk, KindAt, StartOf, ChunkLen, At, Mrrs, Mps, ExpWrite;
    if c.Has(pos) {
      Handled(s, pos, bytes);
      ExpControl(s, c.start, pos, bytes);
    } else {
      Elsewhere(s, caps, c, pos, count, bytes, c.start + 9);
      HwElsewhere(s, caps, c, pos, count, bytes, c.start + 9);
      HwElsewhere(s, caps, c, pos, count, bytes, c.start + 8);
    }
  }

  // After a guest write of any position and length, hardware has the larger of the guest's new read
  // request size and its own payload size, if the guest changed its size and there is such a size;
  // otherwise it keeps its own.
  lemma {:induction false} MrrsAccess(s: Vdev, caps: set<Cap>, c: Cap, pos: nat, bytes: seq<byte>)
    requires Good(s, caps) && c in caps && IsExp(c) && At(s.ro, c.start + 9) & 0x70 == 0 && pos + |bytes| <= |s.owner|
    ensures var r := c.start + 9; Moved(s, WriteAccess(s, pos, bytes), r, Mrrs(Put(pos, bytes, r, At(s.vconfig, r))))
    decreases |bytes|
  {
    hide Good, WriteChunk, ChunkLen, At, Mrrs, Mps, IsExp;
    var r := c.start + 9;
    if bytes != [] {
      var n := ChunkLen(s.owner, pos, |bytes|);
      var t := WriteChunk(s, pos, bytes[..n]);
      WriteFrame(s, pos, bytes[..n]);
      GoodFramed(s, t, caps);
      ControlChunk(s, caps, c, pos, |bytes|, bytes[..n]);
      MrrsAccess(t, caps, c, pos + n, bytes[n..]);
    }
  }
}
