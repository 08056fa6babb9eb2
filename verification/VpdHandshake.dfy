/** The VPD handshake: a guest that writes data and then an address with the F bit set stores the
    data, one that writes an address with the F bit clear gets it back, however the accesses are
    split and whatever else happens in between. */
module VpdHandshake {
  import opened Bytes
  import opened PciCaps
  import opened StdCapInit
  import opened Layout
  import opened Perms
  import opened Routing
  import opened ConfigAccess
  import opened ListLinks
  import opened GuestRuns
  import opened ByteRules

  // `c` is the only VPD capability.
  ghost predicate VpdCap(caps: set<Cap>, c: Cap) {
    && IsVpd(c) && c in caps
    && forall d :: d in caps && IsVpd(d) ==> d == c
  }

  predicate IsVpd(c: Cap) { c.start < STD_SPACE && Num(c.id) == ID_VPD }

  // The byte whose write triggers an operation: the upper address byte, with the F bit.
  function Trigger(c: Cap): nat { c.start + 3 }

  // Address and data bytes.
  predicate Register(c: Cap, q: nat) { c.start + 2 <= q < c.start + 8 }

  // ---------------------------------------------------------------- chunks that trigger nothing

  lemma VpdRoute(s: Vdev, caps: set<Cap>, c: Cap, pos: nat)
    requires Good(s, caps) && VpdCap(caps, c)
    ensures c.Has(pos) <==> KindAt(s.owner, pos) == Vpd
    ensures c.Has(pos) ==> StartOf(s.owner, pos) == c.start
    ensures c.len == 8 && c.start % 4 == 0 && HEADER <= c.start && c.start + 8 <= STD_SPACE <= |s.owner|
  {
    assert CapFits(c, |s.owner|) && Layout.Sized(c, s.msi);
    if c.Has(pos) {
      StartOfCap(s.owner, caps, s.msi, c, pos);
    } else if KindAt(s.owner, pos) == Vpd {
      var _ := VpdOwner(s, caps, pos);
    }
  }

  lemma VpdOwner(s: Vdev, caps: set<Cap>, pos: nat) returns (d: Cap)
    requires Good(s, caps) && KindAt(s.owner, pos) == Vpd
    ensures d in caps && d.Has(pos) && IsVpd(d)
  {
    hide Layout.Sized;
    assert pos >= HEADER && At(s.owner, pos) != INVALID;
    d :| d in caps && d.Has(pos);
    assert CapFits(d, |s.owner|) && At(s.owner, pos) == d.id;
  }

  lemma VpdKept(s: Vdev, pos: nat, bytes: seq<byte>)
    requires KindAt(s.owner, pos) != Vpd
    ensures WriteChunk(s, pos, bytes).vpd == s.vpd
  {
    var k, start := KindAt(s.owner, pos), StartOf(s.owner, pos);
    hide KindAt, StartOf, Blend, HwStore, MsiFixed, Merge, Stored, At, VpdWrite, DefaultWrite, BasicWrite;
    DefaultKeeps(s, k, start, pos, bytes);
    if k == Basic { BasicRest(s, pos, bytes); }
  }

  // A chunk of this capability that does not cover the trigger just stores its bytes.
  lemma OwnChunk(s: Vdev, c: Cap, pos: nat, bytes: seq<byte>, q: nat)
    requires KindAt(s.owner, pos) == Vpd && StartOf(s.owner, pos) == c.start <= pos && !CoversByte(pos, |bytes|, Trigger(c))
    requires Register(c, q) && q < |s.vconfig| == |s.hw|
    ensures var t := WriteChunk(s, pos, bytes); t.vpd == s.vpd && At(t.vconfig, q) == Put(pos, bytes, q, At(s.vconfig, q))
  {
    hide KindAt, StartOf, DefaultWrite;
    DefaultByte(s, Vpd, c.start, pos, bytes, q);
    if CoversByte(pos, |bytes|, q) {
      MergeFacts(At(s.vconfig, q), bytes[q - pos], 0);
    }
    DefaultKeeps(s, Vpd, c.start, pos, bytes);
  }

  lemma QuietChunk(s: Vdev, caps: set<Cap>, c: Cap, pos: nat, count: nat, bytes: seq<byte>, q: nat)
    requires Good(s, caps) && VpdCap(caps, c) && Register(c, q)
    requires 0 < count && |bytes| == ChunkLen(s.owner, pos, count) && !CoversByte(pos, |bytes|, Trigger(c))
    ensures var t := WriteChunk(s, pos, bytes); t.vpd == s.vpd && At(t.vconfig, q) == Put(pos, bytes, q, At(s.vconfig, q))
  {
    VpdRoute(s, caps, c, pos);
    hide WriteChunk, KindAt, StartOf, ChunkLen, Laid;
    if c.Has(pos) {
      OwnChunk(s, c, pos, bytes, q);
    } else {
      VpdKept(s, pos, bytes);
      Elsewhere(s, caps, c, pos, count, bytes, q);
    }
  }

  lemma {:induction false} QuietAccess(s: Vdev, caps: set<Cap>, c: Cap, pos: nat, bytes: seq<byte>, q: nat)
    requires Good(s, caps) && VpdCap(caps, c) && Register(c, q)
    requires pos + |bytes| <= |s.owner| && !CoversByte(pos, |bytes|, Trigger(c))
    ensures var t := WriteAccess(s, pos, bytes);
      Good(t, caps) && t.vpd == s.vpd && At(t.vconfig, q) == Put(pos, bytes, q, At(s.vconfig, q)) && t.owner == s.owner
    decreases |bytes|
  {
    hide Good, WriteChunk, ChunkLen, VpdCap, At;
    if bytes != [] {
      var n := ChunkLen(s.owner, pos, |bytes|);
      var t := WriteChunk(s, pos, bytes[..n]);
      WriteFrame(s, pos, bytes[..n]);
      GoodFramed(s, t, caps);
      QuietChunk(s, caps, c, pos, |bytes|, bytes[..n], q);
      QuietAccess(t, caps, c, pos + n, bytes[n..], q);
    }
  }

  // ---------------------------------------------------------------- runs that trigger nothing

  predicate Quiet(e: Event, c: Cap) { e.GuestWrite? ==> !CoversByte(e.pos, |e.bytes|, Trigger(c)) }

  lemma {:induction false} ReadKeepsVpd(s: Vdev, caps: set<Cap>, c: Cap, pos: nat, count: nat, q: nat)
    requires Good(s, caps) && VpdCap(caps, c) && Register(c, q)
    ensures var t := ReadAccess(s, pos, count).0; t.vpd == s.vpd && At(t.vconfig, q) == At(s.vconfig, q)
    decreases count
  {
    hide Good, ReadPrep, ChunkLen, ReadBytes, VpdCap, Register, At;
    if count > 0 {
      var n := ChunkLen(s.owner, pos, count);
      var t := ReadPrep(s, pos, n);
      ReadPrepFrame(s, pos, n);
      GoodFramed(s, t, caps);
      PrepKeepsVpd(s, caps, c, pos, n, q);
      ReadKeepsVpd(t, caps, c, pos + n, count - n, q);
    }
  }

  lemma PrepKeepsVpd(s: Vdev, caps: set<Cap>, c: Cap, pos: nat, n: nat, q: nat)
    requires Good(s, caps) && VpdCap(caps, c) && Register(c, q)
    ensures var t := ReadPrep(s, pos, n); t.vpd == s.vpd && At(t.vconfig, q) == At(s.vconfig, q)
  {
    hide Good, VpdCap, KindAt, StartOf, BarFixup, At, Poke, QueueMax;
    VpdRoute(s, caps, c, q);
    FixupAt(s, q);
    FixupVpd(s);
    if KindAt(s.owner, pos) == Msi {
      MsiNotVpd(s, caps, c, pos);
      var start := StartOf(s.owner, pos);
      PokeAt(s.vconfig, start, QueueMax(At(s.vconfig, start), s.qmax), q);
    }
  }

  // An MSI capability starts outside the registers.
  lemma MsiNotVpd(s: Vdev, caps: set<Cap>, c: Cap, pos: nat)
    requires Good(s, caps) && VpdCap(caps, c) && KindAt(s.owner, pos) == Msi
    ensures !Register(c, StartOf(s.owner, pos))
  {
    hide KindAt, StartOf, Laid, VpdCap;
    Routed(s.owner, caps, s.msi, pos);
    var d :| d in caps && d.Has(pos) && StartOf(s.owner, pos) == d.start;
    StartOfCap(s.owner, caps, s.msi, d, pos);
    VpdRoute(s, caps, c, d.start);
  }

  lemma FixupVpd(s: Vdev)
    ensures BarFixup(s).vpd == s.vpd
  {
    hide FixBars, FixRom;
  }

  lemma QuietStep(s: Vdev, caps: set<Cap>, c: Cap, e: Event, q: nat)
    requires Good(s, caps) && VpdCap(caps, c) && Register(c, q) && Quiet(e, c)
    ensures var t := Step(s, e);
      t.vpd == s.vpd && |t.owner| == |s.owner| && At(t.vconfig, q) == LastWritten([e], |s.owner|, q, At(s.vconfig, q))
  {
    hide Good, ReadAccess, WriteAccess, VpdCap, Register, At, Settled, Trigger;
    match e {
      case GuestRead(pos, count) => ReadKeepsVpd(s, caps, c, pos, count, q); ReadOwner(s, pos, count);
      case GuestWrite(pos, bytes) => if pos + |bytes| <= |s.owner| { QuietAccess(s, caps, c, pos, bytes, q); }
      case HwChange(values) =>
      case IrqMode(msiMode, qmax) =>
    }
  }

  lemma {:induction false} ReadOwner(s: Vdev, pos: nat, count: nat)
    ensures ReadAccess(s, pos, count).0.owner == s.owner
    decreases count
  {
    hide ReadPrep, ChunkLen, ReadBytes;
    if count > 0 {
      var n := ChunkLen(s.owner, pos, count);
      ReadPrepFrame(s, pos, n);
      ReadOwner(ReadPrep(s, pos, n), pos + n, count - n);
    }
  }

  // However the guest prepares the registers, nothing reaches the storage before the upper
  // address byte is written, and the registers hold what was last written to them.
  lemma {:induction false} QuietRun(s: Vdev, caps: set<Cap>, c: Cap, es: seq<Event>, q: nat)
    requires Steady(s, caps) && VpdCap(caps, c) && Register(c, q) && forall e :: e in es ==> Quiet(e, c)
    ensures var t := Run(s, es);
      && t.vpd == s.vpd && |t.owner| == |s.owner|
      && At(t.vconfig, q) == LastWritten(es, |s.owner|, q, At(s.vconfig, q))
    decreases |es|
  {
    hide Steady, Step, VpdCap, Quiet, Register, At, Put;
    if es != [] {
      SteadyGood(s, caps);
      StepSteady(s, caps, es[0]);
      QuietStep(s, caps, c, es[0], q);
      QuietRun(Step(s, es[0]), caps, c, es[1..], q);
    }
  }

  // ---------------------------------------------------------------- the write that triggers

  // Storage, data register and upper address byte.
  datatype Regs = Regs(store: seq<byte>, data: seq<byte>, hi: byte)

  function RegsOf(s: Vdev, c: Cap): Regs { Regs(s.vpd, Dword(s.vconfig, c.start + 4), At(s.vconfig, Trigger(c))) }

  // The operation an address asks for: F set stores, F clear fetches, and F flips on success.
  function Operate(store: seq<byte>, data: seq<byte>, lo: byte, hi: byte): Regs {
    if VpdF(hi) then
      if VpdTakes(store, VpdAddr(lo, hi)) then Regs(Poke4(store, VpdAddr(lo, hi), data), data, VpdFlip(hi)) else Regs(store, data, hi)
    else if store == [] then Regs(store, data, hi)
    else Regs(store, VpdDword(store, VpdAddr(lo, hi)), VpdFlip(hi))
  }

  lemma PokeData(v: seq<byte>, at: nat, data: seq<byte>, b: byte)
    requires 1 <= at && at + 4 <= |v| && |data| == 4
    ensures Dword(Poke(Poke4(v, at, data), at - 1, b), at) == data && At(Poke(Poke4(v, at, data), at - 1, b), at - 1) == b
    ensures Dword(Poke(v, at - 1, b), at) == Dword(v, at) && At(Poke(v, at - 1, b), at - 1) == b
  {
    assert data == [data[0], data[1], data[2], data[3]];
  }

  lemma VpdDwordLen(store: seq<byte>, addr: nat)
    ensures |VpdDword(store, addr)| == 4
  {
    hide VpdGet;
  }

  lemma OpTriggers(s: Vdev, c: Cap)
    requires c.start + 8 <= |s.vconfig|
    ensures RegsOf(VpdOp(s, c.start), c) ==
      Operate(s.vpd, Dword(s.vconfig, c.start + 4), At(s.vconfig, c.start + 2), At(s.vconfig, c.start + 3))
  {
    hide VpdTakes, VpdDword, VpdAddr, VpdF, VpdFlip, Poke, Poke4, Dword, At;
    var lo, hi := At(s.vconfig, c.start + 2), At(s.vconfig, c.start + 3);
    var addr := VpdAddr(lo, hi);
    var t := VpdOp(s, c.start);
    VpdDwordLen(s.vpd, addr);
    PokeData(s.vconfig, c.start + 4, VpdDword(s.vpd, addr), VpdFlip(hi));
    if VpdF(hi) && VpdTakes(s.vpd, addr) {
      assert t.vconfig == Poke(s.vconfig, c.start + 3, VpdFlip(hi));
    } else if VpdF(hi) || s.vpd == [] {
      assert t == s;
    } else {
      assert t.vconfig == Poke(Poke4(s.vconfig, c.start + 4, VpdDword(s.vpd, addr)), c.start + 3, VpdFlip(hi));
    }
  }

  lemma TriggerRoute(s: Vdev, c: Cap, pos: nat, bytes: seq<byte>)
    requires KindAt(s.owner, pos) == Vpd && StartOf(s.owner, pos) == c.start <= pos && CoversByte(pos, |bytes|, Trigger(c))
    ensures WriteChunk(s, pos, bytes) == VpdOp(DefaultWrite(s, Vpd, c.start, pos, bytes), c.start)
  {
    hide KindAt, StartOf, DefaultWrite, VpdOp;
  }

  lemma StoredByte(s: Vdev, c: Cap, pos: nat, bytes: seq<byte>, q: nat)
    requires c.start <= pos && Register(c, q) && q < |s.vconfig| == |s.hw|
    ensures At(DefaultWrite(s, Vpd, c.start, pos, bytes).vconfig, q) == Put(pos, bytes, q, At(s.vconfig, q))
  {
    hide DefaultWrite;
    DefaultByte(s, Vpd, c.start, pos, bytes, q);
    if CoversByte(pos, |bytes|, q) {
      MergeFacts(At(s.vconfig, q), bytes[q - pos], 0);
    }
  }

  lemma StoredData(s: Vdev, c: Cap, pos: nat, bytes: seq<byte>)
    requires c.start <= pos && pos + |bytes| <= c.start + 4 && c.start + 8 <= |s.vconfig| == |s.hw|
    ensures Dword(DefaultWrite(s, Vpd, c.start, pos, bytes).vconfig, c.start + 4) == Dword(s.vconfig, c.start + 4)
  {
    hide DefaultWrite, At;
    StoredByte(s, c, pos, bytes, c.start + 4);
    StoredByte(s, c, pos, bytes, c.start + 5);
    StoredByte(s, c, pos, bytes, c.start + 6);
    StoredByte(s, c, pos, bytes, c.start + 7);
  }

  // The chunk that covers the trigger lies in the address dword and stores before it triggers.
  lemma SizesOf(s: Vdev, caps: set<Cap>)
    requires Good(s, caps)
    ensures |s.vconfig| == |s.hw| == |s.owner|
  {
    hide Laid;
  }

  lemma TriggerChunk(s: Vdev, caps: set<Cap>, c: Cap, pos: nat, bytes: seq<byte>)
    requires Good(s, caps) && VpdCap(caps, c) && c.start <= pos <= Trigger(c) && pos + |bytes| == c.start + 4
    ensures RegsOf(WriteChunk(s, pos, bytes), c) ==
      Operate(s.vpd, Dword(s.vconfig, c.start + 4), Put(pos, bytes, c.start + 2, At(s.vconfig, c.start + 2)), bytes[|bytes| - 1])
  {
    hide Good, VpdCap, KindAt, StartOf, DefaultWrite, VpdOp, Operate, WriteChunk, At, Dword, RegsOf;
    SizesOf(s, caps);
    VpdRoute(s, caps, c, pos);
    TriggerRoute(s, c, pos, bytes);
    DefaultKeeps(s, Vpd, c.start, pos, bytes);
    OpTriggers(DefaultWrite(s, Vpd, c.start, pos, bytes), c);
    StoredByte(s, c, pos, bytes, c.start + 2);
    StoredByte(s, c, pos, bytes, c.start + 3);
    StoredData(s, c, pos, bytes);
  }

  lemma QuietData(s: Vdev, caps: set<Cap>, c: Cap, pos: nat, count: nat, bytes: seq<byte>)
    requires Good(s, caps) && VpdCap(caps, c) && c.start <= pos && pos + |bytes| <= Trigger(c)
    requires 0 < count && |bytes| == ChunkLen(s.owner, pos, count)
    ensures var t := WriteChunk(s, pos, bytes); t.vpd == s.vpd && Dword(t.vconfig, c.start + 4) == Dword(s.vconfig, c.start + 4)
  {
    hide Good, WriteChunk, ChunkLen, VpdCap, At;
    QuietChunk(s, caps, c, pos, count, bytes, c.start + 4);
    QuietChunk(s, caps, c, pos, count, bytes, c.start + 5);
    QuietChunk(s, caps, c, pos, count, bytes, c.start + 6);
    QuietChunk(s, caps, c, pos, count, bytes, c.start + 7);
  }

  // An access that ends with the upper address byte triggers exactly one operation, with the
  // address it leaves in the register, however it is split.
  lemma {:induction false} TriggerAccess(s: Vdev, caps: set<Cap>, c: Cap, pos: nat, bytes: seq<byte>)
    requires Good(s, caps) && VpdCap(caps, c) && c.start <= pos <= Trigger(c) && pos + |bytes| == c.start + 4
    ensures RegsOf(WriteAccess(s, pos, bytes), c) ==
      Operate(s.vpd, Dword(s.vconfig, c.start + 4), Put(pos, bytes, c.start + 2, At(s.vconfig, c.start + 2)), bytes[|bytes| - 1])
    decreases |bytes|
  {
    hide Good, WriteChunk, ChunkLen, VpdCap, RegsOf, Operate, At, Dword;
    var n := ChunkLen(s.owner, pos, |bytes|);
    var t := WriteChunk(s, pos, bytes[..n]);
    WriteFrame(s, pos, bytes[..n]);
    GoodFramed(s, t, caps);
    if n == |bytes| {
      LastChunk(s, pos, bytes);
      TriggerChunk(s, caps, c, pos, bytes);
    } else {
      assert bytes[n..][|bytes| - n - 1] == bytes[|bytes| - 1];
      TriggerAccess(t, caps, c, pos + n, bytes[n..]);
      QuietData(s, caps, c, pos, |bytes|, bytes[..n]);
      QuietChunk(s, caps, c, pos, |bytes|, bytes[..n], c.start + 2);
    }
  }

  lemma LastChunk(s: Vdev, pos: nat, bytes: seq<byte>)
    requires bytes != [] && ChunkLen(s.owner, pos, |bytes|) == |bytes|
    ensures WriteAccess(s, pos, bytes) == WriteChunk(s, pos, bytes)
  {
    hide WriteChunk, ChunkLen;
    assert bytes[..|bytes|] == bytes;
  }

  // ---------------------------------------------------------------- the handshake

  // A guest prepares the registers among any other events, then writes an address.
  datatype Attempt = Attempt(before: seq<Event>, pos: nat, bytes: seq<byte>)
  {
    ghost predicate Legal(c: Cap) {
      && (forall e :: e in before ==> Quiet(e, c))
      && c.start <= pos <= Trigger(c) && pos + |bytes| == c.start + 4
    }
    function After(s: Vdev): Vdev { WriteAccess(Run(s, before), pos, bytes) }
    // The address and the data, as last written.
    function Hi(): byte { if bytes == [] then 0 else bytes[|bytes| - 1] }
    function Lo(s: Vdev, c: Cap): byte { Put(pos, bytes, c.start + 2, Prepared(s, c.start + 2)) }
    function Data(s: Vdev, c: Cap): seq<byte> {
      [Prepared(s, c.start + 4), Prepared(s, c.start + 5), Prepared(s, c.start + 6), Prepared(s, c.start + 7)]
    }
    function Prepared(s: Vdev, q: nat): byte { LastWritten(before, |s.owner|, q, At(s.vconfig, q)) }
    function Address(s: Vdev, c: Cap): nat { VpdAddr(Lo(s, c), Hi()) }
    predicate Stores() { VpdF(Hi()) }
  }

  lemma PreparedRun(s: Vdev, caps: set<Cap>, c: Cap, a: Attempt)
    requires Steady(s, caps) && VpdCap(caps, c) && a.Legal(c)
    ensures var t := Run(s, a.before);
      && t.vpd == s.vpd && At(t.vconfig, c.start + 2) == a.Prepared(s, c.start + 2)
      && Dword(t.vconfig, c.start + 4) == a.Data(s, c) && Steady(t, caps) && |t.owner| == |s.owner|
  {
    hide Steady, Run, VpdCap, Quiet, LastWritten, At;
    QuietRun(s, caps, c, a.before, c.start + 2);
    QuietRun(s, caps, c, a.before, c.start + 4);
    QuietRun(s, caps, c, a.before, c.start + 5);
    QuietRun(s, caps, c, a.before, c.start + 6);
    QuietRun(s, caps, c, a.before, c.start + 7);
    RunSteady(s, caps, a.before);
  }

  // What the guest prepared and the address it writes last decide what happens.
  lemma Handshake(s: Vdev, caps: set<Cap>, c: Cap, a: Attempt)
    requires Steady(s, caps) && VpdCap(caps, c) && a.Legal(c)
    ensures RegsOf(a.After(s), c) == Operate(s.vpd, a.Data(s, c), a.Lo(s, c), a.Hi())
    ensures Steady(a.After(s), caps) && |a.After(s).owner| == |s.owner|
  {
    hide Steady, Run, VpdCap, RegsOf, Operate, Put, At, Dword, WriteAccess, Attempt.Data, Attempt.Prepared, KindAt, StartOf, Good;
    var t := Run(s, a.before);
    SteadyGood(s, caps);
    VpdRoute(s, caps, c, c.start);
    PreparedRun(s, caps, c, a);
    SteadyGood(t, caps);
    TriggerAccess(t, caps, c, a.pos, a.bytes);
    WriteSteady(t, caps, a.pos, a.bytes);
  }

  // What one operation leaves at an address the storage takes.
  lemma OperateAt(store: seq<byte>, data: seq<byte>, lo: byte, hi: byte, addr: nat)
    requires |data| == 4 && VpdTakes(store, addr)
    ensures var r := Operate(store, data, lo, hi);
      && |r.store| == |store|
      && VpdDword(r.store, addr) == (if VpdF(hi) && VpdAddr(lo, hi) == addr then data else VpdDword(store, addr))
      && (VpdF(hi) && VpdAddr(lo, hi) == addr ==> !VpdF(r.hi))
      && (!VpdF(hi) && VpdAddr(lo, hi) == addr ==> r.data == VpdDword(store, addr) && VpdF(r.hi))
  {
    FlipsF(hi);
    hide VpdFlip, VpdF;
    var a := VpdAddr(lo, hi);
    hide VpdAddr;
    if VpdTakes(store, a) {
      PokedDword(store, a, data, addr);
    }
  }

  lemma FlipsF(hi: byte)
    ensures VpdF(VpdFlip(hi)) == !VpdF(hi)
  {
  }

  lemma PokedDword(store: seq<byte>, a: nat, data: seq<byte>, addr: nat)
    requires |data| == 4 && VpdTakes(store, a) && VpdTakes(store, addr)
    ensures var t := Poke4(store, a, data); |t| == |store| && VpdDword(t, addr) == if a == addr then data else VpdDword(store, addr)
  {
    assert data == [data[0], data[1], data[2], data[3]];
  }

  // What the guest reads in a VPD register, in an access of any shape, is the virtual byte.
  lemma RegisterRead(s: Vdev, caps: set<Cap>, c: Cap, pos: nat, count: nat, q: nat)
    requires Steady(s, caps) && VpdCap(caps, c) && Register(c, q)
    requires pos <= q < pos + count && pos + count <= |s.owner|
    ensures Got(s, pos, count, q) == At(s.vconfig, q)
  {
    SteadyGood(s, caps);
    VpdRoute(s, caps, c, q);
    SeenVirtual(s, c, q);
    VpdPlain(s, q);
    hide *;
    ReadRule(s, caps, pos, count, q);
  }

  lemma VpdPlain(s: Vdev, q: nat)
    requires KindAt(s.owner, q) == Vpd
    ensures Readable(s, q)
  {
    hide KindAt;
  }

  lemma SeenVirtual(s: Vdev, c: Cap, q: nat)
    requires KindAt(s.owner, q) == Vpd && StartOf(s.owner, q) == c.start && Register(c, q)
    ensures Seen(s, q) == At(s.vconfig, q)
  {
    hide KindAt, StartOf;
    MergeFacts(At(s.hw, q), At(s.vconfig, q), 0);
  }

  // ---------------------------------------------------------------- any number of attempts

  // The state after a sequence of attempts.
  ghost function AfterAll(s: Vdev, attempts: seq<Attempt>): Vdev
    decreases |attempts|
  {
    if attempts == [] then s else AfterAll(attempts[0].After(s), attempts[1..])
  }

  // The data last prepared for a store at `addr`, `was` if there was none.
  ghost function LastStored(s: Vdev, c: Cap, attempts: seq<Attempt>, addr: nat, was: seq<byte>): seq<byte>
    decreases |attempts|
  {
    if attempts == [] then was
    else
      var a := attempts[0];
      LastStored(a.After(s), c, attempts[1..], addr, if a.Stores() && a.Address(s, c) == addr then a.Data(s, c) else was)
  }

  // No attempt stores at `addr`.
  ghost predicate Spares(s: Vdev, c: Cap, attempts: seq<Attempt>, addr: nat)
    decreases |attempts|
  {
    attempts == [] ||
    (!(attempts[0].Stores() && attempts[0].Address(s, c) == addr) && Spares(attempts[0].After(s), c, attempts[1..], addr))
  }

  lemma {:induction false} SparedStore(s: Vdev, c: Cap, attempts: seq<Attempt>, addr: nat, was: seq<byte>)
    requires Spares(s, c, attempts, addr)
    ensures LastStored(s, c, attempts, addr, was) == was
    decreases |attempts|
  {
    if attempts != [] {
      SparedStore(attempts[0].After(s), c, attempts[1..], addr, was);
    }
  }

  // One attempt changes the storage only at the address it stores at; a fetch shows what is there.
  lemma OneAttempt(s: Vdev, caps: set<Cap>, c: Cap, a: Attempt, addr: nat)
    requires Steady(s, caps) && VpdCap(caps, c) && a.Legal(c) && VpdTakes(s.vpd, addr)
    ensures var t := a.After(s); var here := a.Address(s, c) == addr;
      && Steady(t, caps) && |t.owner| == |s.owner| && |t.vpd| == |s.vpd|
      && VpdDword(t.vpd, addr) == (if a.Stores() && here then a.Data(s, c) else VpdDword(s.vpd, addr))
      && (a.Stores() && here ==> !VpdF(At(t.vconfig, Trigger(c))))
      && (!a.Stores() && here ==> Dword(t.vconfig, c.start + 4) == VpdDword(s.vpd, addr) && VpdF(At(t.vconfig, Trigger(c))))
  {
    DataRange(s, c, a);
    OperateAt(s.vpd, a.Data(s, c), a.Lo(s, c), a.Hi(), addr);
    hide Steady, VpdCap, Attempt.Legal, Attempt.After, Attempt.Data, Attempt.Lo, Attempt.Hi, VpdDword, VpdTakes, VpdF, VpdAddr, At, Dword, Operate;
    Handshake(s, caps, c, a);
    RegsFields(a.After(s), c);
  }

  // The storage is a memory: after any sequence of attempts an address holds what was last stored there.
  lemma {:induction false} StorageRemembers(s: Vdev, caps: set<Cap>, c: Cap, attempts: seq<Attempt>, addr: nat)
    requires Steady(s, caps) && VpdCap(caps, c) && VpdTakes(s.vpd, addr) && forall a :: a in attempts ==> a.Legal(c)
    ensures var t := AfterAll(s, attempts);
      && Steady(t, caps) && |t.owner| == |s.owner| && |t.vpd| == |s.vpd|
      && VpdDword(t.vpd, addr) == LastStored(s, c, attempts, addr, VpdDword(s.vpd, addr))
    decreases |attempts|
  {
    hide Steady, VpdCap, Attempt.Legal, Attempt.After, Attempt.Data, Attempt.Address, Attempt.Stores, VpdDword;
    if attempts != [] {
      OneAttempt(s, caps, c, attempts[0], addr);
      StorageRemembers(attempts[0].After(s), caps, c, attempts[1..], addr);
    }
  }

  // After any sequence of attempts a fetch brings into the data register what was last stored at its
  // address, and sets F.
  lemma FetchesLast(s: Vdev, caps: set<Cap>, c: Cap, attempts: seq<Attempt>, b: Attempt)
    requires Steady(s, caps) && VpdCap(caps, c) && b.Legal(c) && forall a :: a in attempts ==> a.Legal(c)
    requires var addr := b.Address(AfterAll(s, attempts), c); !b.Stores() && VpdTakes(s.vpd, addr)
    ensures var t := AfterAll(s, attempts); var u := b.After(t); var addr := b.Address(t, c);
      && Steady(u, caps) && |u.owner| == |s.owner| && VpdF(At(u.vconfig, Trigger(c)))
      && Dword(u.vconfig, c.start + 4) == LastStored(s, c, attempts, addr, VpdDword(s.vpd, addr))
  {
    var t := AfterAll(s, attempts);
    var addr := b.Address(t, c);
    TakesSame(s.vpd, t.vpd, addr);
    hide *;
    StorageRemembers(s, caps, c, attempts, addr);
    OneAttempt(t, caps, c, b, addr);
  }

  lemma TakesSame(store: seq<byte>, store': seq<byte>, addr: nat)
    requires VpdTakes(store, addr)
    ensures |store'| == |store| ==> VpdTakes(store', addr)
  {
  }

  // ---------------------------------------------------------------- the round trip

  // An event that leaves data byte `k` alone and triggers nothing.
  predicate Undisturbed(e: Event, c: Cap, k: nat) { Quiet(e, c) && (e.GuestWrite? ==> !CoversByte(e.pos, |e.bytes|, c.start + 4 + k)) }

  lemma {:induction false} LastWrittenSame(es: seq<Event>, size: nat, q: nat, was: byte)
    requires forall e :: e in es && e.GuestWrite? ==> !CoversByte(e.pos, |e.bytes|, q)
    ensures LastWritten(es, size, q, was) == was
    decreases |es|
  {
    if es != [] {
      assert es[0] in es;
      LastWrittenSame(es[1..], size, q, was);
    }
  }

  // The guest stores at an address; then come any attempts at all that do not store there, a fetch
  // from it, and any events that leave the data byte alone: a read of any shape that covers the byte
  // returns what was prepared for the store.  The store has cleared F and the fetch has set it.
  lemma RoundTrip(s: Vdev, caps: set<Cap>, c: Cap, a: Attempt, others: seq<Attempt>, b: Attempt, after: seq<Event>,
                  at: nat, count: nat, k: nat)
    requires Steady(s, caps) && VpdCap(caps, c) && a.Legal(c) && b.Legal(c) && forall m :: m in others ==> m.Legal(c)
    requires a.Stores() && VpdTakes(s.vpd, a.Address(s, c)) && Spares(a.After(s), c, others, a.Address(s, c))
    requires !b.Stores() && b.Address(AfterAll(a.After(s), others), c) == a.Address(s, c)
    requires k < 4 && (forall e :: e in after ==> Undisturbed(e, c, k))
    requires at <= c.start + 4 + k < at + count && at + count <= |s.owner|
    ensures var t := a.After(s); var u := b.After(AfterAll(t, others));
      && !VpdF(At(t.vconfig, Trigger(c))) && VpdF(At(u.vconfig, Trigger(c)))
      && |a.Data(s, c)| == 4 && Got(Run(u, after), at, count, c.start + 4 + k) == a.Data(s, c)[k]
  {
    var t := a.After(s);
    var u := b.After(AfterAll(t, others));
    hide *;
    DataRange(s, c, a);
    StoredFirst(s, caps, c, a, others, b);
    AfterFetch(u, caps, c, after, k);
    DwordAt(u.vconfig, c.start + 4, a.Data(s, c), k);
    DataRead(Run(u, after), caps, c, at, count, a.Data(s, c), k);
  }

  lemma StoredFirst(s: Vdev, caps: set<Cap>, c: Cap, a: Attempt, others: seq<Attempt>, b: Attempt)
    requires Steady(s, caps) && VpdCap(caps, c) && a.Legal(c) && b.Legal(c) && forall m :: m in others ==> m.Legal(c)
    requires a.Stores() && VpdTakes(s.vpd, a.Address(s, c)) && Spares(a.After(s), c, others, a.Address(s, c))
    requires !b.Stores() && b.Address(AfterAll(a.After(s), others), c) == a.Address(s, c)
    ensures var t := a.After(s); var u := b.After(AfterAll(t, others));
      && !VpdF(At(t.vconfig, Trigger(c))) && VpdF(At(u.vconfig, Trigger(c)))
      && Dword(u.vconfig, c.start + 4) == a.Data(s, c) && Steady(u, caps) && |u.owner| == |s.owner|
  {
    var t := a.After(s);
    var addr := a.Address(s, c);
    TakesSame(s.vpd, t.vpd, addr);
    hide *;
    OneAttempt(s, caps, c, a, addr);
    FetchesLast(t, caps, c, others, b);
    SparedStore(t, c, others, addr, VpdDword(t.vpd, addr));
  }

  // The data byte after the fetch, as long as it is left alone.
  lemma AfterFetch(u: Vdev, caps: set<Cap>, c: Cap, after: seq<Event>, k: nat)
    requires Steady(u, caps) && VpdCap(caps, c) && k < 4 && forall e :: e in after ==> Undisturbed(e, c, k)
    ensures var v := Run(u, after);
      Steady(v, caps) && |v.owner| == |u.owner| && At(v.vconfig, c.start + 4 + k) == At(u.vconfig, c.start + 4 + k)
  {
    hide *;
    UndisturbedQuiet(c, after, k);
    QuietRun(u, caps, c, after, c.start + 4 + k);
    RunSteady(u, caps, after);
    LastWrittenSame(after, |u.owner|, c.start + 4 + k, At(u.vconfig, c.start + 4 + k));
  }

  lemma UndisturbedQuiet(c: Cap, after: seq<Event>, k: nat)
    requires k < 4 && forall e :: e in after ==> Undisturbed(e, c, k)
    ensures Register(c, c.start + 4 + k) && forall e :: e in after ==> Quiet(e, c)
    ensures forall e :: e in after && e.GuestWrite? ==> !CoversByte(e.pos, |e.bytes|, c.start + 4 + k)
  {
    forall e | e in after ensures Quiet(e, c) && (e.GuestWrite? ==> !CoversByte(e.pos, |e.bytes|, c.start + 4 + k)) {
      assert Undisturbed(e, c, k);
    }
  }

  lemma DataRange(s: Vdev, c: Cap, a: Attempt)
    ensures |a.Data(s, c)| == 4
  {
    hide Attempt.Prepared;
  }

  // A read that covers data byte k returns it.
  lemma DataRead(s: Vdev, caps: set<Cap>, c: Cap, pos: nat, count: nat, data: seq<byte>, k: nat)
    requires Steady(s, caps) && VpdCap(caps, c) && k < |data| == 4 && At(s.vconfig, c.start + 4 + k) == data[k]
    requires pos <= c.start + 4 + k < pos + count && pos + count <= |s.owner|
    ensures Got(s, pos, count, c.start + 4 + k) == data[k]
  {
    hide Steady, VpdCap, Got, At;
    RegisterRead(s, caps, c, pos, count, c.start + 4 + k);
  }

  lemma RegsFields(s: Vdev, c: Cap)
    ensures RegsOf(s, c).store == s.vpd && RegsOf(s, c).data == Dword(s.vconfig, c.start + 4)
    ensures RegsOf(s, c).hi == At(s.vconfig, Trigger(c))
  {
    hide Dword, At;
  }

  lemma DwordAt(v: seq<byte>, at: nat, data: seq<byte>, k: nat)
    requires Dword(v, at) == data && k < 4
    ensures At(v, at + k) == data[k]
  {
    hide At;
    assert Dword(v, at)[0] == At(v, at);
  }
}
