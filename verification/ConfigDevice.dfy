/** The device object of device/vfio_pci_config.c: its buffers updated in place, proved against the
    functions of the other modules. */
module ConfigDevice {
  import opened Bytes
  import opened PciCaps
  import opened Chains
  import opened StdCapInit
  import opened ExtCapInit
  import opened ConfigInit
  import opened Layout
  import opened Perms
  import opened Routing
  import opened ConfigAccess
  import opened ListLinks
  import opened GuestView
  import BarGuard

  const EFAULT := 14

  // ---------------------------------------------------------------- masked words

  function VirtBits(k: Kind, msi: MsiFlags, off: nat, n: nat): (r: seq<byte>)
    ensures |r| == n && forall i :: 0 <= i < n ==> r[i] == Virt(k, msi, off + i)
  {
    if n == 0 then [] else VirtBits(k, msi, off, n - 1) + [Virt(k, msi, off + n - 1)]
  }

  function WriteBits(k: Kind, msi: MsiFlags, off: nat, n: nat): (r: seq<byte>)
    ensures |r| == n && forall i :: 0 <= i < n ==> r[i] == Write(k, msi, off + i)
  {
    if n == 0 then [] else WriteBits(k, msi, off, n - 1) + [Write(k, msi, off + n - 1)]
  }

  function Repeat(b: byte, n: nat): (r: seq<byte>)
    ensures |r| == n && forall i :: 0 <= i < n ==> r[i] == b
  {
    if n == 0 then [] else Repeat(b, n - 1) + [b]
  }

  // (phys & ~virt) | (val & virt), byte by byte.
  function Overlay(phys: seq<byte>, val: seq<byte>, virt: seq<byte>): (r: seq<byte>)
    requires |phys| == |val| == |virt|
    ensures |r| == |val| && forall i :: 0 <= i < |r| ==> r[i] == Merge(phys[i], val[i], virt[i])
  {
    if val == [] then []
    else
      var n := |val| - 1;
      Overlay(phys[..n], val[..n], virt[..n]) + [Merge(phys[n], val[n], virt[n])]
  }

  // A write whose masks are all zero changes nothing.
  lemma CopiedAt(dst: seq<byte>, src: seq<byte>, off: nat, n: nat, q: nat)
    requires off <= q < off + n && q < |dst|
    ensures Copied(dst, src, off, n)[q] == At(src, q)
  {
  }

  lemma CopiedNone(dst: seq<byte>, src: seq<byte>, off: nat)
    ensures Copied(dst, src, off, 0) == dst
  {
  }

  lemma CopiedMore(dst: seq<byte>, src: seq<byte>, off: nat, n: nat, m: nat)
    ensures Copied(Copied(dst, src, off, n), src, off + n, m) == Copied(dst, src, off, n + m)
  {
  }

  lemma BlendNothing(v: seq<byte>, pos: nat, bytes: seq<byte>, masks: seq<byte>)
    requires masks == Repeat(0, |bytes|)
    ensures Blend(v, pos, bytes, masks) == v
  {
    hide Merge;
    forall q | 0 <= q < |v| ensures Blend(v, pos, bytes, masks)[q] == v[q] {
      if pos <= q < pos + |bytes| { MergeFacts(v[q], bytes[q - pos], 0); }
    }
  }

  lemma HwBlendNothing(hw: seq<byte>, ro: seq<byte>, pos: nat, bytes: seq<byte>, masks: seq<byte>)
    requires masks == Repeat(0, |bytes|)
    ensures HwBlend(hw, ro, pos, bytes, masks) == hw
  {
    hide Merge, Stored;
    forall q | 0 <= q < |hw| ensures HwBlend(hw, ro, pos, bytes, masks)[q] == hw[q] {
      if pos <= q < pos + |bytes| {
        MergeFacts(hw[q], bytes[q - pos], 0);
        BarGuard.StoredSame(hw[q], At(ro, q));
      }
    }
  }

  // A chunk of the header stays inside it and is routed to its table.
  lemma ChunkInBasic(owner: seq<byte>, caps: set<Cap>, msi: MsiFlags, pos: nat, count: nat)
    requires Laid(owner, caps, msi) && 0 < count && pos + count <= |owner|
    ensures KindAt(owner, pos) == Basic ==> pos + ChunkLen(owner, pos, count) <= HEADER && StartOf(owner, pos) == 0
    ensures pos + ChunkLen(owner, pos, count) <= |owner|
  {
    Routed(owner, caps, msi, pos);
    ChunkInside(owner, pos, count, ChunkLen(owner, pos, count) - 1);
    hide ChunkLen, KindAt, StartOf, Laid;
  }

  // The registers a handler patches are inside the space.
  lemma HandlerRoom(owner: seq<byte>, caps: set<Cap>, msi: MsiFlags, pos: nat)
    requires Laid(owner, caps, msi)
    ensures var k := KindAt(owner, pos); var start := StartOf(owner, pos);
      && (k == Vpd ==> start + 8 <= |owner|) && (k == Exp ==> start + 12 <= |owner|)
      && (k == Af ==> start + 6 <= |owner|) && (k == Msi ==> start + 4 <= |owner|)
  {
    Routed(owner, caps, msi, pos);
    if KindAt(owner, pos) in {Vpd, Exp, Af, Msi} {
      var c :| c in caps && c.Has(pos) && StartOf(owner, pos) == c.start;
      StartOfCap(owner, caps, msi, c, pos);
      HandlerSpan(owner, caps, msi, c);
      assert CapFits(c, |owner|);
    }
    hide Laid, KindAt, StartOf;
  }

  lemma DirectByte(s: Vdev, pos: nat, n: nat, i: nat)
    requires KindAt(s.owner, pos) in {Direct, Vendor}
    ensures var off := pos - StartOf(s.owner, pos);
      ReadByte(s, pos, n, i) ==
        if pos >= STD_SPACE then (if off < 4 then At(s.vconfig, pos + i) else At(s.hw, pos + i))
        else if pos >= HEADER && ((off == 0 && n > 1 && i < 2) || (off == 1 && i == 0)) then At(s.vconfig, pos + i)
        else At(s.hw, pos + i)
  {
    hide KindAt, StartOf, Virt;
  }

  lemma TableByte(s: Vdev, pos: nat, n: nat, i: nat)
    requires Tabled(KindAt(s.owner, pos)) && KindAt(s.owner, pos) != Basic
    ensures ReadByte(s, pos, n, i) ==
      Merge(At(s.hw, pos + i), At(s.vconfig, pos + i), Virt(KindAt(s.owner, pos), s.msi, pos - StartOf(s.owner, pos) + i))
  {
    hide KindAt, StartOf, Virt, Merge;
  }

  lemma MsiPrep(s: Vdev, pos: nat, n: nat)
    requires KindAt(s.owner, pos) == Msi
    ensures var start := StartOf(s.owner, pos);
      ReadPrep(s, pos, n) ==
        if pos - start <= 2 && pos - start + n >= 2
        then s.(vconfig := Poke(s.vconfig, start, QueueMax(At(s.vconfig, start), s.qmax))) else s
  {
    hide KindAt, StartOf, Poke, QueueMax;
  }

  lemma PrepCases(s: Vdev, pos: nat, n: nat)
    ensures KindAt(s.owner, pos) == Basic ==> ReadPrep(s, pos, n) == if IsBar(pos) then BarFixup(s) else s
    ensures KindAt(s.owner, pos) !in {Basic, Msi} ==> ReadPrep(s, pos, n) == s
  {
    hide KindAt, StartOf, BarFixup;
  }

  lemma BytesRead(s: Vdev, pos: nat, n: nat, val: seq<byte>)
    requires |val| == n && forall i :: 0 <= i < n ==> val[i] == ReadByte(s, pos, n, i)
    ensures val == ReadBytes(s, pos, n, n)
  {
    hide ReadByte;
  }

  lemma TwoBytes(hw: seq<byte>)
    ensures |IntxOff(hw)| == 2
  {
    hide At;
  }

  lemma RestoredStart(s: Vdev)
    ensures RestoredBars(s, 0) == s.hw
  {
  }

  lemma RestoredStep(s: Vdev, i: nat)
    ensures RestoredBars(s, i + 1) == HwStore(RestoredBars(s, i), s.ro, BarAt(i), Dword(s.rbar, 4 * i))
  {
    hide HwStore, Dword;
  }

  // An access is its first chunk and the rest.
  lemma ReadUnfold(s: Vdev, pos: nat, count: nat)
    requires count > 0
    ensures var n := ChunkLen(s.owner, pos, count); var t := ReadPrep(s, pos, n); var r := ReadAccess(t, pos + n, count - n);
      ReadAccess(s, pos, count) == (r.0, ReadBytes(t, pos, n, n) + r.1)
  {
    hide ReadPrep, ReadBytes, ChunkLen;
  }

  lemma ReadEnd(s: Vdev, pos: nat)
    ensures ReadAccess(s, pos, 0) == (s, [])
  {
  }

  lemma DwordLen(bytes: seq<byte>, at: nat)
    ensures |Dword(bytes, at)| == 4
  {
    hide At;
  }

  // A table without a writable bit masks everything out.
  lemma NoneWritable(k: Kind, msi: MsiFlags, off: nat, n: nat)
    requires WriteBits(k, msi, off, n) == Repeat(0, n)
    ensures VMasks(k, msi, off, n) == Repeat(0, n) && HMasks(k, msi, off, n) == Repeat(0, n)
  {
    hide Virt, Write;
    forall i | 0 <= i < n ensures VMasks(k, msi, off, n)[i] == 0 && HMasks(k, msi, off, n)[i] == 0 {
      assert WriteBits(k, msi, off, n)[i] == 0;
    }
  }

  lemma HeaderSaved(v: seq<byte>, hw: seq<byte>)
    requires HEADER <= |v| == |hw| && forall q :: 0 <= q < HEADER ==> v[q] == hw[q]
    ensures SavedBars(v) == SavedBars(hw)
  {
    assert BarBytes(v, 24) == BarBytes(hw, 24);
  }

  // The standard list, if there is one, leads the walk nowhere outside the buffers.
  ghost predicate StdInRange(dev: Pdev, hw: seq<byte>) {
    At(hw, STATUS) & STATUS_CAP_LIST != 0 ==> WalkInRange(hw, StdLens(dev, hw), Num(At(hw, CAPABILITY_LIST)), STD_LOOPS)
  }

  // Whether the walk of the standard list finds extended configuration space.
  ghost predicate FoundExtended(dev: Pdev, hw: seq<byte>, owner: seq<byte>, vconfig: seq<byte>) {
    dev.Valid() && StdInit(dev, hw, StdLens(dev, hw), HeaderInit(dev, hw, owner, vconfig)).extended
  }

  // Well-formed hardware is all that initialisation needs.
  lemma WellFormedInRange(x: Plugged, ps: seq<nat>, es: seq<nat>)
    requires WellFormed(x, ps, es)
    ensures StdInRange(x.dev, x.hw)
    ensures FoundExtended(x.dev, x.hw, x.rawOwner, x.rawVconfig) ==>
      ExtInRange(x.hw, ExtLens(x.hw), STD_SPACE, ExtLoops(x.dev))
  {
    var lens, elens := StdLens(x.dev, x.hw), ExtLens(x.hw);
    hide StdLens, ExtLens, StdInit, HeaderInit, NoTwins, AllCaps, FindsExtended, WalkInRange, ExtInRange;
    HeaderNotExtended(x.dev, x.hw, x.rawOwner, x.rawVconfig);
    StdExtended(x.dev, x.hw, lens, HeaderInit(x.dev, x.hw, x.rawOwner, x.rawVconfig), ps);
    if At(x.hw, STATUS) & STATUS_CAP_LIST != 0 {
      ChainInRange(x.hw, lens, Num(At(x.hw, CAPABILITY_LIST)), STD_LOOPS, ps);
    }
    if FindsExtended(x.dev, x.hw, ps) {
      ExtChainInRange(x.hw, elens, STD_SPACE, ExtLoops(x.dev), es);
    }
  }

  // The second walk counts from zero.
  lemma CountIgnored(dev: Pdev, hw: seq<byte>, lens: seq<nat>, s: Init)
    requires dev.Valid()
    ensures var r := ExtInit(dev, hw, lens, s); var r' := ExtInit(dev, hw, lens, s.(caps := 0));
      r.owner == r'.owner && r.vconfig == r'.vconfig && r.msi == r'.msi
    ensures !s.extended ==> ExtInit(dev, hw, lens, s) == s
  {
    hide ExtWalk;
  }

  class VfioPciDevice {
    const dev: Pdev
    const func: Func
    const ro: seq<byte>
    const hw: array<byte>      // configuration space of the hardware
    const owners: array<byte>     // pci_config_map
    const vconfig: array<byte>
    var extended: bool
    var msi: MsiFlags
    var rbar: seq<byte>
    var bardirty: bool
    var virqDisabled: bool
    var msiMode: bool
    var qmax: byte
    var vpd: seq<byte>
    var resets: nat
    var calls: seq<IrqCall>

    ghost predicate Valid()
      reads this
    {
      && dev.Valid() && |func.bars| == 6
      && hw.Length == owners.Length == vconfig.Length == |ro| == dev.cfgSize
      && hw != owners && hw != vconfig && owners != vconfig
    }

    ghost function Value(): Vdev
      reads this, hw, owners, vconfig
    {
      Vdev(func, owners[..], vconfig[..], hw[..], ro, msi, rbar, bardirty, virqDisabled, msiMode, qmax, vpd, resets, calls)
    }

    // The hardware `space` with its read-only bits; the two buffers have arbitrary contents.
    constructor (dev: Pdev, func: Func, space: array<byte>, ro: seq<byte>, vpd: seq<byte>)
      requires dev.Valid() && |func.bars| == 6 && space.Length == |ro| == dev.cfgSize
      ensures Valid() && this.dev == dev && this.func == func && this.ro == ro && this.hw == space && fresh(owners) && fresh(vconfig)
      ensures !extended && Value() == Vdev(func, owners[..], vconfig[..], space[..], ro, NoMsi, [], false, false, false, 0, vpd, 0, [])
    {
      this.dev, this.func, this.ro, this.hw, this.vpd := dev, func, ro, space, vpd;
      owners := new byte[dev.cfgSize];
      vconfig := new byte[dev.cfgSize];
      extended, msi, rbar, bardirty, virqDisabled, msiMode, qmax, resets, calls := false, NoMsi, [], false, false, false, 0, 0, [];
    }

    // ---------------------------------------------------------------- initialisation

    // memset(map + pos, cap, len)
    method OwnersFill(pos: nat, len: nat, cap: byte)
      requires Valid() && pos + len <= owners.Length
      modifies owners
      ensures owners[..] == Filled(old(owners[..]), pos, len, cap)
    {
      for i := 0 to len
        invariant owners[..] == Filled(old(owners[..]), pos, i, cap)
      {
        owners[pos + i] := cap;
      }
    }

    // vfio_fill_vconfig_bytes: the widest aligned reads that fit.
    method FillVconfigBytes(offset: nat, size: nat)
      requires Valid() && offset + size <= vconfig.Length
      modifies vconfig
      ensures vconfig[..] == Copied(old(vconfig[..]), hw[..], offset, size)
    {
      var done := 0;
      hide Copied;
      assert vconfig[..] == Copied(vconfig[..], hw[..], offset, 0) by { CopiedNone(vconfig[..], hw[..], offset); }
      while done < size
        invariant done <= size
        invariant vconfig[..] == Copied(old(vconfig[..]), hw[..], offset, done)
      {
        var pos := offset + done;
        var filled := if size - done >= 4 && pos % 4 == 0 then 4 else if size - done >= 2 && pos % 2 == 0 then 2 else 1;
        CopyRun(pos, filled);
        CopiedMore(old(vconfig[..]), hw[..], offset, done, filled);
        done := done + filled;
      }
    }

    // One read of `n` bytes into the copy.
    method CopyRun(pos: nat, n: nat)
      requires Valid() && pos + n <= vconfig.Length
      modifies vconfig
      ensures vconfig[..] == Copied(old(vconfig[..]), hw[..], pos, n)
    {
      for i := 0 to n
        invariant vconfig[..] == Copied(old(vconfig[..]), hw[..], pos, i)
      {
        vconfig[pos + i] := hw[pos + i];
      }
    }

    ghost function InitValue(caps: nat): Init
      reads this, owners, vconfig
    {
      Init(owners[..], vconfig[..], extended, msi, caps)
    }

    // What the length of the capability at `pos` tells about the device.
    method Note(pos: nat)
      requires Valid() && pos < hw.Length
      modifies this`extended, this`msi
      ensures Init(owners[..], vconfig[..], extended, msi, 0) == Noted(dev, hw[..], old(InitValue(0)), pos)
    {
      if ProbesExtended(hw[..], pos) && dev.cfgSize > STD_SPACE {
        extended := ExtendedPresent(hw[..]);
      }
      if Num(hw[pos]) == ID_MSI && msi.NoMsi? {
        msi := MsiFlags(At(hw[..], pos + 2), At(hw[..], pos + 3));
      }
    }

    // One iteration of vfio_cap_init: hide the capability at `pos` or take it in.
    method StdVisit(pos: nat, prev: nat, caps: nat) returns (prev': nat, caps': nat)
      requires Valid() && pos < STD_SPACE && pos + 1 < hw.Length && prev < vconfig.Length
      requires pos + LenAt(StdLens(dev, hw[..]), pos) <= hw.Length
      modifies this`extended, this`msi, owners, vconfig
      ensures InitValue(caps') == Visit(dev, hw[..], StdLens(dev, hw[..]), old(InitValue(caps)), pos, prev)
      ensures prev' == Link(StdLens(dev, hw[..]), pos, prev)
    {
      ghost var lens := StdLens(dev, hw[..]);
      var len := StdLen(dev, hw[..], pos);
      assert LenAt(lens, pos) == len;
      hide StdLen, StdLens;
      Note(pos);
      if len == 0 {
        vconfig[prev] := hw[pos + 1];
        prev', caps' := prev, caps;
      } else {
        OwnersFill(pos, len, hw[pos]);
        FillVconfigBytes(pos, len);
        prev', caps' := pos + 1, caps + 1;
      }
    }

    // The loop of vfio_cap_init.
    method CapWalk() returns (caps: nat)
      requires Valid() && WalkInRange(hw[..], StdLens(dev, hw[..]), Num(hw[CAPABILITY_LIST]), STD_LOOPS)
      modifies this`extended, this`msi, owners, vconfig
      ensures InitValue(caps) ==
        Walk(dev, hw[..], StdLens(dev, hw[..]), old(InitValue(0)), Num(hw[CAPABILITY_LIST]), CAPABILITY_LIST, STD_LOOPS)
    {
      hide StdLens, Visit, Walk, WalkInRange;
      ghost var h, lens := hw[..], StdLens(dev, hw[..]);
      var pos: nat, prev: nat, loops: nat := Num(hw[CAPABILITY_LIST]), CAPABILITY_LIST, STD_LOOPS;
      caps := 0;
      ghost var goal := Walk(dev, h, lens, InitValue(0), pos, prev, loops);
      while pos != 0 && loops != 0
        invariant prev < vconfig.Length && pos < STD_SPACE && WalkInRange(h, lens, pos, loops)
        invariant Walk(dev, h, lens, InitValue(caps), pos, prev, loops) == goal
        decreases loops
      {
        InRangeStep(h, lens, pos, loops);
        WalkStep(dev, h, lens, InitValue(caps), pos, prev, loops);
        loops := loops - 1;
        var next := Num(hw[pos + 1]);
        prev, caps := StdVisit(pos, prev, caps);
        pos := next;
      }
      WalkEnd(dev, h, lens, InitValue(caps), pos, prev, loops);
    }

    // vfio_cap_init
    method CapInit() returns (caps: nat)
      requires Valid() && StdInRange(dev, hw[..])
      modifies this`extended, this`msi, owners, vconfig
      ensures InitValue(caps) == StdInit(dev, hw[..], StdLens(dev, hw[..]), old(InitValue(0)))
    {
      hide StdLens, Walk, WalkInRange;
      assert At(hw[..], STATUS) == hw[STATUS] && At(hw[..], CAPABILITY_LIST) == hw[CAPABILITY_LIST];
      if hw[STATUS] & STATUS_CAP_LIST == 0 {
        return 0;
      }
      caps := CapWalk();
      if caps == 0 {
        vconfig[STATUS] := vconfig[STATUS] & !STATUS_CAP_LIST;
      }
    }

    // One iteration of vfio_ecap_init; `prev` is zero while nothing has been copied.
    method ExtStep(pos: nat, prev: nat, caps: nat) returns (prev': nat, caps': nat)
      requires Valid() && STD_SPACE <= pos && pos + CAP_SIZEOF <= hw.Length && prev + 3 < vconfig.Length
      requires pos + LenAt(ExtLens(hw[..]), pos) <= hw.Length && hw.Length == EXT_SPACE
      modifies owners, vconfig
      ensures InitValue(caps') == ExtVisit(hw[..], ExtLens(hw[..]), old(InitValue(caps)), pos, prev)
      ensures prev' == ExtLink(ExtLens(hw[..]), pos, prev)
    {
      ghost var lens := ExtLens(hw[..]);
      var len := ExtLen(hw[..], pos);
      assert LenAt(lens, pos) == len;
      hide ExtLen, ExtLens, Relinked, Anchor, Copied, Filled;
      if len == 0 && prev != 0 {
        Relink(pos, prev);
        return prev, caps;
      }
      var hidden := len == 0;
      var n := if hidden then CAP_SIZEOF else len;
      OwnersFill(pos, n, hw[pos]);
      FillVconfigBytes(pos, n);
      if hidden {
        CopiedAt(old(vconfig[..]), hw[..], pos, n, pos + 2);
        MakeAnchor(pos);
      }
      prev', caps' := pos, if hidden then caps else caps + 1;
    }

    // The next field of the header at `prev` skips the capability at `pos`.
    method Relink(pos: nat, prev: nat)
      requires Valid() && pos + CAP_SIZEOF <= hw.Length && prev + 3 < vconfig.Length
      modifies vconfig
      ensures vconfig[..] == Relinked(old(vconfig[..]), prev, hw[pos + 2], hw[pos + 3])
    {
      vconfig[prev + 2] := Merge(vconfig[prev + 2], hw[pos + 2], 0xC0);
      vconfig[prev + 3] := hw[pos + 3];
    }

    // The header at `pos` loses its id and version.
    method MakeAnchor(pos: nat)
      requires Valid() && pos + CAP_SIZEOF <= vconfig.Length
      modifies vconfig
      ensures vconfig[..] == Anchor(old(vconfig[..]), pos, old(vconfig[pos + 2]))
    {
      vconfig[pos], vconfig[pos + 1], vconfig[pos + 2] := 0, 0, vconfig[pos + 2] & 0xC0;
    }

    // The loop of vfio_ecap_init.
    method ExtWalkLoop() returns (caps: nat)
      requires Valid() && hw.Length == EXT_SPACE && ExtInRange(hw[..], ExtLens(hw[..]), STD_SPACE, ExtLoops(dev))
      modifies owners, vconfig
      ensures InitValue(caps) == ExtWalk(hw[..], ExtLens(hw[..]), old(InitValue(0)), STD_SPACE, 0, ExtLoops(dev))
    {
      hide ExtLens, ExtVisit, ExtWalk, ExtInRange, ExtNext, ExtLoops;
      ghost var h, lens := hw[..], ExtLens(hw[..]);
      var pos: nat, prev: nat, loops: nat := STD_SPACE, 0, ExtLoops(dev);
      caps := 0;
      ghost var goal := ExtWalk(h, lens, InitValue(0), pos, prev, loops);
      while loops != 0 && pos >= STD_SPACE
        invariant prev + 3 < vconfig.Length && ExtInRange(h, lens, pos, loops)
        invariant ExtWalk(h, lens, InitValue(caps), pos, prev, loops) == goal
        decreases loops
      {
        ExtInRangeStep(h, lens, pos, loops);
        ExtWalkStep(h, lens, InitValue(caps), pos, prev, loops);
        loops := loops - 1;
        var next := ExtNext(hw[..], pos);
        prev, caps := ExtStep(pos, prev, caps);
        pos := next;
      }
      ExtWalkEnd(h, lens, InitValue(caps), pos, prev, loops);
    }

    // vfio_ecap_init
    method EcapInit() returns (caps: nat)
      requires Valid() && (extended ==> hw.Length == EXT_SPACE && ExtInRange(hw[..], ExtLens(hw[..]), STD_SPACE, ExtLoops(dev)))
      modifies owners, vconfig
      ensures extended ==> InitValue(caps) == ExtInit(dev, hw[..], ExtLens(hw[..]), old(InitValue(0)))
      ensures !extended ==> InitValue(caps) == old(InitValue(0))
    {
      hide ExtLens, ExtWalk, ExtInRange;
      if !extended {
        return 0;
      }
      caps := ExtWalkLoop();
      if caps == 0 {
        ClearVirt(STD_SPACE);
      }
    }

    // *(u32 *)&vconfig[at] = 0
    method ClearVirt(at: nat)
      requires Valid() && at + 4 <= vconfig.Length
      modifies vconfig
      ensures vconfig[..] == Filled(old(vconfig[..]), at, 4, 0)
    {
      vconfig[at], vconfig[at + 1], vconfig[at + 2], vconfig[at + 3] := 0, 0, 0, 0;
    }

    // The header of both buffers and the saved registers.
    method HeaderFill()
      requires Valid() && !extended && msi.NoMsi?
      modifies this`rbar, this`bardirty, owners, vconfig
      ensures InitValue(0) == HeaderInit(dev, hw[..], old(owners[..]), old(vconfig[..]))
      ensures rbar == SavedBars(hw[..]) && bardirty
    {
      OwnersFill(0, HEADER, 0);
      OwnersFill(HEADER, dev.cfgSize - HEADER, INVALID);
      FillVconfigBytes(0, HEADER);
      bardirty := true;
      rbar := SavedBars(vconfig[..]);
      HeaderSaved(vconfig[..], hw[..]);
      if dev.isVirtfn {
        SetIds();
      }
      if dev.isVirtfn || dev.hideIntx {
        vconfig[0x3D] := 0;
      }
    }

    // Vendor and device id of a virtual function.
    method SetIds()
      requires Valid()
      modifies vconfig
      ensures vconfig[..] == Copied(old(vconfig[..]), dev.vendorDevice, 0, 4)
    {
      vconfig[0], vconfig[1], vconfig[2], vconfig[3] := dev.vendorDevice[0], dev.vendorDevice[1], dev.vendorDevice[2], dev.vendorDevice[3];
    }

    // vfio_config_init: both buffers, the saved registers and the lists.
    method ConfigInit()
      requires Valid() && !extended && msi.NoMsi? && StdInRange(dev, hw[..])
      requires FoundExtended(dev, hw[..], owners[..], vconfig[..]) ==>
        ExtInRange(hw[..], ExtLens(hw[..]), STD_SPACE, ExtLoops(dev))
      modifies this, owners, vconfig
      ensures var x := Plugged(dev, func, hw[..], ro, vpd, old(owners[..]), old(vconfig[..]));
        Value() == old(Value()).(owner := x.Built().owner, vconfig := x.Built().vconfig, msi := x.Built().msi,
                                 rbar := SavedBars(hw[..]), bardirty := true)
      ensures old(!virqDisabled && !msiMode && qmax == 0 && resets == 0 && calls == []) ==>
        Value() == Opened(Plugged(dev, func, hw[..], ro, vpd, old(owners[..]), old(vconfig[..])))
    {
      hide StdLens, ExtLens, StdInit, ExtInit, WalkInRange, ExtInRange, HeaderInit, SavedBars;
      assert !HeaderInit(dev, hw[..], owners[..], vconfig[..]).extended by { HeaderNotExtended(dev, hw[..], owners[..], vconfig[..]); }
      HeaderFill();
      ghost var h := InitValue(0);
      StdInitSize(dev, hw[..], StdLens(dev, hw[..]), h);
      var stds := CapInit();
      ghost var s := InitValue(stds);
      var exts := EcapInit();
      CountIgnored(dev, hw[..], ExtLens(hw[..]), s);
    }

    // ---------------------------------------------------------------- registers

    // vfio_find_cap_start
    method FindCapStart(pos: nat) returns (start: nat)
      requires Valid() && pos < owners.Length
      ensures KindAt(owners[..], pos) !in {Raw, VirtOnly} ==> start == StartOf(owners[..], pos)
      ensures start <= pos
    {
      var base := if pos >= STD_SPACE then STD_SPACE else HEADER;
      var cap := owners[pos];
      if cap == 0 {
        return 0;
      }
      start := pos;
      while start > base && owners[start - 1] == cap
        invariant start <= pos && owners[start] == cap
        invariant FindStart(owners[..], start, base) == FindStart(owners[..], pos, base)
      {
        start := start - 1;
      }
    }

    // vfio_pci_cap_remaining_dword
    method CapRemainingDword(pos: nat) returns (n: nat)
      requires Valid() && pos < owners.Length
      ensures n == Remaining(owners[..], pos, 1) && pos + n <= owners.Length
    {
      n := 1;
      while (pos + n) % 4 != 0 && owners[pos + n] == owners[pos]
        invariant 1 <= n <= 4 && pos % 4 + n <= 4 && pos + n <= owners.Length
        invariant Remaining(owners[..], pos, n) == Remaining(owners[..], pos, 1)
        decreases 4 - n
      {
        n := n + 1;
      }
    }

    // Hardware stores `bytes`, except for its read-only bits.
    method HwWrite(pos: nat, bytes: seq<byte>)
      requires Valid() && pos + |bytes| <= hw.Length && |bytes| <= 4
      modifies hw
      ensures hw[..] == HwStore(old(hw[..]), ro, pos, bytes)
    {
      HwMerge(pos, bytes, [0xFF, 0xFF, 0xFF, 0xFF]);
    }

    // Read, mask and write back.
    method HwMerge(pos: nat, bytes: seq<byte>, masks: seq<byte>)
      requires Valid() && pos + |bytes| <= hw.Length
      modifies hw
      ensures hw[..] == HwBlend(old(hw[..]), ro, pos, bytes, masks)
    {
      hide Merge, Stored;
      ghost var was := hw[..];
      assert bytes[..0] == [];
      for i := 0 to |bytes|
        invariant hw[..] == HwBlend(was, ro, pos, bytes[..i], masks)
      {
        ghost var before := hw[..];
        hw[pos + i] := Stored(hw[pos + i], Merge(hw[pos + i], bytes[i], At(masks, i)), At(ro, pos + i));
        assert bytes[..i + 1][..i] == bytes[..i];
        assert hw[..] == Poke(before, pos + i, hw[pos + i]);
      }
      assert bytes[..|bytes|] == bytes;
    }

    method VirtMerge(pos: nat, bytes: seq<byte>, masks: seq<byte>)
      requires Valid() && pos + |bytes| <= vconfig.Length
      modifies vconfig
      ensures vconfig[..] == Blend(old(vconfig[..]), pos, bytes, masks)
    {
      hide Merge;
      ghost var was := vconfig[..];
      assert bytes[..0] == [];
      for i := 0 to |bytes|
        invariant vconfig[..] == Blend(was, pos, bytes[..i], masks)
      {
        ghost var before := vconfig[..];
        vconfig[pos + i] := Merge(vconfig[pos + i], bytes[i], At(masks, i));
        assert bytes[..i + 1][..i] == bytes[..i];
        assert vconfig[..] == Poke(before, pos + i, vconfig[pos + i]);
      }
      assert bytes[..|bytes|] == bytes;
    }

    // ---------------------------------------------------------------- table-driven access

    // vfio_default_config_read: hardware is asked only if some bit is not virtual.
    method DefaultRead(k: Kind, start: nat, pos: nat, n: nat) returns (val: seq<byte>)
      requires Valid() && start <= pos && pos + n <= hw.Length
      ensures |val| == n
      ensures forall i :: 0 <= i < n ==> val[i] == Merge(hw[pos + i], vconfig[pos + i], Virt(k, msi, pos - start + i))
    {
      hide Merge, Virt;
      val := vconfig[pos..pos + n];
      var virt := VirtBits(k, msi, pos - start, n);
      if virt != Repeat(0xFF, n) {
        val := Overlay(hw[pos..pos + n], val, virt);
      } else {
        forall i | 0 <= i < n ensures val[i] == Merge(hw[pos + i], vconfig[pos + i], Virt(k, msi, pos - start + i)) {
          MergeFacts(hw[pos + i], vconfig[pos + i], 0);
          assert virt[i] == 0xFF;
        }
      }
    }

    // vfio_default_config_write: virtual writable bits go to the virtual copy, the other writable
    // bits to hardware, and nothing is touched that has no bit to change.
    method DefaultStore(k: Kind, start: nat, pos: nat, bytes: seq<byte>)
      requires Valid() && start <= pos && pos + |bytes| <= hw.Length
      modifies hw, vconfig
      ensures Value() == DefaultWrite(old(Value()), k, start, pos, bytes)
    {
      hide Blend, HwBlend, Virt, Write, VMasks, HMasks, WriteBits, Repeat;
      var n := |bytes|;
      var none := Repeat(0, n);
      var virtual, physical := VMasks(k, msi, pos - start, n), HMasks(k, msi, pos - start, n);
      BlendNothing(vconfig[..], pos, bytes, none);
      HwBlendNothing(hw[..], ro, pos, bytes, none);
      if WriteBits(k, msi, pos - start, n) == none {
        NoneWritable(k, msi, pos - start, n);
        return;
      }
      if virtual != none {
        VirtMerge(pos, bytes, virtual);
      }
      if physical != none {
        HwMerge(pos, bytes, physical);
      }
    }

    // vfio_direct_config_read: hardware, with the link of the capability list taken from the copy.
    method DirectRead(start: nat, pos: nat, n: nat) returns (val: seq<byte>)
      requires Valid() && start <= pos && n in {1, 2, 4} && pos + n <= hw.Length
      requires KindAt(owners[..], pos) in {Direct, Vendor} && start == StartOf(owners[..], pos)
      ensures |val| == n && forall i :: 0 <= i < n ==> val[i] == ReadByte(Value(), pos, n, i)
    {
      hide KindAt, StartOf, Virt, ReadByte, Merge;
      var offset := pos - start;
      val := hw[pos..pos + n];
      if pos >= STD_SPACE {
        if offset < 4 {
          val := vconfig[pos..pos + n];
        }
      } else if pos >= HEADER {
        if offset == 0 && n > 1 {
          val := vconfig[pos..pos + 2] + val[2..];
        } else if offset == 1 {
          val := vconfig[pos..pos + 1] + val[1..];
        }
      }
      forall i | 0 <= i < n ensures val[i] == ReadByte(Value(), pos, n, i) {
        DirectByte(Value(), pos, n, i);
      }
    }

    // ---------------------------------------------------------------- base address registers

    // *bar &= mask; *bar |= flags
    method MaskBar(at: nat, len: bv64, j: nat, flags: byte)
      requires Valid() && at + 4 <= vconfig.Length && j <= 4
      modifies vconfig
      ensures vconfig[..] == BarMasked(old(vconfig[..]), at, len, j, flags)
    {
      hide MaskByte;
      vconfig[at] := (vconfig[at] & MaskByte(len, j)) | flags;
      vconfig[at + 1] := vconfig[at + 1] & MaskByte(len, j + 1);
      vconfig[at + 2] := vconfig[at + 2] & MaskByte(len, j + 2);
      vconfig[at + 3] := vconfig[at + 3] & MaskByte(len, j + 3);
    }

    // vfio_bar_fixup
    method FixupBars()
      requires Valid()
      modifies this`bardirty, vconfig
      ensures Value() == BarFixup(old(Value()))
    {
      hide BarMasked, MaskByte, BarFlags;
      ghost var was := vconfig[..];
      var i: nat := 0;
      while i < 6
        invariant i <= 7
        invariant FixBars(vconfig[..], func.bars, i) == FixBars(was, func.bars, 0)
      {
        var at := BarAt(i);
        if !func.bars[i].mapped {
          ClearVirt(at);
          i := i + 1;
        } else {
          MaskBar(at, func.bars[i].len, 0, BarFlags(func.bars[i]));
          if vconfig[at] & 0x04 != 0 {
            MaskBar(at + 4, func.bars[i].len, 4, 0);
            i := i + 1;
          }
          i := i + 1;
        }
      }
      FixupRom();
      bardirty := false;
    }

    // The expansion ROM, whose enable bit the guest keeps.
    method FixupRom()
      requires Valid()
      modifies vconfig
      ensures vconfig[..] == FixRom(old(vconfig[..]), func)
    {
      hide BarMasked, MaskByte, RomFirst;
      if func.rom.mapped || func.romShadow {
        var first := vconfig[0x30];
        MaskBar(0x30, RomLen(func), 0, 0);
        SetVirt(0x30, RomFirst(first, RomLen(func)));
      } else {
        ClearVirt(0x30);
      }
    }

    // vfio_need_bar_restore
    method NeedBarRestore() returns (need: bool)
      requires Valid()
      ensures need == !BarsHold(Value())
    {
      hide At;
      for i := 0 to 6
        invariant forall k :: 0 <= k < i ==> BarHolds(Value(), k)
      {
        var saved := Dword(rbar, 4 * i);
        if saved != [0, 0, 0, 0] && Dword(hw[..], BarAt(i)) != saved {
          assert !BarHolds(Value(), i);
          return true;
        }
        assert BarHolds(Value(), i);
      }
      return false;
    }

    // Its loop over the base address registers.
    method RestoreRegs()
      requires Valid()
      modifies hw
      ensures hw[..] == RestoredBars(old(Value()), 6)
    {
      hide HwStore, At, Dword, RestoredBars;
      ghost var s := Value();
      RestoredStart(s);
      for i := 0 to 6
        invariant hw[..] == RestoredBars(s, i)
      {
        DwordLen(rbar, 4 * i);
        HwWrite(BarAt(i), Dword(rbar, 4 * i));
        RestoredStep(s, i);
      }
    }

    // The registers and the ROM.
    method RestoreRom()
      requires Valid()
      modifies hw
      ensures hw[..] == RestoredRom(old(Value()))
    {
      hide HwStore, At, Dword, RestoredBars;
      RestoreRegs();
      DwordLen(rbar, 24);
      HwWrite(0x30, Dword(rbar, 24));
    }

    // vfio_bar_restore
    method RestoreBars()
      requires Valid()
      modifies hw
      ensures Value() == BarRestore(old(Value()))
    {
      if func.isVirtfn {
        return;
      }
      hide HwStore, RestoredRom, IntxOff;
      RestoreRom();
      if func.nointx {
        TwoBytes(hw[..]);
        HwWrite(COMMAND, IntxOff(hw[..]));
      }
    }

    // ---------------------------------------------------------------- handlers

    // vfio_basic_config_read
    method BasicRead(pos: nat, n: nat) returns (val: seq<byte>)
      requires Valid() && pos + n <= HEADER && 0 < n && KindAt(owners[..], pos) == Basic && StartOf(owners[..], pos) == 0
      modifies this`bardirty, vconfig
      ensures Value() == if IsBar(pos) then BarFixup(old(Value())) else old(Value())
      ensures |val| == n && forall i :: 0 <= i < n ==> val[i] == ReadByte(Value(), pos, n, i)
    {
      hide KindAt, StartOf, Virt, Merge, BarFixup;
      if IsBar(pos) {
        FixupBars();
      }
      val := DefaultRead(Basic, 0, pos, n);
      if pos == COMMAND && func.isVirtfn {
        val := val[0 := val[0] | (vconfig[COMMAND] & 0x02)];
      }
    }

    // The backdoor reset check of a write of `val` to COMMAND.
    method CheckReset(val: byte)
      requires Valid()
      modifies hw
      ensures Value() == if NeedsRestore(old(Value()), val) then BarRestore(old(Value())) else old(Value())
    {
      hide BarsHold, BarRestore;
      var virt, phys := vconfig[COMMAND], hw[COMMAND];
      var need := NeedBarRestore();
      if val & virt & !phys & 0x03 != 0 || need {
        RestoreBars();
      }
    }

    // vfio_basic_config_write
    method BasicStore(pos: nat, bytes: seq<byte>)
      requires Valid() && pos + |bytes| <= HEADER && 0 < |bytes| <= 4
      modifies this`bardirty, this`virqDisabled, this`calls, hw, vconfig
      ensures Value() == BasicWrite(old(Value()), pos, bytes)
    {
      hide NeedsRestore, BarRestore, DefaultWrite, Merge, IntxFollow;
      if pos == COMMAND {
        CheckReset(bytes[0]);
      }
      DefaultStore(Basic, 0, pos, bytes);
      if pos == COMMAND {
        vconfig[COMMAND] := Merge(vconfig[COMMAND], bytes[0], 0x03);
      }
      if COMMAND <= pos <= COMMAND + 1 {
        FollowIntx();
      }
      if IsBar(pos) {
        bardirty := true;
      }
    }

    // The emulation of INTx disable at its end.
    method FollowIntx()
      requires Valid()
      modifies this`virqDisabled, this`calls
      ensures Value() == IntxFollow(old(Value()))
    {
      var disable := vconfig[COMMAND + 1] & 0x04 != 0;
      if disable && !virqDisabled {
        virqDisabled := true;
        calls := calls + [IntxMask];
      } else if !disable && virqDisabled {
        virqDisabled := false;
        calls := calls + [IntxUnmask];
      }
    }

    // pci_write_vpd and pci_read_vpd on the storage behind the capability.
    method VpdStore(addr: nat, data: seq<byte>) returns (ok: bool)
      requires |data| == 4
      modifies this`vpd
      ensures ok == VpdTakes(old(vpd), addr) && vpd == if ok then Poke4(old(vpd), addr, data) else old(vpd)
    {
      ok := VpdTakes(vpd, addr);
      if ok {
        vpd := Poke4(vpd, addr, data);
      }
    }

    // vfio_vpd_config_write
    method VpdAccess(start: nat, pos: nat, bytes: seq<byte>)
      requires Valid() && start <= pos && pos + |bytes| <= hw.Length && start + 8 <= hw.Length
      modifies this`vpd, hw, vconfig
      ensures Value() == VpdWrite(old(Value()), start, pos, bytes)
    {
      hide DefaultWrite, Dword, VpdTakes, VpdDword, VpdAddr, VpdF, VpdFlip, Poke4;
      DefaultStore(Vpd, start, pos, bytes);
      if pos - start > 3 || pos - start + |bytes| <= 3 {
        return;
      }
      var lo, hi := vconfig[start + 2], vconfig[start + 3];
      if VpdF(hi) {
        DwordLen(vconfig[..], start + 4);
        var ok := VpdStore(VpdAddr(lo, hi), Dword(vconfig[..], start + 4));
        if !ok {
          return;
        }
      } else {
        if vpd == [] {
          return;
        }
        SetDword(start + 4, VpdDword(vpd, VpdAddr(lo, hi)));
      }
      vconfig[start + 3] := VpdFlip(hi);
    }

    method SetDword(at: nat, d: seq<byte>)
      requires Valid() && at + 4 <= vconfig.Length
      modifies vconfig
      ensures vconfig[..] == Poke4(old(vconfig[..]), at, d)
    {
      vconfig[at], vconfig[at + 1], vconfig[at + 2], vconfig[at + 3] := At(d, 0), At(d, 1), At(d, 2), At(d, 3);
    }

    // vfio_exp_config_write
    method ExpAccess(start: nat, pos: nat, bytes: seq<byte>)
      requires Valid() && start <= pos && pos + |bytes| <= hw.Length && start + 12 <= hw.Length
      modifies this`resets, hw, vconfig
      ensures Value() == ExpWrite(old(Value()), start, pos, bytes)
    {
      hide DefaultWrite, Mrrs, Mps, FlrHandled, SetReadrq, MaxByte;
      var readrq := Mrrs(vconfig[start + 9]);
      DefaultStore(Exp, start, pos, bytes);
      HandleFlr(start);
      if readrq != Mrrs(vconfig[start + 9]) {
        SetReadrqFloor(start);
      }
    }

    method HandleFlr(start: nat)
      requires Valid() && start + 12 <= hw.Length
      modifies this`resets, vconfig
      ensures Value() == FlrHandled(old(Value()), start)
    {
      hide Poke, Initiates, Initiated, CanReset;
      if Initiates(vconfig[start + 9]) {
        SetVirt(start + 9, Initiated(vconfig[start + 9]));
        if CanReset(hw[start + 7]) {
          resets := resets + 1;
        }
      }
    }

    method SetVirt(at: nat, b: byte)
      requires Valid() && at < vconfig.Length
      modifies vconfig
      ensures vconfig[..] == Poke(old(vconfig[..]), at, b)
    {
      vconfig[at] := b;
    }

    // pcie_set_readrq with the payload size as a floor
    method SetReadrqFloor(start: nat)
      requires Valid() && start + 12 <= hw.Length
      modifies hw
      ensures Value() == SetReadrq(old(Value()), start, MaxByte(Mrrs(vconfig[start + 9]), Mps(old(hw[start + 8]))))
    {
      hide Mrrs, Mps, Stored, Merge, MaxByte;
      var code := MaxByte(Mrrs(vconfig[start + 9]), Mps(hw[start + 8]));
      if code <= 5 {
        hw[start + 9] := Stored(hw[start + 9], Merge(hw[start + 9], code << 4, 0x70), At(ro, start + 9));
      }
    }

    // vfio_af_config_write
    method AfAccess(start: nat, pos: nat, bytes: seq<byte>)
      requires Valid() && start <= pos && pos + |bytes| <= hw.Length && start + 6 <= hw.Length
      modifies this`resets, hw, vconfig
      ensures Value() == AfWrite(old(Value()), start, pos, bytes)
    {
      hide DefaultWrite, AfReset;
      DefaultStore(Af, start, pos, bytes);
      HandleAf(start);
    }

    method HandleAf(start: nat)
      requires Valid() && start + 6 <= hw.Length
      modifies this`resets, vconfig
      ensures Value() == AfReset(old(Value()), start)
    {
      hide Poke, AfInitiates, AfInitiated, AfCanReset;
      if AfInitiates(vconfig[start + 4]) {
        SetVirt(start + 4, AfInitiated(vconfig[start + 4]));
        if AfCanReset(hw[start + 3]) {
          resets := resets + 1;
        }
      }
    }

    // vfio_msi_config_read, which updates the word at the start of the capability and not its flags.
    method MsiRead(pos: nat, n: nat) returns (val: seq<byte>)
      requires Valid() && 0 < n && pos + n <= hw.Length && KindAt(owners[..], pos) == Msi
      modifies vconfig
      ensures Value() == ReadPrep(old(Value()), pos, n)
      ensures |val| == n && forall i :: 0 <= i < n ==> val[i] == ReadByte(Value(), pos, n, i)
    {
      var start := FindCapStart(pos);
      hide KindAt, StartOf, Virt, Merge, ReadByte, ReadPrep, QueueMax, Poke;
      MsiPrep(Value(), pos, n);
      if pos - start <= 2 && pos - start + n >= 2 {
        SetVirt(start, QueueMax(vconfig[start], qmax));
      }
      val := TableRead(Msi, start, pos, n);
    }

    // vfio_msi_config_write
    method MsiAccess(start: nat, pos: nat, bytes: seq<byte>)
      requires Valid() && start <= pos && pos + |bytes| <= hw.Length && start + 4 <= hw.Length
      modifies hw, vconfig
      ensures Value() == MsiWrite(old(Value()), start, pos, bytes)
    {
      hide DefaultWrite, HwStore, MsiFixed;
      DefaultStore(Msi, start, pos, bytes);
      if pos - start <= 2 && pos - start + |bytes| >= 2 {
        var flags := FixFlags(vconfig[start + 2]);
        vconfig[start + 2] := flags;
        var word := [flags, vconfig[start + 3]];
        HwWrite(start + 2, word);
      }
    }

    // Enable follows the ioctl and the queue size is capped.
    method FixFlags(was: byte) returns (flags: byte)
      ensures flags == MsiFixed(Value(), was)
    {
      flags := was;
      if !msiMode {
        flags := flags & 0xFE;
      }
      if (flags & 0x70) >> 4 > qmax {
        flags := (flags & !0x70) | (qmax << 4);
      }
    }

    // ---------------------------------------------------------------- accesses

    // The byte map routes every position; what the driver only warns about does not happen.
    ghost predicate Routes(caps: set<Cap>)
      reads this, owners
    {
      Laid(owners[..], caps, msi)
    }

    // vfio_config_do_rw on a read: the width of the chunk, or an error, and its bytes.
    method DoRead(pos: nat, count: nat, ghost caps: set<Cap>) returns (ret: int, val: seq<byte>)
      requires Valid() && Routes(caps) && 0 < count
      modifies this`bardirty, vconfig
      ensures pos + count > dev.cfgSize ==> ret == -EFAULT && Value() == old(Value())
      ensures pos + count <= dev.cfgSize ==>
        && ret == ChunkLen(owners[..], pos, count) && Value() == ReadPrep(old(Value()), pos, ret)
        && val == ReadBytes(Value(), pos, ret, ret)
    {
      if pos + count > dev.cfgSize {
        return -EFAULT, [];
      }
      var n := ChunkWidth(pos, count);
      var k := KindAt(owners[..], pos);
      var start := pos;
      if k !in {Raw, VirtOnly} {
        start := FindCapStart(pos);
      }
      ret := n;
      ChunkInBasic(owners[..], caps, msi, pos, count);
      hide KindAt, StartOf, ChunkLen, Laid, ReadByte, BarFixup, Virt, ReadBytes, ReadPrep;
      PrepCases(Value(), pos, n);
      match k {
        case Raw => val := RawRead(pos, n);
        case VirtOnly => val := VirtRead(pos, n);
        case Direct => val := DirectRead(start, pos, n);
        case Vendor => val := DirectRead(start, pos, n);
        case Basic => val := BasicRead(pos, n);
        case Msi => val := MsiRead(pos, n);
        case _ => val := TableRead(k, start, pos, n);
      }
      BytesRead(Value(), pos, n, val);
    }

    // The width of the next chunk: aligned, inside one dword and one capability.
    method ChunkWidth(pos: nat, count: nat) returns (n: nat)
      requires Valid() && 0 < count && pos + count <= owners.Length
      ensures n == ChunkLen(owners[..], pos, count)
    {
      var remaining := CapRemainingDword(pos);
      var m := Min(count, remaining);
      n := if m >= 4 && pos % 4 == 0 then 4 else if m >= 2 && pos % 2 == 0 then 2 else 1;
    }

    // vfio_raw_config_read
    method RawRead(pos: nat, n: nat) returns (val: seq<byte>)
      requires Valid() && pos + n <= hw.Length && KindAt(owners[..], pos) == Raw
      ensures |val| == n && forall i :: 0 <= i < n ==> val[i] == ReadByte(Value(), pos, n, i)
    {
      val := hw[pos..pos + n];
      hide KindAt, StartOf;
    }

    // vfio_virt_config_read
    method VirtRead(pos: nat, n: nat) returns (val: seq<byte>)
      requires Valid() && pos + n <= vconfig.Length && KindAt(owners[..], pos) == VirtOnly
      ensures |val| == n && forall i :: 0 <= i < n ==> val[i] == ReadByte(Value(), pos, n, i)
    {
      val := vconfig[pos..pos + n];
      hide KindAt, StartOf;
    }

    method TableRead(k: Kind, start: nat, pos: nat, n: nat) returns (val: seq<byte>)
      requires Valid() && pos + n <= hw.Length && k == KindAt(owners[..], pos) && start == StartOf(owners[..], pos)
      requires Tabled(k) && k != Basic
      ensures |val| == n && forall i :: 0 <= i < n ==> val[i] == ReadByte(Value(), pos, n, i)
    {
      hide KindAt, StartOf, Virt, Merge, ReadByte;
      val := DefaultRead(k, start, pos, n);
      forall i | 0 <= i < n ensures val[i] == ReadByte(Value(), pos, n, i) {
        TableByte(Value(), pos, n, i);
      }
    }

    // vfio_config_do_rw on a write.
    method DoWrite(pos: nat, buf: seq<byte>, ghost caps: set<Cap>) returns (ret: int)
      requires Valid() && Routes(caps) && buf != []
      modifies this, hw, vconfig
      ensures Valid() && unchanged(this`msi)
      ensures pos + |buf| > dev.cfgSize ==> ret == -EFAULT && Value() == old(Value())
      ensures pos + |buf| <= dev.cfgSize ==>
        && ret == ChunkLen(owners[..], pos, |buf|) && Value() == WriteChunk(old(Value()), pos, buf[..ret])
    {
      if pos + |buf| > dev.cfgSize {
        return -EFAULT;
      }
      var n := ChunkWidth(pos, |buf|);
      var bytes := buf[..n];
      var k := KindAt(owners[..], pos);
      var start := pos;
      if k !in {Raw, VirtOnly} {
        start := FindCapStart(pos);
      }
      ret := n;
      ChunkInBasic(owners[..], caps, msi, pos, |buf|);
      HandlerRoom(owners[..], caps, msi, pos);
      hide KindAt, StartOf, ChunkLen, Laid;
      Handle(k, start, pos, bytes);
    }

    // The write handler of a chunk.
    method Handle(k: Kind, start: nat, pos: nat, bytes: seq<byte>)
      requires Valid() && k == KindAt(owners[..], pos) && start == StartOf(owners[..], pos) && 0 < |bytes| <= 4 && pos + |bytes| <= dev.cfgSize
      requires (k == Basic ==> pos + |bytes| <= HEADER && start == 0)
      requires (k == Vpd ==> start + 8 <= dev.cfgSize) && (k == Exp ==> start + 12 <= dev.cfgSize)
      requires (k == Af ==> start + 6 <= dev.cfgSize) && (k == Msi ==> start + 4 <= dev.cfgSize)
      modifies this, hw, vconfig
      ensures Valid() && unchanged(this`msi) && Value() == WriteChunk(old(Value()), pos, bytes)
    {
      hide KindAt, StartOf, HwStore, Blend, BasicWrite, VpdWrite, ExpWrite, AfWrite, MsiWrite, DefaultWrite;
      match k {
        case Raw => HwWrite(pos, bytes);
        case VirtOnly => VirtMerge(pos, bytes, [0xFF, 0xFF, 0xFF, 0xFF]);
        case Direct => // no write handler
        case Vendor => HwWrite(pos, bytes);
        case Basic => BasicStore(pos, bytes);
        case Vpd => VpdAccess(start, pos, bytes);
        case Exp => ExpAccess(start, pos, bytes);
        case Af => AfAccess(start, pos, bytes);
        case Msi => MsiAccess(start, pos, bytes);
        case _ => DefaultStore(k, start, pos, bytes);
      }
    }

    // vfio_pci_config_rw on a read: all of it, or an error before anything happens.
    method ConfigRead(pos: nat, count: nat, ghost caps: set<Cap>) returns (done: int, buf: seq<byte>)
      requires Valid() && Routes(caps)
      modifies this`bardirty, vconfig
      ensures count > 0 && pos + count > dev.cfgSize ==> done == -EFAULT && Value() == old(Value())
      ensures count == 0 || pos + count <= dev.cfgSize ==>
        done == count && Value() == ReadAccess(old(Value()), pos, count).0 && buf == ReadAccess(old(Value()), pos, count).1
    {
      hide ReadPrep, ReadBytes, ChunkLen, Laid, ReadAccess;
      ghost var s := Value();
      var n: nat := 0;
      buf := [];
      assert [] + ReadAccess(s, pos, count).1 == ReadAccess(s, pos, count).1;
      while n < count
        invariant n <= count && |buf| == n && (n > 0 ==> pos + count <= dev.cfgSize)
        invariant n == 0 ==> Value() == s
        invariant ReadAccess(s, pos, count).0 == ReadAccess(Value(), pos + n, count - n).0
        invariant ReadAccess(s, pos, count).1 == buf + ReadAccess(Value(), pos + n, count - n).1
      {
        ReadUnfold(Value(), pos + n, count - n);
        var ret, val := DoRead(pos + n, count - n, caps);
        if ret < 0 {
          return ret, [];
        }
        ghost var rest := ReadAccess(Value(), pos + n + ret, count - n - ret).1;
        assert buf + (val + rest) == (buf + val) + rest;
        buf := buf + val;
        n := n + ret;
      }
      ReadEnd(Value(), pos + n);
      done := n;
    }

    // ... and on a write.
    method ConfigWrite(pos: nat, buf: seq<byte>, ghost caps: set<Cap>) returns (done: int)
      requires Valid() && Routes(caps)
      modifies this, hw, vconfig
      ensures buf != [] && pos + |buf| > dev.cfgSize ==> done == -EFAULT && Value() == old(Value())
      ensures buf == [] || pos + |buf| <= dev.cfgSize ==> done == |buf| && Value() == WriteAccess(old(Value()), pos, buf)
    {
      hide WriteChunk, ChunkLen, Laid;
      ghost var s := Value();
      var n: nat := 0;
      while n < |buf|
        invariant n <= |buf| && (n > 0 ==> pos + |buf| <= dev.cfgSize)
        invariant Valid() && Routes(caps)
        invariant n == 0 ==> Value() == s
        invariant WriteAccess(s, pos, buf) == WriteAccess(Value(), pos + n, buf[n..])
      {
        var ret := DoWrite(pos + n, buf[n..], caps);
        if ret < 0 {
          return ret;
        }
        assert buf[n..][ret..] == buf[n + ret..];
        n := n + ret;
      }
      done := n;
    }
  }
}
