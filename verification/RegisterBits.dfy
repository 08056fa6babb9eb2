/** The registers of every kind of capability, byte by byte, over whole runs: what a guest reads
    virtually, what its writes keep in the copy and what they change in hardware. */
module RegisterBits {
  import opened Bytes
  import opened PciCaps
  import opened StdCapInit
  import opened Layout
  import opened Perms
  import opened Routing
  import opened ConfigAccess
  import opened ListLinks
  import opened GuestRuns
  import opened HardwareBytes
  import opened ByteRules
  import opened RegisterMap

  // A byte of a capability is routed by its id, from the start of the capability.
  lemma CapRoute(s: Vdev, caps: set<Cap>, c: Cap, q: nat)
    requires Steady(s, caps) && c in caps && c.Has(q)
    ensures q < |s.owner| && StartOf(s.owner, q) == c.start && At(s.owner, q) == c.id
    ensures HEADER <= c.start && (c.start < STD_SPACE <==> q < STD_SPACE)
  {
    assert Laid(s.owner, caps, s.msi) && CapFits(c, |s.owner|);
    StartOfCap(s.owner, caps, s.msi, c, q);
    hide StartOf;
  }

  // The tables decide for a byte no handler patches.
  lemma TableBehaves(s: Vdev, caps: set<Cap>, c: Cap, q: nat)
    requires Steady(s, caps) && c in caps && c.Has(q) && StartOf(s.owner, q) == c.start && q < |s.owner|
    requires var k := KindAt(s.owner, q); Tabled(k) && k != Basic && !Patches(k, c.start, q) && !(k == Msi && q == c.start + 3)
    ensures var k := KindAt(s.owner, q); var off := q - c.start;
      Behaves(s, q, Virt(k, s.msi, off), VMask(k, s.msi, off), HMask(k, s.msi, off))
  {
    hide KindAt, StartOf, Virt, VMask, HMask, Steady, Behaves, Merge;
    AllFree(s, q);
    Behaving(s, caps, q);
  }

  lemma AllFree(s: Vdev, q: nat)
    requires Readable(s, q) && HwFree(s, q) == 0xFF && PatchBits(KindAt(s.owner, q), q - StartOf(s.owner, q)) == 0xFF
    ensures ReadFree(s, q) == 0xFF
  {
    hide KindAt, StartOf, Readable, VirtSeen, HwFree, PatchBits, Merge;
    FreeBits(0xFF, VirtSeen(s, q));
    if VirtSeen(s, q) == 0 { FreeBits(0, 0); }
  }

  lemma FreeBits(vbits: byte, virt: byte)
    requires vbits == 0xFF || virt == 0
    ensures Merge(0xFF, vbits, virt) == 0xFF
  {
  }

  // The three masks of a byte of a table.
  predicate TableIs(k: Kind, msi: MsiFlags, off: nat, virt: byte, vmask: byte, hmask: byte) {
    Virt(k, msi, off) == virt && VMask(k, msi, off) == vmask && HMask(k, msi, off) == hmask
  }

  lemma MsiTable(msi: MsiFlags, off: nat)
    requires msi.MsiFlags?
    ensures var data := if msi.lo & 0x80 != 0 then 12 else 8;
      && (off == 1 ==> TableIs(Msi, msi, off, 0xFF, 0, 0))
      && (4 <= off < data + 2 ==> TableIs(Msi, msi, off, 0xFF, 0xFF, 0))
      && (data + 4 <= off < data + 12 && msi.hi & 0x01 != 0 ==> TableIs(Msi, msi, off, 0, 0, 0xFF))
      && (off == 0 || data + 2 <= off < data + 4 ==> TableIs(Msi, msi, off, 0, 0, 0))
  {
  }

  // MSI: the guest's address and data are its own, and with per-vector masking it reaches the mask
  // and pending bits; the flags are ruled by MsiSync.
  lemma MsiBytes(s: Vdev, caps: set<Cap>, c: Cap, q: nat)
    requires Steady(s, caps) && c in caps && c.start < STD_SPACE && c.id == 5 && c.Has(q) && q - c.start !in {2, 3}
    ensures s.msi.MsiFlags?
    ensures var off := q - c.start; var data := if s.msi.lo & 0x80 != 0 then 12 else 8;
      && (off == 1 ==> Behaves(s, q, 0xFF, 0, 0))
      && (4 <= off < data + 2 ==> Behaves(s, q, 0xFF, 0xFF, 0))
      && (data + 4 <= off < data + 12 && s.msi.hi & 0x01 != 0 ==> Behaves(s, q, 0, 0, 0xFF))
      && (off == 0 || data + 2 <= off < data + 4 ==> Behaves(s, q, 0, 0, 0))
  {
    CapRoute(s, caps, c, q);
    assert s.msi.MsiFlags? by { assert Laid(s.owner, caps, s.msi); }
    hide StartOf, Steady, Behaves, Virt, VMask, HMask;
    TableBehaves(s, caps, c, q);
    MsiTable(s.msi, q - c.start);
  }

  // Power management: the control register but its two power state bits, which are the host's.
  lemma PmBytes(s: Vdev, caps: set<Cap>, c: Cap, q: nat)
    requires Steady(s, caps) && c in caps && c.start < STD_SPACE && c.id == 1 && c.Has(q)
    ensures var off := q - c.start;
      Behaves(s, q, if off == 1 then 0xFF else 0, 0, if off == 4 then 0xFC else if 5 <= off < 8 then 0xFF else 0)
  {
    CapRoute(s, caps, c, q);
    hide StartOf, Steady, Behaves;
    TableBehaves(s, caps, c, q);
  }

  // PCI-X: the command word and the ECC control dword.
  lemma PciXBytes(s: Vdev, caps: set<Cap>, c: Cap, q: nat)
    requires Steady(s, caps) && c in caps && c.start < STD_SPACE && c.id == 7 && c.Has(q)
    ensures var off := q - c.start;
      Behaves(s, q, if off == 1 then 0xFF else 0, 0, if off in {2, 3, 8, 9, 10, 11} then 0xFF else 0)
  {
    CapRoute(s, caps, c, q);
    hide StartOf, Steady, Behaves;
    TableBehaves(s, caps, c, q);
  }

  // PCI Express: of Device Control the payload size is the guest's own and error reporting reaches
  // hardware; of Device Control 2 all but ARI forwarding does.  Byte 9 follows below.
  lemma ExpBytes(s: Vdev, caps: set<Cap>, c: Cap, q: nat)
    requires Steady(s, caps) && c in caps && c.start < STD_SPACE && c.id == 0x10 && c.Has(q) && q != c.start + 9
    ensures var off := q - c.start;
      && (off == 1 ==> Behaves(s, q, 0xFF, 0, 0))
      && (off == 8 ==> Behaves(s, q, 0xE0, 0xE0, 0x1F))
      && (off == 40 ==> Behaves(s, q, 0, 0, 0xDF)) && (off == 41 ==> Behaves(s, q, 0, 0, 0xFF))
      && (off !in {1, 8, 40, 41} ==> Behaves(s, q, 0, 0, 0))
  {
    CapRoute(s, caps, c, q);
    hide StartOf, Steady, Behaves;
    TableBehaves(s, caps, c, q);
  }

  lemma AfMasks(msi: MsiFlags, off: nat)
    ensures HMask(Af, msi, off) == 0
    ensures off != 4 ==> TableIs(Af, msi, off, if off == 1 then 0xFF else 0, 0, 0)
  {
  }

  // Advanced features and VPD: nothing reaches hardware.
  lemma AfBytes(s: Vdev, caps: set<Cap>, c: Cap, q: nat)
    requires Steady(s, caps) && c in caps && c.start < STD_SPACE && c.id == 0x13 && c.Has(q)
    ensures Reaches(s, q, 0xFF, 0)
    ensures q != c.start + 4 ==> Behaves(s, q, if q == c.start + 1 then 0xFF else 0, 0, 0)
  {
    CapRoute(s, caps, c, q);
    hide StartOf, Steady, Behaves, Reaches;
    Reaching(s, caps, q);
    AfMasks(s.msi, q - c.start);
    hide VMask, HMask, Virt;
    if q != c.start + 4 { TableBehaves(s, caps, c, q); }
  }

  lemma VpdBytes(s: Vdev, caps: set<Cap>, c: Cap, q: nat)
    requires Steady(s, caps) && c in caps && c.start < STD_SPACE && c.id == 3 && c.Has(q)
    ensures Reaches(s, q, 0xFF, 0)
    ensures var off := q - c.start;
      && (off == 0 ==> Behaves(s, q, 0, 0, 0)) && (off == 1 ==> Behaves(s, q, 0xFF, 0, 0))
      && (off == 2 ==> Behaves(s, q, 0xFF, 0xFF, 0))
  {
    CapRoute(s, caps, c, q);
    hide StartOf, Steady, Behaves, Reaches;
    Reaching(s, caps, q);
    if q < c.start + 3 { TableBehaves(s, caps, c, q); }
  }

  lemma ErrTable(msi: MsiFlags, off: nat)
    ensures (off < 4 ==> TableIs(Err, msi, off, 0xFF, 0, 0))
    ensures off in {4, 8, 12} ==> TableIs(Err, msi, off, 0, 0, 0x31)
    ensures off in {5, 9, 13} ==> TableIs(Err, msi, off, 0, 0, 0xF0)
    ensures off in {6, 10, 14} ==> TableIs(Err, msi, off, 0, 0, 0xFF)
    ensures off in {7, 11, 15} ==> TableIs(Err, msi, off, 0, 0, 0x03)
  {
  }

  lemma ErrControlTable(msi: MsiFlags, off: nat)
    ensures off in {0x10, 0x14} ==> TableIs(Err, msi, off, 0, 0, 0xC1)
    ensures off in {0x11, 0x15} ==> TableIs(Err, msi, off, 0, 0, 0xF1)
    ensures off == 0x18 ==> TableIs(Err, msi, off, 0, 0, 0x40)
    ensures off == 0x19 ==> TableIs(Err, msi, off, 0, 0, 0x01)
    ensures off in {0x12, 0x13, 0x16, 0x17} || off >= 0x1A ==> TableIs(Err, msi, off, 0, 0, 0)
  {
  }

  // Error reporting: status, mask and severity of the errors the specification defines ...
  lemma ErrBytes(s: Vdev, caps: set<Cap>, c: Cap, q: nat)
    requires Steady(s, caps) && c in caps && c.start >= STD_SPACE && c.id == 1 && c.Has(q) && q < c.start + 16
    ensures var off := q - c.start;
      && (off < 4 ==> Behaves(s, q, 0xFF, 0, 0))
      && (off in {4, 8, 12} ==> Behaves(s, q, 0, 0, 0x31)) && (off in {5, 9, 13} ==> Behaves(s, q, 0, 0, 0xF0))
      && (off in {6, 10, 14} ==> Behaves(s, q, 0, 0, 0xFF)) && (off in {7, 11, 15} ==> Behaves(s, q, 0, 0, 0x03))
  {
    hide StartOf, Steady, Behaves, Virt, VMask, HMask;
    ErrMapped(s, caps, c, q);
    ErrTable(s.msi, q - c.start);
  }

  // ... the correctable ones, and the enables of check and generation.
  lemma ErrControlBytes(s: Vdev, caps: set<Cap>, c: Cap, q: nat)
    requires Steady(s, caps) && c in caps && c.start >= STD_SPACE && c.id == 1 && c.Has(q) && q >= c.start + 16
    ensures var off := q - c.start;
      && (off in {0x10, 0x14} ==> Behaves(s, q, 0, 0, 0xC1)) && (off in {0x11, 0x15} ==> Behaves(s, q, 0, 0, 0xF1))
      && (off == 0x18 ==> Behaves(s, q, 0, 0, 0x40)) && (off == 0x19 ==> Behaves(s, q, 0, 0, 0x01))
      && (off in {0x12, 0x13, 0x16, 0x17} || off >= 0x1A ==> Behaves(s, q, 0, 0, 0))
  {
    hide StartOf, Steady, Behaves, Virt, VMask, HMask;
    ErrMapped(s, caps, c, q);
    ErrControlTable(s.msi, q - c.start);
  }

  lemma ErrMapped(s: Vdev, caps: set<Cap>, c: Cap, q: nat)
    requires Steady(s, caps) && c in caps && c.start >= STD_SPACE && c.id == 1 && c.Has(q)
    ensures var off := q - c.start; q < |s.owner| && Behaves(s, q, Virt(Err, s.msi, off), VMask(Err, s.msi, off), HMask(Err, s.msi, off))
  {
    CapRoute(s, caps, c, q);
    hide StartOf, Steady, Behaves, Virt, VMask, HMask;
    TableBehaves(s, caps, c, q);
  }

  lemma PwrTable(msi: MsiFlags, off: nat)
    ensures TableIs(Pwr, msi, off, if off < 4 then 0xFF else 0, 0, if off == 8 then 0xFF else 0)
  {
  }

  // Power budgeting: the data register.
  lemma PwrBytes(s: Vdev, caps: set<Cap>, c: Cap, q: nat)
    requires Steady(s, caps) && c in caps && c.start >= STD_SPACE && c.id == 4 && c.Has(q)
    ensures var off := q - c.start; Behaves(s, q, if off < 4 then 0xFF else 0, 0, if off == 8 then 0xFF else 0)
  {
    CapRoute(s, caps, c, q);
    hide StartOf, Steady, Behaves, Virt, VMask, HMask;
    TableBehaves(s, caps, c, q);
    PwrTable(s.msi, q - c.start);
  }

  // Vendor capabilities are the guest's, but for the links of the list; all other capabilities, of
  // which MSI-X is one, are there to look at.
  lemma OtherBytes(s: Vdev, caps: set<Cap>, c: Cap, q: nat)
    requires Steady(s, caps) && c in caps && c.Has(q)
    requires if c.start < STD_SPACE then c.id !in {1, 3, 5, 7, 0x10, 0x13} else c.id !in {1, 4}
    ensures var vendor := if c.start < STD_SPACE then c.id == 9 else c.id == 0x0B;
      var link := if c.start < STD_SPACE then q == c.start + 1 else q < c.start + 4;
      Behaves(s, q, if link then 0xFF else 0, 0, if vendor then 0xFF else 0)
  {
    CapRoute(s, caps, c, q);
    OtherKind(s, caps, c, q);
    hide StartOf, KindAt, Steady, Behaves;
    Behaving(s, caps, q);
  }

  lemma OtherKind(s: Vdev, caps: set<Cap>, c: Cap, q: nat)
    requires Steady(s, caps) && c in caps && c.Has(q) && At(s.owner, q) == c.id && (c.start < STD_SPACE <==> q < STD_SPACE)
    requires if c.start < STD_SPACE then c.id !in {1, 3, 5, 7, 0x10, 0x13} else c.id !in {1, 4}
    ensures KindAt(s.owner, q) == if c.id == (if c.start < STD_SPACE then 9 else 0x0B) then Vendor else Direct
  {
    assert Laid(s.owner, caps, s.msi) && CapFits(c, |s.owner|);
    hide Laid;
  }

  // Bytes past the header that belong to no capability are the guest's.
  lemma RawBytes(s: Vdev, caps: set<Cap>, q: nat)
    requires Steady(s, caps) && HEADER <= q < |s.owner| && forall c :: c in caps ==> !c.Has(q)
    ensures Behaves(s, q, 0, 0, 0xFF)
  {
    SteadyGood(s, caps);
    RawOutside(s.owner, caps, s.msi, q);
    hide KindAt, StartOf, Steady, Behaves;
    Behaving(s, caps, q);
  }

  // The header past COMMAND and the registers that BarSizing rules: identifiers and the capability
  // pointer are the copy's, cache line size, latency timer and BIST reach hardware, the interrupt
  // line is the guest's own, and of the upper half of the status word nothing is.
  lemma HeaderBytes(s: Vdev, caps: set<Cap>, q: nat)
    requires Steady(s, caps) && q < HEADER && !(0x10 <= q < 0x28) && !(0x30 <= q < 0x34) && q != 4 && q != 5
    ensures q < |s.owner|
    ensures (q < 4 || q == 0x34 || q == 0x3D ==> Behaves(s, q, 0xFF, 0, 0)) && (q == 6 ==> Behaves(s, q, 0x10, 0, 0))
    ensures q in {0xC, 0xD, 0xF} ==> Behaves(s, q, 0, 0, 0xFF)
    ensures q == 0x3C ==> Behaves(s, q, 0xFF, 0xFF, 0)
    ensures q >= 7 && q !in {0xC, 0xD, 0xF, 0x34, 0x3C, 0x3D} ==> Behaves(s, q, 0, 0, 0)
  {
    HeaderKind(s, caps, q);
    hide KindAt, StartOf, Steady, Behaves;
    Behaving(s, caps, q);
  }

  lemma HeaderKind(s: Vdev, caps: set<Cap>, q: nat)
    requires Steady(s, caps) && q < HEADER
    ensures q < |s.owner| && KindAt(s.owner, q) == Basic && StartOf(s.owner, q) == 0
  {
    assert Laid(s.owner, caps, s.msi);
  }

  // ---------------------------------------------------------------- bytes that a handler shares

  // The lower byte of COMMAND reaches hardware whole; the guest reads it there, unless the function is
  // virtual, whose memory enable CommandBits rules.
  lemma CommandLow(s: Vdev, caps: set<Cap>)
    requires Steady(s, caps)
    ensures Reaches(s, 4, 0xFF, 0xFF) && (!s.func.isVirtfn ==> Reads(s, 4, 0xFF, 0, 0, 0xFF))
  {
    HeaderKind(s, caps, 4);
    hide KindAt, StartOf, Steady, Reaches, Reads;
    Reaching(s, caps, 4);
    if !s.func.isVirtfn { Reading(s, caps, 4); }
  }

  // Of the upper byte a guest moves INTX_DISABLE in the copy only, where it finds it.
  lemma CommandHigh(s: Vdev, caps: set<Cap>)
    requires Steady(s, caps)
    ensures Reaches(s, 5, 0xFB, 0xFB) && Reads(s, 5, 0xFF, 0x04, 0x04, 0xFB)
  {
    HeaderKind(s, caps, 5);
    hide KindAt, StartOf, Steady, Reaches, Reads;
    Reaching(s, caps, 5);
    Reading(s, caps, 5);
  }

  // The upper byte of Device Control: extended tags, auxiliary power and no snoop reach hardware,
  // phantom functions do not, and the guest finds the read request size it asked for.  Its reset bit
  // and what becomes of the read request size in hardware are FunctionReset's.
  lemma ExpControl(s: Vdev, caps: set<Cap>, c: Cap)
    requires Steady(s, caps) && c in caps && c.start < STD_SPACE && c.id == 0x10
    ensures Reaches(s, c.start + 9, 0x8F, 0x0D) && Reads(s, c.start + 9, 0x7F, 0xF0, 0xF0, 0x0D)
  {
    hide *;
    SharedByte(s, caps, c, 9);
    ExpMasks(s, c.start + 9);
    Reaching(s, caps, c.start + 9);
    Reading(s, caps, c.start + 9);
  }

  lemma ExpMasks(s: Vdev, q: nat)
    requires KindAt(s.owner, q) == Exp && q == StartOf(s.owner, q) + 9
    ensures Readable(s, q) && HwFree(s, q) == 0x8F && HwReach(s, q) == 0x0D
    ensures VirtSeen(s, q) == 0xF0 == VirtReach(s, q) && ReadFree(s, q) == 0x7F
  {
    hide KindAt, StartOf;
  }

  // AF Control beside its reset bit, which is FunctionReset's, is what hardware has.
  lemma AfControl(s: Vdev, caps: set<Cap>, c: Cap)
    requires Steady(s, caps) && c in caps && c.start < STD_SPACE && c.id == 0x13
    ensures Reads(s, c.start + 4, 0xFE, 0x01, 0x01, 0)
  {
    hide *;
    SharedByte(s, caps, c, 4);
    AfControlMasks(s, c.start + 4);
    Reading(s, caps, c.start + 4);
  }

  lemma AfControlMasks(s: Vdev, q: nat)
    requires KindAt(s.owner, q) == Af && q == StartOf(s.owner, q) + 4
    ensures Readable(s, q) && HwReach(s, q) == 0 && VirtSeen(s, q) == 0x01 == VirtReach(s, q) && ReadFree(s, q) == 0xFE
  {
    hide KindAt, StartOf;
  }

  // The upper byte of the VPD address: seven bits as last written, beside the F bit of the handshake.
  lemma VpdAddress(s: Vdev, caps: set<Cap>, c: Cap)
    requires Steady(s, caps) && c in caps && c.start < STD_SPACE && c.id == 3
    ensures Reads(s, c.start + 3, 0x7F, 0xFF, 0xFF, 0)
  {
    hide *;
    SharedByte(s, caps, c, 3);
    VpdMasks(s, c.start + 3);
    Reading(s, caps, c.start + 3);
  }

  lemma VpdMasks(s: Vdev, q: nat)
    requires KindAt(s.owner, q) == Kind.Vpd && q == StartOf(s.owner, q) + 3
    ensures Readable(s, q) && HwReach(s, q) == 0 && VirtSeen(s, q) == 0xFF == VirtReach(s, q) && ReadFree(s, q) == 0x7F
  {
    hide KindAt, StartOf;
  }

  // A byte of one of these three capabilities that its handler has a hand in.
  lemma SharedByte(s: Vdev, caps: set<Cap>, c: Cap, off: nat)
    requires Steady(s, caps) && c in caps && c.start < STD_SPACE && c.id in {3, 0x10, 0x13} && off in {3, 4, 9}
    requires off == (if c.id == 3 then 3 else if c.id == 0x10 then 9 else 4)
    ensures var q := c.start + off; q < |s.owner| && StartOf(s.owner, q) == c.start
    ensures KindAt(s.owner, c.start + off) == if c.id == 3 then Kind.Vpd else if c.id == 0x10 then Exp else Af
  {
    hide StartOf, Steady, KindAt;
    LongEnough(s, caps, c);
    CapRoute(s, caps, c, c.start + off);
    KindOf(s, c.start + off);
  }

  // The kinds of the capabilities whose bytes are shared.
  lemma KindOf(s: Vdev, q: nat)
    requires q < STD_SPACE && At(s.owner, q) in {3, 0x10, 0x13}
    ensures KindAt(s.owner, q) == if At(s.owner, q) == 3 then Kind.Vpd else if At(s.owner, q) == 0x10 then Exp else Af
  {
  }

  lemma LongEnough(s: Vdev, caps: set<Cap>, c: Cap)
    requires Steady(s, caps) && c in caps && c.start < STD_SPACE
    ensures (c.id == 3 ==> c.len == 8) && (c.id == 0x10 ==> c.len >= 12) && (c.id == 0x13 ==> c.len == 6)
  {
    assert Laid(s.owner, caps, s.msi) && Layout.Sized(c, s.msi);
    hide Laid, Steady;
  }
}
