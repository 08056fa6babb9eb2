/** The permission tables of device/vfio_pci_config.c: which bits of a capability the guest sees
    from the virtual copy and which bits it may write. */
module Perms {
  import opened Bytes
  import opened PciCaps
  import opened StdCapInit

  // The read and write handlers a byte is routed to.
  datatype Kind = Raw | VirtOnly | Direct | Vendor | Basic | Pm | Vpd | PciX | Exp | Af | Msi | Err | Pwr

  function KindAt(owner: seq<byte>, pos: nat): Kind {
    var id := At(owner, pos);
    if id == INVALID then Raw
    else if id == INVALID_VIRT then VirtOnly
    else if pos >= STD_SPACE then
      (if Num(id) == EXT_ID_ERR then Err else if Num(id) == EXT_ID_PWR then Pwr
       else if Num(id) == EXT_ID_VNDR then Vendor else Direct)
    else if id == 0 then Basic
    else if Num(id) == ID_PM then Pm
    else if Num(id) == ID_VPD then Vpd
    else if Num(id) == ID_MSI then Msi
    else if Num(id) == ID_PCIX then PciX
    else if Num(id) == ID_VNDR then Vendor
    else if Num(id) == ID_EXP then Exp
    else if Num(id) == ID_AF then Af
    else Direct
  }

  // Kinds whose accesses go through the virt and write tables.
  predicate Tabled(k: Kind) { k in {Basic, Pm, Vpd, PciX, Exp, Af, Msi, Err, Pwr} }

  // Bytes allocated for the tables of a kind.
  function TableLen(k: Kind, msi: MsiFlags): nat {
    match k
    case Basic => HEADER
    case Pm => 8
    case Vpd => 8
    case PciX => 24
    case Exp => 44
    case Af => 8
    case Msi => if msi.NoMsi? then 0 else RoundUp(MsiLen(msi.lo, msi.hi), 4)
    case Err => 44
    case Pwr => 16
    case _ => 0
  }

  predicate IsBar(off: nat) { 0x10 <= off < 0x28 || 0x30 <= off < 0x34 }

  // Bits of byte `off` of the capability that the guest reads from the virtual copy.
  function Virt(k: Kind, msi: MsiFlags, off: nat): byte {
    match k
    case Basic =>
      if off < 4 || IsBar(off) || off == CAPABILITY_LIST || off == 0x3C || off == 0x3D then 0xFF
      else if off == 5 then 0x04        // PCI_COMMAND_INTX_DISABLE
      else if off == STATUS then STATUS_CAP_LIST
      else 0
    case Vpd => if 1 <= off < 8 then 0xFF else 0
    case Exp => if off == 1 then 0xFF else if off == 8 then 0xE0 else if off == 9 then 0xF0 else 0
    case Af => if off == 1 then 0xFF else if off == 4 then 0x01 else 0
    case Msi =>
      if off == 1 || off == 2 || 4 <= off < 8 then 0xFF
      else if Addr64(msi) then (if 8 <= off < 14 then 0xFF else 0)
      else if off == 8 || off == 9 then 0xFF else 0
    case Err => if off < 4 then 0xFF else 0
    case Pwr => if off < 4 then 0xFF else 0
    case _ => if off == 1 then 0xFF else 0
  }

  // Bits of byte `off` of the capability that the guest may write.
  function Write(k: Kind, msi: MsiFlags, off: nat): byte {
    match k
    case Basic =>
      if off == 4 || off == 5 || off == 0xC || off == 0xD || off == 0xF || IsBar(off) || off == 0x3C then 0xFF else 0
    case Pm => if off == 4 then 0xFC else if 5 <= off < 8 then 0xFF else 0
    case Vpd => if 2 <= off < 8 then 0xFF else 0
    case PciX => if off == 2 || off == 3 || 8 <= off < 12 then 0xFF else 0
    case Exp =>
      if off == 8 then 0xFF else if off == 9 then 0xFD   // all but phantom functions
      else if off == 40 then 0xDF else if off == 41 then 0xFF else 0 // all but ARI
    case Af => if off == 4 then 0x01 else 0
    case Msi =>
      if off == 2 || 4 <= off < 8 then 0xFF
      else if Addr64(msi) then
        (if 8 <= off < 14 || (MaskBit(msi) && 16 <= off < 24) then 0xFF else 0)
      else if off == 8 || off == 9 || (MaskBit(msi) && 12 <= off < 20) then 0xFF else 0
    case Err =>
      if 4 <= off < 16 then (if off % 4 == 0 then 0x31 else if off % 4 == 1 then 0xF0 else if off % 4 == 2 then 0xFF else 0x03)
      else if off == 0x10 || off == 0x14 then 0xC1
      else if off == 0x11 || off == 0x15 then 0xF1
      else if off == 0x18 then 0x40 else if off == 0x19 then 0x01 else 0
    case Pwr => if off == 8 then 0xFF else 0
    case _ => 0
  }

  predicate Addr64(msi: MsiFlags) { msi.MsiFlags? && msi.lo & 0x80 != 0 }
  predicate MaskBit(msi: MsiFlags) { msi.MsiFlags? && msi.hi & 0x01 != 0 }

  // vfio_find_cap_start.
  function FindStart(owner: seq<byte>, pos: nat, base: nat): (start: nat)
    ensures start <= pos
    decreases pos
  {
    if pos > base && At(owner, pos - 1) == At(owner, pos) then FindStart(owner, pos - 1, base) else pos
  }

  // Start of the capability that `pos` is routed to.
  function StartOf(owner: seq<byte>, pos: nat): (start: nat)
    ensures start <= pos
  {
    if KindAt(owner, pos) in {Raw, VirtOnly} then pos
    else if At(owner, pos) == 0 then 0
    else FindStart(owner, pos, if pos >= STD_SPACE then STD_SPACE else HEADER)
  }

  // vfio_pci_cap_remaining_dword: bytes up to the end of the capability or of the dword.
  function Remaining(owner: seq<byte>, pos: nat, i: nat): (n: nat)
    requires 1 <= i <= 4
    ensures i <= n
    decreases 4 - i
  {
    if (pos + i) % 4 != 0 && At(owner, pos + i) == At(owner, pos) && i < 4 then Remaining(owner, pos, i + 1) else i
  }

  // The width of the first chunk of an access of `count` bytes at `pos`.
  function ChunkLen(owner: seq<byte>, pos: nat, count: nat): (n: nat)
    requires count > 0
    ensures n in {1, 2, 4} && n <= count && pos % n == 0
  {
    var m := Min(count, Remaining(owner, pos, 1));
    if m >= 4 && pos % 4 == 0 then 4 else if m >= 2 && pos % 2 == 0 then 2 else 1
  }
}
