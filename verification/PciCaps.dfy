/** Identifiers, positions and lengths of PCI capabilities: the tables at the head of
    device/vfio_pci_config.c with the constants of the PCI and PCI Express specifications. */
module PciCaps {
  import opened Bytes

  const HEADER := 64           // PCI_STD_HEADER_SIZEOF
  const STD_SPACE := 256       // PCI_CFG_SPACE_SIZE
  const EXT_SPACE := 4096
  const COMMAND := 4
  const STATUS := 6
  const STATUS_CAP_LIST: byte := 0x10
  const CAPABILITY_LIST := 0x34
  const CAP_SIZEOF := 4

  const ID_PM := 1
  const ID_AGP := 2
  const ID_VPD := 3
  const ID_MSI := 5
  const ID_PCIX := 7
  const ID_HT := 8
  const ID_VNDR := 9
  const ID_EXP := 0x10
  const ID_MSIX := 0x11
  const ID_SATA := 0x12
  const ID_AF := 0x13
  const ID_MAX := 0x14

  const INVALID: byte := 0xFF
  const INVALID_VIRT: byte := 0xFE
  const VARIABLE := 0xFF

  const EXT_ID_ERR := 1
  const EXT_ID_PWR := 4
  const EXT_ID_VNDR := 0xB
  const EXT_ID_MAX := 0x1F

  // What the PCI core knows about the function and the driver asks it for.
  datatype Pdev = Pdev(cfgSize: nat, expVersion: nat, rootComplexEndpoint: bool,
                       isVirtfn: bool, hideIntx: bool, vendorDevice: seq<byte>)
  {
    predicate Valid() { (cfgSize == STD_SPACE || cfgSize == EXT_SPACE) && |vendorDevice| == 4 }
  }

  // Zero: removed from the list the guest sees.  VARIABLE: asked of the capability itself.
  function StdTable(cap: nat): nat {
    if cap == 0 then HEADER
    else if cap == ID_PM then 8
    else if cap == ID_AGP then 12
    else if cap == ID_VPD then 8
    else if cap == ID_MSIX then 12
    else if cap == ID_AF then 6
    else if cap in {ID_MSI, ID_PCIX, ID_HT, ID_VNDR, ID_EXP, ID_SATA} then VARIABLE
    else 0
  }

  // Length of the standard capability `cap` at `pos`; zero hides it.
  function StdLen(dev: Pdev, hw: seq<byte>, pos: nat): nat {
    var cap := Num(At(hw, pos));
    if cap > ID_MAX then 0
    else if StdTable(cap) != VARIABLE then StdTable(cap)
    else if cap == ID_MSI then MsiLen(At(hw, pos + 2), At(hw, pos + 3))
    else if cap == ID_PCIX then if PcixV2(hw, pos) then 24 else 8
    else if cap == ID_VNDR then Num(At(hw, pos + 2))
    else if cap == ID_EXP then
      if dev.expVersion == 1 then (if dev.rootComplexEndpoint then 0xC else 20)
      else (if dev.rootComplexEndpoint then 0x2C else 44)
    else if cap == ID_HT then if At(hw, pos + 3) & 0xE0 != 0 then 24 else 28
    else if At(hw, pos + 4) & 0x0F == 0x0F then 16 else 8 // SATA
  }

  // MSI: 64-bit addresses are bit 7 of the flags word, per-vector masking is bit 8.
  function MsiLen(lo: byte, hi: byte): nat {
    10 + (if lo & 0x80 != 0 then 4 else 0) + (if hi & 0x01 != 0 then 10 else 0)
  }

  // PCI_X_CMD_VERSION: bits 12 and 13 of the command word.
  predicate PcixV2(hw: seq<byte>, pos: nat) { At(hw, pos + 3) & 0x30 != 0 }

  // Reading the length of these two capabilities also probes for extended configuration space.
  predicate ProbesExtended(hw: seq<byte>, pos: nat) {
    Num(At(hw, pos)) == ID_EXP || (Num(At(hw, pos)) == ID_PCIX && PcixV2(hw, pos))
  }

  predicate ExtendedPresent(hw: seq<byte>) {
    At(hw, 256) != 0 || At(hw, 257) != 0 || At(hw, 258) != 0 || At(hw, 259) != 0
  }

  // The extended counterpart of StdTable.
  function ExtTable(cap: nat): nat {
    if cap == EXT_ID_ERR then 0x2C
    else if cap == 3 then 12        // device serial number
    else if cap == EXT_ID_PWR then 16
    else if cap == 0xE then 8       // ARI
    else if cap == 0xF then 8       // ATS
    else if cap == 0x10 then 64     // SR-IOV
    else if cap == 0x12 then 40     // multicast, endpoint size
    else if cap == 0x13 then 16     // page request
    else if cap == 0x18 then 8      // LTR
    else if cap in {2, 8, 9, EXT_ID_VNDR, 0xD, 0x15, 0x16, 0x17} then VARIABLE
    else 0
  }

  // PCI_EXT_CAP_ID and PCI_EXT_CAP_NEXT of the dword at `pos`.
  function ExtId(bytes: seq<byte>, pos: nat): nat {
    Num(At(bytes, pos)) + 256 * Num(At(bytes, pos + 1))
  }

  function ExtNext(bytes: seq<byte>, pos: nat): nat {
    NextField(At(bytes, pos + 2), At(bytes, pos + 3))
  }

  function NextField(b2: byte, b3: byte): nat {
    Num((b2 & 0xC0) >> 4) + 16 * Num(b3)
  }

  // Length of the extended capability at `pos`; zero hides it.
  function ExtLen(hw: seq<byte>, pos: nat): nat {
    var cap := ExtId(hw, pos);
    if cap > EXT_ID_MAX then 0
    else if ExtTable(cap) != VARIABLE then ExtTable(cap)
    else if cap == EXT_ID_VNDR then Num(At(hw, pos + 6) >> 4) + 16 * Num(At(hw, pos + 7))
    else if cap in {2, 8, 9} then VcLen(At(hw, pos + 4), At(hw, pos + 8))
    else if cap == 0xD then
      if At(hw, pos + 4) & 0x20 != 0 then 8 + EgressBits(Num(At(hw, pos + 5))) / 8 else 8
    else if cap == 0x15 then 4 + Num((At(hw, pos + 8) & 0xE0) >> 5) * 8
    else if cap == 0x16 then 16 + Num(At(hw, pos + 4) & 0x1F) + 1
    else // TPH
      if At(hw, pos + 5) & 0x06 == 0x02
      then 12 + (Num(At(hw, pos + 6)) + 256 * Num(At(hw, pos + 7) & 0x07)) * 2 + 2
      else 12
  }

  function RoundUp(n: nat, to: nat): nat
    requires to > 0
  {
    (n + to - 1) / to * to
  }

  function EgressBits(n: nat): nat { if n == 0 then 256 else RoundUp(n, 32) }

  function VcLen(cap1: byte, cap2: byte): nat {
    var phases := if cap2 & 0x08 != 0 then 128 else if cap2 & 0x04 != 0 then 64
                  else if cap2 & 0x02 != 0 then 32 else 0;
    var len := 0x10 + (1 + Num(cap1 & 0x07)) * 0x0C;
    if phases * 4 != 0 then RoundUp(len, 16) + phases * 4 / 8 else len
  }
}
