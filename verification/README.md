# Verified model of the vfio-pci driver and the serial power switch

The repository holds a copy of the Linux `vfio-pci` driver, which hands a PCI device to a guest
through a virtualised configuration space, and a small serial protocol between a host and a board
that switches the power of a GPU. This project models their behaviour and proves what they are for.

| part | files |
|---|---|
| Configuration space: initialisation | `PciCaps`, `Chains`, `StdCapInit`, `ExtCapInit`, `ConfigInit`, `Layout`, `CapLengths` |
| Configuration space: accesses | `Perms`, `Routing`, `ConfigAccess`, `ByteRules`, `HardwareBytes`, `RegisterMap`, `RegisterBits` |
| Configuration space: whole runs | `ListLinks`, `GuestRuns`, `GuestView`, `HeaderView`, `BarGuard`, `BarSizing`, `BarTypes`, `CommandSync`, `CommandBits`, `MsiSync`, `MsiRegisters`, `FunctionReset`, `VpdHandshake`, `VpdOperation`, `SampleDevice` |
| Configuration space: the device object | `ConfigDevice` |
| Interrupts | `Interrupts`, `InterruptSafety`, `Deliveries`, `VectorSwitch`, `SignalWindow`, `InterruptDevice` |
| Configuration space and interrupts together | `JointRuns` |
| Reset groups | `ResetGroup`, `ResetBus`, `ResetRuns`, `SampleReset` |
| BAR regions and ioeventfds | `BarAccess`, `BarRegions`, `BarOutcomes`, `BarDevice` |
| Serial protocol | `SerialLink`, `SerialOutcomes`, `StaleReplies` |

Each part has two faces. State and steps are functions on values, about which the theorems are
stated; the code that updates its state in place is a class (`VfioPciDevice`, `VfioPciIrqs`,
`VfioBars`, `Arduino`, `SerialUsb`) whose methods, with the loops of the original, are proved equal
to those functions. So the theorems about runs hold of the methods. The methods of `Bus` are what one
thread does while it holds the lock of its group; `ResetRuns` shows that each leaves what a run of the
concurrent steps of `ResetGroup` by one thread leaves.

Beside the theorems about runs, every table and every handler is tied to the registers and numbers of
the specifications without the functions that model it: `CapLengths` (which capabilities are shown and how
long they are), `RegisterBits` (what every byte of every capability shows a guest and takes from it, over
whole runs), `BarTypes`, `CommandBits`, `MsiRegisters`, `VpdOperation`, `Deliveries`, `VectorSwitch`,
`BarOutcomes`, `SerialOutcomes`, and the outcome lemmas of `ResetBus` and `ResetGroup`.

A run is any sequence of guest reads and writes of any position and length, changes of the
writable bits of hardware registers, and changes of interrupt mode; the theorems quantify over all of
them. An access past the end of the space fails and changes nothing. A joint run has ioctls, interrupts
and unmasking eventfds instead of the changes of mode, which are then what the ioctls make of it.

### What is assumed of the hardware

- Chains are acyclic, dword aligned and in range, and their kept capabilities disjoint; kept
  standard ones are at least 2 bytes long, kept extended ones at least 4 (`StdFormed`, `ExtFormed`).
  No standard capability has id 0, the first extended one has an id the driver knows, and no two
  capabilities that touch have the same id (`NoTwins`): the map has no other way to tell them apart.
- The id bytes of standard capabilities are read-only in hardware, as PCI requires (`WellFormed`).
  For the BAR theorem the two decode bits of COMMAND are not stuck on, and a hardware change of the run
  either turns them off or leaves them and the BARs as they were.
- A hardware register bit is read-only or plain storage; there are no bits cleared by writing one.
- Buffers from `kmalloc` have arbitrary contents before they are filled.

`SampleDevice.SampleWellFormed` gives a device that meets these hypotheses, with a hidden capability in
each list, MSI, VPD, PCI Express and a 64-bit BAR, and `SampleReset.ResetReached` a run that reaches a
reset of two devices, so the theorems are not about nothing. `SampleDevice.SampleAhead` and
`SampleDevice.SampleUnsized` are instances of the findings on INTx and on sizing.

## Findings

The model follows the code where the code and its comments or purpose disagree.

- A device opened with INTx disabled in hardware shows the guest the disable bit set while the driver
  takes it for clear (`CommandSync.OpenedAhead`): `vfio_pci_enable` disables INTx on devices with broken
  masking and clears the bit only on those that can mask (device/vfio_pci.c:243-257), and
  `vfio_config_init` copies COMMAND as it finds it. `CommandSync.FollowsExactly` gives the exact
  condition: the two agree if and only if hardware had INTx enabled at opening or the guest has
  written COMMAND since.
- `vfio_msi_config_read` updates `vconfig[start]`, the id byte, and not the flags at offset 2
  (device/vfio_pci_config.c:1070). `ReadPrepPinned` and `StdListIds` show that this never reaches the
  guest: the link is kept and the id byte is read from hardware.
- `vfio_intx_set_signal` requests the line and disables it again under a lock taken later
  (device/vfio_pci_intrs.c:208-221). On a device that cannot mask itself, an interrupt in between leaves the
  line disabled twice; `SignalWindow.WindowExact` shows that the result is right if and only if the
  device masks itself or no interrupt arrives in between.
- `SerialUsb::sendCommand` never discards what an exchange that timed out left on the line
  (host/serial.cpp:41-85). `StaleReplies.StaleSession` and `StaleReplies.ShiftStays` give what later exchanges answer.
- The comment of the power budgeting table allows writes of the data selector and keeps the data
  read-only; the code makes the data register at offset 8 writable (device/vfio_pci_config.c:994-995).
- `vfio_bar_fixup` takes bit 2 of the previous register for the 64-bit flag also when that register
  is I/O (device/vfio_pci_config.c:473). With a range of four bytes the bit belongs to the address, so
  a guest can keep the next register from being sized. `BarSizing.TinyBreaks` gives the writes and the
  read that show it, `BarSizing.SizingExact` the condition under which every register is sized.

## Model

| member | source | states |
|---|---|---|
| GuestView.StdListFollowed | device/vfio_pci_config.c:1429-1513 | In every state reachable by any run of guest accesses, hardware changes of writable bits and interrupt-mode changes, a read of any position and length that covers the pointer to entry i of the standard list shows the i-th kept hardware capability, in hardware order, and 0 after the last |
| GuestView.StdListAnnounced | device/vfio_pci_config.c:1506-1510 | In every reachable state the status register a guest reads has the capability-list bit exactly when some capability is kept |
| GuestView.StdListIds | device/vfio_pci_config.c:250-272 | In every reachable state the id byte a guest reads at a kept entry is the one hardware has |
| GuestView.ExtListFollowed | device/vfio_pci_config.c:1515-1612 | A guest follows the extended list, reading each header byte after any run with a read of any shape: the first header is at 0x100, the ids are the hardware's (0 for the anchor of a hidden first capability), each next field leads to the next shown entry and the last one below the extended space |
| GuestView.ExtListEmpty | device/vfio_pci_config.c:1593-1612 | With no extended capability kept, every such look at the first header finds 0 |
| GuestView.ExtHeaderShown | device/vfio_pci_config.c:1515-1612 | In every reachable state a read of any shape that covers a byte of an extended header the guest can reach shows the byte initialisation built, which `BuildExtShown` describes |
| GuestView.OpenedSteady | device/vfio_pci_config.c:1636-1727 | Opening a device with well-formed chains establishes the invariant under which its links stay put |
| CapLengths.GuestFollowsStd | device/vfio_pci_config.c:1429-1513 | Following the pointers from 0x34, in any reachable state and access shape, a guest meets exactly the capabilities of the hardware list with id 1, 2, 3, 5, 7, 8, 0x10 to 0x13, or 9 with a length byte that is not 0, in hardware order and with their ids |
| CapLengths.GuestReachesStd | device/vfio_pci_config.c:46-71 | A capability of a well-formed hardware list is what some pointer of the guest's list reads as, after every run and in every shape, if and only if it is one of these |
| CapLengths.GuestToldStd | device/vfio_pci_config.c:1506-1510 | Bit 4 of the status register a guest reads is set exactly when the hardware list has one of these |
| CapLengths.GuestFollowsExt | device/vfio_pci_config.c:1515-1612 | Following the 12-bit next fields from 0x100, header bytes read when and how it likes, a guest meets exactly the extended capabilities whose id is known (a vendor one if its length is not 0), in hardware order and with their ids, behind an anchor without id if the first is hidden; the last next field is below 0x100 |
| CapLengths.GuestToldExt | device/vfio_pci_config.c:1608-1609 | With none of them in the hardware list, a guest reads zeros at 0x100 |
| CapLengths.LooksExtended | device/vfio_pci_config.c:1243-1271 | The extended list is looked for exactly on 4096-byte functions where the dword at 0x100 is not 0 and the standard list has PCI Express or a PCI-X of a later version |
| HeaderView.IdentityShown | device/vfio_pci_config.c:1685-1709 | Whatever happened before, a guest reads the vendor and device id of hardware, or those of the PCI core on a virtual function, and no interrupt pin on a virtual function or where INTx is hidden |
| HeaderView.LineRemembered | device/vfio_pci_config.c:658-659 | The interrupt line register reads as last written and never moves in hardware but by hardware |
| GuestRuns.RunSteady | device/vfio_pci_config.c:1838-1861 | The invariant and every link byte (header pointer, next bytes, ids, extended headers, list bit) survive every run |
| GuestRuns.WriteRo | device/vfio_pci_config.c:156-175 | No guest write of any kind, including the handlers and the BAR restore, changes a read-only hardware bit |
| GuestRuns.ReadShows | device/vfio_pci_config.c:1838-1861 | A read of any width, alignment and length that covers a link byte returns the byte of the virtual copy, and for the status byte its list bit |
| ListLinks.WritePinned | device/vfio_pci_config.c:1755-1836 | No chunk of a guest write, whatever handler it reaches, changes a link byte of the virtual copy |
| ListLinks.ReadPrepPinned | device/vfio_pci_config.c:1059-1077 | The handlers that write the virtual copy on a read (BAR fixup, and the MSI update that lands on the id byte) leave every link byte as it was |
| Layout.BuildStdShown | device/vfio_pci_config.c:1636-1727 | After the whole of initialisation the virtual standard list is the hardware list without the hidden capabilities, announced exactly when it is not empty, with the hardware ids |
| Layout.BuildExtShown | device/vfio_pci_config.c:1636-1727 | After the whole of initialisation the virtual extended list is the kept capabilities in order, preceded by an id-0 anchor exactly when the first is hidden and another is kept; with none kept the dword at 0x100 is 0 |
| ConfigInit.StdListShown | device/vfio_pci_config.c:1500-1513 | The standard walk alone produces that list and clears the list bit exactly when nothing was kept |
| ConfigInit.ExtListShown | device/vfio_pci_config.c:1593-1612 | The extended walk alone produces that list, or clears the first dword when nothing was kept |
| StdCapInit.WalkLinks | device/vfio_pci_config.c:1454-1504 | From any point of the walk, the pointer at `prev` ends up leading through exactly the kept capabilities of the rest of the chain |
| StdCapInit.WalkTakes | device/vfio_pci_config.c:1484-1503 | Every byte of a kept capability ends up owned by its id and copied from hardware, except the next pointer, whatever the walk does later |
| ExtCapInit.ExtWalkLinks | device/vfio_pci_config.c:1530-1606 | The same for the 12-bit next field that lies across two header bytes |
| Chains.Pigeonhole | device/vfio_pci_config.c:1453-1454 | A chain of disjoint dword-aligned capabilities has no more entries than there are dwords, so the loop bounds (48 standard ones) cut no legal chain |
| Layout.BuildMsi | device/vfio_pci_config.c:1159-1189 | The MSI table the driver allocates is the one for the flags of the MSI capability of the chain, and no later step replaces it |
| Layout.TablesKnown | device/vfio_pci_config.c:46-102 | Only ids that have a row in the permission tables get a length in either walk, and the length fits the table of the id; which ids do, and how long they are, is CapLengths.StdKept, ExtKept and the rows after them |
| CapLengths.StdKept | device/vfio_pci_config.c:46-71 | The capabilities kept of a well-formed chain are those whose id is known, with id 9 only if its length byte is not 0, in order |
| CapLengths.StdLengths | device/vfio_pci_config.c:1233-1306 | The length of a standard capability by its id and flag bits, zero for every other id |
| CapLengths.MsiLengths | device/vfio_pci_config.c:1159-1190 | MSI is 10, 14, 20 or 24 bytes long by its 64-bit and masking flags |
| CapLengths.ExtKept | device/vfio_pci_config.c:73-102 | The same of extended chains, ids being two bytes |
| CapLengths.ExtLengths | device/vfio_pci_config.c:73-102 | The length of extended capabilities of fixed size by id, zero for every unknown id |
| CapLengths.ExtCounts | device/vfio_pci_config.c:1308-1380 | Vendor capabilities are as long as their header says, resizable BAR and dynamic power allocation as their counts say |
| CapLengths.VcLengths | device/vfio_pci_config.c:1192-1231 | Virtual channels: header, a block a channel and the arbitration table on a 16-byte boundary |
| CapLengths.AcsLengths | device/vfio_pci_config.c:1325-1342 | Access control: 8 bytes, with egress control a vector of the given number of bits in dwords |
| CapLengths.TphLengths | device/vfio_pci_config.c:1361-1374 | TPH requester: 12 bytes, and its steering table if it is located there |
| Layout.BuildLaid | device/vfio_pci_config.c:1636-1727 | The byte map initialisation builds gives the header to the header handlers, each kept capability (and the anchor) to its id, and everything else to nobody |
| Routing.StartOfCap | device/vfio_pci_config.c:1042-1057 | The backward search returns the header position of the capability a byte belongs to, for every byte of every kept capability |
| Routing.Routed | device/vfio_pci_config.c:1779-1813 | Every position is routed to the header, to the capability that has it, or to raw access; there is no fourth case |
| Routing.RawOutside | device/vfio_pci_config.c:1784-1789 | Positions outside the header and outside every capability are raw |
| Routing.ChunkInside | device/vfio_pci_config.c:1743-1753 | Every chunk lies in one dword and all its bytes have one owner |
| Routing.ChunkInCap | device/vfio_pci_config.c:1743-1753 | A chunk that begins in a capability stays in it |
| Routing.ChunkInTable | device/vfio_pci_config.c:349-376 | Offset plus width of every table-driven chunk stays inside the permission table that was allocated for it |
| Routing.ChunkWidest | device/vfio_pci_config.c:1749-1779 | A chunk is as wide as the rest of the access, its alignment and the owners of its bytes allow |
| ByteRules.WriteRule | device/vfio_pci_config.c:203-247 | A write of any position and length over capabilities without side effects, chopped as the driver does, changes exactly the virtual bits in write&virt and the writable hardware bits in write&~virt, and nothing else of the state |
| ByteRules.ReadRule | device/vfio_pci_config.c:177-201 | A read of any position and length takes the virtual bits from the copy and the rest from hardware, byte by byte, including the all-virtual shortcut and the direct and raw handlers |
| ByteRules.ReadQuiet | device/vfio_pci_config.c:177-201 | Such reads change nothing |
| RegisterMap.Behaving | device/vfio_pci_config.c:177-248 | Over whole runs and in any shape, a byte no handler patches moves in hardware only with hardware and with the bits its table lets a guest write there, and reads as the virtual bits last written and hardware's others |
| RegisterBits.MsiBytes | device/vfio_pci_config.c:1125-1157 | MSI: address and data belong to the copy in all bits and never reach hardware, mask and pending dwords are hardware's and writable with per-vector masking, the rest is fixed |
| RegisterBits.PmBytes | device/vfio_pci_config.c:701-720 | Power management: of the control dword all but the two state bits reach hardware, nothing else does |
| RegisterBits.PciXBytes | device/vfio_pci_config.c:792-803 | PCI-X: the command word and the ECC dword reach hardware, nothing else does |
| RegisterBits.ExpBytes | device/vfio_pci_config.c:862-884 | PCI Express: the payload size is the copy's, the other bits of that byte and all of Device Control 2 but ARI reach hardware, no other byte does |
| RegisterBits.ExpControl | device/vfio_pci_config.c:872-883 | Upper byte of Device Control: extended tags, auxiliary power and no snoop reach hardware, phantom functions do not, the read request size reads as last written |
| RegisterBits.AfBytes | device/vfio_pci_config.c:920-931 | Advanced features: nothing reaches hardware |
| RegisterBits.AfControl | device/vfio_pci_config.c:920-931 | AF Control beside its reset bit reads as hardware has it |
| RegisterBits.VpdBytes | device/vfio_pci_config.c:768-790 | VPD: no register reaches hardware; the lower address byte reads as last written |
| RegisterBits.VpdAddress | device/vfio_pci_config.c:784-787 | Seven bits of the upper address byte read as last written |
| RegisterBits.ErrBytes | device/vfio_pci_config.c:933-971 | Error reporting: exactly the defined bits of uncorrectable status, mask and severity reach hardware |
| RegisterBits.ErrControlBytes | device/vfio_pci_config.c:971-985 | ... of correctable status and mask, and the two ECRC enables |
| RegisterBits.PwrBytes | device/vfio_pci_config.c:987-1000 | Power budgeting: the byte at offset 8 reaches hardware, nothing else does |
| RegisterBits.OtherBytes | device/vfio_pci_config.c:250-300 | All other capabilities read as hardware with their link from the copy; vendor ones are written through, the others not at all |
| RegisterBits.RawBytes | device/vfio_pci_config.c:275-300 | Bytes that belong to nothing are hardware's, read and written |
| RegisterBits.HeaderBytes | device/vfio_pci_config.c:621-666 | The header past COMMAND and the BARs: what is the copy's, what reaches hardware and what neither |
| RegisterBits.CommandLow | device/vfio_pci_config.c:639-643 | The lower byte of COMMAND reaches hardware in all bits and is read there |
| RegisterBits.CommandHigh | device/vfio_pci_config.c:639-643 | Of the upper byte INTX_DISABLE is the copy's and the rest hardware's |
| BarGuard.DecodeMeansRestored | device/vfio_pci_config.c:540-618 | In every run of guest accesses, backdoor resets and hardware changes that spare COMMAND's decode bits and the BARs, on a physical function, while hardware decodes memory or I/O every non-zero BAR holds what the host programmed, and this for every chopping of the writes |
| BarGuard.RunGuarded | device/vfio_pci_config.c:524-538 | The inductive invariant behind it: either decode is off or every register holds its saved value, through every run |
| BarGuard.CommandRestores | device/vfio_pci_config.c:551-581 | Whatever a guest writes to COMMAND, the registers hold their saved values afterwards |
| BarGuard.RestoreHolds | device/vfio_pci_config.c:405-428 | A restore leaves each byte of the six BARs equal to its saved byte |
| CommandBits.RestoresExactly | device/vfio_pci_config.c:540-581 | After a write of any shape, each writable bit of the BARs and the ROM register in hardware is the saved one if the write covers COMMAND, the function is physical and either an enable the guest believes on is off in hardware while it sets it or a saved BAR is lost, and unchanged otherwise |
| CommandBits.EnablesFollow | device/vfio_pci_config.c:591-596 | A write of any shape that covers COMMAND leaves its two enables in the copy, and nothing else of that byte |
| CommandBits.DisablesExactly | device/vfio_pci_config.c:423-427 | INTX_DISABLE in hardware changes only when registers are restored on a function whose INTx is hidden, which sets it |
| CommandBits.VirtualMemory | device/vfio_pci_config.c:511-518 | On a virtual function a guest reads the memory enable it wrote beside hardware's COMMAND |
| CommandBits.OpenedSaves | device/vfio_pci_config.c:1676-1683 | Opening saves the six BARs and the ROM register as hardware has them |
| BarSizing.GuestSizes32 | device/vfio_pci_config.c:453-500 | A guest that writes all ones to a 32-bit BAR and reads it back through the access path decodes exactly the length of the range |
| BarSizing.GuestSizes64 | device/vfio_pci_config.c:453-500 | The same for the two halves of a 64-bit BAR |
| BarSizing.GuestPlaces32 | device/vfio_pci_config.c:502-521 | Any base aligned to the length reads back as written, with the type flags |
| BarSizing.GuestPlaces64 | device/vfio_pci_config.c:502-521 | The same for a 64-bit BAR |
| BarSizing.ReadsBack32 | device/vfio_pci_config.c:453-500 | Whatever is written to a 32-bit BAR reads back as the base bits its length decodes, with the type flags, which BarTypes.GuestSeesType reads bit by bit |
| BarSizing.ReadsBack64 | device/vfio_pci_config.c:453-500 | The same for the two halves of a 64-bit BAR in order |
| BarTypes.GuestSeesType | device/vfio_pci_config.c:430-447 | In any state and shape, bit 0 of a register a guest reads tells I/O; of memory bit 1 is 0, bit 2 tells 64-bit addresses and bit 3 prefetchable memory |
| BarTypes.GuestSeesNone | device/vfio_pci_config.c:464-467 | A register without a range reads as zero whatever was written |
| BarTypes.RomReadsBack | device/vfio_pci_config.c:480-497 | The ROM register reads back the base bits above its length, or above 128 KiB of the shadow, with the enable bit, and zero without a ROM |
| BarTypes.GuestSizesRom | device/vfio_pci_config.c:480-497 | Sized as firmware does it, it gives the length of the ROM |
| BarSizing.WriteThenRead | device/vfio_pci_config.c:502-521 | The byte form, for writes and reads of any position and length that cover a BAR byte |
| BarSizing.ReadBars | device/vfio_pci_config.c:502-521 | A read of any position and length shows each BAR byte sized, whatever the copy holds |
| BarSizing.FixBarsByte | device/vfio_pci_config.c:461-480 | The fixup loop with its skip over the upper half of 64-bit registers computes for each register byte the byte-wise definition |
| BarSizing.FixBarsTwice | device/vfio_pci_config.c:461-480 | The fixup loop is idempotent on any contents, also where it mistakes a register for a 64-bit one |
| BarSizing.FixupTwice | device/vfio_pci_config.c:453-500 | The whole fixup, with the ROM, is idempotent on any contents |
| BarSizing.SizingExact | device/vfio_pci_config.c:473-477 | The fixup sizes every register for every guest if and only if none of the first five is an I/O range of four bytes, whose address bit 2 passes for the 64-bit flag |
| BarSizing.FaithfulExact | device/vfio_pci_config.c:473-477 | What the sizing theorems assume of the registers is exactly that condition |
| BarSizing.TinyBreaks | device/vfio_pci_config.c:473-477 | The failing input: a guest clears its registers, writes all ones to a four-byte I/O BAR and the next one, and a read of the next one does not show it sized |
| CommandSync.CommandAccess | device/vfio_pci_config.c:598-612 | After any guest write that covers either byte of COMMAND, however it is chopped and whatever follows in it, the interrupt code has been told exactly the guest INTx disable bit, with mask and unmask calls alternating; any other write leaves both alone |
| CommandSync.FollowsExactly | device/vfio_pci_config.c:598-612 | In every run from opening on, the driver's mask state equals the guest's bit if and only if hardware had INTx enabled at opening or the guest wrote COMMAND in the run; the mask and unmask calls alternate |
| CommandSync.OpenedAhead | device/vfio_pci.c:243-257 | A device opened with INTx disabled in hardware shows the guest the bit set while the driver has it clear |
| CommandSync.RunFollows | device/vfio_pci_config.c:598-612 | From any state of the invariant, the two agree after a run if and only if they did before it or the guest wrote COMMAND in it |
| JointRuns.EveryRun | device/vfio_pci_config.c:598-612 | In every joint run of configuration accesses, ioctls and interrupts, both parts have the same INTx state, MSI mode and queue maximum, and each keeps its invariant |
| JointRuns.InterruptsFollow | device/vfio_pci_config.c:598-612 | In every joint run, the interrupt code has INTx disabled as the guest's bit says if and only if hardware had it enabled at opening or the guest wrote COMMAND |
| JointRuns.QueueInEveryRun | device/vfio_pci_config.c:1079-1119 | In every joint run, after a guest write of any shape that covers the MSI flags: both copies agree, ENABLE is set only in MSI mode, and in MSI mode two to the queue size is below twice the number of vectors there are |
| MsiSync.MsiAccessAgrees | device/vfio_pci_config.c:1079-1119 | After any guest write that covers the MSI flags, however split and whatever else it covers, hardware and virtual flags agree in every writable bit, ENABLE is set only in MSI mode and the queue size is at most the maximum the mode sets |
| MsiSync.MsiWriteAgrees | device/vfio_pci_config.c:1089-1119 | The same for one call of the handler |
| MsiSync.FixedLegal | device/vfio_pci_config.c:1099-1107 | The handler makes any flags legal and leaves legal ones alone |
| MsiRegisters.MsiShielded | device/vfio_pci_config.c:1125-1157 | In every run from opening on, no guest write moves a hardware byte of an MSI capability but the flags and, with per-vector masking, the mask and pending dwords; offsets and length by the flag bits of hardware |
| MsiRegisters.MsiRemembered | device/vfio_pci_config.c:1140-1150 | In every such run message address and data read in any shape as the guest last wrote them, or as hardware had them at opening |
| MsiRegisters.MsiFlagsExact | device/vfio_pci_config.c:1079-1119 | A write of any shape that covers the flags leaves the enable asked for if the mode is MSI, the queue size asked for up to the maximum and every other bit as asked |
| MsiRegisters.MsiFlagsRead | device/vfio_pci_config.c:1125-1140 | The guest reads the flags byte it was left with and hardware's upper byte |
| MsiRegisters.MsiReadScribbles | device/vfio_pci_config.c:1059-1077 | A read that comes to the flags puts the queue maximum in bits 1 to 3 of the copy of the capability's first byte and changes nothing else |
| FunctionReset.ResetReadsZero | device/vfio_pci_config.c:819-835 | In every reachable state of a device whose hardware shows the reset bits of PCI Express and AF clear, a read of any shape shows them clear |
| FunctionReset.RunReset | device/vfio_pci_config.c:819-835 | A clear reset bit of the copy stays clear through every run |
| FunctionReset.ReachableRequests | device/vfio_pci_config.c:819-835 | In every reachable state of such a device, a guest write of any position and length requests exactly as many function resets as its bytes set reset bits of capabilities (PCI Express or AF) whose hardware has the function reset |
| FunctionReset.ResetsRequested | device/vfio_pci_config.c:886-917 | The same from any state of the access invariant with the bits clear, which a write leaves clear |
| FunctionReset.MrrsAccess | device/vfio_pci_config.c:850-857 | After a guest write of any position and length, hardware has the larger of the guest's new read request size and its own payload size if the guest changed its size and there is such a size, and otherwise what it had; the copy has the guest's size |
| VpdHandshake.RoundTrip | device/vfio_pci_config.c:723-765 | The guest stores at an aligned address in range; after any further attempts that do not store there (fetches, stores elsewhere, refused ones), a fetch from it and any events that leave the data byte alone, a read of any shape shows the stored byte; the store clears F and the fetch sets it |
| VpdHandshake.FetchesLast | device/vfio_pci_config.c:723-765 | After any sequence of attempts a fetch from an address in range shows what was last stored there, or what was there at the start, and sets F |
| VpdHandshake.StorageRemembers | device/vfio_pci_config.c:723-765 | The storage is a memory: after any sequence of attempts each address holds what was last stored at it |
| VpdHandshake.Handshake | device/vfio_pci_config.c:723-765 | The outcome of an attempt depends only on what was prepared and the address written last: an operation takes place exactly once, F flips exactly when it succeeds |
| VpdHandshake.QuietRun | device/vfio_pci_config.c:741-742 | No run that never writes the upper address byte reaches the storage; meanwhile each register byte holds what was last written to it |
| VpdHandshake.TriggerAccess | device/vfio_pci_config.c:741-765 | A write that ends with the upper address byte triggers exactly one operation with the address it leaves, however it is split |
| VpdOperation.AddressWritten | device/vfio_pci_config.c:723-765 | In numbers: a write that ends at the upper address byte stores the four data bytes at the 15-bit address if it is aligned and inside the storage, or fetches four bytes, zero past the end; the sixteenth bit flips exactly then, and nothing else changes |
| ConfigDevice.WellFormedInRange | device/vfio_pci_config.c:1429-1513 | Well-formed chains keep both walks inside the space, which is what the in-place walks ask for |
| ConfigDevice.VfioPciDevice.FillVconfigBytes | device/vfio_pci_config.c:1382-1427 | The widening copy loop (dword, word, byte by alignment) equals a byte-wise copy of hardware into `vconfig` |
| ConfigDevice.VfioPciDevice.StdVisit | device/vfio_pci_config.c:1455-1503 | One turn of the standard walk in place equals the functional visit |
| ConfigDevice.VfioPciDevice.CapWalk | device/vfio_pci_config.c:1454-1504 | The whole loop, with its early stop and its bound, equals the functional walk |
| ConfigDevice.VfioPciDevice.CapInit | device/vfio_pci_config.c:1429-1513 | The method leaves both buffers and the extended flag as the initialisation function says |
| ConfigDevice.VfioPciDevice.ExtStep | device/vfio_pci_config.c:1530-1606 | One turn of the extended walk in place, with its anchor case, equals the functional visit |
| ConfigDevice.VfioPciDevice.ExtWalkLoop | device/vfio_pci_config.c:1528-1606 | The whole extended loop equals the functional walk |
| ConfigDevice.VfioPciDevice.EcapInit | device/vfio_pci_config.c:1515-1612 | The method equals the extended initialisation function |
| ConfigDevice.VfioPciDevice.HeaderFill | device/vfio_pci_config.c:1650-1722 | The header: copied, and the registers the driver overrides set in place |
| ConfigDevice.VfioPciDevice.ConfigInit | device/vfio_pci_config.c:1636-1727 | On a well-formed device the method leaves exactly the opened state the guest theorems start from |
| ConfigDevice.VfioPciDevice.FindCapStart | device/vfio_pci_config.c:1042-1057 | The loop computes the start function |
| ConfigDevice.VfioPciDevice.CapRemainingDword | device/vfio_pci_config.c:1743-1753 | The loop computes the number of bytes with one owner up to the end of the dword |
| ConfigDevice.VfioPciDevice.DefaultRead | device/vfio_pci_config.c:177-201 | With the shortcut for all-virtual chunks, returns the bytes the access specification gives |
| ConfigDevice.VfioPciDevice.DefaultStore | device/vfio_pci_config.c:203-247 | Its two merges, in `vconfig` and in hardware, equal the masked write |
| ConfigDevice.VfioPciDevice.DirectRead | device/vfio_pci_config.c:250-272 | Hardware bytes, with the next pointers taken from the copy |
| ConfigDevice.VfioPciDevice.FixupBars | device/vfio_pci_config.c:453-500 | The loop in place equals the fixup function |
| ConfigDevice.VfioPciDevice.NeedBarRestore | device/vfio_pci_config.c:524-538 | True exactly when some non-zero BAR does not hold its saved value |
| ConfigDevice.VfioPciDevice.RestoreBars | device/vfio_pci_config.c:405-428 | The writes in place equal the restore function; nothing on a virtual function |
| ConfigDevice.VfioPciDevice.BasicRead | device/vfio_pci_config.c:502-521 | Fixup when the chunk begins in the BARs or the ROM register, then the default read, with the memory bit of a virtual function |
| ConfigDevice.VfioPciDevice.BasicStore | device/vfio_pci_config.c:540-618 | The handler with its restore, virtual COMMAND bits and INTx following equals the specified write |
| ConfigDevice.VfioPciDevice.VpdAccess | device/vfio_pci_config.c:723-765 | The handler equals the specified write with its VPD operation |
| ConfigDevice.VfioPciDevice.ExpAccess | device/vfio_pci_config.c:805-859 | The handler with FLR and read request size equals the specified write |
| ConfigDevice.VfioPciDevice.AfAccess | device/vfio_pci_config.c:886-917 | The handler with the AF reset equals the specified write |
| ConfigDevice.VfioPciDevice.MsiRead | device/vfio_pci_config.c:1059-1077 | The handler with its update of `vconfig[start]` returns the bytes the specification gives |
| ConfigDevice.VfioPciDevice.MsiAccess | device/vfio_pci_config.c:1079-1119 | The handler equals the specified write with its corrected flags; MsiRegisters.MsiShielded, MsiRemembered and MsiFlagsExact say of that write what reaches hardware, what reads back and what the flags become |
| ConfigDevice.VfioPciDevice.ChunkWidth | device/vfio_pci_config.c:1770-1777 | 4 if aligned and enough is left, else 2, else 1, never beyond the owner |
| ConfigDevice.VfioPciDevice.DoRead | device/vfio_pci_config.c:1755-1836 | One chunk of a read: the width and bytes of the specification, or -EFAULT past the end with nothing changed |
| ConfigDevice.VfioPciDevice.DoWrite | device/vfio_pci_config.c:1755-1836 | One chunk of a write: the state of the specification, or -EFAULT past the end with nothing changed |
| ConfigDevice.VfioPciDevice.ConfigRead | device/vfio_pci_config.c:1838-1861 | The chunk loop terminates, returns all the bytes and leaves the state that the access specification gives, or -EFAULT with nothing changed |
| ConfigDevice.VfioPciDevice.ConfigWrite | device/vfio_pci_config.c:1838-1861 | The chunk loop terminates and leaves the state that the access specification gives, or -EFAULT with nothing changed |
| InterruptSafety.EveryRun | device/vfio_pci_intrs.c:39-680 | In every run from opening on, of ioctls, interrupts, guest COMMAND writes, unmasking eventfds and close: eventfd references taken minus released are the triggers installed; each MSI vector is requested exactly when it has one; in INTx mode the masks agree and signals never exceed one plus the unmasks |
| InterruptSafety.RunCoherent | device/vfio_pci_intrs.c:39-680 | The same from any state of the invariant, which every run keeps |
| SignalWindow.WindowExact | device/vfio_pci_intrs.c:202-224 | With interrupts allowed between the request of the line and the lock, the INTx invariant holds after setting a signal if and only if the function masks itself or none arrived; otherwise the line is masked and disabled twice |
| SignalWindow.NoneBetween | device/vfio_pci_intrs.c:174-227 | With none in between, the parts make the one step the rest of the model takes |
| InterruptSafety.StepCoherent | device/vfio_pci_intrs.c:39-680 | Each single step keeps the invariant; what each step does beyond that is the Deliveries and VectorSwitch rows |
| Deliveries.LineReachesGuest | device/vfio_pci_intrs.c:119-143 | In every reachable state an interrupt taken (the function cannot mask itself, or is unmasked and asserts the line) signals the installed eventfd exactly once and leaves the line masked; any other does nothing |
| Deliveries.LineElsewhere | device/vfio_pci_intrs.c:119-143 | Outside INTx mode, without a request or with the line disabled nothing happens |
| Deliveries.VectorReachesGuest | device/vfio_pci_intrs.c:242-248 | A requested vector signals its eventfd and does nothing else |
| Deliveries.CommandMasks | device/vfio_pci_config.c:605-611 | A change of the guest's INTx disable bit masks or unmasks the line as the device can; a repetition does nothing |
| Deliveries.EventfdUnmasks | device/vfio_pci_intrs.c:77-117 | Unmasking, case by case: never while the guest disables INTx, and a line still asserted stays masked and signals |
| Deliveries.MaskIoctl | device/vfio_pci_intrs.c:434-452 | The mask action: its errors, and masking when selected |
| Deliveries.UnmaskIoctl | device/vfio_pci_intrs.c:407-432 | The unmask action: its errors, and unmasking when selected |
| Deliveries.IntxLoopback | device/vfio_pci_intrs.c:482-495 | The trigger action without an eventfd signals what an interrupt would, unless the guest disables INTx |
| Deliveries.NoSuchAction | device/vfio_pci_intrs.c:625-680 | Every other combination of index and action is refused |
| Deliveries.ErrIoctl | device/vfio_pci_intrs.c:603-612 | The error eventfd: result, new eventfd, references and signal for each kind of data, all else unchanged |
| Deliveries.ReqIoctl | device/vfio_pci_intrs.c:614-623 | The request eventfd likewise |
| InterruptSafety.IoctlCoherent | device/vfio_pci_intrs.c:625-680 | Every index, action and data form of the ioctl keeps it, with every failure the host can produce |
| InterruptSafety.Closed | device/vfio_pci.c:333-346 | Closing leaves no mode, no context, no request and the guest's bit forgotten; references still held are those of the error and request triggers |
| InterruptSafety.BlockOutcome | device/vfio_pci_intrs.c:357-376 | A vector block fails exactly when one of its steps is refused, with the error of the first refused step, and then leaves its vectors through that one empty and all others untouched; otherwise each vector gets what was asked; one out of range changes nothing |
| InterruptSafety.FailedEnable | device/vfio_pci_intrs.c:454-527 | A failed switch to INTx, MSI or MSI-X leaves the device without a mode and every reference returned |
| VectorSwitch.SwitchedOn | device/vfio_pci_intrs.c:497-536 | Switching MSI or MSI-X on succeeds if and only if there is memory, the block is not empty and does not wrap, there are enough vectors and each eventfd is granted; then the mode is the one asked for, the vectors of the block hold the eventfds asked for and all others none |
| VectorSwitch.SwitchRefused | device/vfio_pci_intrs.c:250-285 | Without memory or enough vectors nothing changes and the caller gets the error or the number there is |
| VectorSwitch.BlockReplaced | device/vfio_pci_intrs.c:357-376 | With the mode on, a block of eventfds is replaced if and only if it lies in the vectors there are and each is granted; the others keep theirs |
| VectorSwitch.SwitchedOff | device/vfio_pci_intrs.c:378-402 | Switching off leaves no mode and no vector and signals nothing |
| VectorSwitch.VectorLoopback | device/vfio_pci_intrs.c:538-546 | The trigger action without eventfds signals the selected vectors in order and changes nothing else |
| VectorSwitch.IntxSwitchedOn | device/vfio_pci_intrs.c:463-480 | INTx is switched on if and only if the one interrupt is asked for, there is a line and memory and the eventfd is granted; then it is installed, masked as the guest's bit says |
| VectorSwitch.IntxReplaced | device/vfio_pci_intrs.c:174-227 | With INTx on the eventfd is replaced and the mask kept; a refusal leaves none |
| VectorSwitch.IntxSwitchedOff | device/vfio_pci_intrs.c:229-240 | Switching INTx off leaves no mode and releases the line |
| VectorSwitch.OtherModeRefused | device/vfio_pci_intrs.c:497-513 | While one mode is on the others are refused and nothing changes |
| InterruptSafety.SetVectorOk | device/vfio_pci_intrs.c:287-355 | One vector: installed on success, empty on failure or on a negative descriptor, no other vector touched, references balanced |
| InterruptSafety.SingleOk | device/vfio_pci_intrs.c:548-601 | The shared code for error and request triggers balances its references and keeps the old trigger on failure |
| InterruptSafety.MsiDisableCoherent | device/vfio_pci_intrs.c:378-402 | Disabling MSI releases every vector reference |
| InterruptSafety.StillAsserted | device/vfio_pci_intrs.c:77-117 | On a device with PCI 2.3 masking, unmasking a masked line that is still asserted leaves it masked and signals once; one no longer asserted is unmasked without a signal |
| InterruptSafety.DisabledIsSilent | device/vfio_pci_intrs.c:31-37 | Neither the interrupt handler nor the unmask path signals while the guest has INTx disabled |
| InterruptSafety.CommandCoherent | device/vfio_pci_config.c:598-612 | A guest change of its disable bit keeps the interrupt invariant |
| InterruptSafety.QueueSize | device/vfio_pci_intrs.c:276-282 | `fls(nvec*2-1)-1` is the base two logarithm of nvec rounded up, so a legal queue size never asks for twice the vectors or more |
| InterruptSafety.QueueFits | device/vfio_pci_intrs.c:276-282 | For the 32 vectors MSI can have it fits the 3-bit field |
| InterruptDevice.VfioPciIrqs.IntxUnmaskHandler | device/vfio_pci_intrs.c:77-111 | In place, equals the unmask step, and says whether to signal |
| InterruptDevice.VfioPciIrqs.SetIntxSignal | device/vfio_pci_intrs.c:174-227 | In place, equals the set-signal step and its errors |
| InterruptDevice.VfioPciIrqs.SetVectorSignal | device/vfio_pci_intrs.c:287-355 | In place, equals the vector step and its errors |
| InterruptDevice.VfioPciIrqs.SetVectorBlock | device/vfio_pci_intrs.c:357-376 | The setting loop, and the rollback on its failure, equal the block step |
| InterruptDevice.VfioPciIrqs.RollbackBlock | device/vfio_pci_intrs.c:369-373 | The rollback loop equals the rollback function |
| InterruptDevice.VfioPciIrqs.SignalVectors | device/vfio_pci_intrs.c:531-543 | The loopback loop signals exactly the chosen vectors, in order |
| InterruptDevice.VfioPciIrqs.SetIrqs | device/vfio_pci_intrs.c:625-680 | The dispatch over index and action equals the ioctl function, whose outcome for every index and action is VectorSwitch.SwitchedOn and the Deliveries and VectorSwitch rows |
| InterruptDevice.VfioPciIrqs.DisableIrqs | device/vfio_pci.c:333-346 | Leaves the closed state |
| ResetGroup.NeverResetInUse | device/vfio_pci.c:1504-1561 | Over every interleaving of opens, releases, binds, unbinds and walks by any number of threads: while a group is being reset no device of it is open or being opened, and all are bound |
| ResetGroup.LocksCounted | device/vfio_pci.c:1388-1450 | Over every interleaving: each lock counts exactly the devices that point at it and exists exactly while one does; bound devices of a group share one lock |
| ResetGroup.ResetIsSafe | device/vfio_pci.c:1458-1487 | In every state of the invariant the reset is safe |
| ResetGroup.ResetCleans | device/vfio_pci.c:1540-1558 | After a reset that worked no bound device of the group still needs one |
| ResetGroup.RunOk | device/vfio_pci.c:413-452 | The invariant survives every run |
| ResetGroup.StepOk | device/vfio_pci.c:413-452 | ... and every single step, from any state of the invariant |
| ResetGroup.BindOk | device/vfio_pci.c:1393-1435 | Attaching a device to the lock of a bound member, or to a new one when there is none, keeps the invariant |
| ResetGroup.BindOutcome | device/vfio_pci.c:1421-1435 | A device that is bound is closed and clean and shares the lock of a bound member, or gets a new one if there is none |
| ResetGroup.UnbindOutcome | device/vfio_pci.c:1306-1322 | A device is withdrawn only while closed and unreferenced; its lock goes with the last device that points at it |
| ResetGroup.FinishUnbindOk | device/vfio_pci.c:1437-1450 | Putting the last reference frees the lock and nothing uses it |
| ResetBus.Bus.UnusedDevs | device/vfio_pci.c:1458-1487 | The walk collects the whole group exactly when every device of it is bound and closed |
| ResetBus.Bus.TryBusReset | device/vfio_pci.c:1504-1561 | Resets exactly when the group can be reset, all of it is closed and one device needs it; then cleans exactly the group |
| ResetBus.Bus.Open | device/vfio_pci.c:429-452 | Counts an open; enables on the first one only; a failed enable changes nothing |
| ResetBus.Bus.Release | device/vfio_pci.c:413-427 | Counts a release; the last one disables, marks what could not be reset and tries the bus |
| ResetBus.ReleaseOutcome | device/vfio_pci.c:413-427 | Device by device: an earlier release only counts; the last leaves the device closed and dirty unless a function reset worked, and resets and cleans the group if it can, all of it is bound and closed and a member is dirty |
| ResetBus.OpenOutcome | device/vfio_pci.c:429-455 | An open counts unless it is the first and fails; no other device changes |
| ResetRuns.ReleaseIsRun | device/vfio_pci.c:413-427 | From any state in which the lock is free, what `Release` leaves is what a run of the concurrent steps by one thread leaves, wherever its walk stops and whether or not it resets |
| ResetRuns.ReleaseResets | device/vfio_pci.c:1504-1561 | A run of a last release that resets its group leaves every device of it closed and clean |
| ResetRuns.OpenIsRun | device/vfio_pci.c:429-452 | The same for `Open` |
| BarAccess.ReadLoop | device/vfio_pci_rdwr.c:49-133 | The widening loop returns device bytes outside the window and 0xFF inside, through accesses that tile the range, each as wide as alignment, range and window allow |
| BarAccess.WriteLoop | device/vfio_pci_rdwr.c:49-133 | The widening loop changes exactly the bytes outside the window, through accesses that tile the range, each as wide as possible |
| BarAccess.TilesOrdered | device/vfio_pci_rdwr.c:49-133 | The accesses of a tiling are ascending, without overlap |
| BarAccess.TilesProper | device/vfio_pci_rdwr.c:49-133 | ... each naturally aligned, inside the range and clear of the window |
| BarRegions.TableUntouched | device/vfio_pci_rdwr.c:159-388 | In no run of BAR writes, ioeventfd registrations and firings does a byte of the MSI-X table change |
| BarRegions.IoeventfdRegistered | device/vfio_pci_rdwr.c:304-388 | The registry stays sound: distinct keys, each inside its BAR and off the table, count right and at most 1000 |
| BarRegions.RegisterRemove | device/vfio_pci_rdwr.c:304-388 | A registration followed by its removal restores the registry exactly |
| BarRegions.Refusals | device/vfio_pci_rdwr.c:304-388 | Which requests are refused and with which error |
| BarRegions.ReadMeaning | device/vfio_pci_rdwr.c:159-215 | A BAR read, clamped to its end, shows ones exactly inside the table (or past the ROM) and device bytes elsewhere |
| BarOutcomes.ReadOutcome | device/vfio_pci_rdwr.c:159-215 | Every refusal with its error, and otherwise how many bytes are read and which: ones in the MSI-X table and past the ROM contents, device bytes elsewhere |
| BarOutcomes.WriteOutcome | device/vfio_pci_rdwr.c:159-215 | The same of writes, with all memory afterwards; the ROM is never written |
| BarOutcomes.SignalOutcome | device/vfio_pci_rdwr.c:280-302 | A signalled ioeventfd writes the first bytes of its data at its position and nothing else |
| BarOutcomes.RegistryOutcome | device/vfio_pci_rdwr.c:304-388 | Every refusal with its error, and otherwise the whole registry afterwards |
| BarDevice.VfioBars.BarRead | device/vfio_pci_rdwr.c:159-215 | The method fills the caller buffer as the read function says, and changes nothing else |
| BarDevice.VfioBars.BarWrite | device/vfio_pci_rdwr.c:159-215 | The method changes the device memory as the write function says |
| BarDevice.VfioBars.SetIoeventfd | device/vfio_pci_rdwr.c:304-388 | The checks, and the search and update of the list, equal the registry function |
| BarDevice.VfioBars.UpdateList | device/vfio_pci_rdwr.c:353-388 | List and counter updated together, with the four errors |
| SerialLink.FrameResyncs | arduino/main.ino:90-136 | From any parser state one frame returns the automaton to its start: executed once if it was there, lost without effect otherwise |
| SerialLink.HostReply | arduino/main.ino:54-88 | Each of the three host commands answers exactly seven bytes that echo it, and switches the power as asked |
| SerialLink.OneExchange | host/serial.cpp:41-85 | One exchange on a quiet line: acknowledged and executed once, or timed out without effect, and the line quiet again |
| SerialLink.SessionInSync | host/serial.cpp:41-95 | In step, every command of any sequence is executed exactly once, in order and acknowledged, and the power is what the last one asked |
| SerialLink.SessionRecovers | host/serial.cpp:41-95 | From any parser state at most the first command of any sequence is lost |
| StaleReplies.StaleSession | host/serial.cpp:41-95 | From a line that holds the rest of an earlier reply, every command is still executed once and in order; each exchange answers by what it reads first (success on an empty line or on a whole reply to the same command, 24 otherwise), and what is left over never grows |
| StaleReplies.ShiftStays | host/serial.cpp:54-77 | While exchanges take just seven bytes, a whole stale reply stays on the line and each command is acknowledged exactly if it is the one sent before it |
| StaleReplies.ShiftEnds | host/serial.cpp:54-77 | From an empty line on, every command is acknowledged and the line stays empty |
| StaleReplies.LateReply | host/serial.cpp:54-69 | How a reply becomes stale: an exchange whose waits bring too little executes its command, answers 23 and leaves the unread rest on the line |
| SerialLink.GatherExact | host/serial.cpp:54-69 | The retry loop takes a seven-byte reply whole if and only if the first hundred waits bring it, in any fragments |
| SerialLink.GatherNothing | host/serial.cpp:58-69 | On a silent line the loop ends and gives up |
| SerialOutcomes.SendOutcome | host/serial.cpp:41-85 | For any bytes on the line: 22 if the frame did not go out, 23 unless a hundred waits bring seven bytes, 24 unless they begin with the echo, success otherwise; only the front of the line is taken |
| SerialOutcomes.CommandAnswer | arduino/main.ino:54-88 | What the board answers to every command and which commands switch the power |
| SerialOutcomes.FrameEnds | arduino/main.ino:90-135 | Only a line end executes the command of a frame, whatever byte it is; any other byte drops it |
| SerialOutcomes.NoiseIgnored | arduino/main.ino:105-115 | A byte that starts no frame, or a false start, leaves the board as it was |
| SerialOutcomes.DecimalReadsBack | arduino/main.ino:72-82 | What the board prints of a number reads back as that number |
| SerialLink.Arduino.Execute | arduino/main.ino:54-88 | The switch, in place, equals the command function |
| SerialLink.Arduino.HandleSerial | arduino/main.ino:90-136 | The byte loop, in place, equals the automaton fed with the input |
| SerialLink.SerialUsb.Send | host/serial.cpp:41-85 | The loop and its checks equal the host function, with its error code |

## Left out

- ConfigDevice.VfioPciDevice.ExpAccess: a function-level reset is a counted request; what `pci_try_reset_function` saves and restores is a hardware change of the run.
- ConfigDevice.VfioPciDevice.AfAccess: the same.
- FunctionReset.ReachableRequests: counts requests; a request that the kernel then refuses is not told apart.
- ConfigDevice.VfioPciDevice.EcapInit: hardware reads are total, so the early `return ret` (device/vfio_pci_config.c:1546-1547) and the other error returns of reads do not occur.
- VpdHandshake.RoundTrip: is stated for a device with one VPD capability (`VpdCap`); an attempt ends its write with the upper address byte, and an operation of the storage takes no time.
- MsiSync.MsiAccessAgrees: a device has at most one MSI capability (`Formed`), since the driver keeps one permission table, sized by the flags of the first.
- BarGuard.DecodeMeansRestored: covers BARs 0 to 5 of a physical function, as the comparison of the driver does; the ROM register is restored with them but is not part of the invariant. A hardware change of the run may change any register if it turns decode off, and otherwise spares the decode bits and the BARs.
- InterruptSafety.EveryRun: `set_signal` is one step; what interrupts inside it do is `SignalWindow.WindowExact`, which leaves out a change of the guest's bit or an unmask there. Signals are counted within one INTx session.
- InterruptDevice.VfioPciIrqs.SetIrqs: the unmask eventfd is another caller of the unmask handler; virqfd and irq-bypass internals, whose code is elsewhere in the kernel, are not part of this model.
- JointRuns.QueueInEveryRun: the ioctl is admitted if its vectors are below the count the hardware flags announce (device/vfio_pci.c:468-478), which vfio_set_irqs_validate_and_prepare enforces (it is not part of this model); the hardware bit that disables INTx belongs to the interrupt half alone.
- ResetGroup.NeverResetInUse: devices are a fixed set in disjoint groups below no other bridge, and probe with attach is one step; root-bus devices are not reset in this model.
- SerialLink.SessionRecovers: asks that the host wait long enough for each reply and that the line hold no stale byte at the start; `StaleReplies` covers the lines that do, for a parser in step.
- Power-state changes by writes of PMCSR, and device state saved over a power cycle.
- User-memory faults and allocation failures in the configuration tables; log messages.
- The hot-reset, region-info and IRQ-info ioctls, mmap, VGA access, IGD and NVLink regions, error handlers of the bus, module parameters and dynamic ids.
- The handler for virtual-only bytes is modelled, but no byte of a built map has that owner.
- Byte order of device memory, which both sides share.
- `host/main.cpp`, `host/pci.cpp`, `device/pwplug.c`, the switch debouncer and the LEDs: sequences of calls without a property of their own.
