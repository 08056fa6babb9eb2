/** The BARs of a device as a guest reaches them: direct access and ioeventfds, neither of which
    ever writes the MSI-X table. */
module BarRegions {
  import opened Bytes
  import opened BarAccess

  const EINVAL := 22
  const ENOMEM := 12
  const ENODEV := 19
  const EEXIST := 17
  const ENOSPC := 28
  const ROM := 6
  const MAX_IOEVENTFDS := 1000

  datatype Range = Range(mapped: bool, len: nat)

  // Six BARs and the ROM; `shadow` and `romSize` describe the ROM contents, `msixBar` is 0xFF
  // without MSI-X, `has64` whether the host can write 64 bits at once.
  datatype Bars = Bars(ranges: seq<Range>, shadow: bool, romSize: nat, msixBar: nat, msixOffset: nat, msixSize: nat, has64: bool)
  {
    predicate Valid() { |ranges| == 7 }
    function End(bar: nat): nat
      requires Valid() && bar <= ROM
    {
      if ranges[bar].mapped then ranges[bar].len else if bar == ROM && shadow then 0x20000 else 0
    }
    // Where the excluded window of a BAR begins and ends.
    function XStart(bar: nat): nat { if bar == msixBar then msixOffset else if bar == ROM then romSize else 0 }
    function XEnd(bar: nat): nat
      requires Valid() && bar <= ROM
    {
      if bar == msixBar then msixOffset + msixSize else if bar == ROM then End(ROM) else 0
    }
    predicate InTable(bar: nat, q: nat) { bar == msixBar && msixOffset <= q < msixOffset + msixSize }
  }

  // struct vfio_pci_ioeventfd; `data` is its 64-bit value, lowest byte first.
  datatype Entry = Entry(bar: nat, pos: nat, data: seq<byte>, count: nat)

  datatype State = State(bars: Bars, mem: seq<seq<byte>>, entries: seq<Entry>, nr: nat)
  {
    predicate Valid() {
      bars.Valid() && |mem| == 7 && forall i :: 0 <= i < 7 ==> |mem[i]| == bars.End(i)
    }
  }

  // ---------------------------------------------------------------- direct access

  // Why vfio_pci_bar_rw refuses: nothing behind the BAR, past its end, or it cannot be mapped.
  function BarError(b: Bars, bar: nat, pos: nat, host: int): int
    requires b.Valid() && bar <= ROM
  {
    if !b.ranges[bar].mapped && !(bar == ROM && b.shadow) then -EINVAL
    else if pos >= b.End(bar) then -EINVAL
    else if host != 0 then (if bar == ROM then -ENOMEM else host)
    else 0
  }

  function Clamped(b: Bars, bar: nat, pos: nat, count: nat): nat
    requires b.Valid() && bar <= ROM && pos < b.End(bar)
  {
    Min(count, b.End(bar) - pos)
  }

  // vfio_pci_rw on a BAR or the ROM, which cannot be written.
  function Read(s: State, bar: nat, pos: nat, count: nat, host: int): (int, seq<byte>)
    requires s.Valid() && bar <= ROM
  {
    var e := BarError(s.bars, bar, pos, host);
    if e != 0 then (e, [])
    else
      var n := Clamped(s.bars, bar, pos, count);
      (n, ReadOut(s.mem[bar], pos, n, s.bars.XStart(bar), s.bars.XEnd(bar)))
  }

  function Write(s: State, bar: nat, pos: nat, bytes: seq<byte>, host: int): (State, int)
    requires s.Valid() && bar <= ROM
  {
    if bar == ROM then (s, -EINVAL)
    else
      var e := BarError(s.bars, bar, pos, host);
      if e != 0 then (s, e)
      else
        var n := Clamped(s.bars, bar, pos, |bytes|);
        (s.(mem := s.mem[bar := WriteIn(s.mem[bar], pos, bytes[..n], s.bars.XStart(bar), s.bars.XEnd(bar))]), n)
  }

  // ---------------------------------------------------------------- ioeventfds

  // The first entry from `i` on that equals `k`.
  function Find(entries: seq<Entry>, k: Entry, i: nat): (r: nat)
    ensures i <= |entries| ==> i <= r <= |entries|
    ensures r < |entries| && i <= |entries| ==> entries[r] == k
    ensures forall j :: i <= j < r && j < |entries| ==> entries[j] != k
    decreases |entries| - i
  {
    if i >= |entries| || entries[i] == k then i else Find(entries, k, i + 1)
  }

  // Off the MSI-X table.
  predicate OffTable(b: Bars, bar: nat, pos: nat, count: nat) {
    bar != b.msixBar || pos + count <= b.msixOffset || pos >= b.msixOffset + b.msixSize
  }

  // The answers of the kernel: mapping the BAR, memory, enabling the virqfd.
  datatype Host = Host(map': int, mem: bool, enable: int)

  // The list under its lock.
  function Listed(s: State, k: Entry, fd: int, host: Host): (State, int) {
    var i := Find(s.entries, k, 0);
    if i < |s.entries| then
      if fd == -1 then (s.(entries := s.entries[..i] + s.entries[i + 1..], nr := if s.nr > 0 then s.nr - 1 else 0), 0)
      else (s, -EEXIST)
    else if fd < 0 then (s, -ENODEV)
    else if s.nr >= MAX_IOEVENTFDS then (s, -ENOSPC)
    else if !host.mem then (s, -ENOMEM)
    else if host.enable != 0 then (s, host.enable)
    else (s.(entries := [k] + s.entries, nr := s.nr + 1), 0)
  }

  // The ioctl and vfio_pci_ioeventfd: register, or with fd -1 remove, a write of `count` bytes.
  function Ioeventfd(s: State, bar: nat, pos: nat, data: seq<byte>, count: nat, fd: int, host: Host): (State, int)
    requires s.Valid() && |data| == 8
  {
    var k := Entry(bar, pos, data, count);
    if count !in {1, 2, 4, 8} || fd < -1 then (s, -EINVAL)
    else if bar > 5 then (s, -EINVAL)
    else if pos + count > s.bars.ranges[bar].len then (s, -EINVAL)
    else if !OffTable(s.bars, bar, pos, count) then (s, -EINVAL)
    else if count == 8 && !s.bars.has64 then (s, -EINVAL)
    else if !s.bars.ranges[bar].mapped then (s, -ENOMEM)
    else if host.map' != 0 then (s, host.map')
    else Listed(s, k, fd, host)
  }

  // The eventfd of an entry is signalled: vfio_pci_ioeventfd_handler writes its value.
  function Fire(s: State, i: nat): State
    requires s.Valid()
  {
    if i < |s.entries| && s.entries[i].bar <= ROM && s.entries[i].count <= |s.entries[i].data| then
      var e := s.entries[i];
      s.(mem := s.mem[e.bar := WriteIn(s.mem[e.bar], e.pos, e.data[..e.count], 0, 0)])
    else s
  }

  // ---------------------------------------------------------------- the registry

  predicate EntryOk(b: Bars, e: Entry)
    requires b.Valid()
  {
    && e.bar <= 5 && e.count in {1, 2, 4, 8} && |e.data| == 8 && (e.count == 8 ==> b.has64)
    && b.ranges[e.bar].mapped && e.pos + e.count <= b.ranges[e.bar].len
    && OffTable(b, e.bar, e.pos, e.count)
  }

  // Every entry lies inside its BAR and off the MSI-X table, no two are the same write, and the
  // counter is right and bounded.
  ghost predicate Registered(s: State)
    requires s.Valid()
  {
    && s.nr == |s.entries| <= MAX_IOEVENTFDS
    && (forall i :: 0 <= i < |s.entries| ==> EntryOk(s.bars, s.entries[i]))
    && (forall i, j :: 0 <= i < j < |s.entries| ==> s.entries[i] != s.entries[j])
  }

  lemma IoeventfdRegistered(s: State, bar: nat, pos: nat, data: seq<byte>, count: nat, fd: int, host: Host)
    requires s.Valid() && Registered(s) && |data| == 8
    ensures var t := Ioeventfd(s, bar, pos, data, count, fd, host).0; t.Valid() && Registered(t) && t.mem == s.mem && t.bars == s.bars
  {
    var k := Entry(bar, pos, data, count);
    var t := Ioeventfd(s, bar, pos, data, count, fd, host).0;
    var n := Find(s.entries, k, 0);
    if |t.entries| < |s.entries| {
      forall i | 0 <= i < |t.entries| ensures t.entries[i] == s.entries[if i < n then i else i + 1] {}
    } else if |t.entries| > |s.entries| {
      forall i | 0 < i < |t.entries| ensures t.entries[i] == s.entries[i - 1] {}
      assert EntryOk(s.bars, k);
    }
  }

  // Registering a write and then removing it leaves the registry as it was.
  lemma RegisterRemove(s: State, bar: nat, pos: nat, data: seq<byte>, count: nat, fd: nat, host: Host)
    requires s.Valid() && Registered(s) && |data| == 8
    requires Ioeventfd(s, bar, pos, data, count, fd, host).1 == 0
    ensures var t := Ioeventfd(s, bar, pos, data, count, fd, host).0; t.Valid() && Ioeventfd(t, bar, pos, data, count, -1, host) == (s, 0)
  {
    var t := Ioeventfd(s, bar, pos, data, count, fd, host).0;
    var k := Entry(bar, pos, data, count);
    assert t.entries == [k] + s.entries;
    assert Find(t.entries, k, 0) == 0;
    assert t.entries[..0] + t.entries[1..] == s.entries;
  }

  // What is refused and why, when the kernel grants everything.
  lemma Refusals(s: State, bar: nat, pos: nat, data: seq<byte>, count: nat, fd: int)
    requires s.Valid() && Registered(s) && |data| == 8
    ensures var r := Ioeventfd(s, bar, pos, data, count, fd, Host(0, true, 0)).1; var k := Entry(bar, pos, data, count);
      && (r == 0 ==> EntryOk(s.bars, k))
      && (EntryOk(s.bars, k) && fd >= -1 ==>
            r == if k in s.entries then (if fd == -1 then 0 else -EEXIST)
                 else if fd == -1 then -ENODEV else if |s.entries| == MAX_IOEVENTFDS then -ENOSPC else 0)
  {
    var k := Entry(bar, pos, data, count);
    var n := Find(s.entries, k, 0);
    assert k in s.entries <==> n < |s.entries|;
  }

  // ---------------------------------------------------------------- runs

  datatype Event =
    | GuestWrite(bar: nat, pos: nat, bytes: seq<byte>, host: int)
    | GuestIoeventfd(reg: nat, at: nat, data: seq<byte>, count: nat, fd: int, kernel: Host)
    | Signal(entry: nat)
    | Close

  function Step(s: State, e: Event): State
    requires s.Valid()
  {
    match e
    case GuestWrite(bar, pos, bytes, host) => if bar <= ROM then Write(s, bar, pos, bytes, host).0 else s
    case GuestIoeventfd(bar, pos, data, count, fd, host) =>
      if |data| == 8 then Ioeventfd(s, bar, pos, data, count, fd, host).0 else s
    case Signal(i) => Fire(s, i)
    case Close => s.(entries := [], nr := 0)
  }

  // `t` is reached from `s` by the events `es`.
  ghost predicate Reaches(s: State, es: seq<Event>, t: State)
    decreases |es|
  {
    if es == [] then t == s else s.Valid() && Reaches(Step(s, es[0]), es[1..], t)
  }

  lemma StepKeepsTable(s: State, e: Event, bar: nat, q: nat)
    requires s.Valid() && Registered(s) && bar <= ROM && s.bars.InTable(bar, q)
    ensures var t := Step(s, e); t.Valid() && Registered(t) && t.bars == s.bars && At(t.mem[bar], q) == At(s.mem[bar], q)
  {
    match e {
      case GuestWrite(b, pos, bytes, host) =>
      case GuestIoeventfd(b, pos, data, count, fd, host) =>
        if |data| == 8 { IoeventfdRegistered(s, b, pos, data, count, fd, host); }
      case Signal(i) => if i < |s.entries| { assert EntryOk(s.bars, s.entries[i]); }
      case Close =>
    }
  }

  // In no run does a guest write a byte of the MSI-X table, directly or through an ioeventfd.
  lemma {:induction false} TableUntouched(s: State, es: seq<Event>, t: State, bar: nat, q: nat)
    requires s.Valid() && Registered(s) && Reaches(s, es, t) && bar <= ROM && s.bars.InTable(bar, q)
    ensures t.Valid() && Registered(t) && t.bars == s.bars && At(t.mem[bar], q) == At(s.mem[bar], q)
    decreases |es|
  {
    hide Step, Registered;
    if es != [] {
      StepKeepsTable(s, es[0], bar, q);
      TableUntouched(Step(s, es[0]), es[1..], t, bar, q);
    }
  }

  // A read returns ones inside the window and device bytes outside, clamped to the BAR.
  lemma ReadMeaning(s: State, bar: nat, pos: nat, count: nat, host: int, i: nat)
    requires s.Valid() && bar <= ROM && BarError(s.bars, bar, pos, host) == 0
    requires i < Clamped(s.bars, bar, pos, count)
    ensures var r := Read(s, bar, pos, count, host);
      && r.0 == Clamped(s.bars, bar, pos, count) == |r.1| && pos + i < |s.mem[bar]|
      && (s.bars.InTable(bar, pos + i) ==> r.1[i] == 0xFF)
      && (bar != s.bars.msixBar && bar != ROM ==> r.1[i] == s.mem[bar][pos + i])
      && (bar == ROM != s.bars.msixBar ==> r.1[i] == if pos + i < s.bars.romSize then s.mem[bar][pos + i] else 0xFF)
  {
  }
}
