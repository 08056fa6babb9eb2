/** The BAR fields of struct vfio_pci_device and the functions of device/vfio_pci_rdwr.c that access
    them, proved against the functions of BarRegions. */
module BarDevice {
  import opened Bytes
  import opened BarAccess
  import opened BarRegions

  class VfioBars {
    const bars: Bars
    const mem: seq<array<byte>>  // barmap[], and the ROM mapping
    var ioeventfds: seq<Entry>   // ioeventfds_list
    var ioeventfdsNr: nat

    ghost predicate Valid()
      reads this
    {
      && bars.Valid() && |mem| == 7
      && (forall i :: 0 <= i < 7 ==> mem[i].Length == bars.End(i))
      && (forall i, j :: 0 <= i < j < 7 ==> mem[i] != mem[j])
    }

    ghost function Contents(n: nat): (r: seq<seq<byte>>)
      requires n <= |mem|
      reads mem
      ensures |r| == n && forall i :: 0 <= i < n ==> r[i] == mem[i][..]
    {
      if n == 0 then [] else Contents(n - 1) + [mem[n - 1][..]]
    }

    ghost function Value(): (s: State)
      requires Valid()
      reads this, mem
      ensures s.Valid()
    {
      State(bars, Contents(7), ioeventfds, ioeventfdsNr)
    }

    constructor (bars: Bars, mem: seq<array<byte>>)
      requires bars.Valid() && |mem| == 7 && forall i :: 0 <= i < 7 ==> mem[i].Length == bars.End(i)
      requires forall i, j :: 0 <= i < j < 7 ==> mem[i] != mem[j]
      ensures Valid() && this.bars == bars && this.mem == mem && Registered(Value())
    {
      this.bars, this.mem, ioeventfds, ioeventfdsNr := bars, mem, [], 0;
    }

    // vfio_pci_bar_rw on a read into `buf`.
    method BarRead(bar: nat, pos: nat, count: nat, buf: array<byte>, host: int) returns (done: int)
      requires Valid() && bar <= ROM && buf !in mem && count <= buf.Length && host <= 0
      modifies buf
      ensures done == Read(Value(), bar, pos, count, host).0 && Value() == old(Value())
      ensures done >= 0 ==> done <= count && buf[..done] == Read(Value(), bar, pos, count, host).1
      ensures forall i :: 0 <= i < buf.Length && (done < 0 || i >= done) ==> buf[i] == old(buf[i])
    {
      var e := BarError(bars, bar, pos, host);
      if e != 0 {
        return e;
      }
      var n := Clamped(bars, bar, pos, count);
      ghost var before := Contents(7);
      var got, trace := ReadLoop(mem[bar], buf, pos, n, bars.XStart(bar), bars.XEnd(bar));
      assert Contents(7) == before;
      assert Contents(7)[bar] == mem[bar][..];
      forall i | n <= i < buf.Length ensures buf[i] == old(buf[i]) {
        assert buf[n..][i - n] == old(buf[n..])[i - n];
      }
      done := got;
    }

    // ... and on a write; the ROM cannot be written.
    method BarWrite(bar: nat, pos: nat, bytes: seq<byte>, host: int) returns (done: int)
      requires Valid() && bar <= ROM && host <= 0
      modifies mem
      ensures (Value(), done) == Write(old(Value()), bar, pos, bytes, host)
    {
      if bar == ROM {
        return -EINVAL;
      }
      var e := BarError(bars, bar, pos, host);
      if e != 0 {
        return e;
      }
      var n := Clamped(bars, bar, pos, |bytes|);
      ghost var before := Contents(7);
      var put, trace := WriteLoop(mem[bar], bytes[..n], pos, bars.XStart(bar), bars.XEnd(bar));
      assert Contents(7) == before[bar := mem[bar][..]];
      done := put;
    }

    // The search of the list.
    method FindEntry(k: Entry) returns (i: nat)
      ensures i == Find(ioeventfds, k, 0)
    {
      i := 0;
      while i < |ioeventfds| && ioeventfds[i] != k
        invariant i <= |ioeventfds| && Find(ioeventfds, k, 0) == Find(ioeventfds, k, i)
      {
        i := i + 1;
      }
    }

    // vfio_pci_ioeventfd, with the checks of its ioctl.
    method SetIoeventfd(bar: nat, pos: nat, data: seq<byte>, count: nat, fd: int, host: Host) returns (ret: int)
      requires Valid() && |data| == 8
      modifies `ioeventfds, `ioeventfdsNr
      ensures (Value(), ret) == Ioeventfd(old(Value()), bar, pos, data, count, fd, host)
    {
      hide Listed;
      if count !in {1, 2, 4, 8} || fd < -1 {
        return -EINVAL;
      }
      if bar > 5 {
        return -EINVAL;
      }
      if pos + count > bars.ranges[bar].len {
        return -EINVAL;
      }
      if bar == bars.msixBar && !(pos + count <= bars.msixOffset || pos >= bars.msixOffset + bars.msixSize) {
        return -EINVAL;
      }
      if count == 8 && !bars.has64 {
        return -EINVAL;
      }
      if !bars.ranges[bar].mapped {
        return -ENOMEM;
      }
      if host.map' != 0 {
        return host.map';
      }
      ret := UpdateList(Entry(bar, pos, data, count), fd, host);
    }

    // Its part under ioeventfds_lock.
    method UpdateList(k: Entry, fd: int, host: Host) returns (ret: int)
      requires Valid()
      modifies `ioeventfds, `ioeventfdsNr
      ensures (Value(), ret) == Listed(old(Value()), k, fd, host)
    {
      var i := FindEntry(k);
      hide Find;
      if i < |ioeventfds| {
        if fd != -1 {
          return -EEXIST;
        }
        ioeventfds := ioeventfds[..i] + ioeventfds[i + 1..];
        if ioeventfdsNr > 0 {
          ioeventfdsNr := ioeventfdsNr - 1;
        }
        return 0;
      }
      if fd < 0 {
        return -ENODEV;
      }
      if ioeventfdsNr >= MAX_IOEVENTFDS {
        return -ENOSPC;
      }
      if !host.mem {
        return -ENOMEM;
      }
      if host.enable != 0 {
        return host.enable;
      }
      ioeventfds := [k] + ioeventfds;
      ioeventfdsNr := ioeventfdsNr + 1;
      return 0;
    }

    // vfio_pci_ioeventfd_handler
    method FireIoeventfd(i: nat)
      requires Valid() && Registered(Value()) && i < |ioeventfds|
      modifies mem
      ensures Value() == Fire(old(Value()), i)
    {
      var e := ioeventfds[i];
      assert EntryOk(bars, e);
      ghost var before := Contents(7);
      ghost var was := mem[e.bar][..];
      CopyIn(mem[e.bar], e.pos, e.data[..e.count]);
      assert mem[e.bar][..] == WriteIn(was, e.pos, e.data[..e.count], 0, 0);
      assert Contents(7) == before[e.bar := mem[e.bar][..]];
    }

    // What vfio_pci_disable does to the list.
    method CloseIoeventfds()
      requires Valid()
      modifies `ioeventfds, `ioeventfdsNr
      ensures Value() == old(Value()).(entries := [], nr := 0)
    {
      ioeventfds, ioeventfdsNr := [], 0;
    }
  }
}
