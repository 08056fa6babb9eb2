/** What the header of an opened function shows a guest: identifiers, interrupt pin and interrupt line. */
module HeaderView {
  import opened Bytes
  import opened PciCaps
  import opened Chains
  import opened StdCapInit
  import opened ExtCapInit
  import opened ConfigInit
  import opened Layout
  import opened ConfigAccess
  import opened ListLinks
  import opened GuestRuns
  import opened GuestView
  import opened HardwareBytes
  import opened RegisterMap
  import opened RegisterBits
  import opened MsiRegisters

  // The identifiers and interrupt pin of the header: a virtual function has the identifiers the PCI core
  // gives it, and neither it nor a function whose INTx is hidden has a pin.
  function HeaderByte(x: Plugged, q: nat): byte {
    if q < 4 && x.dev.isVirtfn then At(x.dev.vendorDevice, q)
    else if q == 0x3D && (x.dev.isVirtfn || x.dev.hideIntx) then 0
    else At(x.hw, q)
  }

  // The copy of the header that opening makes, but for what it announces of the capability list.
  lemma OpenedHeader(x: Plugged, ps: seq<nat>, es: seq<nat>, q: nat)
    requires WellFormed(x, ps, es) && q < 0x40 && q != 0x34 && q != 6
    ensures At(Opened(x).vconfig, q) == HeaderByte(x, q)
  {
    hide StdLens, ExtLens, Formed, Build, HeaderByte;
    BuildLow(x.dev, x.hw, x.Lens(), x.ELens(), x.rawOwner, x.rawVconfig, ps, es, q);
    HeaderApart(x, ps, es, q);
    HeaderCopied(x, q);
  }

  lemma HeaderApart(x: Plugged, ps: seq<nat>, es: seq<nat>, q: nat)
    requires WellFormed(x, ps, es) && q < 0x40
    ensures Uncovered(x.Lens(), ps, q)
  {
    hide StdLens, ExtLens, NoTwins, AllCaps, FindsExtended;
    LowUncovered(x.Lens(), ps, HEADER, STD_SPACE, 2, q);
  }

  lemma HeaderCopied(x: Plugged, q: nat)
    requires x.Sized() && q < 0x40
    ensures At(HeaderInit(x.dev, x.hw, x.rawOwner, x.rawVconfig).vconfig, q) == HeaderByte(x, q)
  {
  }

  lemma {:induction false} NeverWritten(es: seq<Event>, size: nat, q: nat, was: byte)
    ensures VirtAfter(es, size, q, was, 0) == was
    decreases |es|
  {
    if es != [] {
      var e := es[0];
      if e.GuestWrite? && CoversByte(e.pos, |e.bytes|, q) { MergeFacts(was, e.bytes[q - e.pos], 0); }
      NeverWritten(es[1..], size, q, was);
      hide Merge;
    }
  }

  // A byte the guest reads from the copy and cannot write.
  lemma Fixed(s: Vdev, q: nat, es: seq<Event>, pos: nat, count: nat)
    requires Behaves(s, q, 0xFF, 0, 0) && pos <= q < pos + count && pos + count <= |s.owner|
    ensures Got(Run(s, es), pos, count, q) == At(s.vconfig, q)
  {
    hide Run, HwAfter, VirtAfter, Got, At, Merge, Same;
    var h, v := HwAfter(es, |s.owner|, q, At(s.hw, q), At(s.ro, q), 0), VirtAfter(es, |s.owner|, q, At(s.vconfig, q), 0);
    NeverWritten(es, |s.owner|, q, At(s.vconfig, q));
    SameAll(Got(Run(s, es), pos, count, q), Merge(h, v, 0xFF));
    MergeFacts(h, v, 0);
  }

  // Whatever a guest and the hardware do, a read of any shape shows these identifiers and this pin.
  lemma IdentityShown(x: Plugged, ps: seq<nat>, es: seq<nat>, run: seq<Event>, q: nat, pos: nat, count: nat)
    requires WellFormed(x, ps, es) && (q < 4 || q == 0x3D) && pos <= q < pos + count && pos + count <= |x.hw|
    ensures Got(Run(Opened(x), run), pos, count, q) == HeaderByte(x, q)
  {
    hide WellFormed, Opened, Run, Got, HeaderByte, Behaves, Steady, At;
    ValidOf(x, ps, es);
    OpenedSteady(x, ps, es);
    OpenedHeader(x, ps, es, q);
    HeaderBytes(Opened(x), x.Caps(ps, es), q);
    Fixed(Opened(x), q, run, pos, count);
  }

  // The interrupt line is a scratch register of the guest: it finds what it last wrote, and hardware
  // never hears of it.
  lemma LineRemembered(x: Plugged, ps: seq<nat>, es: seq<nat>, run: seq<Event>, pos: nat, count: nat)
    requires WellFormed(x, ps, es) && pos <= 0x3C < pos + count && pos + count <= |x.hw|
    ensures Got(Run(Opened(x), run), pos, count, 0x3C) == LastWritten(run, |x.hw|, 0x3C, At(x.hw, 0x3C))
    ensures At(Run(Opened(x), run).hw, 0x3C) == Untouched(run, 0x3C, At(x.hw, 0x3C), At(x.ro, 0x3C))
  {
    hide WellFormed, Opened, Run, Got, Behaves, Steady, At, LastWritten, Untouched;
    ValidOf(x, ps, es);
    OpenedSame(x);
    OpenedSteady(x, ps, es);
    OpenedHeader(x, ps, es, 0x3C);
    assert HeaderByte(x, 0x3C) == At(x.hw, 0x3C);
    HeaderBytes(Opened(x), x.Caps(ps, es), 0x3C);
    Remembered(Opened(x), 0x3C, run, pos, count);
    ReachesOf(Opened(x), 0x3C);
    Shielded(Opened(x), 0x3C, run);
  }

  lemma ValidOf(x: Plugged, ps: seq<nat>, es: seq<nat>)
    requires WellFormed(x, ps, es)
    ensures x.dev.Valid()
  {
    hide Formed;
  }

  lemma ReachesOf(s: Vdev, q: nat)
    requires Behaves(s, q, 0xFF, 0xFF, 0)
    ensures Reaches(s, q, 0xFF, 0)
  {
    hide Reaches, Reads;
  }
}
