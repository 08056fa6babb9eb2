/** The promise of capability hiding: whatever a guest did before and however it reads, following
    the lists visits exactly the capabilities the driver keeps, in hardware order. */
module GuestView {
  import opened Bytes
  import opened PciCaps
  import opened Chains
  import opened StdCapInit
  import opened ExtCapInit
  import opened ConfigInit
  import opened Layout
  import opened Perms
  import opened ConfigAccess
  import opened ListLinks
  import opened GuestRuns

  // A function about to be opened: what the PCI core knows, its registers and read-only bits, its
  // VPD storage, and the two buffers as allocated.
  datatype Plugged = Plugged(dev: Pdev, func: Func, hw: seq<byte>, ro: seq<byte>, vpd: seq<byte>,
                             rawOwner: seq<byte>, rawVconfig: seq<byte>)
  {
    predicate Sized() { dev.Valid() && |hw| == |ro| == |rawOwner| == |rawVconfig| == dev.cfgSize }
    function Lens(): seq<nat> { StdLens(dev, hw) }
    function ELens(): seq<nat> { ExtLens(hw) }
    ghost function Caps(ps: seq<nat>, es: seq<nat>): set<Cap> { AllCaps(hw, Lens(), ELens(), ps, es) }
    function Built(): Init requires dev.Valid() { Build(dev, hw, Lens(), ELens(), rawOwner, rawVconfig) }
  }

  // The device as vfio_config_init leaves it.
  function Opened(x: Plugged): Vdev
    requires x.dev.Valid()
  {
    var b := x.Built();
    Vdev(x.func, b.owner, b.vconfig, x.hw, x.ro, b.msi, SavedBars(x.hw), true, false, false, 0, x.vpd, 0, [])
  }

  // The registers kept for vfio_bar_restore: six BARs and the ROM.
  function SavedBars(hw: seq<byte>): seq<byte> { BarBytes(hw, 24) + Dword(hw, 0x30) }

  function BarBytes(hw: seq<byte>, n: nat): (r: seq<byte>)
    ensures |r| == n && forall i :: 0 <= i < n ==> r[i] == At(hw, 0x10 + i)
  {
    if n == 0 then [] else BarBytes(hw, n - 1) + [At(hw, 0x10 + n - 1)]
  }

  // The hardware lists `ps` and `es` are well formed, and capability ids are read-only.
  ghost predicate WellFormed(x: Plugged, ps: seq<nat>, es: seq<nat>) {
    && x.Sized() && Formed(x.dev, x.hw, x.Lens(), x.ELens(), ps, es)
    && forall p :: p in ps ==> At(x.ro, p) == 0xFF
  }

  lemma OpenedSteady(x: Plugged, ps: seq<nat>, es: seq<nat>)
    requires WellFormed(x, ps, es)
    ensures Steady(Opened(x), x.Caps(ps, es))
    ensures |Opened(x).owner| == |x.hw|
  {
    hide StdLens, ExtLens, Build, Known, Formed, Laid, AllCaps;
    TablesKnown(x.dev, x.hw);
    BuildLaid(x.dev, x.hw, x.Lens(), x.ELens(), x.rawOwner, x.rawVconfig, ps, es);
    BuildStdShown(x.dev, x.hw, x.Lens(), x.ELens(), x.rawOwner, x.rawVconfig, ps, es);
    BuildMapped(x.dev, x.hw, x.Lens(), x.ELens(), x.rawOwner, x.rawVconfig, ps, es);
    OpenedIds(x, ps, es);
  }

  lemma OpenedIds(x: Plugged, ps: seq<nat>, es: seq<nat>)
    requires WellFormed(x, ps, es)
    ensures forall c :: c in x.Caps(ps, es) && c.start < STD_SPACE ==>
      At(x.hw, c.start) == c.id && At(x.ro, c.start) == 0xFF && c.start < |x.hw| && At(Opened(x).vconfig, c.start) == c.id
  {
    var lens, elens := x.Lens(), x.ELens();
    hide StdLens, ExtLens, Build, Known, Formed, CapFits, Layout.Sized, Kept, AllCaps;
    TablesKnown(x.dev, x.hw);
    BuildStdShown(x.dev, x.hw, lens, elens, x.rawOwner, x.rawVconfig, ps, es);
    forall c | c in x.Caps(ps, es) && c.start < STD_SPACE
      ensures At(x.hw, c.start) == c.id && At(x.ro, c.start) == 0xFF && c.start < |x.hw| && At(Opened(x).vconfig, c.start) == c.id
    {
      CapsFit(x.dev, x.hw, lens, elens, ps, es, c);
      StdCapKept(x.dev, x.hw, lens, elens, ps, es, c);
    }
  }

  lemma StdCapKept(dev: Pdev, hw: seq<byte>, lens: seq<nat>, elens: seq<nat>, ps: seq<nat>, es: seq<nat>, c: Cap)
    requires Formed(dev, hw, lens, elens, ps, es) && c in AllCaps(hw, lens, elens, ps, es) && c.start < STD_SPACE
    ensures c.start in Kept(lens, ps) && c.start < |hw|
  {
    hide Anchored, NoTwins, FindsExtended;
    KeptIn(lens, ps);
    if c.start in es {
      PlacedAt(elens, es, STD_SPACE, EXT_SPACE, 4, c.start);
    }
  }

  // Past its next pointer, the copy of a standard capability begins as hardware has it.
  lemma OpenedCap(x: Plugged, ps: seq<nat>, es: seq<nat>, c: Cap, q: nat)
    requires WellFormed(x, ps, es) && c in x.Caps(ps, es) && c.start < STD_SPACE && c.Has(q) && q != c.start + 1
    ensures At(Opened(x).vconfig, q) == At(x.hw, q)
  {
    var lens, elens := x.Lens(), x.ELens();
    StdCapOf(x.dev, x.hw, lens, elens, ps, es, c);
    hide StdLens, ExtLens, Build, Formed, AllCaps, Placed;
    BuildLow(x.dev, x.hw, lens, elens, x.rawOwner, x.rawVconfig, ps, es, q);
  }

  lemma StdCapOf(dev: Pdev, hw: seq<byte>, lens: seq<nat>, elens: seq<nat>, ps: seq<nat>, es: seq<nat>, c: Cap)
    requires Formed(dev, hw, lens, elens, ps, es) && c in AllCaps(hw, lens, elens, ps, es) && c.start < STD_SPACE
    ensures c.start in ps && c.len == LenAt(lens, c.start) && c.start + c.len <= STD_SPACE
  {
    hide Anchored, NoTwins, FindsExtended;
    if c.start in es {
      PlacedAt(elens, es, STD_SPACE, EXT_SPACE, 4, c.start);
    } else {
      PlacedAt(lens, ps, HEADER, STD_SPACE, 2, c.start);
    }
  }

  // ---------------------------------------------------------------- the standard list

  // Where the guest finds the pointer to entry `i`.
  function Pointer(list: seq<nat>, i: nat): nat
    requires i <= |list|
  {
    if i == 0 then CAPABILITY_LIST else list[i - 1] + 1
  }

  // What it finds there: the entry, or zero past the last one.
  function Entry(list: seq<nat>, i: nat): nat
    requires i <= |list|
  {
    if i < |list| then list[i] else 0
  }

  lemma {:induction false} ChainEntry(v: seq<byte>, pos: nat, list: seq<nat>, i: nat)
    requires StdChain(v, pos, list) && i <= |list|
    ensures i == 0 ==> pos == Entry(list, 0)
    ensures i > 0 ==> Num(At(v, list[i - 1] + 1)) == Entry(list, i)
    decreases list
  {
    if i > 0 {
      ChainEntry(v, Num(At(v, pos + 1)), list[1..], i - 1);
    }
  }

  lemma PointerPinned(x: Plugged, ps: seq<nat>, es: seq<nat>, i: nat)
    requires WellFormed(x, ps, es) && i <= |Kept(x.Lens(), ps)|
    ensures var q := Pointer(Kept(x.Lens(), ps), i);
      Pinned(x.Caps(ps, es), q) && q != STATUS && forall c :: c in x.Caps(ps, es) ==> !IsId(c, q)
  {
    var lens, caps := x.Lens(), x.Caps(ps, es);
    hide StdLens, ExtLens, Kept, Links, IsId;
    CapsAligned(x, ps, es);
    if i == 0 {
      assert forall c :: c in caps && IsId(c, CAPABILITY_LIST) ==> c.start == CAPABILITY_LIST by { NoIdBelow(CAPABILITY_LIST); }
    } else {
      var p := Kept(lens, ps)[i - 1];
      assert p in Kept(lens, ps);
      LinkOf(x, ps, es, p);
      NoIdBelow(p + 1);
    }
  }

  lemma NoIdBelow(q: nat)
    ensures forall c: Cap :: IsId(c, q) ==> c.start == q
  {
  }

  lemma CapsAligned(x: Plugged, ps: seq<nat>, es: seq<nat>)
    requires WellFormed(x, ps, es)
    ensures forall c :: c in x.Caps(ps, es) ==> c.start % 4 == 0 && c.start >= HEADER
  {
    hide StdLens, ExtLens, Known, AllCaps, Formed, Layout.Sized;
    TablesKnown(x.dev, x.hw);
    forall c | c in x.Caps(ps, es) ensures c.start % 4 == 0 && c.start >= HEADER {
      CapsFit(x.dev, x.hw, x.Lens(), x.ELens(), ps, es, c);
    }
  }

  // The next byte of a kept capability links the list.
  lemma LinkOf(x: Plugged, ps: seq<nat>, es: seq<nat>, p: nat)
    requires WellFormed(x, ps, es) && p in Kept(x.Lens(), ps)
    ensures Pinned(x.Caps(ps, es), p + 1) && HEADER <= p < STD_SPACE && p % 4 == 0
  {
    KeptIn(x.Lens(), ps);
    hide StdLens, ExtLens, NoTwins, FindsExtended, Anchored, Kept;
    PlacedAt(x.Lens(), ps, HEADER, STD_SPACE, 2, p);
    var c := Cap(p, LenAt(x.Lens(), p), At(x.hw, p));
    assert c in x.Caps(ps, es) && Links(c, p + 1);
  }

  // In every reachable state, a read of any width and alignment that covers the pointer to
  // entry `i` finds the i-th kept capability of the hardware list, and zero after the last.
  lemma StdListFollowed(x: Plugged, ps: seq<nat>, es: seq<nat>, run: seq<Event>, i: nat, pos: nat, count: nat)
    requires WellFormed(x, ps, es)
    requires var kept := Kept(x.Lens(), ps); kept != [] && i <= |kept| && pos <= Pointer(kept, i) < pos + count
    requires pos + count <= |x.hw|
    ensures var kept := Kept(x.Lens(), ps);
      Num(Got(Run(Opened(x), run), pos, count, Pointer(kept, i))) == Entry(kept, i)
  {
    hide Steady, Run, Pinned, StdLens, ExtLens, IsId, Kept, AllCaps, Got, Formed, StdChain, Build;
    var kept, caps := Kept(x.Lens(), ps), x.Caps(ps, es);
    var s := Opened(x);
    OpenedSteady(x, ps, es);
    RunSteady(s, caps, run);
    BuildStdShown(x.dev, x.hw, x.Lens(), x.ELens(), x.rawOwner, x.rawVconfig, ps, es);
    ChainEntry(s.vconfig, Num(At(s.vconfig, CAPABILITY_LIST)), kept, i);
    PointerPinned(x, ps, es, i);
    SameLink(s, Run(s, run), caps, Pointer(kept, i));
    ReadShows(Run(s, run), caps, pos, count, Pointer(kept, i));
  }

  // The status register announces a list exactly when a capability is kept.
  lemma StdListAnnounced(x: Plugged, ps: seq<nat>, es: seq<nat>, run: seq<Event>, pos: nat, count: nat)
    requires WellFormed(x, ps, es) && pos <= STATUS < pos + count && pos + count <= |x.hw|
    ensures Got(Run(Opened(x), run), pos, count, STATUS) & STATUS_CAP_LIST != 0 <==> Kept(x.Lens(), ps) != []
  {
    var caps := x.Caps(ps, es);
    hide Steady, Run, StdLens, ExtLens, Kept, AllCaps, Got, Formed, StdChain, Build;
    var s := Opened(x);
    OpenedSteady(x, ps, es);
    RunSteady(s, caps, run);
    BuildStdShown(x.dev, x.hw, x.Lens(), x.ELens(), x.rawOwner, x.rawVconfig, ps, es);
    SameLink(s, Run(s, run), caps, STATUS);
    HeaderNoId(x, ps, es);
    ReadShows(Run(s, run), caps, pos, count, STATUS);
  }

  lemma HeaderNoId(x: Plugged, ps: seq<nat>, es: seq<nat>)
    requires WellFormed(x, ps, es)
    ensures forall c :: c in x.Caps(ps, es) ==> !IsId(c, STATUS)
  {
    hide StdLens, ExtLens, Known, AllCaps, Formed, Layout.Sized;
    TablesKnown(x.dev, x.hw);
    forall c | c in x.Caps(ps, es) ensures c.start >= HEADER {
      CapsFit(x.dev, x.hw, x.Lens(), x.ELens(), ps, es, c);
    }
  }

  // The first byte of each entry is its id, as the hardware has it.
  lemma StdListIds(x: Plugged, ps: seq<nat>, es: seq<nat>, run: seq<Event>, i: nat, pos: nat, count: nat)
    requires WellFormed(x, ps, es)
    requires var kept := Kept(x.Lens(), ps); i < |kept| && pos <= kept[i] < pos + count
    requires pos + count <= |x.hw|
    ensures var p := Kept(x.Lens(), ps)[i]; Got(Run(Opened(x), run), pos, count, p) == At(x.hw, p)
  {
    var p := Kept(x.Lens(), ps)[i];
    var c := Cap(p, LenAt(x.Lens(), p), At(x.hw, p));
    KeptCap(x, ps, es, p);
    OpenedSteady(x, ps, es);
    hide *;
    RunSteady(Opened(x), x.Caps(ps, es), run);
    ReadShowsId(Run(Opened(x), run), x.Caps(ps, es), c, pos, count);
  }

  lemma KeptCap(x: Plugged, ps: seq<nat>, es: seq<nat>, p: nat)
    requires WellFormed(x, ps, es) && p in Kept(x.Lens(), ps)
    ensures Cap(p, LenAt(x.Lens(), p), At(x.hw, p)) in x.Caps(ps, es) && p < STD_SPACE
  {
    KeptIn(x.Lens(), ps);
    hide StdLens, ExtLens, NoTwins, FindsExtended, Anchored, Kept;
    PlacedAt(x.Lens(), ps, HEADER, STD_SPACE, 2, p);
  }

  // ---------------------------------------------------------------- the extended list

  // In every reachable state a read of a header byte of the extended list shows the virtual
  // header, which by BuildExtShown links the kept capabilities.
  lemma ExtHeaderShown(x: Plugged, ps: seq<nat>, es: seq<nat>, run: seq<Event>, p: nat, q: nat, pos: nat, count: nat)
    requires WellFormed(x, ps, es) && FindsExtended(x.dev, x.hw, ps)
    requires p == STD_SPACE || p in Shown(x.ELens(), es)
    requires p <= q < p + 4 && pos <= q < pos + count && pos + count <= |x.hw|
    ensures Got(Run(Opened(x), run), pos, count, q) == At(x.Built().vconfig, q)
  {
    var caps := x.Caps(ps, es);
    ExtHeaderPinned(x, ps, es, p, q);
    hide Steady, Run, StdLens, ExtLens, AllCaps, Got, Formed, Build, Pinned, IsId, Shown, FindsExtended;
    var s := Opened(x);
    OpenedSteady(x, ps, es);
    RunSteady(s, caps, run);
    SameLink(s, Run(s, run), caps, q);
    ReadShows(Run(s, run), caps, pos, count, q);
  }

  // A guest that looks at a byte: after some run, with a read of some position and length.
  datatype Look = Look(run: seq<Event>, pos: nat, count: nat)

  predicate Covers4(looks: seq<Look>, p: nat, size: nat) {
    |looks| == 4 && forall j :: 0 <= j < 4 ==> looks[j].pos <= p + j < looks[j].pos + looks[j].count && looks[j].pos + looks[j].count <= size
  }

  function Saw(x: Plugged, look: Look, q: nat): byte
    requires x.dev.Valid()
  {
    Got(Run(Opened(x), look.run), look.pos, look.count, q)
  }

  // The header at `p`, its four bytes each seen with a look of its own.
  function SawHeader(x: Plugged, looks: seq<Look>, p: nat): seq<byte>
    requires x.dev.Valid() && |looks| == 4
  {
    [Saw(x, looks[0], p), Saw(x, looks[1], p + 1), Saw(x, looks[2], p + 2), Saw(x, looks[3], p + 3)]
  }

  // A guest follows the extended list, reading each byte of a header when and how it likes: entry
  // `i` has the hardware's id, or none if it is the anchor of a hidden first capability, and points
  // to entry i + 1, the last one below the extended space.
  lemma ExtListFollowed(x: Plugged, ps: seq<nat>, es: seq<nat>, looks: seq<Look>, i: nat)
    requires WellFormed(x, ps, es) && FindsExtended(x.dev, x.hw, ps)
    requires Kept(x.ELens(), es) != [] && i < |Shown(x.ELens(), es)| && Covers4(looks, Shown(x.ELens(), es)[i], |x.hw|)
    ensures var shown := Shown(x.ELens(), es); var h := SawHeader(x, looks, shown[i]);
      && shown[0] == STD_SPACE
      && ExtId(h, 0) == (if LenAt(x.ELens(), shown[i]) == 0 then 0 else ExtId(x.hw, shown[i]))
      && (if i + 1 < |shown| then ExtNext(h, 0) == shown[i + 1] else ExtNext(h, 0) < STD_SPACE)
  {
    var shown := Shown(x.ELens(), es);
    var v := x.Built().vconfig;
    var p := shown[i];
    assert p in shown;
    hide StdLens, ExtLens, Formed, Build, Shown, FindsExtended, Kept, Saw, ExtChain, At, NextField, ExtId;
    BuildExtShown(x.dev, x.hw, x.Lens(), x.ELens(), x.rawOwner, x.rawVconfig, ps, es);
    ExtChainEntry(v, STD_SPACE, shown, i);
    SawBuilt(x, ps, es, looks, p);
    SameHeader(v, SawHeader(x, looks, p), p);
  }

  // With no capability kept, a guest finds nothing at the start of the extended space.
  lemma ExtListEmpty(x: Plugged, ps: seq<nat>, es: seq<nat>, looks: seq<Look>)
    requires WellFormed(x, ps, es) && FindsExtended(x.dev, x.hw, ps) && Kept(x.ELens(), es) == []
    requires Covers4(looks, STD_SPACE, |x.hw|)
    ensures SawHeader(x, looks, STD_SPACE) == [0, 0, 0, 0]
  {
    hide StdLens, ExtLens, Formed, Build, FindsExtended, Kept, Saw, ExtChain, ExtId, Covers4;
    BuildExtShown(x.dev, x.hw, x.Lens(), x.ELens(), x.rawOwner, x.rawVconfig, ps, es);
    SawBuilt(x, ps, es, looks, STD_SPACE);
  }

  lemma SawBuilt(x: Plugged, ps: seq<nat>, es: seq<nat>, looks: seq<Look>, p: nat)
    requires WellFormed(x, ps, es) && FindsExtended(x.dev, x.hw, ps) && Covers4(looks, p, |x.hw|)
    requires p == STD_SPACE || p in Shown(x.ELens(), es)
    ensures var v := x.Built().vconfig; SawHeader(x, looks, p) == [At(v, p), At(v, p + 1), At(v, p + 2), At(v, p + 3)]
  {
    hide StdLens, ExtLens, Formed, Build, Shown, FindsExtended, Kept, Got, At;
    ExtHeaderShown(x, ps, es, looks[0].run, p, p, looks[0].pos, looks[0].count);
    ExtHeaderShown(x, ps, es, looks[1].run, p, p + 1, looks[1].pos, looks[1].count);
    ExtHeaderShown(x, ps, es, looks[2].run, p, p + 2, looks[2].pos, looks[2].count);
    ExtHeaderShown(x, ps, es, looks[3].run, p, p + 3, looks[3].pos, looks[3].count);
  }

  lemma SameHeader(v: seq<byte>, h: seq<byte>, p: nat)
    requires h == [At(v, p), At(v, p + 1), At(v, p + 2), At(v, p + 3)]
    ensures ExtId(h, 0) == ExtId(v, p) && ExtNext(h, 0) == ExtNext(v, p)
  {
    assert At(h, 0) == h[0] && At(h, 1) == h[1] && At(h, 2) == h[2] && At(h, 3) == h[3];
    hide NextField;
  }

  lemma {:induction false} ExtChainEntry(v: seq<byte>, pos: nat, list: seq<nat>, i: nat)
    requires ExtChain(v, pos, list) && i < |list|
    ensures list[0] == pos && if i + 1 < |list| then ExtNext(v, list[i]) == list[i + 1] else ExtNext(v, list[i]) < STD_SPACE
    decreases list
  {
    if i > 0 {
      ExtChainEntry(v, ExtNext(v, pos), list[1..], i - 1);
    } else if |list| > 1 {
      assert ExtNext(v, pos) == list[1..][0];
    }
  }

  lemma ExtHeaderPinned(x: Plugged, ps: seq<nat>, es: seq<nat>, p: nat, q: nat)
    requires WellFormed(x, ps, es) && FindsExtended(x.dev, x.hw, ps)
    requires (p == STD_SPACE || p in Shown(x.ELens(), es)) && p <= q < p + 4
    ensures Pinned(x.Caps(ps, es), q) && q != STATUS && forall c :: c in x.Caps(ps, es) ==> !IsId(c, q)
  {
    var elens := x.ELens();
    hide StdLens, ExtLens, NoTwins, FindsExtended, Anchored, Kept;
    if p != STD_SPACE {
      ShownIn(elens, es, p);
    }
    PlacedAt(elens, es, STD_SPACE, EXT_SPACE, 4, p);
    AnchoredLen(elens, p);
    var c := Cap(p, LenAt(Anchored(elens), p), At(x.hw, p));
    assert c in x.Caps(ps, es) && Links(c, q);
  }
}
