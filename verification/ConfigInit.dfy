/** vfio_config_init on values: header, standard list and extended list, and what the guest can
    rely on afterwards when the hardware lists are well formed. */
module ConfigInit {
  import opened Bytes
  import opened PciCaps
  import opened Chains
  import opened StdCapInit
  import opened ExtCapInit

  const STD_LOOPS := 48 // (PCI_CFG_SPACE_SIZE - PCI_STD_HEADER_SIZEOF) / PCI_CAP_SIZEOF

  // `rawOwner` and `rawVconfig` are the buffers as allocated.
  function HeaderInit(dev: Pdev, hw: seq<byte>, rawOwner: seq<byte>, rawVconfig: seq<byte>): Init
    requires dev.Valid()
  {
    var v := Copied(rawVconfig, hw, 0, HEADER);
    var vf := if dev.isVirtfn then Copied(v, dev.vendorDevice, 0, 4) else v;
    Init(Filled(Filled(rawOwner, 0, HEADER, 0), HEADER, dev.cfgSize - HEADER, INVALID),
         if dev.isVirtfn || dev.hideIntx then Poke(vf, 0x3D, 0) else vf,
         false, NoMsi, 0)
  }

  function StdInit(dev: Pdev, hw: seq<byte>, lens: seq<nat>, s: Init): Init {
    if At(hw, STATUS) & STATUS_CAP_LIST == 0 then s
    else
      var r := Walk(dev, hw, lens, s, Num(At(hw, CAPABILITY_LIST)), CAPABILITY_LIST, STD_LOOPS);
      if r.caps == 0 then r.(vconfig := Poke(r.vconfig, STATUS, At(r.vconfig, STATUS) & !STATUS_CAP_LIST))
      else r
  }

  function ExtInit(dev: Pdev, hw: seq<byte>, lens: seq<nat>, s: Init): Init
    requires dev.Valid()
  {
    if !s.extended then s
    else
      var r := ExtWalk(hw, lens, s.(caps := 0), STD_SPACE, 0, ExtLoops(dev));
      if r.caps == 0 then r.(vconfig := Filled(r.vconfig, STD_SPACE, 4, 0))
      else r
  }

  function ExtLoops(dev: Pdev): nat
    requires dev.Valid()
  {
    (dev.cfgSize - STD_SPACE) / CAP_SIZEOF
  }

  // Only a function with extended configuration space is found to have it.
  lemma {:induction false} WalkExtendedSize(dev: Pdev, hw: seq<byte>, lens: seq<nat>, s: Init, pos: nat, prev: nat, fuel: nat)
    requires s.extended ==> dev.cfgSize > STD_SPACE
    ensures Walk(dev, hw, lens, s, pos, prev, fuel).extended ==> dev.cfgSize > STD_SPACE
    decreases fuel
  {
    if pos != 0 && fuel != 0 {
      assert Visit(dev, hw, lens, s, pos, prev).extended ==> dev.cfgSize > STD_SPACE;
      hide Visit;
      WalkExtendedSize(dev, hw, lens, Visit(dev, hw, lens, s, pos, prev), Num(At(hw, pos + 1)), Link(lens, pos, prev), fuel - 1);
    }
  }

  lemma StdInitSize(dev: Pdev, hw: seq<byte>, lens: seq<nat>, s: Init)
    requires dev.Valid() && !s.extended
    ensures StdInit(dev, hw, lens, s).extended ==> dev.cfgSize == EXT_SPACE
  {
    hide Walk;
    WalkExtendedSize(dev, hw, lens, s, Num(At(hw, CAPABILITY_LIST)), CAPABILITY_LIST, STD_LOOPS);
  }

  // ---------------------------------------------------------------- the standard list

  // The hardware list `ps`: empty when the status register announces none, else reached from
  // 0x34, with no entry posing as the header (id 0).
  ghost predicate StdFormed(dev: Pdev, hw: seq<byte>, lens: seq<nat>, ps: seq<nat>) {
    && dev.Valid() && |hw| == dev.cfgSize
    && (if At(hw, STATUS) & STATUS_CAP_LIST == 0 then ps == []
        else StdChain(hw, Num(At(hw, CAPABILITY_LIST)), ps))
    && |lens| == STD_SPACE && Placed(lens, ps, HEADER, STD_SPACE, 2)
    && forall p :: p in ps ==> At(hw, p) != 0
  }

  lemma HeaderFacts(dev: Pdev, hw: seq<byte>, rawOwner: seq<byte>, rawVconfig: seq<byte>)
    requires dev.Valid() && |hw| == |rawOwner| == |rawVconfig| == dev.cfgSize
    ensures var s := HeaderInit(dev, hw, rawOwner, rawVconfig);
      && |s.owner| == |s.vconfig| == |hw|
      && s.vconfig[CAPABILITY_LIST] == hw[CAPABILITY_LIST] && s.vconfig[STATUS] == hw[STATUS]
      && forall q :: 0 <= q < |hw| ==> s.owner[q] == if q < HEADER then 0 else INVALID
  {
  }

  lemma LowUncovered(lens: seq<nat>, ps: seq<nat>, lo: nat, hi: nat, min: nat, q: nat)
    requires Placed(lens, ps, lo, hi, min) && q < lo
    ensures Uncovered(lens, ps, q)
  {
    forall p | p in ps ensures !Covers(lens, p, q) {
      PlacedAt(lens, ps, lo, hi, min, p);
    }
  }

  // The list the guest sees is the hardware list without the hidden capabilities, in hardware
  // order, and the status bit announces it exactly when it is not empty.
  lemma StdListShown(dev: Pdev, hw: seq<byte>, lens: seq<nat>, s: Init, ps: seq<nat>)
    requires StdFormed(dev, hw, lens, ps) && |s.owner| == |s.vconfig| == |hw| && s.caps == 0
    requires s.vconfig[CAPABILITY_LIST] == hw[CAPABILITY_LIST] && s.vconfig[STATUS] == hw[STATUS]
    ensures var r := StdInit(dev, hw, lens, s); var kept := Kept(lens, ps);
      && |r.owner| == |r.vconfig| == |hw|
      && (r.vconfig[STATUS] & STATUS_CAP_LIST != 0 <==> kept != [])
      && (kept != [] ==> StdChain(r.vconfig, Num(r.vconfig[CAPABILITY_LIST]), kept))
  {
    hide Walk;
    if At(hw, STATUS) & STATUS_CAP_LIST != 0 {
      var head := Num(At(hw, CAPABILITY_LIST));
      var r := Walk(dev, hw, lens, s, head, CAPABILITY_LIST, STD_LOOPS);
      Pigeonhole(lens, ps, HEADER, STD_SPACE, 2);
      LowUncovered(lens, ps, HEADER, STD_SPACE, 2, CAPABILITY_LIST);
      LowUncovered(lens, ps, HEADER, STD_SPACE, 2, STATUS);
      WalkCounts(dev, hw, lens, s, head, CAPABILITY_LIST, STD_LOOPS, ps);
      WalkLinks(dev, hw, lens, s, head, CAPABILITY_LIST, STD_LOOPS, ps);
      WalkFrame(dev, hw, lens, s, head, CAPABILITY_LIST, STD_LOOPS, ps, STATUS);
      assert (r.vconfig[STATUS] & !STATUS_CAP_LIST) & STATUS_CAP_LIST == 0;
    }
  }

  // Ownership and contents after the standard walk.
  lemma StdOwned(dev: Pdev, hw: seq<byte>, lens: seq<nat>, s: Init, ps: seq<nat>, q: nat)
    requires StdFormed(dev, hw, lens, ps) && q < |s.owner| == |s.vconfig| == |hw|
    ensures var r := StdInit(dev, hw, lens, s);
      && |r.owner| == |r.vconfig| == |hw|
      && (Uncovered(lens, ps, q) ==> r.owner[q] == s.owner[q])
      && (Uncovered(lens, ps, q) && q != CAPABILITY_LIST && q != STATUS ==> r.vconfig[q] == s.vconfig[q])
      && forall p :: p in ps && Covers(lens, p, q) ==>
           r.owner[q] == hw[p] && (q != p + 1 ==> r.vconfig[q] == hw[q])
  {
    hide Walk;
    forall p | p in ps ensures p < STD_SPACE && !Covers(lens, p, CAPABILITY_LIST) && !Covers(lens, p, STATUS) {
      PlacedAt(lens, ps, HEADER, STD_SPACE, 2, p);
    }
    if At(hw, STATUS) & STATUS_CAP_LIST != 0 {
      var head := Num(At(hw, CAPABILITY_LIST));
      Pigeonhole(lens, ps, HEADER, STD_SPACE, 2);
      WalkSize(dev, hw, lens, s, head, CAPABILITY_LIST, STD_LOOPS);
      if Uncovered(lens, ps, q) {
        WalkFrame(dev, hw, lens, s, head, CAPABILITY_LIST, STD_LOOPS, ps, q);
      }
      forall p | p in ps && Covers(lens, p, q)
        ensures var r := StdInit(dev, hw, lens, s); r.owner[q] == hw[p] && (q != p + 1 ==> r.vconfig[q] == hw[q])
      {
        WalkTakes(dev, hw, lens, s, head, CAPABILITY_LIST, STD_LOOPS, ps, p, q);
      }
    }
  }

  // ---------------------------------------------------------------- the extended list

  // The hardware list `es` starts at 0x100; its first entry has an id the permission tables know.
  ghost predicate ExtFormed(dev: Pdev, hw: seq<byte>, lens: seq<nat>, es: seq<nat>) {
    && dev.Valid() && dev.cfgSize == EXT_SPACE == |hw|
    && ExtChain(hw, STD_SPACE, es) && |lens| == EXT_SPACE && Placed(lens, es, STD_SPACE, EXT_SPACE, 4)
    && 1 <= ExtId(hw, STD_SPACE) <= EXT_ID_MAX
  }

  // What the guest is shown: the kept capabilities, after an anchor if the first is hidden.
  function Shown(lens: seq<nat>, es: seq<nat>): seq<nat> {
    if es != [] && LenAt(lens, es[0]) == 0 then [es[0]] + Kept(lens, es) else Kept(lens, es)
  }

  // The first iteration never unlinks: it copies the first capability or blanks it into an anchor.
  lemma FirstVisit(hw: seq<byte>, lens: seq<nat>, s: Init)
    requires |s.owner| == |s.vconfig| == |hw| == EXT_SPACE
    requires LenAt(lens, STD_SPACE) == 0 || LenAt(lens, STD_SPACE) >= 4
    ensures var t := ExtVisit(hw, lens, s, STD_SPACE, 0);
      && |t.owner| == |t.vconfig| == EXT_SPACE
      && ExtNext(t.vconfig, STD_SPACE) == ExtNext(hw, STD_SPACE)
      && ExtId(t.vconfig, STD_SPACE) == (if LenAt(lens, STD_SPACE) == 0 then 0 else ExtId(hw, STD_SPACE))
  {
    AnchorNext(hw[258], hw[259]);
  }

  // The state after the first iteration, and the rest of the walk from there.
  ghost function AfterFirstVisit(hw: seq<byte>, lens: seq<nat>, s: Init): Init {
    ExtVisit(hw, lens, s.(caps := 0), STD_SPACE, 0)
  }

  ghost function RestOfWalk(dev: Pdev, hw: seq<byte>, lens: seq<nat>, s: Init): Init
    requires dev.Valid() && dev.cfgSize == EXT_SPACE
  {
    ExtWalk(hw, lens, AfterFirstVisit(hw, lens, s), ExtNext(hw, STD_SPACE), STD_SPACE, ExtLoops(dev) - 1)
  }

  lemma ExtUnfold(dev: Pdev, hw: seq<byte>, lens: seq<nat>, s: Init, es: seq<nat>)
    requires ExtFormed(dev, hw, lens, es) && |s.owner| == |s.vconfig| == |hw| && s.extended
    ensures es[0] == STD_SPACE && |es| <= ExtLoops(dev) && ExtChain(hw, ExtNext(hw, STD_SPACE), es[1..])
    ensures var w := RestOfWalk(dev, hw, lens, s);
      && ExtInit(dev, hw, lens, s) == (if w.caps == 0 then w.(vconfig := Filled(w.vconfig, STD_SPACE, 4, 0)) else w)
      && w.caps == |Kept(lens, es)|
    ensures var t := AfterFirstVisit(hw, lens, s);
      && |t.owner| == |t.vconfig| == EXT_SPACE
      && ExtNext(t.vconfig, STD_SPACE) == ExtNext(hw, STD_SPACE)
  {
    hide NextField, ExtVisit;
    Pigeonhole(lens, es, STD_SPACE, EXT_SPACE, 4);
    FirstVisit(hw, lens, s.(caps := 0));
    ExtWalkCounts(hw, lens, s.(caps := 0), STD_SPACE, 0, ExtLoops(dev), es);
  }

  lemma ExtListShown(dev: Pdev, hw: seq<byte>, lens: seq<nat>, s: Init, es: seq<nat>)
    requires ExtFormed(dev, hw, lens, es) && |s.owner| == |s.vconfig| == |hw| && s.extended
    ensures var r := ExtInit(dev, hw, lens, s);
      && |r.owner| == |r.vconfig| == |hw|
      && (Kept(lens, es) != [] ==> ExtChain(r.vconfig, STD_SPACE, Shown(lens, es)))
      && (Kept(lens, es) == [] ==> forall q :: STD_SPACE <= q < STD_SPACE + 4 ==> r.vconfig[q] == 0)
  {
    hide NextField, ExtVisit, ExtInit, ExtId;
    ExtUnfold(dev, hw, lens, s, es);
    var t := AfterFirstVisit(hw, lens, s);
    var rest := es[1..];
    var w := RestOfWalk(dev, hw, lens, s);
    AfterFirst(lens, es);
    RestLinks(hw, lens, t, ExtLoops(dev) - 1, rest);
    ExtChainCons(w.vconfig, STD_SPACE, Kept(lens, rest));
  }

  lemma RestLinks(hw: seq<byte>, lens: seq<nat>, t: Init, fuel: nat, rest: seq<nat>)
    requires var next := ExtNext(hw, STD_SPACE); ExtChain(hw, next, rest) && ExtNext(t.vconfig, STD_SPACE) == next
    requires Placed(lens, rest, STD_SPACE, EXT_SPACE, 4) && |rest| <= fuel && |t.owner| == |t.vconfig| == EXT_SPACE
    requires forall q: nat :: q < STD_SPACE + 4 ==> Uncovered(lens, rest, q)
    ensures var w := ExtWalk(hw, lens, t, ExtNext(hw, STD_SPACE), STD_SPACE, fuel);
      |w.owner| == |w.vconfig| == EXT_SPACE && ExtChain(w.vconfig, ExtNext(w.vconfig, STD_SPACE), Kept(lens, rest))
  {
    hide NextField, ExtVisit, ExtWalk;
    var next := ExtNext(hw, STD_SPACE);
    ExtWalkLinks(hw, lens, t, next, STD_SPACE, fuel, rest);
    ExtWalkFrame(hw, lens, t, next, STD_SPACE, fuel, rest, 0);
  }

  // The capabilities after the first lie above its header.
  lemma AfterFirst(lens: seq<nat>, es: seq<nat>)
    requires es != [] && es[0] == STD_SPACE && Placed(lens, es, STD_SPACE, EXT_SPACE, 4)
    ensures forall p :: p in es[1..] ==> p >= STD_SPACE + 4
    ensures forall q: nat :: q < STD_SPACE + 4 ==> Uncovered(lens, es[1..], q)
  {
    forall p | p in es[1..] ensures p >= STD_SPACE + 4 {
      PlacedAt(lens, es[1..], STD_SPACE, EXT_SPACE, 4, p);
    }
  }
}
