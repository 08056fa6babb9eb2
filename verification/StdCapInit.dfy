/** vfio_cap_init: walking the standard capability list of the hardware, mapping and copying
    the capabilities that are kept and unlinking the others from the virtual list. */
module StdCapInit {
  import opened Bytes
  import opened PciCaps
  import opened Chains

  datatype MsiFlags = NoMsi | MsiFlags(lo: byte, hi: byte)

  datatype Init = Init(owner: seq<byte>, vconfig: seq<byte>, extended: bool, msi: MsiFlags, caps: nat)

  // What reading the length of the capability at `pos` notes about the device.
  function Noted(dev: Pdev, hw: seq<byte>, s: Init, pos: nat): Init {
    s.(extended := if ProbesExtended(hw, pos) && dev.cfgSize > STD_SPACE
                   then ExtendedPresent(hw) else s.extended,
       msi := if Num(At(hw, pos)) == ID_MSI && s.msi.NoMsi?
              then MsiFlags(At(hw, pos + 2), At(hw, pos + 3)) else s.msi)
  }

  function StdLens(dev: Pdev, hw: seq<byte>): seq<nat> {
    seq(STD_SPACE, (p: nat) => StdLen(dev, hw, p))
  }

  // Every capability the walk copies lies inside the buffers; the driver does not check this.
  ghost predicate WalkInRange(hw: seq<byte>, lens: seq<nat>, pos: nat, fuel: nat)
    decreases fuel
  {
    pos == 0 || fuel == 0 ||
    (pos + 1 < |hw| && pos + LenAt(lens, pos) <= |hw| && WalkInRange(hw, lens, Num(hw[pos + 1]), fuel - 1))
  }

  // The loop of vfio_cap_init from `pos` on, with `fuel` iterations left and the byte that
  // points to `pos` at `prev`.
  function Walk(dev: Pdev, hw: seq<byte>, lens: seq<nat>, s: Init, pos: nat, prev: nat, fuel: nat): Init
    decreases fuel
  {
    if pos == 0 || fuel == 0 then s
    else Walk(dev, hw, lens, Visit(dev, hw, lens, s, pos, prev), Num(At(hw, pos + 1)), Link(lens, pos, prev), fuel - 1)
  }

  // One iteration: a capability without a length is unlinked, any other is mapped to its id and copied.
  function Visit(dev: Pdev, hw: seq<byte>, lens: seq<nat>, s: Init, pos: nat, prev: nat): Init {
    var len := LenAt(lens, pos);
    if len == 0 then Noted(dev, hw, s, pos).(vconfig := Poke(s.vconfig, prev, At(hw, pos + 1)))
    else Noted(dev, hw, s, pos).(owner := Filled(s.owner, pos, len, At(hw, pos)),
                                 vconfig := Copied(s.vconfig, hw, pos, len),
                                 caps := s.caps + 1)
  }

  // Where the pointer to the next capability will have to be patched.
  function Link(lens: seq<nat>, pos: nat, prev: nat): nat {
    if LenAt(lens, pos) == 0 then prev else pos + 1
  }

  lemma WalkStep(dev: Pdev, hw: seq<byte>, lens: seq<nat>, s: Init, pos: nat, prev: nat, fuel: nat)
    requires pos != 0 && fuel != 0
    ensures Walk(dev, hw, lens, s, pos, prev, fuel) ==
      Walk(dev, hw, lens, Visit(dev, hw, lens, s, pos, prev), Num(At(hw, pos + 1)), Link(lens, pos, prev), fuel - 1)
  {
    hide Visit;
  }

  lemma WalkEnd(dev: Pdev, hw: seq<byte>, lens: seq<nat>, s: Init, pos: nat, prev: nat, fuel: nat)
    requires pos == 0 || fuel == 0
    ensures Walk(dev, hw, lens, s, pos, prev, fuel) == s
  {
  }

  lemma InRangeStep(hw: seq<byte>, lens: seq<nat>, pos: nat, fuel: nat)
    requires WalkInRange(hw, lens, pos, fuel) && pos != 0 && fuel != 0
    ensures pos + 1 < |hw| && pos + LenAt(lens, pos) <= |hw| && WalkInRange(hw, lens, Num(At(hw, pos + 1)), fuel - 1)
  {
  }

  // ---------------------------------------------------------------- well-formed hardware

  lemma {:induction false} ChainInRange(hw: seq<byte>, lens: seq<nat>, pos: nat, fuel: nat, ps: seq<nat>)
    requires StdChain(hw, pos, ps) && Placed(lens, ps, HEADER, STD_SPACE, 2) && STD_SPACE <= |hw|
    ensures WalkInRange(hw, lens, pos, fuel)
    decreases ps
  {
    if pos != 0 && fuel != 0 {
      ChainInRange(hw, lens, Num(hw[pos + 1]), fuel - 1, ps[1..]);
    }
  }

  lemma {:induction false} WalkSize(dev: Pdev, hw: seq<byte>, lens: seq<nat>, s: Init, pos: nat, prev: nat, fuel: nat)
    ensures var r := Walk(dev, hw, lens, s, pos, prev, fuel);
      |r.owner| == |s.owner| && |r.vconfig| == |s.vconfig|
    decreases fuel
  {
    if pos != 0 && fuel != 0 {
      var t := Visit(dev, hw, lens, s, pos, prev);
      WalkSize(dev, hw, lens, t, Num(At(hw, pos + 1)), Link(lens, pos, prev), fuel - 1);
    }
  }

  // What one iteration does to one byte.
  lemma VisitAt(dev: Pdev, hw: seq<byte>, lens: seq<nat>, s: Init, pos: nat, prev: nat, q: nat)
    ensures var t := Visit(dev, hw, lens, s, pos, prev);
      && |t.owner| == |s.owner| && |t.vconfig| == |s.vconfig|
      && (q < |s.owner| ==> t.owner[q] == if Covers(lens, pos, q) then At(hw, pos) else s.owner[q])
      && (q < |s.vconfig| ==>
            t.vconfig[q] == if Covers(lens, pos, q) then At(hw, q)
                            else if LenAt(lens, pos) == 0 && q == prev then At(hw, pos + 1) else s.vconfig[q])
      && t.caps == s.caps + (if LenAt(lens, pos) == 0 then 0 else 1)
  {
  }

  // A byte outside the kept capabilities of the rest of the list is left alone.
  lemma {:induction false} WalkFrame(dev: Pdev, hw: seq<byte>, lens: seq<nat>, s: Init, pos: nat, prev: nat, fuel: nat, ps: seq<nat>, q: nat)
    requires StdChain(hw, pos, ps) && Placed(lens, ps, HEADER, STD_SPACE, 2)
    requires Uncovered(lens, ps, q) && q < |s.owner| == |s.vconfig|
    ensures var r := Walk(dev, hw, lens, s, pos, prev, fuel);
      |r.owner| == |r.vconfig| == |s.owner| && r.owner[q] == s.owner[q] && (q != prev ==> r.vconfig[q] == s.vconfig[q])
    decreases ps
  {
    hide Visit;
    if pos != 0 && fuel != 0 {
      var t := Visit(dev, hw, lens, s, pos, prev);
      VisitAt(dev, hw, lens, s, pos, prev, q);
      assert pos in ps && !Covers(lens, pos, q);
      WalkFrame(dev, hw, lens, t, Num(At(hw, pos + 1)), Link(lens, pos, prev), fuel - 1, ps[1..], q);
    }
  }

  // A byte of a kept capability is owned by its id and copied, except for the next pointer.
  lemma {:induction false} WalkTakes(dev: Pdev, hw: seq<byte>, lens: seq<nat>, s: Init, pos: nat, prev: nat, fuel: nat, ps: seq<nat>, p: nat, q: nat)
    requires StdChain(hw, pos, ps) && Placed(lens, ps, HEADER, STD_SPACE, 2) && |ps| <= fuel
    requires p in ps && Covers(lens, p, q) && q < |s.owner| == |s.vconfig|
    ensures var r := Walk(dev, hw, lens, s, pos, prev, fuel);
      |r.owner| == |r.vconfig| == |s.owner| && r.owner[q] == At(hw, p) && (q != p + 1 && q != prev ==> r.vconfig[q] == At(hw, q))
    decreases ps
  {
    hide Visit;
    var t := Visit(dev, hw, lens, s, pos, prev);
    VisitAt(dev, hw, lens, s, pos, prev, q);
    if p == pos {
      assert Uncovered(lens, ps[1..], q);
      WalkFrame(dev, hw, lens, t, Num(At(hw, pos + 1)), Link(lens, pos, prev), fuel - 1, ps[1..], q);
    } else {
      assert Covers(lens, pos, pos + 1) ==> Uncovered(lens, ps[1..], pos + 1);
      WalkTakes(dev, hw, lens, t, Num(At(hw, pos + 1)), Link(lens, pos, prev), fuel - 1, ps[1..], p, q);
    }
  }

  lemma {:induction false} WalkCounts(dev: Pdev, hw: seq<byte>, lens: seq<nat>, s: Init, pos: nat, prev: nat, fuel: nat, ps: seq<nat>)
    requires StdChain(hw, pos, ps) && |ps| <= fuel
    ensures Walk(dev, hw, lens, s, pos, prev, fuel).caps == s.caps + |Kept(lens, ps)|
    decreases ps
  {
    if pos != 0 {
      WalkCounts(dev, hw, lens, Visit(dev, hw, lens, s, pos, prev), Num(At(hw, pos + 1)), Link(lens, pos, prev), fuel - 1, ps[1..]);
    }
  }

  lemma KeptStep(lens: seq<nat>, ps: seq<nat>)
    requires ps != []
    ensures Kept(lens, ps) == if LenAt(lens, ps[0]) == 0 then Kept(lens, ps[1..]) else [ps[0]] + Kept(lens, ps[1..])
  {
  }

  // The virtual list is the hardware list without the hidden capabilities.
  lemma {:induction false} WalkLinks(dev: Pdev, hw: seq<byte>, lens: seq<nat>, s: Init, pos: nat, prev: nat, fuel: nat, ps: seq<nat>)
    requires StdChain(hw, pos, ps) && Placed(lens, ps, HEADER, STD_SPACE, 2) && |ps| <= fuel
    requires STD_SPACE <= |s.owner| == |s.vconfig| && prev < |s.vconfig|
    requires Num(s.vconfig[prev]) == pos && Uncovered(lens, ps, prev)
    ensures var r := Walk(dev, hw, lens, s, pos, prev, fuel);
      && |r.vconfig| == |s.vconfig|
      && StdChain(r.vconfig, Num(r.vconfig[prev]), Kept(lens, ps))
    decreases ps
  {
    hide *;
    if pos == 0 {
      WalkEnd(dev, hw, lens, s, pos, prev, fuel);
      NoChain(hw, s.vconfig, lens, ps);
    } else {
      var t := Visit(dev, hw, lens, s, pos, prev);
      var next, link := Num(At(hw, pos + 1)), Link(lens, pos, prev);
      Unfolded(hw, lens, pos, ps);
      VisitLinks(dev, hw, lens, s, pos, prev, ps);
      WalkLinks(dev, hw, lens, t, next, link, fuel - 1, ps[1..]);
      WalkFrame(dev, hw, lens, t, next, link, fuel - 1, ps[1..], prev);
      WalkStep(dev, hw, lens, s, pos, prev, fuel);
      KeptStep(lens, ps);
      LinkIs(lens, pos, prev);
      if LenAt(lens, pos) != 0 {
        var v := Walk(dev, hw, lens, s, pos, prev, fuel).vconfig;
        AtIs(v, link);
        StdChainCons(v, pos, Kept(lens, ps[1..]));
      }
    }
  }

  lemma AtIs(v: seq<byte>, i: nat)
    requires i < |v|
    ensures At(v, i) == v[i]
  {
  }

  lemma NoChain(hw: seq<byte>, v: seq<byte>, lens: seq<nat>, ps: seq<nat>)
    requires StdChain(hw, 0, ps)
    ensures StdChain(v, 0, Kept(lens, ps))
  {
  }

  lemma Unfolded(hw: seq<byte>, lens: seq<nat>, pos: nat, ps: seq<nat>)
    requires pos != 0 && StdChain(hw, pos, ps) && Placed(lens, ps, HEADER, STD_SPACE, 2)
    ensures ps != [] && ps[0] == pos && StdChain(hw, Num(At(hw, pos + 1)), ps[1..]) && Placed(lens, ps[1..], HEADER, STD_SPACE, 2)
  {
  }

  lemma LinkIs(lens: seq<nat>, pos: nat, prev: nat)
    ensures Link(lens, pos, prev) == if LenAt(lens, pos) == 0 then prev else pos + 1
  {
  }

  // After a visit, the link of the rest holds the pointer to the rest, and no later visit touches it
  // or the link before.
  lemma VisitLinks(dev: Pdev, hw: seq<byte>, lens: seq<nat>, s: Init, pos: nat, prev: nat, ps: seq<nat>)
    requires pos != 0 && StdChain(hw, pos, ps) && Placed(lens, ps, HEADER, STD_SPACE, 2)
    requires STD_SPACE <= |s.owner| == |s.vconfig| && prev < |s.vconfig|
    requires Num(s.vconfig[prev]) == pos && Uncovered(lens, ps, prev)
    ensures var t := Visit(dev, hw, lens, s, pos, prev); var link := Link(lens, pos, prev);
      && |t.owner| == |s.owner| && |t.vconfig| == |s.vconfig| && link < |t.vconfig|
      && Num(t.vconfig[link]) == Num(At(hw, pos + 1)) && Uncovered(lens, ps[1..], link) && Uncovered(lens, ps[1..], prev)
      && (LenAt(lens, pos) != 0 ==> Num(t.vconfig[prev]) == pos && prev != link)
  {
    hide Visit;
    var link := Link(lens, pos, prev);
    VisitAt(dev, hw, lens, s, pos, prev, link);
    VisitAt(dev, hw, lens, s, pos, prev, prev);
    assert pos in ps && !Covers(lens, pos, prev);
    assert Covers(lens, pos, pos + 1) ==> Uncovered(lens, ps[1..], pos + 1);
  }
}
