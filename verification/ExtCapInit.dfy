/** vfio_ecap_init: walking the extended capability list, which starts at a fixed position and
    whose first entry can therefore only be blanked, never unlinked. */
module ExtCapInit {
  import opened Bytes
  import opened PciCaps
  import opened Chains
  import opened StdCapInit

  function ExtLens(hw: seq<byte>): seq<nat> {
    seq(EXT_SPACE, (p: nat) => ExtLen(hw, p))
  }

  // The loop of vfio_ecap_init from `pos` on; `prev` is zero while nothing has been copied.
  function ExtWalk(hw: seq<byte>, lens: seq<nat>, s: Init, pos: nat, prev: nat, fuel: nat): Init
    decreases fuel
  {
    if pos < STD_SPACE || fuel == 0 then s
    else ExtWalk(hw, lens, ExtVisit(hw, lens, s, pos, prev), ExtNext(hw, pos), ExtLink(lens, pos, prev), fuel - 1)
  }

  function ExtVisit(hw: seq<byte>, lens: seq<nat>, s: Init, pos: nat, prev: nat): Init {
    var len := LenAt(lens, pos);
    if len == 0 && prev != 0 then
      s.(vconfig := Relinked(s.vconfig, prev, At(hw, pos + 2), At(hw, pos + 3)))
    else if len == 0 then // an anchor for the list, with its id and version hidden
      s.(owner := Filled(s.owner, pos, CAP_SIZEOF, At(hw, pos)),
         vconfig := Anchor(Copied(s.vconfig, hw, pos, CAP_SIZEOF), pos, At(hw, pos + 2)))
    else
      s.(owner := Filled(s.owner, pos, len, At(hw, pos)),
         vconfig := Copied(s.vconfig, hw, pos, len),
         caps := s.caps + 1)
  }

  function Anchor(v: seq<byte>, pos: nat, b2: byte): seq<byte> {
    Poke(Poke(Poke(v, pos, 0), pos + 1, 0), pos + 2, b2 & 0xC0)
  }

  // The next field of the header at `prev`, bits 22 to 31, taken from another header.
  function Relinked(v: seq<byte>, prev: nat, b2: byte, b3: byte): seq<byte> {
    Poke(Poke(v, prev + 2, Merge(At(v, prev + 2), b2, 0xC0)), prev + 3, b3)
  }

  function ExtLink(lens: seq<nat>, pos: nat, prev: nat): nat {
    if LenAt(lens, pos) == 0 && prev != 0 then prev else pos
  }

  lemma ExtWalkStep(hw: seq<byte>, lens: seq<nat>, s: Init, pos: nat, prev: nat, fuel: nat)
    requires pos >= STD_SPACE && fuel != 0
    ensures ExtWalk(hw, lens, s, pos, prev, fuel) ==
      ExtWalk(hw, lens, ExtVisit(hw, lens, s, pos, prev), ExtNext(hw, pos), ExtLink(lens, pos, prev), fuel - 1)
  {
    hide ExtVisit, ExtNext;
  }

  lemma ExtWalkEnd(hw: seq<byte>, lens: seq<nat>, s: Init, pos: nat, prev: nat, fuel: nat)
    requires pos < STD_SPACE || fuel == 0
    ensures ExtWalk(hw, lens, s, pos, prev, fuel) == s
  {
  }

  // Every capability the walk copies lies inside the buffers; the driver does not check this either.
  ghost predicate ExtInRange(hw: seq<byte>, lens: seq<nat>, pos: nat, fuel: nat)
    decreases fuel
  {
    pos < STD_SPACE || fuel == 0 ||
    (pos + CAP_SIZEOF <= |hw| && pos + LenAt(lens, pos) <= |hw| && ExtInRange(hw, lens, ExtNext(hw, pos), fuel - 1))
  }

  lemma ExtInRangeStep(hw: seq<byte>, lens: seq<nat>, pos: nat, fuel: nat)
    requires ExtInRange(hw, lens, pos, fuel) && pos >= STD_SPACE && fuel != 0
    ensures pos + CAP_SIZEOF <= |hw| && pos + LenAt(lens, pos) <= |hw| && ExtInRange(hw, lens, ExtNext(hw, pos), fuel - 1)
  {
    hide ExtNext;
  }

  lemma {:induction false} ExtChainInRange(hw: seq<byte>, lens: seq<nat>, pos: nat, fuel: nat, ps: seq<nat>)
    requires ExtChain(hw, pos, ps) && Placed(lens, ps, STD_SPACE, EXT_SPACE, 4) && |hw| == EXT_SPACE
    ensures ExtInRange(hw, lens, pos, fuel)
    decreases ps
  {
    hide ExtNext;
    if pos >= STD_SPACE && fuel != 0 {
      ExtChainInRange(hw, lens, ExtNext(hw, pos), fuel - 1, ps[1..]);
    }
  }

  lemma RelinkedNext(b: byte, b2: byte, b3: byte)
    ensures NextField(Merge(b, b2, 0xC0), b3) == NextField(b2, b3)
  {
    assert ((b & !0xC0) | (b2 & 0xC0)) & 0xC0 == b2 & 0xC0;
  }

  lemma AnchorNext(b2: byte, b3: byte)
    ensures NextField(b2 & 0xC0, b3) == NextField(b2, b3)
  {
    assert (b2 & 0xC0) & 0xC0 == b2 & 0xC0;
  }

  // What one iteration does to one byte, once something has been copied.
  lemma ExtVisitAt(hw: seq<byte>, lens: seq<nat>, s: Init, pos: nat, prev: nat, q: nat)
    requires prev != 0
    ensures var t := ExtVisit(hw, lens, s, pos, prev);
      && |t.owner| == |s.owner| && |t.vconfig| == |s.vconfig|
      && (q < |s.owner| ==> t.owner[q] == if Covers(lens, pos, q) then At(hw, pos) else s.owner[q])
      && (q < |s.vconfig| && Covers(lens, pos, q) ==> t.vconfig[q] == At(hw, q))
      && (q < |s.vconfig| && !Covers(lens, pos, q) && q != prev + 2 && q != prev + 3 ==> t.vconfig[q] == s.vconfig[q])
      && t.caps == s.caps + (if LenAt(lens, pos) == 0 then 0 else 1)
  {
  }

  lemma {:induction false} ExtWalkFrame(hw: seq<byte>, lens: seq<nat>, s: Init, pos: nat, prev: nat, fuel: nat, ps: seq<nat>, q: nat)
    requires ExtChain(hw, pos, ps) && Placed(lens, ps, STD_SPACE, EXT_SPACE, 4) && prev != 0
    requires Uncovered(lens, ps, q) && q < |s.owner| == |s.vconfig|
    ensures var r := ExtWalk(hw, lens, s, pos, prev, fuel);
      |r.owner| == |r.vconfig| == |s.owner| && r.owner[q] == s.owner[q] &&
      (q != prev + 2 && q != prev + 3 ==> r.vconfig[q] == s.vconfig[q])
    decreases ps
  {
    hide ExtVisit;
    if pos >= STD_SPACE && fuel != 0 {
      var t := ExtVisit(hw, lens, s, pos, prev);
      ExtVisitAt(hw, lens, s, pos, prev, q);
      assert pos in ps && !Covers(lens, pos, q);
      ExtWalkFrame(hw, lens, t, ExtNext(hw, pos), ExtLink(lens, pos, prev), fuel - 1, ps[1..], q);
    }
  }

  // Bytes of kept capabilities are owned by the low byte of their id and copied, except for the
  // two bytes that hold the next field.
  lemma {:induction false} ExtWalkTakes(hw: seq<byte>, lens: seq<nat>, s: Init, pos: nat, prev: nat, fuel: nat, ps: seq<nat>, p: nat, q: nat)
    requires ExtChain(hw, pos, ps) && Placed(lens, ps, STD_SPACE, EXT_SPACE, 4) && |ps| <= fuel && prev != 0
    requires p in ps && Covers(lens, p, q) && q < |s.owner| == |s.vconfig|
    requires q != prev + 2 && q != prev + 3
    ensures var r := ExtWalk(hw, lens, s, pos, prev, fuel);
      |r.owner| == |r.vconfig| == |s.owner| && r.owner[q] == At(hw, p) &&
      (q != p + 2 && q != p + 3 ==> r.vconfig[q] == At(hw, q))
    decreases ps
  {
    hide ExtVisit;
    var t := ExtVisit(hw, lens, s, pos, prev);
    ExtVisitAt(hw, lens, s, pos, prev, q);
    if p == pos {
      assert Uncovered(lens, ps[1..], q);
      ExtWalkFrame(hw, lens, t, ExtNext(hw, pos), ExtLink(lens, pos, prev), fuel - 1, ps[1..], q);
    } else {
      assert Covers(lens, pos, pos + 2) ==> Uncovered(lens, ps[1..], pos + 2);
      assert Covers(lens, pos, pos + 3) ==> Uncovered(lens, ps[1..], pos + 3);
      ExtWalkTakes(hw, lens, t, ExtNext(hw, pos), ExtLink(lens, pos, prev), fuel - 1, ps[1..], p, q);
    }
  }

  // The header at `prev` ends up pointing to the kept capabilities of the rest of the list.
  lemma {:induction false} ExtWalkLinks(hw: seq<byte>, lens: seq<nat>, s: Init, pos: nat, prev: nat, fuel: nat, ps: seq<nat>)
    requires ExtChain(hw, pos, ps) && Placed(lens, ps, STD_SPACE, EXT_SPACE, 4) && |ps| <= fuel
    requires EXT_SPACE <= |s.owner| == |s.vconfig| && STD_SPACE <= prev && prev + 3 < |s.vconfig|
    requires ExtNext(s.vconfig, prev) == pos
    requires Uncovered(lens, ps, prev + 2) && Uncovered(lens, ps, prev + 3)
    ensures var r := ExtWalk(hw, lens, s, pos, prev, fuel);
      |r.vconfig| == |s.vconfig| && ExtChain(r.vconfig, ExtNext(r.vconfig, prev), Kept(lens, ps))
    decreases ps
  {
    hide NextField, Covers, ExtVisit;
    if pos >= STD_SPACE {
      var t := ExtVisit(hw, lens, s, pos, prev);
      var link := ExtLink(lens, pos, prev);
      assert pos in ps;
      ExtVisitLinks(hw, lens, s, pos, prev);
      assert LenAt(lens, pos) != 0 ==> Covers(lens, pos, pos + 2) && Covers(lens, pos, pos + 3) by { HeaderCovered(lens, pos); }
      assert Apart(lens, pos, ps[1..]);
      ExtWalkLinks(hw, lens, t, ExtNext(hw, pos), link, fuel - 1, ps[1..]);
      var r := ExtWalk(hw, lens, t, ExtNext(hw, pos), link, fuel - 1);
      assert r == ExtWalk(hw, lens, s, pos, prev, fuel);
      if LenAt(lens, pos) != 0 {
        ExtWalkFrame(hw, lens, t, ExtNext(hw, pos), link, fuel - 1, ps[1..], prev + 2);
        ExtWalkFrame(hw, lens, t, ExtNext(hw, pos), link, fuel - 1, ps[1..], prev + 3);
        assert ExtNext(r.vconfig, prev) == pos;
        ExtChainCons(r.vconfig, pos, Kept(lens, ps[1..]));
        assert ExtChain(r.vconfig, ExtNext(r.vconfig, prev), Kept(lens, ps));
      } else {
        assert Kept(lens, ps) == Kept(lens, ps[1..]);
      }
    }
  }

  lemma HeaderCovered(lens: seq<nat>, p: nat)
    ensures LenAt(lens, p) >= 4 ==> Covers(lens, p, p + 2) && Covers(lens, p, p + 3)
  {
  }

  lemma ExtVisitLinks(hw: seq<byte>, lens: seq<nat>, s: Init, pos: nat, prev: nat)
    requires prev != 0 && prev + 3 < |s.vconfig| && pos + 3 < |s.vconfig| == |s.owner|
    requires LenAt(lens, pos) == 0 || LenAt(lens, pos) >= 4
    requires !Covers(lens, pos, prev + 2) && !Covers(lens, pos, prev + 3)
    ensures var t := ExtVisit(hw, lens, s, pos, prev);
      && |t.vconfig| == |s.vconfig| == |t.owner|
      && ExtNext(t.vconfig, ExtLink(lens, pos, prev)) == ExtNext(hw, pos)
      && (LenAt(lens, pos) != 0 ==> t.vconfig[prev + 2] == s.vconfig[prev + 2] && t.vconfig[prev + 3] == s.vconfig[prev + 3])
  {
    RelinkedNext(At(s.vconfig, prev + 2), At(hw, pos + 2), At(hw, pos + 3));
  }

  lemma {:induction false} ExtWalkCounts(hw: seq<byte>, lens: seq<nat>, s: Init, pos: nat, prev: nat, fuel: nat, ps: seq<nat>)
    requires ExtChain(hw, pos, ps) && |ps| <= fuel
    ensures ExtWalk(hw, lens, s, pos, prev, fuel).caps == s.caps + |Kept(lens, ps)|
    decreases ps
  {
    if pos >= STD_SPACE {
      ExtWalkCounts(hw, lens, ExtVisit(hw, lens, s, pos, prev), ExtNext(hw, pos), ExtLink(lens, pos, prev), fuel - 1, ps[1..]);
    }
  }
}
