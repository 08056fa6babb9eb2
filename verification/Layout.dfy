/** Which capability owns which byte: the per-byte map that routes every guest access, and the
    proof that initialisation builds it for well-formed hardware lists. */
module Layout {
  import opened Bytes
  import opened PciCaps
  import opened Chains
  import opened StdCapInit
  import opened ExtCapInit
  import opened ConfigInit

  datatype Cap = Cap(start: nat, len: nat, id: byte)
  {
    predicate Has(q: nat) { start <= q < start + len }
  }

  // Where the capability space that contains `q` begins and ends.
  function Base(q: nat): nat { if q >= STD_SPACE then STD_SPACE else HEADER }

  predicate CapFits(c: Cap, size: nat) {
    && HEADER <= c.start && c.start % 4 == 0 && 1 <= Num(c.id)
    && (if c.start < STD_SPACE
        then Num(c.id) <= ID_MAX && 2 <= c.len && c.start + c.len <= STD_SPACE
        else Num(c.id) <= EXT_ID_MAX && 4 <= c.len && c.start + c.len <= size)
  }

  // Lengths of the capabilities with a permission table; the MSI table is sized from `msi`.
  predicate Sized(c: Cap, msi: MsiFlags) {
    var id := Num(c.id);
    if c.start < STD_SPACE then
      && (id == ID_PM || id == ID_VPD ==> c.len == 8)
      && (id == ID_MSI ==> msi.MsiFlags? && c.len == MsiLen(msi.lo, msi.hi))
      && (id == ID_PCIX ==> c.len <= 24)
      && (id == ID_EXP ==> 12 <= c.len <= 44)
      && (id == ID_AF ==> c.len == 6)
    else (id == EXT_ID_ERR ==> c.len == 0x2C) && (id == EXT_ID_PWR ==> c.len == 16)
  }

  // The capabilities fit their space and their tables and share no byte.
  ghost predicate Shaped(caps: set<Cap>, size: nat, msi: MsiFlags) {
    && (size == STD_SPACE || size == EXT_SPACE)
    && (forall c :: c in caps ==> CapFits(c, size) && Sized(c, msi))
    && (forall c, d, q: nat :: c in caps && d in caps && c.Has(q) && d.Has(q) ==> c == d)
  }

  // `owner` maps the header to 0, every capability to its id and nothing else, and the byte
  // before a capability never carries its id.
  ghost predicate Mapped(owner: seq<byte>, caps: set<Cap>) {
    && (forall q :: 0 <= q < HEADER ==> At(owner, q) == 0)
    && (forall c, q: nat :: c in caps && c.Has(q) ==> At(owner, q) == c.id)
    && (forall q: nat :: HEADER <= q && At(owner, q) != INVALID ==> exists c :: c in caps && c.Has(q))
    && (forall c :: c in caps && c.start != Base(c.start) && c.start > 0 ==> At(owner, c.start - 1) != c.id)
  }

  ghost predicate Laid(owner: seq<byte>, caps: set<Cap>, msi: MsiFlags) {
    Shaped(caps, |owner|, msi) && Mapped(owner, caps)
  }

  // ---------------------------------------------------------------- from well-formed lists

  ghost function CapsOf(hw: seq<byte>, lens: seq<nat>, ps: seq<nat>): set<Cap> {
    set p | p in ps && LenAt(lens, p) != 0 :: Cap(p, LenAt(lens, p), At(hw, p))
  }

  // The lengths with the blanked first extended capability counted as its four-byte anchor.
  function Anchored(lens: seq<nat>): seq<nat> {
    if |lens| > STD_SPACE && lens[STD_SPACE] == 0 then lens[STD_SPACE := CAP_SIZEOF] else lens
  }

  ghost function AllCaps(hw: seq<byte>, lens: seq<nat>, elens: seq<nat>, ps: seq<nat>, es: seq<nat>): set<Cap> {
    CapsOf(hw, lens, ps) + CapsOf(hw, Anchored(elens), es)
  }

  // No capability starts where another of the same id ends.
  ghost predicate NoTwins(caps: set<Cap>) {
    forall c, d :: c in caps && d in caps && c.start + c.len == d.start ==> c.id != d.id
  }

  // Whether the standard walk finds extended configuration space.
  ghost predicate FindsExtended(dev: Pdev, hw: seq<byte>, ps: seq<nat>) {
    HasExtended(dev, hw) && exists p :: p in ps && ProbesExtended(hw, p)
  }

  predicate HasExtended(dev: Pdev, hw: seq<byte>) { dev.cfgSize > STD_SPACE && ExtendedPresent(hw) }

  ghost predicate Formed(dev: Pdev, hw: seq<byte>, lens: seq<nat>, elens: seq<nat>, ps: seq<nat>, es: seq<nat>) {
    && StdFormed(dev, hw, lens, ps)
    && (if FindsExtended(dev, hw, ps) then ExtFormed(dev, hw, elens, es) else es == [])
    && NoTwins(AllCaps(hw, lens, elens, ps, es))
    && (forall p, p' :: p in ps && p' in ps && Num(At(hw, p)) == Num(At(hw, p')) == ID_MSI ==> p == p')
  }

  // vfio_config_init, for given capability lengths.
  function Build(dev: Pdev, hw: seq<byte>, lens: seq<nat>, elens: seq<nat>, rawOwner: seq<byte>, rawVconfig: seq<byte>): Init
    requires dev.Valid()
  {
    ExtInit(dev, hw, elens, StdInit(dev, hw, lens, HeaderInit(dev, hw, rawOwner, rawVconfig)))
  }

  lemma AnchoredLen(lens: seq<nat>, p: nat)
    ensures p != STD_SPACE ==> LenAt(Anchored(lens), p) == LenAt(lens, p)
    ensures |lens| > STD_SPACE ==>
      LenAt(Anchored(lens), STD_SPACE) == (if lens[STD_SPACE] == 0 then CAP_SIZEOF else lens[STD_SPACE])
  {
  }

  // What the first iteration of the extended walk does to one byte.
  lemma FirstOwned(hw: seq<byte>, lens: seq<nat>, s: Init, q: nat)
    requires |s.owner| == |s.vconfig| == |hw| == |lens| == EXT_SPACE && q < |hw|
    ensures var t := ExtVisit(hw, lens, s, STD_SPACE, 0); var first := Covers(Anchored(lens), STD_SPACE, q);
      && |t.owner| == |t.vconfig| == EXT_SPACE
      && t.owner[q] == (if first then hw[STD_SPACE] else s.owner[q])
      && (!first ==> t.vconfig[q] == s.vconfig[q])
  {
    AnchoredLen(lens, STD_SPACE);
  }

  // Ownership and contents after the extended walk.
  lemma ExtOwned(dev: Pdev, hw: seq<byte>, lens: seq<nat>, s: Init, es: seq<nat>, q: nat)
    requires ExtFormed(dev, hw, lens, es) && |s.owner| == |s.vconfig| == |hw| && s.extended && q < |hw|
    ensures var r := ExtInit(dev, hw, lens, s); var alens := Anchored(lens);
      && |r.owner| == |r.vconfig| == |hw|
      && (Uncovered(alens, es, q) ==> r.owner[q] == s.owner[q] && r.vconfig[q] == s.vconfig[q])
      && forall p :: p in es && Covers(alens, p, q) ==> r.owner[q] == At(hw, p)
  {
    RestOfOwned(dev, hw, lens, s, es, q);
    hide ExtFormed, Anchored, ExtInit, ExtId, RestOfWalk, Covers, Uncovered, Kept;
    LastBlank(dev, hw, lens, s, es);
  }

  // The end of initialisation blanks the first header if nothing was kept, and changes nothing else.
  lemma LastBlank(dev: Pdev, hw: seq<byte>, lens: seq<nat>, s: Init, es: seq<nat>)
    requires ExtFormed(dev, hw, lens, es) && |s.owner| == |s.vconfig| == |hw| && s.extended
    ensures var r := ExtInit(dev, hw, lens, s); var w := RestOfWalk(dev, hw, lens, s);
      && r.owner == w.owner && |r.vconfig| == |w.vconfig|
      && forall q :: 0 <= q < |r.vconfig| && !(STD_SPACE <= q < STD_SPACE + CAP_SIZEOF && Kept(lens, es) == []) ==> r.vconfig[q] == w.vconfig[q]
  {
    ExtUnfold(dev, hw, lens, s, es);
    hide ExtInit, RestOfWalk, ExtFormed, AfterFirstVisit;
  }

  // The bytes of the lists after the walk; a first header that is blanked belongs to no kept capability.
  lemma RestOfOwned(dev: Pdev, hw: seq<byte>, lens: seq<nat>, s: Init, es: seq<nat>, q: nat)
    requires ExtFormed(dev, hw, lens, es) && |s.owner| == |s.vconfig| == |hw| && s.extended && q < |hw|
    ensures var w := RestOfWalk(dev, hw, lens, s); var alens := Anchored(lens);
      && |w.owner| == |w.vconfig| == |hw|
      && (Uncovered(alens, es, q) ==> w.owner[q] == s.owner[q] && w.vconfig[q] == s.vconfig[q])
      && (Uncovered(alens, es, q) && Kept(lens, es) == [] ==> !(STD_SPACE <= q < STD_SPACE + CAP_SIZEOF))
      && forall p :: p in es && Covers(alens, p, q) ==> w.owner[q] == At(hw, p)
  {
    hide NextField, ExtVisit, Anchored, ExtInit, ExtId, ExtWalk;
    FirstOwned(hw, lens, s.(caps := 0), q);
    ExtUnfold(dev, hw, lens, s, es);
    RestOwned(hw, lens, AfterFirstVisit(hw, lens, s), ExtNext(hw, STD_SPACE), ExtLoops(dev) - 1, es, q);
    SplitCover(lens, es, q);
    AnchoredLen(lens, STD_SPACE);
    assert Kept(lens, es) == [] ==> LenAt(lens, es[0]) == 0;
  }

  // Whether a byte is covered, first entry and rest apart.
  lemma SplitCover(lens: seq<nat>, es: seq<nat>, q: nat)
    requires es != [] && es[0] == STD_SPACE && Placed(lens, es, STD_SPACE, EXT_SPACE, 4) && |lens| == EXT_SPACE
    ensures var alens := Anchored(lens);
      && (Uncovered(alens, es, q) ==> Uncovered(lens, es[1..], q) && !Covers(alens, STD_SPACE, q) && !(STD_SPACE <= q < STD_SPACE + 4))
      && (forall p :: p in es && Covers(alens, p, q) ==> p == STD_SPACE || (p in es[1..] && Covers(lens, p, q)))
  {
    AfterFirst(lens, es);
    AnchoredLen(lens, STD_SPACE);
    assert STD_SPACE in es;
    forall p | p in es[1..] ensures p in es && LenAt(Anchored(lens), p) == LenAt(lens, p) {
      AnchoredLen(lens, p);
    }
  }

  // The rest of the extended walk, byte by byte, after `t` has taken in the first entry.
  lemma RestOwned(hw: seq<byte>, lens: seq<nat>, t: Init, next: nat, fuel: nat, es: seq<nat>, q: nat)
    requires es != [] && es[0] == STD_SPACE && Placed(lens, es, STD_SPACE, EXT_SPACE, 4) && |lens| == EXT_SPACE
    requires ExtChain(hw, next, es[1..]) && |es| - 1 <= fuel && q < |t.owner| == |t.vconfig|
    ensures var w := ExtWalk(hw, lens, t, next, STD_SPACE, fuel);
      && |w.owner| == |w.vconfig| == |t.owner|
      && (Covers(Anchored(lens), STD_SPACE, q) ==> w.owner[q] == t.owner[q])
      && (Uncovered(lens, es[1..], q) && !Covers(Anchored(lens), STD_SPACE, q) ==>
            w.owner[q] == t.owner[q] && w.vconfig[q] == t.vconfig[q])
      && forall p :: p in es[1..] && Covers(lens, p, q) ==> w.owner[q] == At(hw, p)
  {
    hide ExtVisit, NextField, ExtWalk;
    var rest := es[1..];
    AfterFirst(lens, es);
    ExtWalkFrame(hw, lens, t, next, STD_SPACE, fuel, rest, 0);
    if p :| p in rest && Covers(lens, p, q) {
      FirstApart(lens, es, p, q);
      forall p' | p' in rest && Covers(lens, p', q) ensures p' == p {
        PlacedApart(lens, es, STD_SPACE, EXT_SPACE, 4, p, p', q);
      }
      ExtWalkTakes(hw, lens, t, next, STD_SPACE, fuel, rest, p, q);
    } else {
      ExtWalkFrame(hw, lens, t, next, STD_SPACE, fuel, rest, q);
    }
  }

  // The first capability or its anchor shares no byte with a later one.
  lemma FirstApart(lens: seq<nat>, es: seq<nat>, p: nat, q: nat)
    requires es != [] && es[0] == STD_SPACE && Placed(lens, es, STD_SPACE, EXT_SPACE, 4) && |lens| == EXT_SPACE
    requires p in es[1..] && Covers(lens, p, q)
    ensures !Covers(Anchored(lens), STD_SPACE, q)
  {
    AfterFirst(lens, es);
    assert Covers(lens, STD_SPACE, q) ==> Uncovered(lens, es[1..], q);
    assert p >= STD_SPACE + 4;
  }

  lemma {:induction false} WalkExtended(dev: Pdev, hw: seq<byte>, lens: seq<nat>, s: Init, pos: nat, prev: nat, fuel: nat, ps: seq<nat>)
    requires StdChain(hw, pos, ps) && |ps| <= fuel
    requires s.extended ==> HasExtended(dev, hw)
    ensures Walk(dev, hw, lens, s, pos, prev, fuel).extended == (s.extended || FindsExtended(dev, hw, ps))
    decreases ps
  {
    hide Poke, Filled, Copied, ExtendedPresent, ProbesExtended;
    if pos != 0 {
      var t := Visit(dev, hw, lens, s, pos, prev);
      assert t.extended == (s.extended || (ProbesExtended(hw, pos) && HasExtended(dev, hw)));
      WalkExtended(dev, hw, lens, t, Num(At(hw, pos + 1)), Link(lens, pos, prev), fuel - 1, ps[1..]);
      assert forall p :: p in ps <==> p == pos || p in ps[1..];
    }
  }

  // The owner of one byte after initialisation, by the capability that covers it.
  lemma BuildOwns(dev: Pdev, hw: seq<byte>, lens: seq<nat>, elens: seq<nat>, rawOwner: seq<byte>, rawVconfig: seq<byte>,
                  ps: seq<nat>, es: seq<nat>, q: nat)
    requires Formed(dev, hw, lens, elens, ps, es)
    requires |rawOwner| == |rawVconfig| == |hw| && q < |hw|
    ensures var r := Build(dev, hw, lens, elens, rawOwner, rawVconfig); var alens := Anchored(elens);
      && |r.owner| == |r.vconfig| == |hw|
      && (forall p :: p in ps && Covers(lens, p, q) ==> r.owner[q] == At(hw, p) && HEADER <= q < STD_SPACE)
      && (forall p :: p in es && Covers(alens, p, q) ==> r.owner[q] == At(hw, p) && q >= STD_SPACE)
      && (Uncovered(lens, ps, q) && Uncovered(alens, es, q) ==> r.owner[q] == if q < HEADER then 0 else INVALID)
  {
    hide StdInit, HeaderInit, ExtInit, Anchored, NoTwins, AllCaps;
    var h := HeaderInit(dev, hw, rawOwner, rawVconfig);
    HeaderFacts(dev, hw, rawOwner, rawVconfig);
    assert !h.extended by { HeaderNotExtended(dev, hw, rawOwner, rawVconfig); }
    var s := StdInit(dev, hw, lens, h);
    StdOwned(dev, hw, lens, h, ps, q);
    StdExtended(dev, hw, lens, h, ps);
    StdReach(lens, ps, q);
    if s.extended {
      ExtOwned(dev, hw, elens, s, es, q);
      ExtReach(elens, es, q);
      assert q < STD_SPACE ==> Uncovered(Anchored(elens), es, q);
      assert q >= STD_SPACE ==> Uncovered(lens, ps, q);
    } else {
      assert ExtInit(dev, hw, elens, s) == s by { NotExtended(dev, hw, elens, s); }
    }
  }

  lemma HeaderNotExtended(dev: Pdev, hw: seq<byte>, rawOwner: seq<byte>, rawVconfig: seq<byte>)
    requires dev.Valid()
    ensures !HeaderInit(dev, hw, rawOwner, rawVconfig).extended && HeaderInit(dev, hw, rawOwner, rawVconfig).caps == 0
  {
  }

  lemma NotExtended(dev: Pdev, hw: seq<byte>, lens: seq<nat>, s: Init)
    requires dev.Valid() && !s.extended
    ensures ExtInit(dev, hw, lens, s) == s
  {
  }

  lemma StdExtended(dev: Pdev, hw: seq<byte>, lens: seq<nat>, h: Init, ps: seq<nat>)
    requires StdFormed(dev, hw, lens, ps) && !h.extended
    ensures StdInit(dev, hw, lens, h).extended == FindsExtended(dev, hw, ps)
  {
    Pigeonhole(lens, ps, HEADER, STD_SPACE, 2);
    if At(hw, STATUS) & STATUS_CAP_LIST != 0 {
      WalkExtended(dev, hw, lens, h, Num(At(hw, CAPABILITY_LIST)), CAPABILITY_LIST, STD_LOOPS, ps);
    }
  }

  lemma StdReach(lens: seq<nat>, ps: seq<nat>, q: nat)
    requires Placed(lens, ps, HEADER, STD_SPACE, 2)
    ensures forall p :: p in ps && Covers(lens, p, q) ==> HEADER <= q < STD_SPACE
  {
    forall p | p in ps ensures Covers(lens, p, q) ==> HEADER <= q < STD_SPACE {
      PlacedAt(lens, ps, HEADER, STD_SPACE, 2, p);
    }
  }

  lemma ExtReach(lens: seq<nat>, es: seq<nat>, q: nat)
    requires Placed(lens, es, STD_SPACE, EXT_SPACE, 4)
    ensures forall p :: p in es && Covers(Anchored(lens), p, q) ==> q >= STD_SPACE
  {
    forall p | p in es ensures Covers(Anchored(lens), p, q) ==> q >= STD_SPACE {
      PlacedAt(lens, es, STD_SPACE, EXT_SPACE, 4, p);
    }
  }

  lemma CapsOfHas(hw: seq<byte>, lens: seq<nat>, ps: seq<nat>, q: nat)
    ensures forall c :: c in CapsOf(hw, lens, ps) && c.Has(q) ==> c.start in ps && Covers(lens, c.start, q) && c.id == At(hw, c.start)
    ensures forall p :: p in ps && Covers(lens, p, q) ==>
      Cap(p, LenAt(lens, p), At(hw, p)) in CapsOf(hw, lens, ps) && Cap(p, LenAt(lens, p), At(hw, p)).Has(q)
  {
  }

  lemma BuildOwner(dev: Pdev, hw: seq<byte>, lens: seq<nat>, elens: seq<nat>, rawOwner: seq<byte>, rawVconfig: seq<byte>,
                   ps: seq<nat>, es: seq<nat>, q: nat)
    requires Formed(dev, hw, lens, elens, ps, es)
    requires |rawOwner| == |rawVconfig| == |hw| && q < |hw|
    ensures var r := Build(dev, hw, lens, elens, rawOwner, rawVconfig); var caps := AllCaps(hw, lens, elens, ps, es);
      && |r.owner| == |r.vconfig| == |hw|
      && (forall c :: c in caps && c.Has(q) ==> r.owner[q] == c.id && q >= HEADER)
      && ((forall c :: c in caps ==> !c.Has(q)) ==> r.owner[q] == if q < HEADER then 0 else INVALID)
  {
    hide StdInit, HeaderInit, ExtInit, Anchored, Build, Formed, CapsOf;
    BuildOwns(dev, hw, lens, elens, rawOwner, rawVconfig, ps, es, q);
    CapsOfHas(hw, lens, ps, q);
    CapsOfHas(hw, Anchored(elens), es, q);
    if forall c :: c in AllCaps(hw, lens, elens, ps, es) ==> !c.Has(q) {
      forall p | p in ps ensures !Covers(lens, p, q) {
        assert Cap(p, LenAt(lens, p), At(hw, p)) in CapsOf(hw, lens, ps) || !Covers(lens, p, q);
      }
      forall p | p in es ensures !Covers(Anchored(elens), p, q) {
        assert Cap(p, LenAt(Anchored(elens), p), At(hw, p)) in CapsOf(hw, Anchored(elens), es) || !Covers(Anchored(elens), p, q);
      }
    }
  }

  // Only ids the permission tables have a row for get a length, and it fits their table.
  ghost predicate Known(hw: seq<byte>, lens: seq<nat>, elens: seq<nat>) {
    && (forall p :: 0 <= p < |lens| && lens[p] != 0 && p < STD_SPACE ==>
          Num(At(hw, p)) <= ID_MAX && Sized(Cap(p, lens[p], At(hw, p)), MsiFlags(At(hw, p + 2), At(hw, p + 3))))
    && (forall p :: STD_SPACE <= p < |elens| ==>
          && (elens[p] != 0 ==> 1 <= ExtId(hw, p) <= EXT_ID_MAX && Sized(Cap(p, elens[p], At(hw, p)), NoMsi))
          && (elens[p] == 0 && ExtId(hw, p) <= EXT_ID_MAX ==> Sized(Cap(p, CAP_SIZEOF, At(hw, p)), NoMsi)))
  }

  lemma TablesKnown(dev: Pdev, hw: seq<byte>)
    ensures Known(hw, StdLens(dev, hw), ExtLens(hw))
  {
    forall p: nat | p < STD_SPACE && StdLens(dev, hw)[p] != 0
      ensures Num(At(hw, p)) <= ID_MAX && Sized(Cap(p, StdLens(dev, hw)[p], At(hw, p)), MsiFlags(At(hw, p + 2), At(hw, p + 3)))
    {
      assert StdLens(dev, hw)[p] == StdLen(dev, hw, p);
    }
    forall p: nat | STD_SPACE <= p < EXT_SPACE
      ensures var len := ExtLens(hw)[p];
        && (len != 0 ==> 1 <= ExtId(hw, p) <= EXT_ID_MAX && Sized(Cap(p, len, At(hw, p)), NoMsi))
        && (len == 0 && ExtId(hw, p) <= EXT_ID_MAX ==> Sized(Cap(p, CAP_SIZEOF, At(hw, p)), NoMsi))
    {
      assert ExtLens(hw)[p] == ExtLen(hw, p);
      assert ExtTable(0) == 0;
    }
  }

  lemma {:induction false} WalkMsiKeeps(dev: Pdev, hw: seq<byte>, lens: seq<nat>, s: Init, pos: nat, prev: nat, fuel: nat)
    requires !s.msi.NoMsi?
    ensures Walk(dev, hw, lens, s, pos, prev, fuel).msi == s.msi
    decreases fuel
  {
    hide Poke, Filled, Copied, ExtendedPresent, ProbesExtended;
    if pos != 0 && fuel != 0 {
      WalkMsiKeeps(dev, hw, lens, Visit(dev, hw, lens, s, pos, prev), Num(At(hw, pos + 1)), Link(lens, pos, prev), fuel - 1);
    }
  }

  lemma VisitMsi(dev: Pdev, hw: seq<byte>, lens: seq<nat>, s: Init, pos: nat, prev: nat)
    ensures Visit(dev, hw, lens, s, pos, prev).msi ==
      if Num(At(hw, pos)) == ID_MSI && s.msi.NoMsi? then MsiFlags(At(hw, pos + 2), At(hw, pos + 3)) else s.msi
  {
  }

  // The permission table for MSI is sized by the only MSI capability.
  lemma {:induction false} WalkMsi(dev: Pdev, hw: seq<byte>, lens: seq<nat>, s: Init, pos: nat, prev: nat, fuel: nat, ps: seq<nat>, p: nat)
    requires StdChain(hw, pos, ps) && |ps| <= fuel && p in ps && Num(At(hw, p)) == ID_MSI && s.msi.NoMsi?
    requires forall p' :: p' in ps && Num(At(hw, p')) == ID_MSI ==> p' == p
    ensures Walk(dev, hw, lens, s, pos, prev, fuel).msi == MsiFlags(At(hw, p + 2), At(hw, p + 3))
    decreases ps
  {
    hide Visit;
    var t := Visit(dev, hw, lens, s, pos, prev);
    VisitMsi(dev, hw, lens, s, pos, prev);
    assert pos in ps;
    if pos == p {
      WalkMsiKeeps(dev, hw, lens, t, Num(At(hw, pos + 1)), Link(lens, pos, prev), fuel - 1);
    } else {
      WalkMsi(dev, hw, lens, t, Num(At(hw, pos + 1)), Link(lens, pos, prev), fuel - 1, ps[1..], p);
    }
  }

  lemma {:induction false} ExtWalkMsi(hw: seq<byte>, lens: seq<nat>, s: Init, pos: nat, prev: nat, fuel: nat)
    ensures ExtWalk(hw, lens, s, pos, prev, fuel).msi == s.msi
    decreases fuel
  {
    hide Poke, Filled, Copied, ExtNext, Relinked;
    if pos >= STD_SPACE && fuel != 0 {
      ExtWalkMsi(hw, lens, ExtVisit(hw, lens, s, pos, prev), ExtNext(hw, pos), ExtLink(lens, pos, prev), fuel - 1);
    }
  }

  lemma BuildMsi(dev: Pdev, hw: seq<byte>, lens: seq<nat>, elens: seq<nat>, rawOwner: seq<byte>, rawVconfig: seq<byte>,
                 ps: seq<nat>, es: seq<nat>, p: nat)
    requires Formed(dev, hw, lens, elens, ps, es) && p in ps && Num(At(hw, p)) == ID_MSI
    ensures Build(dev, hw, lens, elens, rawOwner, rawVconfig).msi == MsiFlags(At(hw, p + 2), At(hw, p + 3))
  {
    hide NoTwins, AllCaps, FindsExtended, ExtFormed, Walk, ExtWalk;
    var h := HeaderInit(dev, hw, rawOwner, rawVconfig);
    var s := StdInit(dev, hw, lens, h);
    Pigeonhole(lens, ps, HEADER, STD_SPACE, 2);
    WalkMsi(dev, hw, lens, h, Num(At(hw, CAPABILITY_LIST)), CAPABILITY_LIST, STD_LOOPS, ps, p);
    ExtWalkMsi(hw, elens, s.(caps := 0), STD_SPACE, 0, ExtLoops(dev));
  }

  lemma CapsFit(dev: Pdev, hw: seq<byte>, lens: seq<nat>, elens: seq<nat>, ps: seq<nat>, es: seq<nat>, c: Cap)
    requires Formed(dev, hw, lens, elens, ps, es) && Known(hw, lens, elens) && c in AllCaps(hw, lens, elens, ps, es)
    ensures CapFits(c, |hw|) && c.start + c.len <= |hw|
    ensures c.start < STD_SPACE ==> c.start in ps && c.id == At(hw, c.start)
    ensures Sized(c, if c.start < STD_SPACE then MsiFlags(At(hw, c.start + 2), At(hw, c.start + 3)) else NoMsi)
  {
    hide NoTwins, FindsExtended, Anchored, Sized, Placed, StdChain, ExtChain;
    if c.start in ps && c == Cap(c.start, LenAt(lens, c.start), At(hw, c.start)) {
      PlacedAt(lens, ps, HEADER, STD_SPACE, 2, c.start);
    } else {
      PlacedAt(elens, es, STD_SPACE, EXT_SPACE, 4, c.start);
      AnchoredLen(elens, c.start);
      assert c.start == STD_SPACE || elens[c.start] != 0;
    }
  }

  lemma CapsSized(dev: Pdev, hw: seq<byte>, lens: seq<nat>, elens: seq<nat>, rawOwner: seq<byte>, rawVconfig: seq<byte>,
                  ps: seq<nat>, es: seq<nat>, c: Cap)
    requires Formed(dev, hw, lens, elens, ps, es) && Known(hw, lens, elens) && c in AllCaps(hw, lens, elens, ps, es)
    ensures Sized(c, Build(dev, hw, lens, elens, rawOwner, rawVconfig).msi)
  {
    hide NoTwins, AllCaps, FindsExtended, ExtFormed, StdFormed, Build, Known;
    CapsFit(dev, hw, lens, elens, ps, es, c);
    if c.start < STD_SPACE && Num(c.id) == ID_MSI {
      BuildMsi(dev, hw, lens, elens, rawOwner, rawVconfig, ps, es, c.start);
    }
  }

  lemma {:induction false} SamePlaced(lens: seq<nat>, lens': seq<nat>, ps: seq<nat>, lo: nat, hi: nat, min: nat)
    requires Placed(lens, ps, lo, hi, min) && forall p :: p in ps ==> LenAt(lens', p) == LenAt(lens, p)
    ensures Placed(lens', ps, lo, hi, min)
  {
    if ps != [] {
      SamePlaced(lens, lens', ps[1..], lo, hi, min);
      forall q | Covers(lens', ps[0], q) ensures Uncovered(lens', ps[1..], q) {
        assert Uncovered(lens, ps[1..], q);
      }
    }
  }

  lemma AnchoredPlaced(lens: seq<nat>, es: seq<nat>)
    requires es != [] && es[0] == STD_SPACE && Placed(lens, es, STD_SPACE, EXT_SPACE, 4) && |lens| == EXT_SPACE
    ensures Placed(Anchored(lens), es, STD_SPACE, EXT_SPACE, 4)
  {
    AfterFirst(lens, es);
    forall p | p in es[1..] ensures LenAt(Anchored(lens), p) == LenAt(lens, p) {
      AnchoredLen(lens, p);
    }
    SamePlaced(lens, Anchored(lens), es[1..], STD_SPACE, EXT_SPACE, 4);
    AnchoredLen(lens, STD_SPACE);
    forall q | Covers(Anchored(lens), STD_SPACE, q) ensures Uncovered(Anchored(lens), es[1..], q) {
      forall p | p in es[1..] ensures !Covers(Anchored(lens), p, q) {
        if Covers(lens, p, q) {
          FirstApart(lens, es, p, q);
        }
      }
    }
  }

  lemma CapsApart(dev: Pdev, hw: seq<byte>, lens: seq<nat>, elens: seq<nat>, ps: seq<nat>, es: seq<nat>, c: Cap, d: Cap, q: nat)
    requires Formed(dev, hw, lens, elens, ps, es)
    requires c in AllCaps(hw, lens, elens, ps, es) && d in AllCaps(hw, lens, elens, ps, es) && c.Has(q) && d.Has(q)
    ensures c == d
  {
    hide NoTwins, FindsExtended, Anchored;
    var alens := Anchored(elens);
    StdReach(lens, ps, q);
    CapsOfHas(hw, lens, ps, q);
    CapsOfHas(hw, alens, es, q);
    if q < STD_SPACE {
      ExtAbove(dev, hw, lens, elens, ps, es, q);
      PlacedApart(lens, ps, HEADER, STD_SPACE, 2, c.start, d.start, q);
    } else {
      AnchoredPlaced(elens, es);
      PlacedApart(alens, es, STD_SPACE, EXT_SPACE, 4, c.start, d.start, q);
    }
  }

  lemma ExtAbove(dev: Pdev, hw: seq<byte>, lens: seq<nat>, elens: seq<nat>, ps: seq<nat>, es: seq<nat>, q: nat)
    requires Formed(dev, hw, lens, elens, ps, es) && q < STD_SPACE
    ensures Uncovered(Anchored(elens), es, q)
  {
    hide NoTwins, FindsExtended, Anchored;
    if es != [] {
      ExtReach(elens, es, q);
    }
  }

  // A capability starts at its space's base or right after a byte of another id.
  lemma Boundary(dev: Pdev, hw: seq<byte>, lens: seq<nat>, elens: seq<nat>, rawOwner: seq<byte>, rawVconfig: seq<byte>,
                 ps: seq<nat>, es: seq<nat>, c: Cap)
    requires Formed(dev, hw, lens, elens, ps, es) && Known(hw, lens, elens) && c in AllCaps(hw, lens, elens, ps, es)
    requires |rawOwner| == |rawVconfig| == |hw| && c.start != Base(c.start)
    ensures c.start > 0 && At(Build(dev, hw, lens, elens, rawOwner, rawVconfig).owner, c.start - 1) != c.id
  {
    hide Anchored, Build, CapsOf, FindsExtended, StdFormed, ExtFormed, AllCaps;
    CapsFit(dev, hw, lens, elens, ps, es, c);
    BuildOwner(dev, hw, lens, elens, rawOwner, rawVconfig, ps, es, c.start - 1);
    var caps := AllCaps(hw, lens, elens, ps, es);
    if d :| d in caps && d.Has(c.start - 1) {
      if d.Has(c.start) {
        CapsApart(dev, hw, lens, elens, ps, es, c, d, c.start);
      } else {
        assert d.start + d.len == c.start;
        assert NoTwins(caps);
      }
    }
  }

  lemma CapsAllFit(dev: Pdev, hw: seq<byte>, lens: seq<nat>, elens: seq<nat>, rawOwner: seq<byte>, rawVconfig: seq<byte>,
                   ps: seq<nat>, es: seq<nat>)
    requires Formed(dev, hw, lens, elens, ps, es) && Known(hw, lens, elens)
    ensures forall c :: c in AllCaps(hw, lens, elens, ps, es) ==>
      CapFits(c, |hw|) && Sized(c, Build(dev, hw, lens, elens, rawOwner, rawVconfig).msi)
  {
    assert dev.Valid();
    hide Build, Formed, AllCaps, Sized, CapFits, Known;
    forall c | c in AllCaps(hw, lens, elens, ps, es)
      ensures CapFits(c, |hw|) && Sized(c, Build(dev, hw, lens, elens, rawOwner, rawVconfig).msi)
    {
      CapsFit(dev, hw, lens, elens, ps, es, c);
      CapsSized(dev, hw, lens, elens, rawOwner, rawVconfig, ps, es, c);
    }
  }

  lemma BuildShaped(dev: Pdev, hw: seq<byte>, lens: seq<nat>, elens: seq<nat>, rawOwner: seq<byte>, rawVconfig: seq<byte>,
                    ps: seq<nat>, es: seq<nat>)
    requires Formed(dev, hw, lens, elens, ps, es) && Known(hw, lens, elens)
    ensures Shaped(AllCaps(hw, lens, elens, ps, es), |hw|, Build(dev, hw, lens, elens, rawOwner, rawVconfig).msi)
  {
    assert |hw| == STD_SPACE || |hw| == EXT_SPACE;
    hide Build, Formed, AllCaps, Sized, CapFits, Known;
    CapsAllFit(dev, hw, lens, elens, rawOwner, rawVconfig, ps, es);
    CapsAllApart(dev, hw, lens, elens, ps, es);
  }

  lemma CapsAllApart(dev: Pdev, hw: seq<byte>, lens: seq<nat>, elens: seq<nat>, ps: seq<nat>, es: seq<nat>)
    requires Formed(dev, hw, lens, elens, ps, es)
    ensures var caps := AllCaps(hw, lens, elens, ps, es);
      forall c, d, q: nat :: c in caps && d in caps && c.Has(q) && d.Has(q) ==> c == d
  {
    hide Formed, AllCaps;
    var caps := AllCaps(hw, lens, elens, ps, es);
    forall c, d, q: nat | c in caps && d in caps && c.Has(q) && d.Has(q) ensures c == d {
      CapsApart(dev, hw, lens, elens, ps, es, c, d, q);
    }
  }

  lemma BuildOwnerAt(dev: Pdev, hw: seq<byte>, lens: seq<nat>, elens: seq<nat>, rawOwner: seq<byte>, rawVconfig: seq<byte>,
                     ps: seq<nat>, es: seq<nat>, q: nat)
    requires Formed(dev, hw, lens, elens, ps, es) && Known(hw, lens, elens) && |rawOwner| == |rawVconfig| == |hw|
    ensures var owner := Build(dev, hw, lens, elens, rawOwner, rawVconfig).owner; var caps := AllCaps(hw, lens, elens, ps, es);
      && (forall c :: c in caps && c.Has(q) ==> At(owner, q) == c.id && q >= HEADER)
      && ((forall c :: c in caps ==> !c.Has(q)) ==> At(owner, q) == if q < HEADER then 0 else INVALID)
  {
    assert |hw| >= STD_SPACE;
    hide Build, Formed, AllCaps, Known, CapFits;
    BuildOwner(dev, hw, lens, elens, rawOwner, rawVconfig, ps, es, if q < |hw| then q else 0);
    if q >= |hw| {
      forall c | c in AllCaps(hw, lens, elens, ps, es) ensures !c.Has(q) {
        CapsFit(dev, hw, lens, elens, ps, es, c);
      }
    }
  }

  lemma BuildMapped(dev: Pdev, hw: seq<byte>, lens: seq<nat>, elens: seq<nat>, rawOwner: seq<byte>, rawVconfig: seq<byte>,
                    ps: seq<nat>, es: seq<nat>)
    requires Formed(dev, hw, lens, elens, ps, es) && Known(hw, lens, elens) && |rawOwner| == |rawVconfig| == |hw|
    ensures Mapped(Build(dev, hw, lens, elens, rawOwner, rawVconfig).owner, AllCaps(hw, lens, elens, ps, es))
    ensures |Build(dev, hw, lens, elens, rawOwner, rawVconfig).owner| == |hw|
  {
    var caps := AllCaps(hw, lens, elens, ps, es);
    var owner := Build(dev, hw, lens, elens, rawOwner, rawVconfig).owner;
    assert |hw| == STD_SPACE || |hw| == EXT_SPACE;
    hide Build, Formed, AllCaps, Known, CapFits;
    BuildOwner(dev, hw, lens, elens, rawOwner, rawVconfig, ps, es, 0);
    forall q: nat | q < HEADER ensures At(owner, q) == 0 {
      BuildOwnerAt(dev, hw, lens, elens, rawOwner, rawVconfig, ps, es, q);
    }
    forall c, q: nat | c in caps && c.Has(q) ensures At(owner, q) == c.id {
      BuildOwnerAt(dev, hw, lens, elens, rawOwner, rawVconfig, ps, es, q);
    }
    forall q: nat | HEADER <= q && At(owner, q) != INVALID ensures exists c :: c in caps && c.Has(q) {
      BuildOwnerAt(dev, hw, lens, elens, rawOwner, rawVconfig, ps, es, q);
    }
    forall c | c in caps && c.start != Base(c.start) && c.start > 0 ensures At(owner, c.start - 1) != c.id {
      Boundary(dev, hw, lens, elens, rawOwner, rawVconfig, ps, es, c);
    }
  }

  // Initialisation lays out the map that routes guest accesses.
  lemma BuildLaid(dev: Pdev, hw: seq<byte>, lens: seq<nat>, elens: seq<nat>, rawOwner: seq<byte>, rawVconfig: seq<byte>,
                  ps: seq<nat>, es: seq<nat>)
    requires Formed(dev, hw, lens, elens, ps, es) && Known(hw, lens, elens) && |rawOwner| == |rawVconfig| == |hw|
    ensures var r := Build(dev, hw, lens, elens, rawOwner, rawVconfig); Laid(r.owner, AllCaps(hw, lens, elens, ps, es), r.msi)
  {
    hide Build, Formed, AllCaps, Known, Shaped, Mapped;
    BuildShaped(dev, hw, lens, elens, rawOwner, rawVconfig, ps, es);
    BuildMapped(dev, hw, lens, elens, rawOwner, rawVconfig, ps, es);
  }

  // ---------------------------------------------------------------- what the guest is shown

  lemma {:induction false} SameStdChain(v: seq<byte>, w: seq<byte>, pos: nat, ps: seq<nat>)
    requires StdChain(v, pos, ps) && forall p :: p in ps ==> At(w, p + 1) == At(v, p + 1)
    ensures StdChain(w, pos, ps)
    decreases ps
  {
    if pos != 0 {
      assert pos in ps && forall p :: p in ps[1..] ==> p in ps;
      SameStdChain(v, w, Num(At(v, pos + 1)), ps[1..]);
    }
  }

  // Identifiers of the extended capabilities that stay in the list.
  lemma ExtIds(dev: Pdev, hw: seq<byte>, lens: seq<nat>, s: Init, es: seq<nat>, p: nat)
    requires ExtFormed(dev, hw, lens, es) && |s.owner| == |s.vconfig| == |hw| && s.extended
    requires Kept(lens, es) != [] && p in Shown(lens, es)
    ensures ExtId(ExtInit(dev, hw, lens, s).vconfig, p) == if LenAt(lens, p) == 0 then 0 else ExtId(hw, p)
  {
    hide ExtVisit, ExtInit, ExtNext, ExtId, Kept, Shown, ExtWalk, Anchored;
    ShownIn(lens, es, p);
    FirstVisit(hw, lens, s.(caps := 0));
    ExtUnfold(dev, hw, lens, s, es);
    RestIds(hw, lens, AfterFirstVisit(hw, lens, s), ExtLoops(dev) - 1, es, p);
  }

  lemma ShownIn(lens: seq<nat>, es: seq<nat>, p: nat)
    requires p in Shown(lens, es)
    ensures p in es && (LenAt(lens, p) != 0 || p == es[0])
  {
    KeptIn(lens, es);
  }

  lemma RestIds(hw: seq<byte>, lens: seq<nat>, t: Init, fuel: nat, es: seq<nat>, p: nat)
    requires es != [] && es[0] == STD_SPACE && Placed(lens, es, STD_SPACE, EXT_SPACE, 4) && |lens| == EXT_SPACE
    requires ExtChain(hw, ExtNext(hw, STD_SPACE), es[1..]) && |es| - 1 <= fuel && |t.owner| == |t.vconfig| == EXT_SPACE
    requires p == STD_SPACE || (p in es && LenAt(lens, p) != 0)
    ensures var w := ExtWalk(hw, lens, t, ExtNext(hw, STD_SPACE), STD_SPACE, fuel);
      ExtId(w.vconfig, p) == if p == STD_SPACE then ExtId(t.vconfig, p) else ExtId(hw, p)
  {
    hide ExtVisit, ExtNext, ExtWalk;
    var next := ExtNext(hw, STD_SPACE);
    var rest := es[1..];
    AfterFirst(lens, es);
    if p == STD_SPACE {
      ExtWalkFrame(hw, lens, t, next, STD_SPACE, fuel, rest, STD_SPACE);
      ExtWalkFrame(hw, lens, t, next, STD_SPACE, fuel, rest, STD_SPACE + 1);
    } else {
      PlacedAt(lens, es, STD_SPACE, EXT_SPACE, 4, p);
      ExtWalkTakes(hw, lens, t, next, STD_SPACE, fuel, rest, p, p);
      ExtWalkTakes(hw, lens, t, next, STD_SPACE, fuel, rest, p, p + 1);
    }
  }

  // Bytes of the lower space after the whole of initialisation: what capabilities cover is copied
  // from hardware but for the next pointers, the rest is as the header was left.
  lemma BuildLow(dev: Pdev, hw: seq<byte>, lens: seq<nat>, elens: seq<nat>, rawOwner: seq<byte>, rawVconfig: seq<byte>,
                 ps: seq<nat>, es: seq<nat>, q: nat)
    requires Formed(dev, hw, lens, elens, ps, es) && |rawOwner| == |rawVconfig| == |hw| && q < STD_SPACE
    ensures var v := Build(dev, hw, lens, elens, rawOwner, rawVconfig).vconfig;
      && |v| == |hw|
      && (Uncovered(lens, ps, q) && q != CAPABILITY_LIST && q != STATUS ==>
            At(v, q) == At(HeaderInit(dev, hw, rawOwner, rawVconfig).vconfig, q))
      && forall p :: p in ps && Covers(lens, p, q) && q != p + 1 ==> At(v, q) == At(hw, q)
  {
    var h := HeaderInit(dev, hw, rawOwner, rawVconfig);
    HeaderFacts(dev, hw, rawOwner, rawVconfig);
    HeaderNotExtended(dev, hw, rawOwner, rawVconfig);
    hide HeaderInit, ExtInit, StdInit, Anchored, NoTwins, AllCaps, FindsExtended;
    var s := StdInit(dev, hw, lens, h);
    StdOwned(dev, hw, lens, h, ps, q);
    StdExtended(dev, hw, lens, h, ps);
    if s.extended {
      ExtAbove(dev, hw, lens, elens, ps, es, q);
      ExtOwned(dev, hw, elens, s, es, q);
    } else {
      NotExtended(dev, hw, elens, s);
    }
  }

  // The virtual standard list after the whole of initialisation.
  lemma BuildStdShown(dev: Pdev, hw: seq<byte>, lens: seq<nat>, elens: seq<nat>, rawOwner: seq<byte>, rawVconfig: seq<byte>,
                      ps: seq<nat>, es: seq<nat>)
    requires Formed(dev, hw, lens, elens, ps, es) && |rawOwner| == |rawVconfig| == |hw|
    ensures var v := Build(dev, hw, lens, elens, rawOwner, rawVconfig).vconfig; var kept := Kept(lens, ps);
      && |v| == |hw|
      && (At(v, STATUS) & STATUS_CAP_LIST != 0 <==> kept != [])
      && (kept != [] ==> StdChain(v, Num(At(v, CAPABILITY_LIST)), kept))
      && forall p :: p in kept ==> At(v, p) == At(hw, p)
  {
    var h := HeaderInit(dev, hw, rawOwner, rawVconfig);
    HeaderFacts(dev, hw, rawOwner, rawVconfig);
    HeaderNotExtended(dev, hw, rawOwner, rawVconfig);
    hide HeaderInit, ExtInit, StdInit, Anchored, NoTwins, AllCaps, FindsExtended;
    var s := StdInit(dev, hw, lens, h);
    StdListShown(dev, hw, lens, h, ps);
    StdExtended(dev, hw, lens, h, ps);
    KeptIn(lens, ps);
    var kept := Kept(lens, ps);
    hide Kept;
    forall p | p in kept ensures HEADER <= p && p + 1 < STD_SPACE && s.vconfig[p] == At(hw, p) {
      PlacedAt(lens, ps, HEADER, STD_SPACE, 2, p);
      StdOwned(dev, hw, lens, h, ps, p);
    }
    var r := ExtInit(dev, hw, elens, s);
    forall q: nat | q < STD_SPACE ensures |r.vconfig| == |hw| && r.vconfig[q] == s.vconfig[q] {
      if s.extended {
        ExtAbove(dev, hw, lens, elens, ps, es, q);
        ExtOwned(dev, hw, elens, s, es, q);
      } else {
        NotExtended(dev, hw, elens, s);
      }
    }
    assert |r.vconfig| == |hw| && r.vconfig[STATUS] == s.vconfig[STATUS];
    assert r.vconfig[CAPABILITY_LIST] == s.vconfig[CAPABILITY_LIST];
    if kept != [] {
      SameStdChain(s.vconfig, r.vconfig, Num(s.vconfig[CAPABILITY_LIST]), kept);
    }
  }

  // The virtual extended list after the whole of initialisation.
  lemma BuildExtShown(dev: Pdev, hw: seq<byte>, lens: seq<nat>, elens: seq<nat>, rawOwner: seq<byte>, rawVconfig: seq<byte>,
                      ps: seq<nat>, es: seq<nat>)
    requires Formed(dev, hw, lens, elens, ps, es) && |rawOwner| == |rawVconfig| == |hw| && FindsExtended(dev, hw, ps)
    ensures var v := Build(dev, hw, lens, elens, rawOwner, rawVconfig).vconfig; var kept := Kept(elens, es);
      && |v| == |hw|
      && (kept == [] ==> forall q: nat :: STD_SPACE <= q < STD_SPACE + 4 ==> At(v, q) == 0)
      && (kept != [] ==> ExtChain(v, STD_SPACE, Shown(elens, es)))
      && (kept != [] ==> forall p :: p in Shown(elens, es) ==> ExtId(v, p) == if LenAt(elens, p) == 0 then 0 else ExtId(hw, p))
  {
    var h := HeaderInit(dev, hw, rawOwner, rawVconfig);
    HeaderFacts(dev, hw, rawOwner, rawVconfig);
    HeaderNotExtended(dev, hw, rawOwner, rawVconfig);
    hide HeaderInit, ExtInit, StdInit, NoTwins, AllCaps, FindsExtended, Kept, ExtChain, ExtId;
    var s := StdInit(dev, hw, lens, h);
    StdExtended(dev, hw, lens, h, ps);
    StdOwned(dev, hw, lens, h, ps, 0);
    ExtListShown(dev, hw, elens, s, es);
    if Kept(elens, es) != [] {
      forall p | p in Shown(elens, es)
        ensures ExtId(ExtInit(dev, hw, elens, s).vconfig, p) == if LenAt(elens, p) == 0 then 0 else ExtId(hw, p)
      {
        ExtIds(dev, hw, elens, s, es, p);
      }
    }
  }
}
