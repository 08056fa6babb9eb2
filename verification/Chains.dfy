/** Linked lists of capabilities inside a byte array, and the pigeonhole bound on their length. */
module Chains {
  import opened Bytes
  import opened PciCaps

  // `ps` is the standard list reached from `pos`: a zero pointer ends it.
  ghost predicate StdChain(bytes: seq<byte>, pos: nat, ps: seq<nat>)
    decreases ps
  {
    if pos == 0 then ps == []
    else |ps| > 0 && ps[0] == pos && StdChain(bytes, Num(At(bytes, pos + 1)), ps[1..])
  }

  // `ps` is the extended list reached from `pos`: a pointer below 256 ends it.
  ghost predicate ExtChain(bytes: seq<byte>, pos: nat, ps: seq<nat>)
    decreases ps
  {
    if pos < STD_SPACE then ps == []
    else |ps| > 0 && ps[0] == pos && ExtChain(bytes, ExtNext(bytes, pos), ps[1..])
  }

  function LenAt(lens: seq<nat>, p: nat): nat { if p < |lens| then lens[p] else 0 }

  // Byte `q` belongs to the capability at `p`.
  predicate Covers(lens: seq<nat>, p: nat, q: nat) { p <= q < p + LenAt(lens, p) }

  ghost predicate Uncovered(lens: seq<nat>, ps: seq<nat>, q: nat) {
    forall p :: p in ps ==> !Covers(lens, p, q)
  }

  // The positions whose capability has a length, in list order.
  function Kept(lens: seq<nat>, ps: seq<nat>): seq<nat> {
    if ps == [] then []
    else if LenAt(lens, ps[0]) == 0 then Kept(lens, ps[1..])
    else [ps[0]] + Kept(lens, ps[1..])
  }

  // The capabilities of a list sit at distinct dword-aligned positions of [lo, hi), and those
  // that are kept lie inside it, are at least `min` bytes long and pairwise disjoint.
  ghost predicate Placed(lens: seq<nat>, ps: seq<nat>, lo: nat, hi: nat, min: nat) {
    ps == [] ||
    (&& lo <= ps[0] < hi && ps[0] % 4 == 0
     && ps[0] !in ps[1..]
     && (LenAt(lens, ps[0]) != 0 ==> min <= LenAt(lens, ps[0]) && ps[0] + LenAt(lens, ps[0]) <= hi)
     && Apart(lens, ps[0], ps[1..])
     && Placed(lens, ps[1..], lo, hi, min))
  }

  // No byte of the capability at `p` belongs to one of `rest`.
  ghost predicate Apart(lens: seq<nat>, p: nat, rest: seq<nat>) {
    forall q :: Covers(lens, p, q) ==> Uncovered(lens, rest, q)
  }

  lemma StdChainCons(bytes: seq<byte>, pos: nat, ps: seq<nat>)
    requires pos != 0 && StdChain(bytes, Num(At(bytes, pos + 1)), ps)
    ensures StdChain(bytes, pos, [pos] + ps)
  {
    assert ([pos] + ps)[1..] == ps;
  }

  lemma ExtChainCons(bytes: seq<byte>, pos: nat, ps: seq<nat>)
    requires pos >= STD_SPACE && ExtChain(bytes, ExtNext(bytes, pos), ps)
    ensures ExtChain(bytes, pos, [pos] + ps)
  {
    assert ([pos] + ps)[1..] == ps;
  }

  lemma {:induction false} KeptIn(lens: seq<nat>, ps: seq<nat>)
    ensures forall p :: p in Kept(lens, ps) <==> p in ps && LenAt(lens, p) != 0
    ensures |Kept(lens, ps)| <= |ps|
  {
    if ps != [] {
      KeptIn(lens, ps[1..]);
      assert forall p :: p in ps <==> p == ps[0] || p in ps[1..];
    }
  }

  lemma {:induction false} PlacedAt(lens: seq<nat>, ps: seq<nat>, lo: nat, hi: nat, min: nat, p: nat)
    requires Placed(lens, ps, lo, hi, min) && p in ps
    ensures lo <= p < hi && p % 4 == 0
    ensures LenAt(lens, p) != 0 ==> min <= LenAt(lens, p) && p + LenAt(lens, p) <= hi
  {
    if p != ps[0] {
      PlacedAt(lens, ps[1..], lo, hi, min, p);
    }
  }

  // No byte belongs to two capabilities.
  lemma {:induction false} PlacedApart(lens: seq<nat>, ps: seq<nat>, lo: nat, hi: nat, min: nat, p: nat, p': nat, q: nat)
    requires Placed(lens, ps, lo, hi, min) && p in ps && p' in ps
    requires Covers(lens, p, q) && Covers(lens, p', q)
    ensures p == p'
  {
    if p != ps[0] && p' != ps[0] {
      PlacedApart(lens, ps[1..], lo, hi, min, p, p', q);
    } else {
      assert Uncovered(lens, ps[1..], q);
    }
  }

  ghost predicate Below(ns: seq<nat>, n: nat) {
    ns == [] || (ns[0] < n && ns[0] !in ns[1..] && Below(ns[1..], n))
  }

  lemma {:induction false} Remove(ns: seq<nat>, n: nat) returns (rest: seq<nat>)
    requires Below(ns, n + 1)
    ensures Below(rest, n) && |ns| <= |rest| + 1 && forall m :: m in rest ==> m in ns
    ensures n !in ns ==> |ns| == |rest|
  {
    if ns == [] {
      rest := [];
    } else {
      rest := Remove(ns[1..], n);
      if ns[0] != n {
        var tail := rest;
        rest := [ns[0]] + tail;
        assert rest[1..] == tail;
      }
    }
  }

  lemma {:induction false} DistinctBelow(ns: seq<nat>, n: nat)
    requires Below(ns, n)
    ensures |ns| <= n
    decreases n
  {
    if ns != [] {
      var rest := Remove(ns, n - 1);
      DistinctBelow(rest, n - 1);
    }
  }

  // The number of the dword of `p`, counted from `lo`.
  function Slot(p: nat, lo: nat): nat { if p < lo then 0 else (p - lo) / 4 }

  function Slots(ps: seq<nat>, lo: nat): (r: seq<nat>)
    ensures |r| == |ps| && forall i :: 0 <= i < |r| ==> r[i] == Slot(ps[i], lo)
  {
    if ps == [] then [] else [Slot(ps[0], lo)] + Slots(ps[1..], lo)
  }

  // The slot of the first entry is none of the others'.
  lemma SlotsApart(lens: seq<nat>, ps: seq<nat>, lo: nat, hi: nat, min: nat)
    requires Placed(lens, ps, lo, hi, min) && lo % 4 == 0 && hi % 4 == 0 && lo <= hi && ps != []
    ensures Slot(ps[0], lo) < (hi - lo) / 4 && forall i :: 0 <= i < |ps| - 1 ==> Slots(ps[1..], lo)[i] != Slot(ps[0], lo)
  {
    assert ps[0] !in ps[1..];
    hide Placed, Slot;
    PlacedAt(lens, ps, lo, hi, min, ps[0]);
    SlotBelow(ps[0], lo, hi);
    forall i | 0 <= i < |ps| - 1 ensures Slots(ps[1..], lo)[i] != Slot(ps[0], lo) {
      PlacedAt(lens, ps[1..], lo, hi, min, ps[1..][i]);
      SlotDiffers(ps[1..][i], ps[0], lo);
    }
  }

  lemma SlotBelow(p: nat, lo: nat, hi: nat)
    requires p % 4 == lo % 4 == hi % 4 == 0 && lo <= p < hi
    ensures Slot(p, lo) < (hi - lo) / 4
  {
  }

  lemma SlotDiffers(p: nat, q: nat, lo: nat)
    requires p != q && p % 4 == q % 4 == lo % 4 == 0 && lo <= p && lo <= q
    ensures Slot(p, lo) != Slot(q, lo)
  {
  }

  lemma {:induction false} SlotsBelow(lens: seq<nat>, ps: seq<nat>, lo: nat, hi: nat, min: nat)
    requires Placed(lens, ps, lo, hi, min) && lo % 4 == 0 && hi % 4 == 0 && lo <= hi
    ensures Below(Slots(ps, lo), (hi - lo) / 4)
  {
    if ps != [] {
      SlotsBelow(lens, ps[1..], lo, hi, min);
      SlotsApart(lens, ps, lo, hi, min);
      hide Placed;
      assert Slots(ps, lo)[1..] == Slots(ps[1..], lo);
    }
  }

  // A list of capabilities at distinct dword-aligned positions is no longer than the
  // number of dwords, which is where the driver bounds its loops.
  lemma Pigeonhole(lens: seq<nat>, ps: seq<nat>, lo: nat, hi: nat, min: nat)
    requires Placed(lens, ps, lo, hi, min) && lo % 4 == 0 && hi % 4 == 0 && lo <= hi
    ensures |ps| <= (hi - lo) / 4
  {
    SlotsBelow(lens, ps, lo, hi, min);
    DistinctBelow(Slots(ps, lo), (hi - lo) / 4);
  }
}
