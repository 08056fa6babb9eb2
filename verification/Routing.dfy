/** Every chunk of a guest access is naturally aligned, stays inside one capability, finds that
    capability's header and stays inside its permission table. */
module Routing {
  import opened Bytes
  import opened PciCaps
  import opened StdCapInit
  import opened Layout
  import opened Perms

  lemma {:induction false} RemainingSame(owner: seq<byte>, pos: nat, i: nat, k: nat)
    requires 1 <= i <= 4 && i <= k < Remaining(owner, pos, i)
    ensures At(owner, pos + k) == At(owner, pos) && (pos + k) % 4 != 0
    decreases 4 - i
  {
    if k != i {
      RemainingSame(owner, pos, i + 1, k);
    }
  }

  // A chunk lies in one dword and all its bytes have the same owner.
  lemma ChunkInside(owner: seq<byte>, pos: nat, count: nat, k: nat)
    requires 0 < count && k < ChunkLen(owner, pos, count)
    ensures At(owner, pos + k) == At(owner, pos) && pos % 4 + k < 4 && (pos + k) / 4 == pos / 4
  {
    hide At;
    AlignedInside(pos, ChunkLen(owner, pos, count), k);
    if k > 0 {
      RemainingSame(owner, pos, 1, k);
    }
  }

  lemma AlignedInside(pos: nat, n: nat, k: nat)
    requires n in {1, 2, 4} && pos % n == 0 && k < n
    ensures pos % 4 + k < 4 && (pos + k) / 4 == pos / 4
  {
  }

  // ... and is as wide as length, alignment and owners allow.
  lemma ChunkWidest(owner: seq<byte>, pos: nat, count: nat)
    requires 0 < count
    ensures var n := ChunkLen(owner, pos, count); var id := At(owner, pos);
      && (count >= 2 && pos % 2 == 0 && At(owner, pos + 1) == id ==> n >= 2)
      && (count >= 4 && pos % 4 == 0 && At(owner, pos + 1) == At(owner, pos + 2) == At(owner, pos + 3) == id ==> n == 4)
  {
    hide At;
    assert Remaining(owner, pos, 4) == 4;
    assert Remaining(owner, pos, 3) >= 3 && Remaining(owner, pos, 2) >= 2;
  }

  lemma {:induction false} FindStartIs(owner: seq<byte>, c: Cap, base: nat, pos: nat)
    requires base <= c.start && c.Has(pos)
    requires forall q: nat :: c.Has(q) ==> At(owner, q) == c.id
    requires c.start == base || At(owner, c.start - 1) != c.id
    ensures FindStart(owner, pos, base) == c.start
    decreases pos
  {
    if pos > c.start {
      FindStartIs(owner, c, base, pos - 1);
    }
  }

  // vfio_find_cap_start returns the header position of the capability a byte belongs to.
  lemma StartOfCap(owner: seq<byte>, caps: set<Cap>, msi: MsiFlags, c: Cap, pos: nat)
    requires Laid(owner, caps, msi) && c in caps && c.Has(pos)
    ensures StartOf(owner, pos) == c.start && At(owner, pos) == c.id
    ensures KindAt(owner, pos) == KindAt(owner, c.start)
  {
    CapBytes(owner, caps, msi, c);
    hide Laid, CapFits, StartOf;
    assert c.Has(c.start) && (pos >= STD_SPACE <==> c.start >= STD_SPACE);
    StartOfId(owner, c, pos);
  }

  // What the map says of one capability.
  lemma CapBytes(owner: seq<byte>, caps: set<Cap>, msi: MsiFlags, c: Cap)
    requires Laid(owner, caps, msi) && c in caps
    ensures CapFits(c, |owner|) && c.len > 0 && (c.start < STD_SPACE ==> c.start + c.len <= STD_SPACE)
    ensures forall q: nat :: c.Has(q) ==> At(owner, q) == c.id
    ensures c.start == Base(c.start) || At(owner, c.start - 1) != c.id
  {
    hide Sized, At;
  }

  lemma StartOfId(owner: seq<byte>, c: Cap, pos: nat)
    requires CapFits(c, |owner|) && c.Has(pos) && (pos >= STD_SPACE <==> c.start >= STD_SPACE)
    requires forall q: nat :: c.Has(q) ==> At(owner, q) == c.id
    requires c.start == Base(c.start) || At(owner, c.start - 1) != c.id
    ensures StartOf(owner, pos) == c.start
  {
    FindStartIs(owner, c, Base(c.start), pos);
  }

  // Bytes outside the header and outside every capability are raw.
  lemma RawOutside(owner: seq<byte>, caps: set<Cap>, msi: MsiFlags, pos: nat)
    requires Laid(owner, caps, msi) && HEADER <= pos && forall c :: c in caps ==> !c.Has(pos)
    ensures KindAt(owner, pos) == Raw && StartOf(owner, pos) == pos
  {
  }

  // Every byte is routed to the header, to the capability that has it, or to raw access.
  lemma Routed(owner: seq<byte>, caps: set<Cap>, msi: MsiFlags, pos: nat)
    requires Laid(owner, caps, msi)
    ensures pos < HEADER ==> KindAt(owner, pos) == Basic && StartOf(owner, pos) == 0
    ensures pos >= HEADER && KindAt(owner, pos) != Raw ==>
      KindAt(owner, pos) != Basic && exists c :: c in caps && c.Has(pos) && StartOf(owner, pos) == c.start
  {
    hide Sized;
    if pos >= HEADER && KindAt(owner, pos) != Raw {
      var c :| c in caps && c.Has(pos);
      StartOfCap(owner, caps, msi, c, pos);
    }
  }

  // The permission table of a capability covers all of it, up to the end of its last dword.
  lemma CapInTable(owner: seq<byte>, caps: set<Cap>, msi: MsiFlags, c: Cap)
    requires Laid(owner, caps, msi) && c in caps && Tabled(KindAt(owner, c.start))
    ensures c.len <= TableLen(KindAt(owner, c.start), msi)
  {
    assert c.Has(c.start);
    assert CapFits(c, |owner|) && Sized(c, msi);
  }

  // No chunk of a table-driven capability reaches past its permission table.
  lemma ChunkInTable(owner: seq<byte>, caps: set<Cap>, msi: MsiFlags, pos: nat, count: nat)
    requires Laid(owner, caps, msi) && 0 < count && pos + count <= |owner| && Tabled(KindAt(owner, pos))
    ensures pos - StartOf(owner, pos) + ChunkLen(owner, pos, count) <= TableLen(KindAt(owner, pos), msi)
  {
    var n := ChunkLen(owner, pos, count);
    ChunkInside(owner, pos, count, n - 1);
    Routed(owner, caps, msi, pos);
    if pos >= HEADER {
      var c :| c in caps && c.Has(pos) && StartOf(owner, pos) == c.start;
      StartOfCap(owner, caps, msi, c, pos);
      CapInTable(owner, caps, msi, c);
      ChunkInCap(owner, caps, msi, c, pos, count, n - 1);
    }
  }

  // A chunk that begins inside a capability stays inside it.
  lemma ChunkInCap(owner: seq<byte>, caps: set<Cap>, msi: MsiFlags, c: Cap, pos: nat, count: nat, k: nat)
    requires Laid(owner, caps, msi) && c in caps && c.Has(pos) && 0 < count && k < ChunkLen(owner, pos, count)
    ensures c.Has(pos + k)
  {
    hide Laid, ChunkLen, KindAt, StartOf;
    ChunkInside(owner, pos, count, k);
    StartOfCap(owner, caps, msi, c, pos);
    if !c.Has(pos + k) {
      // the byte right after the capability would carry its id inside the same dword
      ChunkInside(owner, pos, count, c.start + c.len - pos);
      AfterCap(owner, caps, msi, c);
    }
  }

  // Capabilities start at dword boundaries, so equal neighbours meet at one.
  lemma AfterCap(owner: seq<byte>, caps: set<Cap>, msi: MsiFlags, c: Cap)
    requires Laid(owner, caps, msi) && c in caps && At(owner, c.start + c.len) == c.id
    ensures (c.start + c.len) % 4 == 0
  {
    var e := c.start + c.len;
    CapBytes(owner, caps, msi, c);
    var d: Cap := OwnerOf(owner, caps, msi, e);
    CapBytes(owner, caps, msi, d);
    assert !d.Has(e - 1) by { Disjoint(owner, caps, msi, c, d, e); }
    hide Laid;
  }

  lemma OwnerOf(owner: seq<byte>, caps: set<Cap>, msi: MsiFlags, q: nat) returns (d: Cap)
    requires Laid(owner, caps, msi) && q >= HEADER && At(owner, q) != INVALID
    ensures d in caps && d.Has(q)
  {
    hide Shaped;
    d :| d in caps && d.Has(q);
  }

  lemma Disjoint(owner: seq<byte>, caps: set<Cap>, msi: MsiFlags, c: Cap, d: Cap, e: nat)
    requires Laid(owner, caps, msi) && c in caps && d in caps && e > 0 && c.Has(e - 1) && !c.Has(e) && d.Has(e)
    ensures !d.Has(e - 1)
  {
    hide Mapped, Sized, CapFits;
  }
}
