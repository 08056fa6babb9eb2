/** Which capabilities a guest finds, and how long they are, said by identifier and flag bits as the
    PCI and PCI Express specifications number them. */
module CapLengths {
  import opened Bytes
  import opened PciCaps
  import opened Chains
  import opened StdCapInit
  import opened ExtCapInit
  import opened ConfigInit
  import opened Layout
  import opened ConfigAccess
  import opened GuestRuns
  import opened GuestView

  // ---------------------------------------------------------------- standard capabilities

  // The standard capabilities a guest is to see; a vendor one only if it says how long it is.
  predicate StdKnown(hw: seq<byte>, p: nat) {
    At(hw, p) in {1, 2, 3, 5, 7, 8, 0x10, 0x11, 0x12, 0x13} || (At(hw, p) == 9 && At(hw, p + 2) != 0)
  }

  function KnownStd(hw: seq<byte>, ps: seq<nat>): seq<nat> {
    if ps == [] then [] else (if StdKnown(hw, ps[0]) then [ps[0]] else []) + KnownStd(hw, ps[1..])
  }

  // Lengths by identifier and flags.
  lemma StdLengths(dev: Pdev, hw: seq<byte>, p: nat)
    requires p < STD_SPACE
    ensures var len := LenAt(StdLens(dev, hw), p); var id := At(hw, p);
      && (id == 1 || id == 3 ==> len == 8)                      // power management, VPD
      && (id == 2 || id == 0x11 ==> len == 12)                  // AGP, MSI-X
      && (id == 0x13 ==> len == 6)                              // advanced features
      && (id == 9 ==> len == Num(At(hw, p + 2)))                // vendor specific
      && (id == 7 ==> len == if At(hw, p + 3) & 0x30 == 0 then 8 else 24)      // PCI-X version 0, later
      && (id == 8 ==> len == if At(hw, p + 3) & 0xE0 == 0 then 28 else 24)     // HyperTransport slave, other
      && (id == 0x12 ==> len == if At(hw, p + 4) & 0x0F == 0x0F then 16 else 8) // SATA registers behind it
      && (id == 0x10 && dev.expVersion == 1 ==> len == if dev.rootComplexEndpoint then 12 else 20)
      && (id == 0x10 && dev.expVersion != 1 ==> len == 44)
      && (id !in {1, 2, 3, 5, 7, 8, 9, 0x10, 0x11, 0x12, 0x13} && id != 0 ==> len == 0)
  {
    assert StdLens(dev, hw)[p] == StdLen(dev, hw, p);
  }

  // ... of MSI: 64-bit addresses take a dword, masks and pending bits two more and the padding before.
  lemma MsiLengths(dev: Pdev, hw: seq<byte>, p: nat)
    requires p < STD_SPACE && At(hw, p) == 5
    ensures var len := LenAt(StdLens(dev, hw), p);
      var wide := At(hw, p + 2) & 0x80 != 0; var masked := At(hw, p + 3) & 0x01 != 0;
      && (!wide && !masked ==> len == 10) && (wide && !masked ==> len == 14)
      && (!wide && masked ==> len == 20) && (wide && masked ==> len == 24)
  {
    assert StdLens(dev, hw)[p] == StdLen(dev, hw, p);
  }

  lemma StdKnownLen(dev: Pdev, hw: seq<byte>, p: nat)
    requires p < STD_SPACE && At(hw, p) != 0
    ensures LenAt(StdLens(dev, hw), p) != 0 <==> StdKnown(hw, p)
  {
    StdLengths(dev, hw, p);
    if At(hw, p) == 5 { MsiLengths(dev, hw, p); }
    hide StdLens;
  }

  // What is kept of a well-formed list is what is known, in its order.
  lemma {:induction false} StdKept(dev: Pdev, hw: seq<byte>, ps: seq<nat>)
    requires Placed(StdLens(dev, hw), ps, HEADER, STD_SPACE, 2) && forall p :: p in ps ==> At(hw, p) != 0
    ensures Kept(StdLens(dev, hw), ps) == KnownStd(hw, ps)
    ensures forall p :: p in Kept(StdLens(dev, hw), ps) <==> p in ps && StdKnown(hw, p)
  {
    hide StdLens, StdKnown;
    KeptIn(StdLens(dev, hw), ps);
    forall p | p in ps ensures LenAt(StdLens(dev, hw), p) != 0 <==> StdKnown(hw, p) {
      PlacedAt(StdLens(dev, hw), ps, HEADER, STD_SPACE, 2, p);
      StdKnownLen(dev, hw, p);
    }
    if ps != [] {
      StdKept(dev, hw, ps[1..]);
    }
  }

  lemma StdKeptOf(x: Plugged, ps: seq<nat>, es: seq<nat>)
    requires WellFormed(x, ps, es)
    ensures Kept(x.Lens(), ps) == KnownStd(x.hw, ps)
    ensures forall p :: p in KnownStd(x.hw, ps) <==> p in ps && StdKnown(x.hw, p)
  {
    hide StdLens, ExtLens, StdKnown, NoTwins, AllCaps, FindsExtended;
    StdKept(x.dev, x.hw, ps);
  }

  // A guest that follows the pointers meets exactly the known capabilities of the hardware list, in
  // order and with their identifiers, whatever it did before and however it reads.
  lemma GuestFollowsStd(x: Plugged, ps: seq<nat>, es: seq<nat>, run: seq<Event>, i: nat, pos: nat, count: nat)
    requires WellFormed(x, ps, es) && pos + count <= |x.hw|
    requires var known := KnownStd(x.hw, ps); known != [] && i <= |known|
    ensures var known := KnownStd(x.hw, ps); var t := Run(Opened(x), run);
      && (pos <= Pointer(known, i) < pos + count ==> Num(Got(t, pos, count, Pointer(known, i))) == Entry(known, i))
      && (i < |known| && pos <= known[i] < pos + count ==> Got(t, pos, count, known[i]) == At(x.hw, known[i]))
  {
    StdKeptOf(x, ps, es);
    hide WellFormed, Run, KnownStd, Kept, StdLens, Got;
    var known := KnownStd(x.hw, ps);
    if pos <= Pointer(known, i) < pos + count { StdListFollowed(x, ps, es, run, i, pos, count); }
    if i < |known| && pos <= known[i] < pos + count { StdListIds(x, ps, es, run, i, pos, count); }
  }

  // The status register tells of a list, which begins at 0x34, if and only if something is known.
  lemma GuestToldStd(x: Plugged, ps: seq<nat>, es: seq<nat>, run: seq<Event>, pos: nat, count: nat)
    requires WellFormed(x, ps, es) && pos <= 6 < pos + count && pos + count <= |x.hw|
    ensures Got(Run(Opened(x), run), pos, count, 6) & 0x10 != 0 <==> exists p :: p in ps && StdKnown(x.hw, p)
    ensures Pointer(KnownStd(x.hw, ps), 0) == 0x34
  {
    StdKeptOf(x, ps, es);
    hide WellFormed, Run, KnownStd, Kept, StdLens, Got, Opened, StdKnown;
    StdListAnnounced(x, ps, es, run, pos, count);
    var known := KnownStd(x.hw, ps);
    assert known != [] ==> known[0] in known;
  }

  // A capability of the hardware list is reached if and only if it is known.
  lemma GuestReachesStd(x: Plugged, ps: seq<nat>, es: seq<nat>, p: nat)
    requires WellFormed(x, ps, es) && p in ps
    ensures var known := KnownStd(x.hw, ps);
      StdKnown(x.hw, p) <==> exists i :: 0 <= i < |known| && ReadsAs(x, Pointer(known, i), p)
  {
    hide WellFormed, KnownStd, StdKnown, Run, Got, Opened, Pointer, ReadsAs;
    var known := KnownStd(x.hw, ps);
    StdKeptOf(x, ps, es);
    InSpace(x, ps, es, p);
    if p in known {
      var i :| 0 <= i < |known| && known[i] == p;
      PointerReads(x, ps, es, i, p);
    }
    if i :| 0 <= i < |known| && ReadsAs(x, Pointer(known, i), p) {
      PointerReads(x, ps, es, i, p);
    }
  }

  lemma PointerReads(x: Plugged, ps: seq<nat>, es: seq<nat>, i: nat, p: nat)
    requires WellFormed(x, ps, es) && i < |KnownStd(x.hw, ps)| && x.dev.Valid()
    ensures ReadsAs(x, Pointer(KnownStd(x.hw, ps), i), p) <==> KnownStd(x.hw, ps)[i] == p
  {
    hide WellFormed, KnownStd, StdKnown, Run, Got, Opened, Pointer;
    var q := Pointer(KnownStd(x.hw, ps), i);
    PointerLow(x, ps, es, i);
    GuestFollowsStd(x, ps, es, [], i, q, 1);
    forall run: seq<Event>, pos: nat, count: nat | pos <= q < pos + count && pos + count <= |x.hw|
      ensures Num(Got(Run(Opened(x), run), pos, count, q)) == KnownStd(x.hw, ps)[i]
    {
      GuestFollowsStd(x, ps, es, run, i, pos, count);
    }
  }

  // Every read that covers `q`, after any run, finds `n` there.
  ghost predicate ReadsAs(x: Plugged, q: nat, n: nat)
    requires x.dev.Valid()
  {
    forall run: seq<Event>, pos: nat, count: nat :: pos <= q < pos + count && pos + count <= |x.hw| ==>
      Num(Got(Run(Opened(x), run), pos, count, q)) == n
  }

  lemma InSpace(x: Plugged, ps: seq<nat>, es: seq<nat>, p: nat)
    requires WellFormed(x, ps, es) && p in ps
    ensures HEADER <= p < STD_SPACE && p % 4 == 0 && x.dev.Valid() && STD_SPACE <= |x.hw|
  {
    hide StdLens, ExtLens, NoTwins, AllCaps, FindsExtended;
    PlacedAt(x.Lens(), ps, HEADER, STD_SPACE, 2, p);
  }

  lemma KnownIn(x: Plugged, ps: seq<nat>, es: seq<nat>, i: nat) returns (p: nat)
    requires WellFormed(x, ps, es) && i < |KnownStd(x.hw, ps)|
    ensures p == KnownStd(x.hw, ps)[i] && p in ps && StdKnown(x.hw, p)
  {
    StdKeptOf(x, ps, es);
    hide *;
    p := KnownStd(x.hw, ps)[i];
    assert p in KnownStd(x.hw, ps);
  }

  lemma PointerLow(x: Plugged, ps: seq<nat>, es: seq<nat>, i: nat)
    requires WellFormed(x, ps, es) && i < |KnownStd(x.hw, ps)|
    ensures Pointer(KnownStd(x.hw, ps), i) + 1 <= |x.hw|
  {
    hide KnownStd, WellFormed, StdKnown;
    var known := KnownStd(x.hw, ps);
    var p := KnownIn(x, ps, es, i);
    InSpace(x, ps, es, p);
    if i > 0 {
      var before := KnownIn(x, ps, es, i - 1);
      InSpace(x, ps, es, before);
    }
  }

  // ---------------------------------------------------------------- extended capabilities

  // Identifiers are two bytes; all that are known are below 256.
  predicate HasId(hw: seq<byte>, p: nat, id: byte) { At(hw, p) == id && At(hw, p + 1) == 0 }

  // The extended capabilities a guest is to see; a vendor one only if it says how long it is.
  predicate ExtKnown(hw: seq<byte>, p: nat) {
    At(hw, p + 1) == 0 &&
    (|| At(hw, p) in {1, 2, 3, 4, 8, 9, 0xD, 0xE, 0xF, 0x10, 0x12, 0x13, 0x15, 0x16, 0x17, 0x18}
     || (At(hw, p) == 0xB && (At(hw, p + 6) & 0xF0 != 0 || At(hw, p + 7) != 0)))
  }

  function KnownExt(hw: seq<byte>, es: seq<nat>): seq<nat> {
    if es == [] then [] else (if ExtKnown(hw, es[0]) then [es[0]] else []) + KnownExt(hw, es[1..])
  }

  // Lengths by identifier and flags, of fixed size ...
  lemma ExtLengths(hw: seq<byte>, p: nat)
    requires p < EXT_SPACE
    ensures var len := LenAt(ExtLens(hw), p);
      && (HasId(hw, p, 1) ==> len == 44)                        // advanced error reporting
      && (HasId(hw, p, 3) ==> len == 12)                        // serial number
      && (HasId(hw, p, 4) || HasId(hw, p, 0x13) ==> len == 16)  // power budgeting, page request
      && (HasId(hw, p, 0xE) || HasId(hw, p, 0xF) || HasId(hw, p, 0x18) ==> len == 8) // ARI, ATS, LTR
      && (HasId(hw, p, 0x10) ==> len == 64)                     // SR-IOV
      && (HasId(hw, p, 0x12) ==> len == 40)                     // multicast
      && (At(hw, p + 1) != 0 || At(hw, p) !in {1, 2, 3, 4, 8, 9, 0xB, 0xD, 0xE, 0xF, 0x10, 0x12, 0x13, 0x15, 0x16, 0x17, 0x18} ==>
            len == 0)
  {
    assert ExtLens(hw)[p] == ExtLen(hw, p);
  }

  // ... and of a size the capability gives: vendor specific, resizable BAR, dynamic power allocation.
  lemma ExtCounts(hw: seq<byte>, p: nat)
    requires p < EXT_SPACE
    ensures var len := LenAt(ExtLens(hw), p);
      && (HasId(hw, p, 0xB) ==> len == Num(At(hw, p + 6)) / 16 + 16 * Num(At(hw, p + 7)))
      && (HasId(hw, p, 0x15) ==> len == 4 + 8 * (Num(At(hw, p + 8)) / 32))
      && (HasId(hw, p, 0x16) ==> len == 17 + Num(At(hw, p + 4)) % 32)
  {
    assert ExtLens(hw)[p] == ExtLen(hw, p);
    NibbleUp(At(hw, p + 6));
    TopThree(At(hw, p + 8));
    LowFive(At(hw, p + 4));
    hide Num;
  }

  lemma NibbleUp(b: byte) ensures Num(b >> 4) == Num(b) / 16 {}
  lemma TopThree(b: byte) ensures Num((b & 0xE0) >> 5) == Num(b) / 32 {}
  lemma LowFive(b: byte) ensures Num(b & 0x1F) == Num(b) % 32 {}
  lemma LowThree(b: byte) ensures Num(b & 0x07) == Num(b) % 8 {}

  // Virtual channels: a header, one block for each of the extended channels and the first, and the
  // port's arbitration table of 32, 64 or 128 phases of four bits, on a boundary of 16 bytes.
  lemma VcLengths(hw: seq<byte>, p: nat)
    requires p < EXT_SPACE && (HasId(hw, p, 2) || HasId(hw, p, 8) || HasId(hw, p, 9))
    ensures var len := LenAt(ExtLens(hw), p); var base := 0x10 + 12 * (1 + Num(At(hw, p + 4)) % 8); var arb := At(hw, p + 8);
      && (arb & 0x0E == 0 ==> len == base)
      && (arb & 0x0E != 0 ==>
            var table := if arb & 0x08 != 0 then 64 else if arb & 0x04 != 0 then 32 else 16;
            len % 16 == 0 && base + table <= len < base + table + 16)
  {
    assert ExtLens(hw)[p] == ExtLen(hw, p);
    VcSize(At(hw, p + 4), At(hw, p + 8));
    hide Num, VcLen;
  }

  lemma VcSize(ports: byte, arb: byte)
    ensures var len := VcLen(ports, arb); var base := 0x10 + 12 * (1 + Num(ports) % 8);
      && (arb & 0x0E == 0 ==> len == base)
      && (arb & 0x0E != 0 ==>
            var table := if arb & 0x08 != 0 then 64 else if arb & 0x04 != 0 then 32 else 16;
            len % 16 == 0 && base + table <= len < base + table + 16)
  {
    hide Num, RoundUp;
    LowThree(ports);
    ArbBits(arb);
    var base := 0x10 + 12 * (1 + Num(ports) % 8);
    UpToSixteen(base);
    if arb & 0x08 != 0 {
      assert VcLen(ports, arb) == RoundUp(base, 16) + 64;
    } else if arb & 0x04 != 0 {
      assert VcLen(ports, arb) == RoundUp(base, 16) + 32;
    } else if arb & 0x02 != 0 {
      assert VcLen(ports, arb) == RoundUp(base, 16) + 16;
    }
    hide VcLen;
  }

  lemma UpToSixteen(n: nat)
    ensures RoundUp(n, 16) % 16 == 0 && n <= RoundUp(n, 16) < n + 16
  {
  }

  lemma ArbBits(b: byte)
    ensures b & 0x0E == 0 <==> b & 0x08 == 0 && b & 0x04 == 0 && b & 0x02 == 0
  {
  }

  // Access control: with egress control, a vector of as many bits as its size says, in dwords.
  lemma AcsLengths(hw: seq<byte>, p: nat)
    requires p < EXT_SPACE && HasId(hw, p, 0xD)
    ensures var len := LenAt(ExtLens(hw), p); var bits := if At(hw, p + 5) == 0 then 256 else Num(At(hw, p + 5));
      && (At(hw, p + 4) & 0x20 == 0 ==> len == 8)
      && (At(hw, p + 4) & 0x20 != 0 ==> len % 4 == 0 && bits <= 8 * (len - 8) < bits + 32)
  {
    assert ExtLens(hw)[p] == ExtLen(hw, p);
    assert At(hw, p + 5) == 0 <==> Num(At(hw, p + 5)) == 0;
    hide Num;
    EgressLength(Num(At(hw, p + 5)));
  }

  lemma EgressLength(n: nat)
    ensures var bits := EgressBits(n); bits % 32 == 0 && (if n == 0 then bits == 256 else n <= bits < n + 32)
    ensures 8 * (EgressBits(n) / 8) == EgressBits(n) && EgressBits(n) / 8 % 4 == 0
  {
    var k := if n == 0 then 8 else (n + 31) / 32;
    assert EgressBits(n) == 32 * k;
    hide EgressBits;
    assert EgressBits(n) / 8 == 4 * k;
  }

  // TPH requester: its table, if it has one here, of one more entry than its size field says.
  lemma TphLengths(hw: seq<byte>, p: nat)
    requires p < EXT_SPACE && HasId(hw, p, 0x17)
    ensures var len := LenAt(ExtLens(hw), p);
      len == if At(hw, p + 5) & 0x06 == 0x02 then 12 + 2 * (Num(At(hw, p + 6)) + 256 * (Num(At(hw, p + 7)) % 8) + 1) else 12
  {
    assert ExtLens(hw)[p] == ExtLen(hw, p);
    LowThree(At(hw, p + 7));
    hide Num;
  }

  lemma ExtKnownLen(hw: seq<byte>, p: nat)
    requires p < EXT_SPACE
    ensures LenAt(ExtLens(hw), p) != 0 <==> ExtKnown(hw, p)
  {
    ExtLengths(hw, p);
    ExtCounts(hw, p);
    UpperNibble(At(hw, p + 6));
    assert At(hw, p + 7) == 0 <==> Num(At(hw, p + 7)) == 0;
    hide ExtLens, At, Num;
    if HasId(hw, p, 2) || HasId(hw, p, 8) || HasId(hw, p, 9) { VcLengths(hw, p); }
    if HasId(hw, p, 0xD) { AcsLengths(hw, p); }
    if HasId(hw, p, 0x17) { TphLengths(hw, p); }
  }

  lemma UpperNibble(b: byte) ensures b & 0xF0 == 0 <==> Num(b) / 16 == 0 {}

  lemma {:induction false} ExtKept(hw: seq<byte>, es: seq<nat>)
    requires Placed(ExtLens(hw), es, STD_SPACE, EXT_SPACE, 4)
    ensures Kept(ExtLens(hw), es) == KnownExt(hw, es)
    ensures forall p :: p in Kept(ExtLens(hw), es) <==> p in es && ExtKnown(hw, p)
  {
    hide ExtLens, ExtKnown;
    KeptIn(ExtLens(hw), es);
    forall p | p in es ensures LenAt(ExtLens(hw), p) != 0 <==> ExtKnown(hw, p) {
      PlacedAt(ExtLens(hw), es, STD_SPACE, EXT_SPACE, 4, p);
      ExtKnownLen(hw, p);
    }
    if es != [] {
      ExtKept(hw, es[1..]);
    }
  }

  // What is shown: the known capabilities, after an anchor if the first one is hidden.
  function ShownExt(hw: seq<byte>, es: seq<nat>): seq<nat> {
    (if es != [] && !ExtKnown(hw, es[0]) then [es[0]] else []) + KnownExt(hw, es)
  }

  lemma ExtKeptOf(x: Plugged, ps: seq<nat>, es: seq<nat>)
    requires WellFormed(x, ps, es) && FindsExtended(x.dev, x.hw, ps)
    ensures Kept(x.ELens(), es) == KnownExt(x.hw, es) && Shown(x.ELens(), es) == ShownExt(x.hw, es)
    ensures forall p :: p in KnownExt(x.hw, es) <==> p in es && ExtKnown(x.hw, p)
    ensures forall p :: p in es ==> (LenAt(x.ELens(), p) != 0 <==> ExtKnown(x.hw, p)) && STD_SPACE <= p && p + 4 <= |x.hw| && p % 4 == 0
  {
    hide StdLens, ExtLens, ExtKnown, NoTwins, AllCaps, FindsExtended, KnownExt, Kept;
    ExtKept(x.hw, es);
    forall p | p in es
      ensures (LenAt(x.ELens(), p) != 0 <==> ExtKnown(x.hw, p)) && STD_SPACE <= p && p + 4 <= |x.hw| && p % 4 == 0
    {
      PlacedAt(x.ELens(), es, STD_SPACE, EXT_SPACE, 4, p);
      ExtKnownLen(x.hw, p);
    }
  }

  // Bits 20 to 31 of a header dword, the last two of them ignored.
  function NextOf(b2: byte, b3: byte): nat { 4 * (Num(b2) / 64) + 16 * Num(b3) }

  lemma NextBits(b2: byte, b3: byte)
    ensures NextField(b2, b3) == NextOf(b2, b3)
  {
    assert Num((b2 & 0xC0) >> 4) == 4 * (Num(b2) / 64);
  }

  // A guest that follows the extended list from 0x100, reading each byte of a header when and how it
  // likes, meets exactly the known capabilities in hardware order, with their identifiers, after an
  // anchor without one if the first is hidden; the last points nowhere.
  lemma GuestFollowsExt(x: Plugged, ps: seq<nat>, es: seq<nat>, looks: seq<Look>, i: nat)
    requires WellFormed(x, ps, es) && FindsExtended(x.dev, x.hw, ps)
    requires KnownExt(x.hw, es) != [] && i < |ShownExt(x.hw, es)| && Covers4(looks, ShownExt(x.hw, es)[i], |x.hw|)
    ensures var shown := ShownExt(x.hw, es); var p := shown[i]; var h := SawHeader(x, looks, p);
      && shown[0] == 256
      && (if ExtKnown(x.hw, p) then h[0] == At(x.hw, p) && h[1] == At(x.hw, p + 1) else h[0] == h[1] == 0)
      && (if i + 1 < |shown| then NextOf(h[2], h[3]) == shown[i + 1] else NextOf(h[2], h[3]) < 256)
  {
    ExtKeptOf(x, ps, es);
    hide WellFormed, FindsExtended, KnownExt, ShownExt, Shown, Kept, ExtKnown, Covers4, Saw, ExtLens, At, Num, ExtId, NextField;
    ExtListFollowed(x, ps, es, looks, i);
    var p := ShownExt(x.hw, es)[i];
    var h := SawHeader(x, looks, p);
    ShownPlace(x.hw, es, i);
    HeaderIs(h, x.hw, p);
  }

  lemma ShownPlace(hw: seq<byte>, es: seq<nat>, i: nat)
    requires i < |ShownExt(hw, es)| && forall p :: p in KnownExt(hw, es) <==> p in es && ExtKnown(hw, p)
    ensures ShownExt(hw, es)[i] in es
  {
    assert es != [];
    hide ExtKnown, KnownExt;
    var known := KnownExt(hw, es);
    if ShownExt(hw, es)[i] != es[0] { assert ShownExt(hw, es)[i] in known; }
  }

  // A header of four bytes, and its identifier compared with that of another place.
  lemma HeaderIs(h: seq<byte>, hw: seq<byte>, p: nat)
    requires |h| == 4
    ensures ExtNext(h, 0) == NextOf(h[2], h[3])
    ensures ExtId(h, 0) == ExtId(hw, p) ==> h[0] == At(hw, p) && h[1] == At(hw, p + 1)
    ensures ExtId(h, 0) == 0 ==> h[0] == h[1] == 0
  {
    assert At(h, 0) == h[0] && At(h, 1) == h[1] && At(h, 2) == h[2] && At(h, 3) == h[3];
    NextBits(h[2], h[3]);
    SameWord(h[0], h[1], At(hw, p), At(hw, p + 1));
    SameWord(h[0], h[1], 0, 0);
    assert Num(0) == 0;
    hide NextField, NextOf, Num, At;
  }

  lemma SameWord(lo: byte, hi: byte, lo': byte, hi': byte)
    ensures Num(lo) + 256 * Num(hi) == Num(lo') + 256 * Num(hi') ==> lo == lo' && hi == hi'
  {
    SameNum(lo, lo');
    SameNum(hi, hi');
    hide Num;
  }

  lemma SameNum(a: byte, b: byte)
    ensures Num(a) == Num(b) ==> a == b
  {
  }

  // With none known, a guest finds zeros at 0x100.
  lemma GuestToldExt(x: Plugged, ps: seq<nat>, es: seq<nat>, looks: seq<Look>)
    requires WellFormed(x, ps, es) && FindsExtended(x.dev, x.hw, ps) && Covers4(looks, 256, |x.hw|)
    requires forall p :: p in es ==> !ExtKnown(x.hw, p)
    ensures SawHeader(x, looks, 256) == [0, 0, 0, 0]
  {
    hide WellFormed, FindsExtended, KnownExt, Kept, ExtKnown, Covers4, SawHeader, ExtLens, Shown, ShownExt;
    NoneKept(x, ps, es);
    ExtListEmpty(x, ps, es, looks);
  }

  lemma NoneKept(x: Plugged, ps: seq<nat>, es: seq<nat>)
    requires WellFormed(x, ps, es) && FindsExtended(x.dev, x.hw, ps) && forall p :: p in es ==> !ExtKnown(x.hw, p)
    ensures Kept(x.ELens(), es) == []
  {
    hide *;
    ExtKeptOf(x, ps, es);
    SomeIn(KnownExt(x.hw, es));
  }

  lemma SomeIn(ps: seq<nat>)
    ensures ps != [] ==> exists p :: p in ps
  {
    if ps != [] { assert ps[0] in ps; }
  }

  // The extended list is looked for on 4096-byte functions where something answers at 0x100 and the
  // standard list has a PCI Express capability or a PCI-X one of a later version.
  lemma LooksExtended(dev: Pdev, hw: seq<byte>, ps: seq<nat>)
    requires dev.Valid()
    ensures FindsExtended(dev, hw, ps) <==>
      && dev.cfgSize == 4096
      && (exists q: nat :: 256 <= q < 260 && At(hw, q) != 0)
      && exists p :: p in ps && (At(hw, p) == 0x10 || (At(hw, p) == 7 && At(hw, p + 3) & 0x30 != 0))
  {
    assert forall q: nat :: 256 <= q < 260 && At(hw, q) != 0 ==> q == 256 || q == 257 || q == 258 || q == 259;
    forall p: nat ensures ProbesExtended(hw, p) <==> At(hw, p) == 0x10 || (At(hw, p) == 7 && At(hw, p + 3) & 0x30 != 0) {
      SameNum(At(hw, p), 0x10);
      SameNum(At(hw, p), 7);
    }
    hide ProbesExtended, At;
  }
}
