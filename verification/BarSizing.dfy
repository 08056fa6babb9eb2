/** BAR sizing: what a guest that writes a base address register reads back. */
module BarSizing {
  import opened Bytes
  import opened PciCaps
  import opened StdCapInit
  import opened Layout
  import opened Perms
  import opened Routing
  import opened ConfigAccess
  import opened ListLinks
  import opened GuestRuns
  import opened HardwareBytes
  import opened BarGuard

  predicate Flag64(res: Resource) { res.mem64 && !res.io }

  // Register `i` is not the upper half of a 64-bit one.
  predicate Starts(bars: seq<Resource>, i: nat) {
    i == 0 || i > |bars| || !(Starts(bars, i - 1) && bars[i - 1].mapped && Flag64(bars[i - 1]))
  }

  // Byte b of register `i` as a guest should read it when it last wrote `x` there: base bits
  // above the length, the type flags, and zero for what is not there.
  function Sized(bars: seq<Resource>, i: nat, b: nat, x: byte): byte {
    if i >= |bars| then x
    else if Starts(bars, i) then LowByte(bars[i], b, x) else HighByte(bars[i - 1], b, x)
  }

  function LowByte(res: Resource, b: nat, x: byte): byte {
    if !res.mapped then 0
    else if b == 0 then (x & MaskByte(res.len, 0)) | BarFlags(res)
    else x & MaskByte(res.len, b)
  }

  function HighByte(res: Resource, b: nat, x: byte): byte {
    x & MaskByte(res.len, 4 + b)
  }

  // vfio_bar_fixup takes register `i` for a 64-bit one exactly when it is.
  predicate Faithful(bars: seq<Resource>, i: nat, x: byte)
    requires i < |bars|
  {
    ((x & MaskByte(bars[i].len, 0)) | BarFlags(bars[i])) & 0x04 != 0 <==> Flag64(bars[i])
  }

  // ---------------------------------------------------------------- the fixup, byte by byte

  lemma {:induction false} FixBarsBelow(v: seq<byte>, bars: seq<Resource>, i: nat, q: nat)
    requires q < BarAt(i)
    ensures At(FixBars(v, bars, i), q) == At(v, q)
    decreases 6 - i
  {
    hide BarFlags, BarMasked;
    if i < 6 && i < |bars| {
      var w := BarMasked(v, BarAt(i), bars[i].len, 0, BarFlags(bars[i]));
      BarMaskedAt(v, BarAt(i), bars[i].len, 0, BarFlags(bars[i]), q);
      BarMaskedAt(w, BarAt(i) + 4, bars[i].len, 4, 0, q);
      if !bars[i].mapped {
        FixBarsBelow(Filled(v, BarAt(i), 4, 0), bars, i + 1, q);
      } else if At(w, BarAt(i)) & 0x04 != 0 {
        FixBarsBelow(BarMasked(w, BarAt(i) + 4, bars[i].len, 4, 0), bars, i + 2, q);
      } else {
        FixBarsBelow(w, bars, i + 1, q);
      }
    }
  }

  lemma BarMaskedByte(v: seq<byte>, at: nat, len: bv64, j: nat, flags: byte, b: nat)
    requires j <= 4 && b < 4 && at + 4 <= |v|
    ensures At(BarMasked(v, at, len, j, flags), at + b) ==
      if b == 0 then (At(v, at) & MaskByte(len, j)) | flags else At(v, at + b) & MaskByte(len, j + b)
    ensures |BarMasked(v, at, len, j, flags)| == |v|
  {
    hide MaskByte;
  }

  // One iteration: the buffer with register `i`, and its upper half if it takes it for one, done.
  function Fixed(v: seq<byte>, bars: seq<Resource>, i: nat): seq<byte>
    requires i < |bars|
  {
    var w := BarMasked(v, BarAt(i), bars[i].len, 0, BarFlags(bars[i]));
    if !bars[i].mapped then Filled(v, BarAt(i), 4, 0)
    else if At(w, BarAt(i)) & 0x04 != 0 then BarMasked(w, BarAt(i) + 4, bars[i].len, 4, 0)
    else w
  }

  // Whether that iteration takes the register for a 64-bit one.
  predicate Takes64(v: seq<byte>, bars: seq<Resource>, i: nat)
    requires i < |bars|
  {
    bars[i].mapped && ((At(v, BarAt(i)) & MaskByte(bars[i].len, 0)) | BarFlags(bars[i])) & 0x04 != 0
  }

  lemma FixStep(v: seq<byte>, bars: seq<Resource>, i: nat)
    requires i < |bars| == 6 && 0x2C <= |v|
    ensures FixBars(v, bars, i) == FixBars(Fixed(v, bars, i), bars, if Takes64(v, bars, i) then i + 2 else i + 1)
    ensures |Fixed(v, bars, i)| == |v|
  {
    hide BarFlags, BarMasked, MaskByte;
    BarMaskedByte(v, BarAt(i), bars[i].len, 0, BarFlags(bars[i]), 0);
    var w := BarMasked(v, BarAt(i), bars[i].len, 0, BarFlags(bars[i]));
    BarMaskedByte(w, BarAt(i) + 4, bars[i].len, 4, 0, 0);
  }

  // What that iteration leaves in byte b of register `j`.
  lemma FixedAt(v: seq<byte>, bars: seq<Resource>, i: nat, j: nat, b: nat)
    requires i < |bars| == 6 && j <= 6 && b < 4 && 0x2C <= |v|
    ensures var x := At(v, BarAt(j) + b);
      At(Fixed(v, bars, i), BarAt(j) + b) ==
        if j == i then LowByte(bars[i], b, x)
        else if j == i + 1 && Takes64(v, bars, i) then HighByte(bars[i], b, x)
        else x
  {
    hide BarFlags, BarMasked, MaskByte, LowByte, HighByte, At;
    var len, flags := bars[i].len, BarFlags(bars[i]);
    var w := BarMasked(v, BarAt(i), len, 0, flags);
    TakesIs(v, bars, i);
    LowMasked(v, BarAt(i), bars[i], 0);
    if j == i {
      LowMasked(v, BarAt(i), bars[i], b);
      BarMaskedAt(w, BarAt(i) + 4, len, 4, 0, BarAt(i) + b);
    } else {
      FilledAt(v, BarAt(i), BarAt(j) + b);
      BarMaskedAt(v, BarAt(i), len, 0, flags, BarAt(j) + b);
      if j == i + 1 {
        HighMasked(w, BarAt(i) + 4, bars[i], b);
      } else {
        BarMaskedAt(w, BarAt(i) + 4, len, 4, 0, BarAt(j) + b);
      }
    }
  }

  lemma TakesIs(v: seq<byte>, bars: seq<Resource>, i: nat)
    requires i < |bars| == 6 && 0x2C <= |v|
    ensures Takes64(v, bars, i) ==
      (bars[i].mapped && At(BarMasked(v, BarAt(i), bars[i].len, 0, BarFlags(bars[i])), BarAt(i)) & 0x04 != 0)
  {
    hide BarFlags, BarMasked, MaskByte, At;
    BarMaskedByte(v, BarAt(i), bars[i].len, 0, BarFlags(bars[i]), 0);
  }

  lemma FilledAt(v: seq<byte>, at: nat, q: nat)
    requires q < at || q >= at + 4
    ensures At(Filled(v, at, 4, 0), q) == At(v, q)
  {
  }

  lemma LowMasked(v: seq<byte>, at: nat, res: Resource, b: nat)
    requires b < 4 && at + 4 <= |v|
    ensures res.mapped ==> At(BarMasked(v, at, res.len, 0, BarFlags(res)), at + b) == LowByte(res, b, At(v, at + b))
    ensures !res.mapped ==> At(Filled(v, at, 4, 0), at + b) == LowByte(res, b, At(v, at + b))
    ensures |BarMasked(v, at, res.len, 0, BarFlags(res))| == |v|
  {
    hide BarMasked, MaskByte, BarFlags, At;
    BarMaskedByte(v, at, res.len, 0, BarFlags(res), b);
    Cleared(v, at, b);
    if b == 0 {
      assert at + b == at && 0 + b == 0;
    } else {
      assert 0 + b == b;
    }
  }

  lemma Cleared(v: seq<byte>, at: nat, b: nat)
    requires b < 4 && at + 4 <= |v|
    ensures At(Filled(v, at, 4, 0), at + b) == 0
  {
  }

  lemma HighMasked(v: seq<byte>, at: nat, res: Resource, b: nat)
    requires b < 4 && at + 4 <= |v|
    ensures At(BarMasked(v, at, res.len, 4, 0), at + b) == HighByte(res, b, At(v, at + b))
  {
    BarMaskedByte(v, at, res.len, 4, 0, b);
    OrZero(At(v, at + b) & MaskByte(res.len, 4 + b));
    hide BarMasked, MaskByte;
  }

  lemma OrZero(x: byte)
    ensures x | 0 == x
  {
  }

  // Register `j` reads as it should if no register before it is taken for what it is not.
  lemma {:induction false} FixBarsByte(v: seq<byte>, bars: seq<Resource>, i: nat, j: nat, b: nat)
    requires i <= j < |bars| == 6 && b < 4 && 0x2C <= |v| && Starts(bars, i)
    requires forall k :: i <= k < j && Starts(bars, k) && bars[k].mapped ==> Faithful(bars, k, At(v, BarAt(k)))
    ensures At(FixBars(v, bars, i), BarAt(j) + b) == Sized(bars, j, b, At(v, BarAt(j) + b))
    decreases j - i
  {
    hide BarFlags, MaskByte, FixBars, Fixed, Takes64, At, Faithful, Sized, Flag64;
    var next := if Takes64(v, bars, i) then i + 2 else i + 1;
    var w := Fixed(v, bars, i);
    FixStep(v, bars, i);
    FixedAt(v, bars, i, j, b);
    if j < next {
      FixBarsBelow(w, bars, next, BarAt(j) + b);
      Visited(v, bars, i, j, b);
    } else {
      NextStarts(v, bars, i);
      forall k | next <= k < j ensures At(w, BarAt(k) + 0) == At(v, BarAt(k) + 0) {
        FixedAt(v, bars, i, k, 0);
      }
      FixBarsByte(w, bars, next, j, b);
    }
  }

  lemma NextStarts(v: seq<byte>, bars: seq<Resource>, i: nat)
    requires i < |bars| == 6 && Starts(bars, i) && (bars[i].mapped ==> Faithful(bars, i, At(v, BarAt(i))))
    ensures var next := if Takes64(v, bars, i) then i + 2 else i + 1; next <= 6 ==> Starts(bars, next)
    ensures i + 1 < 6 ==> Starts(bars, i + 1) == !Takes64(v, bars, i)
  {
    hide BarFlags, MaskByte, At;
  }

  // What an iteration leaves in the registers it handles is what they should read as.
  lemma Visited(v: seq<byte>, bars: seq<Resource>, i: nat, j: nat, b: nat)
    requires i <= j < |bars| == 6 && b < 4 && 0x2C <= |v| && Starts(bars, i)
    requires j < if Takes64(v, bars, i) then i + 2 else i + 1
    requires i < j && bars[i].mapped ==> Faithful(bars, i, At(v, BarAt(i)))
    ensures At(Fixed(v, bars, i), BarAt(j) + b) == Sized(bars, j, b, At(v, BarAt(j) + b))
  {
    FixedAt(v, bars, i, j, b);
    if j != i {
      NextStarts(v, bars, i);
    }
    hide LowByte, HighByte, Fixed, Takes64, At, Faithful, Flag64;
  }

  // The fixup changes nothing the second time.
  lemma {:induction false} FixBarsTwice(v: seq<byte>, bars: seq<Resource>, i: nat)
    requires i <= 7 && |bars| == 6 && 0x2C <= |v|
    ensures var u := FixBars(v, bars, i); FixBars(u, bars, i) == u && |u| == |v|
    decreases 7 - i
  {
    FixBarsSize(v, bars, i);
    if i < 6 {
      hide BarFlags, MaskByte, FixBars, Fixed;
      var next := if Takes64(v, bars, i) then i + 2 else i + 1;
      var w := Fixed(v, bars, i);
      FixStep(v, bars, i);
      FixBarsTwice(w, bars, next);
      var u := FixBars(w, bars, next);
      forall q: nat | q < BarAt(next) ensures At(u, q) == At(w, q) {
        FixBarsBelow(w, bars, next, q);
      }
      FixedTwice(v, bars, i, u);
      FixStep(u, bars, i);
    }
  }

  lemma MaskTwice(x: byte, m: byte, f: byte)
    ensures (((x & m) | f) & m) | f == (x & m) | f
    ensures (x & m) & m == x & m
  {
  }

  lemma SizedTwice(res: Resource, b: nat, x: byte)
    requires b < 4
    ensures LowByte(res, b, LowByte(res, b, x)) == LowByte(res, b, x)
    ensures HighByte(res, b, HighByte(res, b, x)) == HighByte(res, b, x)
  {
    LowTwice(res, b, x);
    hide MaskByte, BarFlags, LowByte;
    MaskTwice(x, MaskByte(res.len, 4 + b), 0);
  }

  lemma LowTwice(res: Resource, b: nat, x: byte)
    requires b < 4
    ensures LowByte(res, b, LowByte(res, b, x)) == LowByte(res, b, x)
  {
    hide MaskByte, BarFlags;
    MaskTwice(x, MaskByte(res.len, b), if b == 0 then BarFlags(res) else 0);
  }

  lemma FixedTwice(v: seq<byte>, bars: seq<Resource>, i: nat, u: seq<byte>)
    requires i < |bars| == 6 && 0x2C <= |v| == |u|
    requires forall q: nat :: q < BarAt(if Takes64(v, bars, i) then i + 2 else i + 1) ==> At(u, q) == At(Fixed(v, bars, i), q)
    ensures Takes64(u, bars, i) == Takes64(v, bars, i)
    ensures Fixed(u, bars, i) == u
  {
    hide BarFlags, MaskByte, Fixed;
    var at := BarAt(i);
    FixedAt(v, bars, i, i, 0);
    MaskTwice(At(v, at), MaskByte(bars[i].len, 0), BarFlags(bars[i]));
    assert At(u, at) == At(Fixed(v, bars, i), at);
    assert Takes64(u, bars, i) == Takes64(v, bars, i);
    FixStep(u, bars, i);
    forall q: nat | q < |u| ensures At(Fixed(u, bars, i), q) == At(u, q) {
      FixedTwiceAt(v, bars, i, u, q);
    }
    assert forall q: nat :: q < |u| ==> Fixed(u, bars, i)[q] == At(Fixed(u, bars, i), q) == At(u, q) == u[q];
  }

  lemma FixedOutside(v: seq<byte>, bars: seq<Resource>, i: nat, q: nat)
    requires i < |bars| == 6 && 0x2C <= |v| && (q < BarAt(i) || q >= BarAt(if Takes64(v, bars, i) then i + 2 else i + 1))
    ensures At(Fixed(v, bars, i), q) == At(v, q)
  {
    hide BarFlags, BarMasked, MaskByte;
    var len, flags := bars[i].len, BarFlags(bars[i]);
    BarMaskedByte(v, BarAt(i), len, 0, flags, 0);
    BarMaskedAt(v, BarAt(i), len, 0, flags, q);
    if Takes64(v, bars, i) {
      BarMaskedAt(BarMasked(v, BarAt(i), len, 0, flags), BarAt(i) + 4, len, 4, 0, q);
    }
  }

  lemma FixedTwiceAt(v: seq<byte>, bars: seq<Resource>, i: nat, u: seq<byte>, q: nat)
    requires i < |bars| == 6 && 0x2C <= |v| == |u|
    requires forall q: nat :: q < BarAt(if Takes64(v, bars, i) then i + 2 else i + 1) ==> At(u, q) == At(Fixed(v, bars, i), q)
    requires Takes64(u, bars, i) == Takes64(v, bars, i)
    ensures At(Fixed(u, bars, i), q) == At(u, q)
  {
    hide Fixed, Takes64, At, LowByte, HighByte;
    if BarAt(i) <= q < BarAt(if Takes64(v, bars, i) then i + 2 else i + 1) {
      var j := if q < BarAt(i + 1) then i else i + 1;
      var b := q - BarAt(j);
      FixedAt(v, bars, i, j, b);
      FixedAt(u, bars, i, j, b);
      assert At(u, q) == At(Fixed(v, bars, i), q);
      SizedTwice(bars[i], b, At(v, q));
    } else {
      FixedOutside(u, bars, i, q);
    }
  }

  // Byte b of the ROM register when it held `x`.
  function RomByte(func: Func, b: nat, x: byte): byte {
    if !RomThere(func) then 0 else if b == 0 then RomFirst(x, RomLen(func)) else x & MaskByte(RomLen(func), b)
  }

  lemma RomAt(v: seq<byte>, func: Func, b: nat)
    requires 0x34 <= |v| && b < 4
    ensures At(FixRom(v, func), 0x30 + b) == RomByte(func, b, At(v, 0x30 + b)) && |FixRom(v, func)| == |v|
  {
    hide MaskByte, BarMasked, At, Poke, RomFirst, RomThere, RomLen;
    var len := RomLen(func);
    var w := BarMasked(v, 0x30, len, 0, 0);
    MaskedRest(v, len, b);
    Cleared(v, 0x30, b);
    if b == 0 {
      Poked(w, 0x30, RomFirst(At(v, 0x30), len));
    } else {
      PokeAt(w, 0x30, RomFirst(At(v, 0x30), len), 0x30 + b);
    }
  }

  lemma Poked(v: seq<byte>, i: nat, b: byte)
    requires i < |v|
    ensures At(Poke(v, i, b), i) == b
  {
  }

  lemma MaskedRest(v: seq<byte>, len: bv64, b: nat)
    requires 0x34 <= |v| && b < 4
    ensures var w := BarMasked(v, 0x30, len, 0, 0); |w| == |v| && (b > 0 ==> At(w, 0x30 + b) == At(v, 0x30 + b) & MaskByte(len, b))
  {
    hide MaskByte, BarMasked, At;
    BarMaskedByte(v, 0x30, len, 0, 0, b);
  }

  lemma RomByteTwice(func: Func, b: nat, x: byte)
    ensures RomByte(func, b, RomByte(func, b, x)) == RomByte(func, b, x)
  {
    hide MaskByte;
    MaskTwice(x, if b == 0 then MaskByte(RomLen(func), 0) | 0x01 else MaskByte(RomLen(func), b), 0);
  }

  lemma RomTwice(v: seq<byte>, func: Func)
    requires 0x34 <= |v|
    ensures FixRom(FixRom(v, func), func) == FixRom(v, func) && |FixRom(v, func)| == |v|
  {
    hide FixRom, RomByte;
    var u := FixRom(v, func);
    RomAt(v, func, 0);
    RomAt(u, func, 0);
    forall q: nat | q < |u| ensures At(FixRom(u, func), q) == At(u, q) {
      if 0x30 <= q < 0x34 {
        var b := q - 0x30;
        RomAt(v, func, b);
        RomAt(u, func, b);
        RomByteTwice(func, b, At(v, 0x30 + b));
      } else {
        FixRomAt(u, func, q);
      }
    }
    assert forall q :: 0 <= q < |u| ==> FixRom(u, func)[q] == At(FixRom(u, func), q) == At(u, q) == u[q];
  }

  lemma {:induction false} RomApart(v: seq<byte>, func: Func, q: nat)
    requires q < 0x30 && 0x34 <= |v|
    ensures At(FixRom(v, func), q) == At(v, q)
  {
    hide MaskByte, BarMasked;
    FixRomAt(v, func, q);
  }

  // vfio_bar_fixup is idempotent, whatever the registers hold.
  lemma FixupTwice(s: Vdev)
    requires |s.func.bars| == 6 && HEADER <= |s.vconfig|
    ensures BarFixup(BarFixup(s)) == BarFixup(s)
  {
    hide FixBars, FixRom;
    var u := FixBars(s.vconfig, s.func.bars, 0);
    FixBarsTwice(s.vconfig, s.func.bars, 0);
    var w := FixRom(u, s.func);
    RomTwice(u, s.func);
    FixBarsTwice(w, s.func.bars, 0);
    var x := FixBars(w, s.func.bars, 0);
    forall q: nat | q < |w| ensures At(x, q) == At(w, q) {
      if q < 0x2C { BarsAgree(u, w, s.func, q); } else { FixBarsAt(w, s.func.bars, 0, q); }
    }
    assert forall q :: 0 <= q < |w| ==> x[q] == At(x, q) == At(w, q) == w[q];
    assert x == w;
  }

  // Fixing the registers again, after the ROM, changes none of them.
  lemma BarsAgree(u: seq<byte>, w: seq<byte>, func: Func, q: nat)
    requires |func.bars| == 6 && HEADER <= |u| && w == FixRom(u, func) && FixBars(u, func.bars, 0) == u && q < 0x2C
    ensures At(FixBars(w, func.bars, 0), q) == At(w, q)
  {
    forall r: nat | r < 0x2C ensures At(w, r) == At(u, r) { RomApart(u, func, r); }
    RomTwice(u, func);
    hide FixBars, FixRom;
    SameLow(u, w, func.bars, 0, q);
  }

  // What the fixup leaves in the registers depends on the registers only.
  lemma {:induction false} SameLow(u: seq<byte>, w: seq<byte>, bars: seq<Resource>, i: nat, q: nat)
    requires i <= 7 && |bars| == 6 && |u| == |w| >= HEADER && q < 0x2C && forall r: nat :: r < 0x2C ==> At(w, r) == At(u, r)
    ensures At(FixBars(w, bars, i), q) == At(FixBars(u, bars, i), q)
    decreases 7 - i
  {
    if i < 6 {
      hide FixBars, Fixed, LowByte, HighByte, BarFlags, MaskByte;
      FixStep(u, bars, i);
      FixStep(w, bars, i);
      assert At(w, BarAt(i)) == At(u, BarAt(i));
      forall r: nat | r < 0x2C ensures At(Fixed(w, bars, i), r) == At(Fixed(u, bars, i), r) { FixedLow(u, w, bars, i, r); }
      SameLow(Fixed(u, bars, i), Fixed(w, bars, i), bars, if Takes64(u, bars, i) then i + 2 else i + 1, q);
    }
  }

  lemma FixedLow(u: seq<byte>, w: seq<byte>, bars: seq<Resource>, i: nat, r: nat)
    requires i < |bars| == 6 && |u| == |w| >= HEADER && r < 0x2C && forall r: nat :: r < 0x2C ==> At(w, r) == At(u, r)
    ensures At(Fixed(w, bars, i), r) == At(Fixed(u, bars, i), r)
  {
    hide Fixed, LowByte, HighByte, BarFlags, MaskByte;
    assert At(w, BarAt(i)) == At(u, BarAt(i)) && At(w, r) == At(u, r);
    if r < 0x10 || r >= BarAt(i + 2) {
      FixedOutside(u, bars, i, r);
      FixedOutside(w, bars, i, r);
    } else {
      var j, b := (r - 0x10) / 4, (r - 0x10) % 4;
      assert r == BarAt(j) + b && j <= 6;
      FixedAt(u, bars, i, j, b);
      FixedAt(w, bars, i, j, b);
    }
  }

  // ---------------------------------------------------------------- through the config path

  predicate InBars(q: nat) { 0x10 <= q < 0x28 }

  lemma LowChunkAt(s: Vdev, pos: nat, bytes: seq<byte>, q: nat)
    requires IsBar(q) && 0x34 <= |s.vconfig| == |s.hw|
    ensures At(BasicWrite(s, pos, bytes).vconfig, q) == Put(pos, bytes, q, At(s.vconfig, q))
  {
    hide DefaultWrite, NeedsRestore, BarRestore, Merge, BasicWrite, Write, Virt;
    var s1 := if pos == COMMAND && NeedsRestore(s, At(bytes, 0)) then BarRestore(s) else s;
    BasicOther(s, pos, bytes, q);
    RestoreFrame(s);
    DefaultByte(s1, Basic, 0, pos, bytes, q);
    assert Write(Basic, s1.msi, q) & Virt(Basic, s1.msi, q) == 0xFF by { WholeByte(s1.msi, q); }
    if pos <= q < pos + |bytes| {
      MergeFacts(At(s.vconfig, q), bytes[q - pos], 0);
    }
  }

  lemma WholeByte(msi: MsiFlags, q: nat)
    requires IsBar(q)
    ensures Write(Basic, msi, q) & Virt(Basic, msi, q) == 0xFF
  {
  }

  lemma ChunkBars(s: Vdev, caps: set<Cap>, pos: nat, bytes: seq<byte>, q: nat)
    requires Good(s, caps) && IsBar(q)
    ensures At(WriteChunk(s, pos, bytes).vconfig, q) == Put(pos, bytes, q, At(s.vconfig, q))
  {
    hide KindAt, StartOf, WriteChunk, Layout.Sized, Mapped;
    Routed(s.owner, caps, s.msi, pos);
    if pos < HEADER {
      BasicRoute(s, pos, bytes);
      LowChunkAt(s, pos, bytes, q);
    } else {
      HighStart(s, caps, pos);
      HighChunkVirt(s, StartOf(s.owner, pos), pos, bytes, q);
    }
  }

  // A guest write leaves in the virtual registers the bytes it wrote, however it is chopped.
  lemma {:induction false} WriteBars(s: Vdev, caps: set<Cap>, pos: nat, bytes: seq<byte>, q: nat)
    requires Good(s, caps) && pos + |bytes| <= |s.owner| && IsBar(q)
    ensures var t := WriteAccess(s, pos, bytes);
      && Good(t, caps) && t.func == s.func
      && At(t.vconfig, q) == Put(pos, bytes, q, At(s.vconfig, q))
    decreases |bytes|
  {
    hide WriteChunk, ChunkLen, Laid, At;
    if bytes != [] {
      var n := ChunkLen(s.owner, pos, |bytes|);
      WriteFrame(s, pos, bytes[..n]);
      ChunkBars(s, caps, pos, bytes[..n], q);
      WriteBars(WriteChunk(s, pos, bytes[..n]), caps, pos + n, bytes[n..], q);
    }
  }

  // Every iteration of the fixup takes its register for what it is, whatever the guest wrote.
  ghost predicate AllFaithful(bars: seq<Resource>) {
    |bars| == 6 && forall i, x :: 0 <= i < 5 && Starts(bars, i) && bars[i].mapped ==> Faithful(bars, i, x)
  }

  lemma FaithfulLen(bars: seq<Resource>)
    requires AllFaithful(bars)
    ensures |bars| == 6
  {
  }

  // The virtual byte `q` as the guest sees it.
  function SizedAt(bars: seq<Resource>, q: nat, x: byte): byte {
    if q < 0x10 then x else Sized(bars, (q - 0x10) / 4, (q - 0x10) % 4, x)
  }

  lemma FixupSized(s: Vdev, q: nat)
    requires AllFaithful(s.func.bars) && 0x40 <= |s.vconfig| && InBars(q)
    ensures At(BarFixup(s).vconfig, q) == SizedAt(s.func.bars, q, At(s.vconfig, q))
  {
    hide FixBars, FixRom, Sized, Faithful, At;
    var i, b := (q - 0x10) / 4, (q - 0x10) % 4;
    assert q == BarAt(i) + b;
    FixBarsByte(s.vconfig, s.func.bars, 0, i, b);
    FixRomAt(FixBars(s.vconfig, s.func.bars, 0), s.func, q);
  }

  lemma SizedTwiceAt(bars: seq<Resource>, q: nat, x: byte)
    requires |bars| == 6 && InBars(q)
    ensures SizedAt(bars, q, SizedAt(bars, q, x)) == SizedAt(bars, q, x)
  {
    hide LowByte, HighByte;
    var i, b := (q - 0x10) / 4, (q - 0x10) % 4;
    if Starts(bars, i) { SizedTwice(bars[i], b, x); } else { SizedTwice(bars[i - 1], b, x); }
  }

  // Preparing a chunk leaves a virtual register byte alone or sizes it; a chunk that covers the byte
  // sizes it first and then returns it.
  lemma PrepBars(s: Vdev, caps: set<Cap>, pos: nat, n: nat, q: nat)
    requires Good(s, caps) && AllFaithful(s.func.bars) && InBars(q)
    ensures SizedAt(s.func.bars, q, At(ReadPrep(s, pos, n).vconfig, q)) == SizedAt(s.func.bars, q, At(s.vconfig, q))
    ensures IsBar(pos) ==> At(ReadPrep(s, pos, n).vconfig, q) == SizedAt(s.func.bars, q, At(s.vconfig, q))
  {
    hide KindAt, StartOf, BarFixup, AllFaithful, SizedAt, Layout.Sized, Mapped;
    FixupSized(s, q);
    assert |s.func.bars| == 6 by { FaithfulLen(s.func.bars); }
    SizedTwiceAt(s.func.bars, q, At(s.vconfig, q));
    Routed(s.owner, caps, s.msi, pos);
    if pos >= HEADER { HighStart(s, caps, pos); }
  }

  lemma BarByte(s: Vdev, caps: set<Cap>, pos: nat, count: nat, q: nat)
    requires Good(s, caps) && 0 < count && InBars(q) && pos <= q < pos + ChunkLen(s.owner, pos, count)
    ensures ReadByte(s, pos, ChunkLen(s.owner, pos, count), q - pos) == At(s.vconfig, q) && InBars(pos)
  {
    hide KindAt, StartOf, ChunkLen, Layout.Sized, Mapped, Merge;
    ChunkInside(s.owner, pos, count, q - pos);
    Routed(s.owner, caps, s.msi, pos);
    MergeFacts(At(s.hw, q), At(s.vconfig, q), 0);
  }

  lemma InBarsIs(q: nat)
    requires InBars(q)
    ensures IsBar(q)
  {
  }

  lemma FirstBars(s: Vdev, caps: set<Cap>, pos: nat, count: nat, q: nat)
    requires Good(s, caps) && AllFaithful(s.func.bars) && InBars(q) && 0 < count
    requires pos <= q < pos + ChunkLen(s.owner, pos, count)
    ensures Got(s, pos, count, q) == SizedAt(s.func.bars, q, At(s.vconfig, q))
  {
    var n := ChunkLen(s.owner, pos, count);
    var t := ReadPrep(s, pos, n);
    hide *;
    GotAt(s, pos, count, q);
    ReadPrepFrame(s, pos, n);
    GoodFramed(s, t, caps);
    PrepBars(s, caps, pos, n, q);
    BarByte(t, caps, pos, count, q);
    InBarsIs(pos);
  }

  lemma RestBars(s: Vdev, caps: set<Cap>, pos: nat, n: nat, q: nat)
    requires Good(s, caps) && AllFaithful(s.func.bars) && InBars(q)
    ensures var t := ReadPrep(s, pos, n);
      Good(t, caps) && t.func == s.func && SizedAt(s.func.bars, q, At(t.vconfig, q)) == SizedAt(s.func.bars, q, At(s.vconfig, q))
  {
    hide *;
    ReadPrepFrame(s, pos, n);
    GoodFramed(s, ReadPrep(s, pos, n), caps);
    PrepBars(s, caps, pos, n, q);
  }

  // A read of any position and length returns the sized register bytes.
  lemma {:induction false} ReadBars(s: Vdev, caps: set<Cap>, pos: nat, count: nat, q: nat)
    requires Good(s, caps) && AllFaithful(s.func.bars) && InBars(q) && pos <= q < pos + count
    ensures Got(s, pos, count, q) == SizedAt(s.func.bars, q, At(s.vconfig, q))
    decreases count
  {
    hide *;
    var n := ChunkLen(s.owner, pos, count);
    if q < pos + n {
      FirstBars(s, caps, pos, count, q);
    } else {
      GotAt(s, pos, count, q);
      RestBars(s, caps, pos, n, q);
      ReadBars(ReadPrep(s, pos, n), caps, pos + n, count - n, q);
    }
  }

  // Write anything to a base address register, read it back: the base bits above the length and
  // the type flags, under any chopping of both accesses.
  lemma WriteThenRead(s: Vdev, caps: set<Cap>, pos: nat, bytes: seq<byte>, at: nat, count: nat, q: nat)
    requires Good(s, caps) && AllFaithful(s.func.bars) && InBars(q)
    requires pos <= q < pos + |bytes| && pos + |bytes| <= |s.owner| && at <= q < at + count
    ensures Got(WriteAccess(s, pos, bytes), at, count, q) == SizedAt(s.func.bars, q, bytes[q - pos])
  {
    hide WriteAccess, Got, AllFaithful, SizedAt, Good;
    WriteBars(s, caps, pos, bytes, q);
    ReadBars(WriteAccess(s, pos, bytes), caps, at, count, q);
  }

  // ---------------------------------------------------------------- sizes and bases

  predicate PowerOfTwo(n: bv64) { n != 0 && n & (n - 1) == 0 }

  // Lengths as PCI allows them: at least 4 bytes of I/O, at least 16 of memory.
  predicate Legal(res: Resource) {
    res.mapped ==>
      && PowerOfTwo(res.len)
      && (if res.io then 4 <= res.len else 16 <= res.len)
      && (Flag64(res) || res.len <= 0x8000_0000)
  }

  function Word(b0: byte, b1: byte, b2: byte, b3: byte): bv64 {
    (b0 as bv64) | ((b1 as bv64) << 8) | ((b2 as bv64) << 16) | ((b3 as bv64) << 24)
  }

  function Low(w: bv64): bv64 { w & 0xFFFF_FFFF }

  function High(w: bv64): bv64 { w >> 32 }

  function Pair(low: bv64, high: bv64): bv64 { low | (high << 32) }

  // `w` with the bits below the length cleared.
  function Based(w: bv64, len: bv64): bv64 { w & !(len - 1) }

  predicate Aligned(base: bv64, len: bv64) { base & (len - 1) == 0 }

  function Tagged(w: bv64, f: byte): bv64 { w | (f as bv64) }

  // Reading back `w` byte by byte is masking and tagging it as a whole.
  lemma LowWord(w: bv64, m: bv64, f: byte)
    ensures Word((ByteOf(w, 0) & ByteOf(m, 0)) | f, ByteOf(w, 1) & ByteOf(m, 1), ByteOf(w, 2) & ByteOf(m, 2), ByteOf(w, 3) & ByteOf(m, 3))
      == Tagged(Low(w & m), f)
  {
  }

  lemma HighWord(w: bv64, m: bv64)
    ensures Word(ByteOf(w, 4) & ByteOf(m, 4), ByteOf(w, 5) & ByteOf(m, 5), ByteOf(w, 6) & ByteOf(m, 6), ByteOf(w, 7) & ByteOf(m, 7))
      == High(w & m)
  {
  }

  lemma LowMask(w: bv64, len: bv64, f: byte)
    ensures Word((ByteOf(w, 0) & MaskByte(len, 0)) | f, ByteOf(w, 1) & MaskByte(len, 1), ByteOf(w, 2) & MaskByte(len, 2), ByteOf(w, 3) & MaskByte(len, 3))
      == Tagged(Low(Based(w, len)), f)
  {
    hide ByteOf, Low, Tagged, Word;
    LowWord(w, !(len - 1), f);
  }

  lemma HighMask(w: bv64, len: bv64)
    ensures Word(ByteOf(w, 4) & MaskByte(len, 4), ByteOf(w, 5) & MaskByte(len, 5), ByteOf(w, 6) & MaskByte(len, 6), ByteOf(w, 7) & MaskByte(len, 7))
      == High(Based(w, len))
  {
    hide ByteOf, High, Word;
    HighWord(w, !(len - 1));
  }

  // How a guest sizes a register it wrote all ones to (PCI Local Bus 3.0, section 6.2.5.1).
  function SizeOf32(w: bv64, io: bool): bv64 { Low(!(w & (if io then !3 else !15)) + 1) }

  function SizeOf64(w: bv64): bv64 { !(w & !15) + 1 }

  lemma Size32(len: bv64, f: byte, io: bool)
    requires PowerOfTwo(len) && len <= 0x8000_0000 && (if io then 4 <= len && f == 1 else 16 <= len && f & 0xF0 == 0)
    ensures SizeOf32(Tagged(Low(Based(0xFFFF_FFFF, len)), f), io) == len
  {
  }

  lemma Size64(len: bv64, f: byte)
    requires PowerOfTwo(len) && 16 <= len && f & 0xF0 == 0
    ensures SizeOf64(Tagged(Based(0xFFFF_FFFF_FFFF_FFFF, len), f)) == len
  {
  }

  lemma AlignedBase(base: bv64, len: bv64)
    requires Aligned(base, len)
    ensures Based(base, len) == base
  {
  }

  lemma Joined(w: bv64, f: byte)
    ensures Pair(Tagged(Low(w), f), High(w)) == Tagged(w, f)
  {
  }

  lemma FlagsSmall(res: Resource)
    ensures BarFlags(res) & 0xF0 == 0 && (res.io ==> BarFlags(res) == 1)
  {
  }

  // Byte b of register `i`: in the virtual copy, and as a dword read returns it.
  function Kept(s: Vdev, i: nat, b: nat): byte { At(s.vconfig, BarAt(i) + b) }
  function Read(s: Vdev, i: nat, b: nat): byte { Got(s, BarAt(i), 4, BarAt(i) + b) }

  // The four bytes read at register `i`, as a number.
  function Read32(s: Vdev, i: nat): bv64 { Word(Read(s, i, 0), Read(s, i, 1), Read(s, i, 2), Read(s, i, 3)) }

  // The guest writes the low or high half of `w` to register `i`.
  function Wrote(s: Vdev, i: nat, w: bv64, high: nat): Vdev { WriteAccess(s, BarAt(i), Bytes4(w, high)) }

  function Bytes4(w: bv64, high: nat): (r: seq<byte>)
    ensures |r| == 4
  {
    [ByteOf(w, high), ByteOf(w, high + 1), ByteOf(w, high + 2), ByteOf(w, high + 3)]
  }

  lemma Bytes4At(w: bv64, high: nat, b: nat)
    requires b < 4
    ensures Bytes4(w, high)[b] == ByteOf(w, high + b)
  {
    hide ByteOf;
    if b == 0 {} else if b == 1 {} else if b == 2 {} else {}
  }

  lemma SizedAtIs(bars: seq<Resource>, i: nat, b: nat, x: byte)
    requires |bars| == 6 && i < 6 && b < 4
    ensures InBars(BarAt(i) + b) && SizedAt(bars, BarAt(i) + b, x) == Sized(bars, i, b, x)
  {
    assert (4 * i + b) / 4 == i && (4 * i + b) % 4 == b;
    hide Sized;
  }

  // Register `i` holds the half of `w` that begins at byte `high`.
  ghost predicate Holds(s: Vdev, i: nat, w: bv64, high: nat) {
    forall b: nat :: b < 4 ==> Kept(s, i, b) == ByteOf(w, high + b)
  }

  // Byte b of that half as a guest should read it back.
  function SizedOf(bars: seq<Resource>, i: nat, w: bv64, high: nat, b: nat): byte { Sized(bars, i, b, ByteOf(w, high + b)) }

  function SizedWord(bars: seq<Resource>, i: nat, w: bv64, high: nat): bv64 {
    Word(SizedOf(bars, i, w, high, 0), SizedOf(bars, i, w, high, 1), SizedOf(bars, i, w, high, 2), SizedOf(bars, i, w, high, 3))
  }

  lemma ReadOne(s: Vdev, caps: set<Cap>, i: nat, w: bv64, high: nat, b: nat)
    requires Good(s, caps) && AllFaithful(s.func.bars) && i < 6 && b < 4 && Holds(s, i, w, high)
    ensures Read(s, i, b) == SizedOf(s.func.bars, i, w, high, b)
  {
    assert Kept(s, i, b) == ByteOf(w, high + b);
    assert |s.func.bars| == 6;
    hide AllFaithful, Good, SizedAt, Sized, Got, ByteOf, At, Holds, BarAt;
    SizedAtIs(s.func.bars, i, b, At(s.vconfig, BarAt(i) + b));
    BarRange(i, b);
    ReadBars(s, caps, BarAt(i), 4, BarAt(i) + b);
  }

  lemma Read32Is(s: Vdev, caps: set<Cap>, i: nat, w: bv64, high: nat)
    requires Good(s, caps) && AllFaithful(s.func.bars) && i < 6 && Holds(s, i, w, high)
    ensures Read32(s, i) == SizedWord(s.func.bars, i, w, high)
  {
    hide Good, AllFaithful, Holds, Read, SizedOf, Word;
    ReadOne(s, caps, i, w, high, 0);
    ReadOne(s, caps, i, w, high, 1);
    ReadOne(s, caps, i, w, high, 2);
    ReadOne(s, caps, i, w, high, 3);
  }

  lemma WroteByte(s: Vdev, caps: set<Cap>, i: nat, w: bv64, high: nat, j: nat, b: nat)
    requires Good(s, caps) && i < 6 && j < 6 && b < 4
    ensures var t := Wrote(s, i, w, high);
      && Good(t, caps) && t.func == s.func
      && Kept(t, j, b) == if j == i then ByteOf(w, high + b) else Kept(s, j, b)
  {
    assert |s.owner| >= 64;
    BarRange(j, b);
    PutAt(i, w, high, j, b, At(s.vconfig, BarAt(j) + b));
    hide WriteAccess, Good, ByteOf, At, Bytes4, Put, BarAt;
    WriteBars(s, caps, BarAt(i), Bytes4(w, high), BarAt(j) + b);
  }

  lemma PutAt(i: nat, w: bv64, high: nat, j: nat, b: nat, was: byte)
    requires b < 4
    ensures Put(BarAt(i), Bytes4(w, high), BarAt(j) + b, was) == if j == i then ByteOf(w, high + b) else was
  {
    hide ByteOf, Bytes4;
    Bytes4At(w, high, b);
  }

  lemma WroteHolds(s: Vdev, caps: set<Cap>, i: nat, w: bv64, high: nat)
    requires Good(s, caps) && i < 6
    ensures var t := Wrote(s, i, w, high); Good(t, caps) && t.func == s.func && Holds(t, i, w, high)
    ensures forall j, w', high' :: j < 6 && j != i && Holds(s, j, w', high') ==> Holds(Wrote(s, i, w, high), j, w', high')
  {
    hide Wrote, Good, Kept, ByteOf;
    WroteByte(s, caps, i, w, high, i, 0);
    forall j: nat, b: nat | j < 6 && b < 4
      ensures Kept(Wrote(s, i, w, high), j, b) == if j == i then ByteOf(w, high + b) else Kept(s, j, b)
    {
      WroteByte(s, caps, i, w, high, j, b);
    }
  }

  lemma BarRange(i: nat, b: nat)
    requires i < 6 && b < 4
    ensures InBars(BarAt(i) + b)
  {
  }

  lemma LowSized(bars: seq<Resource>, i: nat, w: bv64)
    requires i < |bars| && Starts(bars, i) && bars[i].mapped
    ensures SizedWord(bars, i, w, 0) == Tagged(Low(Based(w, bars[i].len)), BarFlags(bars[i]))
  {
    hide Low, Word, BarFlags, ByteOf, Tagged, MaskByte, Based;
    LowMask(w, bars[i].len, BarFlags(bars[i]));
  }

  lemma HighSized(bars: seq<Resource>, i: nat, w: bv64)
    requires i + 1 < |bars| && Starts(bars, i) && bars[i].mapped && Flag64(bars[i])
    ensures SizedWord(bars, i + 1, w, 4) == High(Based(w, bars[i].len))
  {
    hide High, Word, BarFlags, ByteOf, Flag64, MaskByte, Based;
    HighMask(w, bars[i].len);
  }

  // Register `i` of a device that can be sized is there, begins a range and is given to the guest.
  ghost predicate Sizable(s: Vdev, caps: set<Cap>, i: nat) {
    Good(s, caps) && AllFaithful(s.func.bars) && i < 6 && s.func.bars[i].mapped && Starts(s.func.bars, i)
  }

  // Whatever a guest writes to a 32-bit register, it reads back the base bits its length decodes,
  // with the type flags.
  lemma ReadsBack32(s: Vdev, caps: set<Cap>, i: nat, w: bv64)
    requires Sizable(s, caps, i)
    ensures var res := s.func.bars[i]; Read32(Wrote(s, i, w, 0), i) == Tagged(Low(Based(w, res.len)), BarFlags(res))
  {
    var bars := s.func.bars;
    assert Good(s, caps) && AllFaithful(bars) && i < 6 && bars[i].mapped && Starts(bars, i);
    hide *;
    WroteHolds(s, caps, i, w, 0);
    Read32Is(Wrote(s, i, w, 0), caps, i, w, 0);
    LowSized(bars, i, w);
  }

  // ... and to the two halves of a 64-bit register, in order.
  lemma ReadsBack64(s: Vdev, caps: set<Cap>, i: nat, w: bv64)
    requires Sizable(s, caps, i) && i < 5 && Flag64(s.func.bars[i])
    ensures var t := Wrote(Wrote(s, i, w, 0), i + 1, w, 4); var res := s.func.bars[i];
      && Read32(t, i) == Tagged(Low(Based(w, res.len)), BarFlags(res))
      && Read32(t, i + 1) == High(Based(w, res.len))
  {
    var bars := s.func.bars;
    assert Good(s, caps) && AllFaithful(bars) && bars[i].mapped && Starts(bars, i) && |bars| == 6;
    hide *;
    var t := Wrote(s, i, w, 0);
    var u := Wrote(t, i + 1, w, 4);
    WroteHolds(s, caps, i, w, 0);
    WroteHolds(t, caps, i + 1, w, 4);
    assert Holds(u, i, w, 0);
    Read32Is(u, caps, i, w, 0);
    Read32Is(u, caps, i + 1, w, 4);
    LowSized(bars, i, w);
    HighSized(bars, i, w);
  }

  // Sizing: all ones written, the length read back.
  lemma GuestSizes32(s: Vdev, caps: set<Cap>, i: nat)
    requires Sizable(s, caps, i) && Legal(s.func.bars[i]) && !Flag64(s.func.bars[i])
    ensures SizeOf32(Read32(Wrote(s, i, 0xFFFF_FFFF, 0), i), s.func.bars[i].io) == s.func.bars[i].len
  {
    var res := s.func.bars[i];
    hide Wrote, Read32, Good, AllFaithful, BarFlags, SizeOf32;
    ReadsBack32(s, caps, i, 0xFFFF_FFFF);
    FlagsSmall(res);
    Size32(res.len, BarFlags(res), res.io);
  }

  lemma GuestSizes64(s: Vdev, caps: set<Cap>, i: nat)
    requires Sizable(s, caps, i) && i < 5 && Legal(s.func.bars[i]) && Flag64(s.func.bars[i])
    ensures var ones := 0xFFFF_FFFF_FFFF_FFFF; var t := Wrote(Wrote(s, i, ones, 0), i + 1, ones, 4);
      SizeOf64(Pair(Read32(t, i), Read32(t, i + 1))) == s.func.bars[i].len
  {
    var res := s.func.bars[i];
    FlagsSmall(res);
    assert !res.io;
    hide Wrote, Read32, Good, AllFaithful, SizeOf64, Low, Flag64;
    ReadsBack64(s, caps, i, 0xFFFF_FFFF_FFFF_FFFF);
    Joined(Based(0xFFFF_FFFF_FFFF_FFFF, res.len), BarFlags(res));
    Size64(res.len, BarFlags(res));
    hide BarFlags;
  }

  // An aligned base reads back as it was written, with the type flags.
  lemma GuestPlaces32(s: Vdev, caps: set<Cap>, i: nat, base: bv64)
    requires Sizable(s, caps, i) && Aligned(base, s.func.bars[i].len)
    ensures Read32(Wrote(s, i, base, 0), i) == Tagged(Low(base), BarFlags(s.func.bars[i]))
  {
    AlignedBase(base, s.func.bars[i].len);
    hide *;
    ReadsBack32(s, caps, i, base);
  }

  lemma GuestPlaces64(s: Vdev, caps: set<Cap>, i: nat, base: bv64)
    requires Sizable(s, caps, i) && i < 5 && Flag64(s.func.bars[i]) && Aligned(base, s.func.bars[i].len)
    ensures var t := Wrote(Wrote(s, i, base, 0), i + 1, base, 4);
      Pair(Read32(t, i), Read32(t, i + 1)) == Tagged(base, BarFlags(s.func.bars[i]))
  {
    var res := s.func.bars[i];
    AlignedBase(base, res.len);
    hide *;
    ReadsBack64(s, caps, i, base);
    Joined(base, BarFlags(res));
  }

  // ---------------------------------------------------------------- where sizing goes wrong

  // The fixup sizes every register, whatever the guest wrote.
  ghost predicate SizesAll(bars: seq<Resource>)
    requires |bars| == 6
  {
    forall v, q: nat :: |v| == 64 && InBars(q) ==> At(FixBars(v, bars, 0), q) == SizedAt(bars, q, At(v, q))
  }

  // A register of four bytes of I/O: its address bit 2 passes for the 64-bit memory flag.
  predicate Tiny(bars: seq<Resource>, i: nat)
    requires i < |bars|
  {
    Starts(bars, i) && bars[i].mapped && bars[i].io && bars[i].len == 4
  }

  lemma FaithfulUnlessTiny(bars: seq<Resource>, i: nat, x: byte)
    requires i < |bars| && Starts(bars, i) && bars[i].mapped && Legal(bars[i]) && !Tiny(bars, i)
    ensures Faithful(bars, i, x)
  {
    if !Flag64(bars[i]) {
      LenAboveFour(bars[i].len, x);
    }
    hide MaskByte, Starts;
  }

  lemma LenAboveFour(len: bv64, x: byte)
    requires PowerOfTwo(len) && len > 4
    ensures x & MaskByte(len, 0) & 0x04 == 0
  {
  }

  // What the sizing theorems ask of the registers is exactly that none is tiny.
  lemma FaithfulExact(bars: seq<Resource>)
    requires |bars| == 6 && forall i :: 0 <= i < 6 ==> Legal(bars[i])
    ensures AllFaithful(bars) <==> forall i :: 0 <= i < 5 ==> !Tiny(bars, i)
  {
    hide Legal, Tiny, Starts, Faithful;
    if i :| 0 <= i < 5 && Tiny(bars, i) {
      TinyUnfaithful(bars, i);
    } else {
      forall i, x | 0 <= i < 5 && Starts(bars, i) && bars[i].mapped ensures Faithful(bars, i, x) {
        FaithfulUnlessTiny(bars, i, x);
      }
    }
  }

  lemma TinyUnfaithful(bars: seq<Resource>, i: nat)
    requires i < |bars| && Tiny(bars, i)
    ensures !Faithful(bars, i, 0xFF) && Starts(bars, i) && bars[i].mapped
  {
  }

  lemma {:induction false} Mistaken(v: seq<byte>, bars: seq<Resource>, i: nat, j: nat)
    requires i <= j < 5 && |bars| == 6 && 0x2C <= |v| && Starts(bars, i) && Starts(bars, j)
    requires forall k :: i <= k < j && Starts(bars, k) && bars[k].mapped ==> Faithful(bars, k, At(v, BarAt(k)))
    requires Takes64(v, bars, j)
    ensures At(FixBars(v, bars, i), BarAt(j + 1)) == HighByte(bars[j], 0, At(v, BarAt(j + 1)))
    decreases j - i
  {
    hide BarFlags, MaskByte, FixBars, Fixed, At, Faithful, Flag64, HighByte, LowByte;
    var next := if Takes64(v, bars, i) then i + 2 else i + 1;
    var w := Fixed(v, bars, i);
    FixStep(v, bars, i);
    FixedAt(v, bars, i, j + 1, 0);
    if i == j {
      FixBarsBelow(w, bars, next, BarAt(j + 1) + 0);
    } else {
      NextStarts(v, bars, i);
      forall k | next <= k <= j ensures At(w, BarAt(k) + 0) == At(v, BarAt(k) + 0) {
        FixedAt(v, bars, i, k, 0);
      }
      FixedAt(v, bars, i, j, 0);
      Mistaken(w, bars, next, j);
    }
  }

  // All ones in register `i` and the next one, zeros elsewhere.
  function Ones(i: nat): seq<byte> { Filled(Zeros(64), BarAt(i), 8, 0xFF) }

  function Zeros(n: nat): (r: seq<byte>)
    ensures |r| == n && forall k :: 0 <= k < n ==> r[k] == 0
  {
    if n == 0 then [] else Zeros(n - 1) + [0]
  }

  // A copy with all ones in such a register and the next one, and zeros before them, leaves the next
  // one unsized.
  lemma TinyTaints(v: seq<byte>, bars: seq<Resource>, i: nat)
    requires i < 5 && |bars| == 6 && Tiny(bars, i) && Legal(bars[i + 1]) && 0x2C <= |v|
    requires At(v, BarAt(i)) == 0xFF == At(v, BarAt(i + 1)) && forall k :: 0 <= k < i ==> At(v, BarAt(k)) == 0
    ensures At(FixBars(v, bars, 0), BarAt(i + 1)) != SizedAt(bars, BarAt(i + 1), 0xFF)
  {
    StartsZero(bars);
    Starts0(bars, i);
    TinyTaken(v, bars, i);
    hide *;
    SizedStart(bars, i + 1, 0xFF);
    NotAllOnes(bars[i + 1]);
    forall k | 0 <= k < i && Starts(bars, k) && bars[k].mapped ensures Faithful(bars, k, At(v, BarAt(k))) {
      ZeroFaithful(bars, k);
    }
    Mistaken(v, bars, 0, i);
  }

  // A guest clears its registers, writes all ones to such a register and the next one, and reads the
  // next one back: its first byte is not that of a sized register.
  lemma TinyBreaks(s: Vdev, caps: set<Cap>, i: nat)
    requires Good(s, caps) && |s.func.bars| == 6 && i < 5 && Tiny(s.func.bars, i) && Legal(s.func.bars[i + 1])
    ensures var t := WriteAccess(WriteAccess(s, 0x10, Zeros(24)), BarAt(i), AllOnes());
      Got(t, BarAt(i + 1), 4, BarAt(i + 1)) != SizedAt(s.func.bars, BarAt(i + 1), 0xFF)
  {
    var z := WriteAccess(s, 0x10, Zeros(24));
    var t := WriteAccess(z, BarAt(i), AllOnes());
    assert |s.owner| >= 64;
    hide Good, WriteAccess, Got, Tiny, Legal, SizedAt, FixBars, Zeros, AllOnes;
    forall k: nat | k <= i + 1
      ensures Good(t, caps) && t.func == s.func && At(t.vconfig, BarAt(k)) == if k < i then 0 else 0xFF
    {
      WriteBars(s, caps, 0x10, Zeros(24), BarAt(k));
      WriteBars(z, caps, BarAt(i), AllOnes(), BarAt(k));
    }
    assert Good(t, caps) && At(t.vconfig, BarAt(i)) == 0xFF == At(t.vconfig, BarAt(i + 1));
    CopySize(t, caps);
    TinyTaints(t.vconfig, s.func.bars, i);
    BarRead(t, caps, i + 1);
  }

  function AllOnes(): (r: seq<byte>)
    ensures |r| == 8 && forall k :: 0 <= k < 8 ==> r[k] == 0xFF
  {
    [0xFF, 0xFF, 0xFF, 0xFF, 0xFF, 0xFF, 0xFF, 0xFF]
  }

  lemma CopySize(s: Vdev, caps: set<Cap>)
    requires Good(s, caps)
    ensures 64 <= |s.vconfig|
  {
  }

  // The first byte a guest reads of a register is the fixed one.
  lemma BarRead(s: Vdev, caps: set<Cap>, i: nat)
    requires Good(s, caps) && i < 6
    ensures Got(s, BarAt(i), 4, BarAt(i)) == At(FixBars(s.vconfig, s.func.bars, 0), BarAt(i))
  {
    var pos := BarAt(i);
    var n := ChunkLen(s.owner, pos, 4);
    var t := ReadPrep(s, pos, n);
    Routed(s.owner, caps, s.msi, pos);
    hide Good, ChunkLen, Got, ReadByte, KindAt, StartOf, FixBars, FixRom;
    GotAt(s, pos, 4, pos);
    ReadPrepFrame(s, pos, n);
    GoodFramed(s, t, caps);
    BarByte(t, caps, pos, 4, pos);
    FixRomAt(FixBars(s.vconfig, s.func.bars, 0), s.func, pos);
  }

  lemma OnesAt(i: nat)
    requires i < 5
    ensures |Ones(i)| == 64 && At(Ones(i), BarAt(i)) == 0xFF == At(Ones(i), BarAt(i + 1))
    ensures forall k :: 0 <= k < i ==> At(Ones(i), BarAt(k)) == 0
  {
  }

  lemma ZeroFaithful(bars: seq<Resource>, i: nat)
    requires i < |bars|
    ensures Faithful(bars, i, 0)
  {
  }

  lemma SizedStart(bars: seq<Resource>, i: nat, x: byte)
    requires i < |bars| == 6 && Starts(bars, i)
    ensures SizedAt(bars, BarAt(i), x) == LowByte(bars[i], 0, x)
  {
    hide LowByte, HighByte, SizedAt, Starts;
    SizedAtIs(bars, i, 0, x);
  }

  lemma Starts0(bars: seq<Resource>, i: nat)
    requires i < 5 && |bars| == 6 && Tiny(bars, i)
    ensures Starts(bars, i) && Starts(bars, i + 1) && HighByte(bars[i], 0, 0xFF) == 0xFF
  {
  }

  lemma TinyTaken(v: seq<byte>, bars: seq<Resource>, i: nat)
    requires i < |bars| && Tiny(bars, i) && At(v, BarAt(i)) == 0xFF
    ensures Takes64(v, bars, i)
  {
  }

  lemma NotAllOnes(res: Resource)
    requires Legal(res)
    ensures LowByte(res, 0, 0xFF) != 0xFF
  {
  }

  lemma StartsZero(bars: seq<Resource>)
    ensures Starts(bars, 0)
  {
  }

  // Sizing works for every register and every guest exactly when no register before the last one
  // is four bytes of I/O.
  lemma SizingExact(bars: seq<Resource>)
    requires |bars| == 6 && forall i :: 0 <= i < 6 ==> Legal(bars[i])
    ensures SizesAll(bars) <==> forall i :: 0 <= i < 5 ==> !Tiny(bars, i)
  {
    hide Legal, FixBars, Sized, Tiny, Starts, At;
    if i :| 0 <= i < 5 && Tiny(bars, i) {
      OnesAt(i);
      TinyTaints(Ones(i), bars, i);
      assert |Ones(i)| == 64 && InBars(BarAt(i + 1));
    } else {
      StartsZero(bars);
      forall v, q: nat | |v| == 64 && InBars(q) ensures At(FixBars(v, bars, 0), q) == SizedAt(bars, q, At(v, q)) {
        var j := (q - 0x10) / 4;
        forall k | 0 <= k < j && Starts(bars, k) && bars[k].mapped ensures Faithful(bars, k, At(v, BarAt(k))) {
          FaithfulUnlessTiny(bars, k, At(v, BarAt(k)));
        }
        FixBarsByte(v, bars, 0, j, (q - 0x10) % 4);
      }
    }
  }
}
