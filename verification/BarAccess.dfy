/** Guest access to a BAR around an excluded window: the widening copy loop of
    device/vfio_pci_rdwr.c and the byte-wise meaning it refines. */
module BarAccess {
  import opened Bytes

  // One access to device memory.
  datatype Access = Access(off: nat, width: nat)

  predicate Excluded(q: nat, xStart: nat, xEnd: nat) { xStart <= q < xEnd }

  // Naturally aligned, inside [lo, hi) and clear of the window.
  predicate Proper(a: Access, lo: nat, hi: nat, xStart: nat, xEnd: nat) {
    && a.width in {1, 2, 4} && a.off % a.width == 0 && lo <= a.off && a.off + a.width <= hi
    && (a.off + a.width <= xStart || xEnd <= a.off || xEnd <= xStart)
  }

  // The accesses of `trace`, in order, touch every byte of [lo, hi) outside the window exactly once
  // and no other byte.
  ghost predicate Tiles(trace: seq<Access>, lo: nat, hi: nat, xStart: nat, xEnd: nat)
    decreases |trace|
  {
    if trace == [] then forall q :: lo <= q < hi ==> Excluded(q, xStart, xEnd)
    else
      var a := trace[|trace| - 1];
      && Proper(a, lo, hi, xStart, xEnd)
      && Tiles(trace[..|trace| - 1], lo, a.off, xStart, xEnd)
      && forall q :: a.off + a.width <= q < hi ==> Excluded(q, xStart, xEnd)
  }

  lemma TilesMore(trace: seq<Access>, lo: nat, mid: nat, a: Access, xStart: nat, xEnd: nat)
    requires Tiles(trace, lo, mid, xStart, xEnd) && lo <= mid == a.off && Proper(a, lo, a.off + a.width, xStart, xEnd)
    ensures Tiles(trace + [a], lo, a.off + a.width, xStart, xEnd)
  {
    assert (trace + [a])[..|trace|] == trace;
  }

  lemma TilesSkip(trace: seq<Access>, lo: nat, mid: nat, hi: nat, xStart: nat, xEnd: nat)
    requires Tiles(trace, lo, mid, xStart, xEnd) && mid <= hi && forall q :: mid <= q < hi ==> Excluded(q, xStart, xEnd)
    ensures Tiles(trace, lo, hi, xStart, xEnd)
  {
  }

  lemma ProperChunk(lo: nat, at: nat, width: nat, fillable: nat, xStart: nat, xEnd: nat)
    requires width in {1, 2, 4} && at % width == 0 && width <= fillable && lo <= at
    requires fillable == 0 || at >= xEnd || at + fillable <= xStart
    ensures Proper(Access(at, width), lo, at + width, xStart, xEnd)
  {
  }

  // Each access is aligned and clear of the window, and they come in ascending order without overlap.
  lemma {:induction false} TilesOrdered(trace: seq<Access>, lo: nat, hi: nat, xStart: nat, xEnd: nat, i: nat, j: nat)
    requires Tiles(trace, lo, hi, xStart, xEnd) && i < j < |trace|
    ensures trace[i].off + trace[i].width <= trace[j].off
    ensures Proper(trace[i], lo, hi, xStart, xEnd) && Proper(trace[j], lo, hi, xStart, xEnd)
    decreases |trace|
  {
    var n := |trace| - 1;
    TilesProper(trace, lo, hi, xStart, xEnd, i);
    TilesProper(trace, lo, hi, xStart, xEnd, j);
    if j < n {
      TilesOrdered(trace[..n], lo, trace[n].off, xStart, xEnd, i, j);
    } else {
      TilesProper(trace[..n], lo, trace[n].off, xStart, xEnd, i);
    }
  }

  lemma {:induction false} TilesProper(trace: seq<Access>, lo: nat, hi: nat, xStart: nat, xEnd: nat, i: nat)
    requires Tiles(trace, lo, hi, xStart, xEnd) && i < |trace|
    ensures Proper(trace[i], lo, hi, xStart, xEnd)
    decreases |trace|
  {
    var n := |trace| - 1;
    if i < n {
      TilesProper(trace[..n], lo, trace[n].off, xStart, xEnd, i);
    }
  }

  // What a read of `count` bytes at `off` returns.
  function ReadOut(mem: seq<byte>, off: nat, count: nat, xStart: nat, xEnd: nat): (r: seq<byte>)
    ensures |r| == count
    ensures forall i :: 0 <= i < count ==> r[i] == if Excluded(off + i, xStart, xEnd) then 0xFF else At(mem, off + i)
  {
    if count == 0 then []
    else
      var q := off + count - 1;
      ReadOut(mem, off, count - 1, xStart, xEnd) + [if Excluded(q, xStart, xEnd) then 0xFF else At(mem, q)]
  }

  // What a write of `bytes` at `off` leaves in memory.
  function WriteIn(mem: seq<byte>, off: nat, bytes: seq<byte>, xStart: nat, xEnd: nat): (r: seq<byte>)
    ensures |r| == |mem|
    ensures forall q :: 0 <= q < |mem| ==>
      r[q] == if off <= q < off + |bytes| && !Excluded(q, xStart, xEnd) then bytes[q - off] else mem[q]
  {
    if bytes == [] then mem
    else
      var n := |bytes| - 1;
      var rest := WriteIn(mem, off, bytes[..n], xStart, xEnd);
      if Excluded(off + n, xStart, xEnd) then rest else Poke(rest, off + n, bytes[n])
  }

  // The widest access that is aligned at `at` and not longer than `fillable`.
  function Width(at: nat, fillable: nat): (n: nat)
    requires fillable > 0
    ensures n in {1, 2, 4} && n <= fillable && at % n == 0
    ensures (n < 4 ==> fillable < 4 || at % 4 != 0) && (n < 2 ==> fillable < 2 || at % 2 != 0)
  {
    if fillable >= 4 && at % 4 == 0 then 4 else if fillable >= 2 && at % 2 == 0 then 2 else 1
  }

  // Bytes that the next access may cover: up to the window, past it, or none inside it.
  function Fillable(off: nat, count: nat, xStart: nat, xEnd: nat): nat {
    if off < xStart then Min(count, xStart - off) else if off >= xEnd then count else 0
  }

  // No wider access would do at its place: unaligned, past the end `hi` or across the start of the window.
  predicate Widest(a: Access, hi: nat, xStart: nat) {
    forall w :: w in {2, 4} && w > a.width ==> a.off % w != 0 || a.off + w > hi || a.off < xStart < a.off + w
  }

  ghost predicate AllWidest(trace: seq<Access>, hi: nat, xStart: nat) {
    forall i :: 0 <= i < |trace| ==> Widest(trace[i], hi, xStart)
  }

  lemma WidthWidest(at: nat, count: nat, xStart: nat, xEnd: nat)
    requires Fillable(at, count, xStart, xEnd) > 0
    ensures Widest(Access(at, Width(at, Fillable(at, count, xStart, xEnd))), at + count, xStart)
  {
  }

  lemma TilesChunk(trace: seq<Access>, lo: nat, at: nat, width: nat, count: nat, xStart: nat, xEnd: nat)
    requires Tiles(trace, lo, at, xStart, xEnd) && lo <= at
    requires width in {1, 2, 4} && at % width == 0 && width <= Fillable(at, count, xStart, xEnd)
    ensures Tiles(trace + [Access(at, width)], lo, at + width, xStart, xEnd)
  {
    ProperChunk(lo, at, width, Fillable(at, count, xStart, xEnd), xStart, xEnd);
    TilesMore(trace, lo, at, Access(at, width), xStart, xEnd);
  }

  // do_io_rw on a read: `trace` is the accesses it makes.
  method ReadLoop(io: array<byte>, buf: array<byte>, off: nat, count: nat, xStart: nat, xEnd: nat)
    returns (done: nat, ghost trace: seq<Access>)
    requires io != buf && off + count <= io.Length && count <= buf.Length
    modifies buf
    ensures done == count
    ensures buf[..count] == ReadOut(io[..], off, count, xStart, xEnd)
    ensures buf[count..] == old(buf[count..])
    ensures Tiles(trace, off, off + count, xStart, xEnd) && AllWidest(trace, off + count, xStart)
  {
    done, trace := 0, [];
    ghost var was := buf[..];
    assert Tiles(trace, off, off, xStart, xEnd) && Filled(io[..], was, buf[..], off, 0, xStart, xEnd);
    hide Tiles, Filled;
    while done < count
      invariant done <= count
      invariant Filled(io[..], was, buf[..], off, done, xStart, xEnd)
      invariant Tiles(trace, off, off + done, xStart, xEnd) && AllWidest(trace, off + count, xStart)
    {
      var filled: nat;
      filled, trace := ReadStep(io, buf, off, done, count, xStart, xEnd, was, trace);
      done := done + filled;
    }
    FilledAll(io[..], was, buf[..], off, count, xStart, xEnd);
  }

  // One turn of the loop.
  method ReadStep(io: array<byte>, buf: array<byte>, off: nat, done: nat, count: nat, xStart: nat, xEnd: nat, ghost was: seq<byte>, ghost trace: seq<Access>)
    returns (filled: nat, ghost trace': seq<Access>)
    requires io != buf && done < count <= buf.Length == |was| && off + count <= io.Length
    requires Filled(io[..], was, buf[..], off, done, xStart, xEnd) && Tiles(trace, off, off + done, xStart, xEnd)
    requires AllWidest(trace, off + count, xStart)
    modifies buf
    ensures AllWidest(trace', off + count, xStart)
    ensures 0 < filled <= count - done
    ensures Filled(io[..], was, buf[..], off, done + filled, xStart, xEnd) && Tiles(trace', off, off + done + filled, xStart, xEnd)
  {
    hide Tiles, Filled, Width, Widest;
    var at := off + done;
    ghost var now := buf[..];
    var fillable := Fillable(at, count - done, xStart, xEnd);
    if fillable > 0 {
      filled := Width(at, fillable);
      trace' := trace + [Access(at, filled)];
      TilesChunk(trace, off, at, filled, count - done, xStart, xEnd);
      WidthWidest(at, count - done, xStart, xEnd);
      CopyOut(io, at, buf, done, filled);
      FilledMore(io[..], was, now, buf[..], off, done, filled, fillable, count, xStart, xEnd);
    } else {
      filled := Min(count - done, xEnd - at);
      trace' := trace;
      TilesSkip(trace, off, at, at + filled, xStart, xEnd);
      FillOnes(buf, done, filled);
      FilledSkip(io[..], was, now, buf[..], off, done, filled, xStart, xEnd);
    }
  }

  // `now` is `was` with the first `done` bytes read, ones inside the window.
  ghost predicate Filled(mem: seq<byte>, was: seq<byte>, now: seq<byte>, off: nat, done: nat, xStart: nat, xEnd: nat) {
    && |now| == |was| && done <= |was| && off + done <= |mem|
    && forall i :: 0 <= i < |was| ==>
         now[i] == if i >= done then was[i] else if Excluded(off + i, xStart, xEnd) then 0xFF else mem[off + i]
  }

  lemma FilledMore(mem: seq<byte>, was: seq<byte>, now: seq<byte>, next: seq<byte>, off: nat, done: nat, n: nat, fillable: nat, count: nat, xStart: nat, xEnd: nat)
    requires Filled(mem, was, now, off, done, xStart, xEnd) && done <= count && n <= fillable == Fillable(off + done, count - done, xStart, xEnd)
    requires |next| == |now| && done + n <= |was| && off + done + n <= |mem|
    requires forall i :: 0 <= i < |now| ==> next[i] == if done <= i < done + n then mem[off + done + (i - done)] else now[i]
    ensures Filled(mem, was, next, off, done + n, xStart, xEnd)
  {
  }

  lemma FilledSkip(mem: seq<byte>, was: seq<byte>, now: seq<byte>, next: seq<byte>, off: nat, done: nat, n: nat, xStart: nat, xEnd: nat)
    requires Filled(mem, was, now, off, done, xStart, xEnd) && xStart <= off + done && off + done + n <= xEnd
    requires |next| == |now| && done + n <= |was| && off + done + n <= |mem|
    requires forall i :: 0 <= i < |now| ==> next[i] == if done <= i < done + n then 0xFF else now[i]
    ensures Filled(mem, was, next, off, done + n, xStart, xEnd)
  {
  }

  lemma FilledAll(mem: seq<byte>, was: seq<byte>, now: seq<byte>, off: nat, count: nat, xStart: nat, xEnd: nat)
    requires Filled(mem, was, now, off, count, xStart, xEnd)
    ensures now[..count] == ReadOut(mem, off, count, xStart, xEnd) && now[count..] == was[count..]
  {
  }

  // copy_to_user of what one access read.
  method CopyOut(io: array<byte>, at: nat, buf: array<byte>, pos: nat, n: nat)
    requires io != buf && at + n <= io.Length && pos + n <= buf.Length
    modifies buf
    ensures forall i :: 0 <= i < buf.Length ==> buf[i] == if pos <= i < pos + n then io[at + (i - pos)] else old(buf[i])
  {
    for k := 0 to n
      invariant forall i :: 0 <= i < buf.Length ==> buf[i] == if pos <= i < pos + k then io[at + (i - pos)] else old(buf[i])
    {
      buf[pos + k] := io[at + k];
    }
  }

  method FillOnes(buf: array<byte>, pos: nat, n: nat)
    requires pos + n <= buf.Length
    modifies buf
    ensures forall i :: 0 <= i < buf.Length ==> buf[i] == if pos <= i < pos + n then 0xFF else old(buf[i])
  {
    for k := 0 to n
      invariant forall i :: 0 <= i < buf.Length ==> buf[i] == if pos <= i < pos + k then 0xFF else old(buf[i])
    {
      buf[pos + k] := 0xFF;
    }
  }

  // do_io_rw on a write.
  method WriteLoop(io: array<byte>, bytes: seq<byte>, off: nat, xStart: nat, xEnd: nat)
    returns (done: nat, ghost trace: seq<Access>)
    requires off + |bytes| <= io.Length
    modifies io
    ensures done == |bytes|
    ensures io[..] == WriteIn(old(io[..]), off, bytes, xStart, xEnd)
    ensures Tiles(trace, off, off + |bytes|, xStart, xEnd) && AllWidest(trace, off + |bytes|, xStart)
  {
    done, trace := 0, [];
    ghost var was := io[..];
    assert Tiles(trace, off, off, xStart, xEnd) && Partly(was, io[..], off, bytes, 0, xStart, xEnd);
    hide Tiles, Partly;
    while done < |bytes|
      invariant done <= |bytes|
      invariant Partly(was, io[..], off, bytes, done, xStart, xEnd)
      invariant Tiles(trace, off, off + done, xStart, xEnd) && AllWidest(trace, off + |bytes|, xStart)
    {
      var filled: nat;
      filled, trace := WriteStep(io, bytes, off, done, xStart, xEnd, was, trace);
      done := done + filled;
    }
    PartlyAll(was, io[..], off, bytes, xStart, xEnd);
  }

  // One turn of the loop.
  method WriteStep(io: array<byte>, bytes: seq<byte>, off: nat, done: nat, xStart: nat, xEnd: nat, ghost was: seq<byte>, ghost trace: seq<Access>)
    returns (filled: nat, ghost trace': seq<Access>)
    requires done < |bytes| && off + |bytes| <= io.Length
    requires Partly(was, io[..], off, bytes, done, xStart, xEnd) && Tiles(trace, off, off + done, xStart, xEnd)
    requires AllWidest(trace, off + |bytes|, xStart)
    modifies io
    ensures AllWidest(trace', off + |bytes|, xStart)
    ensures 0 < filled <= |bytes| - done
    ensures Partly(was, io[..], off, bytes, done + filled, xStart, xEnd) && Tiles(trace', off, off + done + filled, xStart, xEnd)
  {
    hide Tiles, Partly, Width, Widest;
    var at := off + done;
    ghost var now := io[..];
    var fillable := Fillable(at, |bytes| - done, xStart, xEnd);
    if fillable > 0 {
      filled := Width(at, fillable);
      trace' := trace + [Access(at, filled)];
      TilesChunk(trace, off, at, filled, |bytes| - done, xStart, xEnd);
      WidthWidest(at, |bytes| - done, xStart, xEnd);
      CopyIn(io, at, bytes[done..done + filled]);
      PartlyMore(was, now, io[..], off, bytes, done, filled, fillable, xStart, xEnd);
    } else {
      filled := Min(|bytes| - done, xEnd - at);
      trace' := trace;
      TilesSkip(trace, off, at, at + filled, xStart, xEnd);
      PartlySkip(was, now, off, bytes, done, filled, xStart, xEnd);
    }
  }

  // `now` is `was` with the first `done` bytes written outside the window.
  ghost predicate Partly(was: seq<byte>, now: seq<byte>, off: nat, bytes: seq<byte>, done: nat, xStart: nat, xEnd: nat) {
    && |now| == |was| && done <= |bytes|
    && forall q :: 0 <= q < |was| ==>
         now[q] == if off <= q < off + done && !Excluded(q, xStart, xEnd) then bytes[q - off] else was[q]
  }

  lemma PartlyMore(was: seq<byte>, now: seq<byte>, next: seq<byte>, off: nat, bytes: seq<byte>, done: nat, n: nat, fillable: nat, xStart: nat, xEnd: nat)
    requires Partly(was, now, off, bytes, done, xStart, xEnd) && n <= fillable == Fillable(off + done, |bytes| - done, xStart, xEnd) && |next| == |now|
    requires forall q :: 0 <= q < |now| ==> next[q] == if off + done <= q < off + done + n then bytes[done..][q - off - done] else now[q]
    ensures Partly(was, next, off, bytes, done + n, xStart, xEnd)
  {
  }

  lemma PartlySkip(was: seq<byte>, now: seq<byte>, off: nat, bytes: seq<byte>, done: nat, n: nat, xStart: nat, xEnd: nat)
    requires Partly(was, now, off, bytes, done, xStart, xEnd) && xStart <= off + done && off + done + n <= xEnd && done + n <= |bytes|
    ensures Partly(was, now, off, bytes, done + n, xStart, xEnd)
  {
  }

  lemma PartlyAll(was: seq<byte>, now: seq<byte>, off: nat, bytes: seq<byte>, xStart: nat, xEnd: nat)
    requires Partly(was, now, off, bytes, |bytes|, xStart, xEnd) && off + |bytes| <= |was|
    ensures now == WriteIn(was, off, bytes, xStart, xEnd)
  {
  }

  // One access of the width of `bytes`.
  method CopyIn(io: array<byte>, at: nat, bytes: seq<byte>)
    requires at + |bytes| <= io.Length
    modifies io
    ensures forall q :: 0 <= q < io.Length ==> io[q] == if at <= q < at + |bytes| then bytes[q - at] else old(io[q])
  {
    for k := 0 to |bytes|
      invariant forall q :: 0 <= q < io.Length ==> io[q] == if at <= q < at + k then bytes[q - at] else old(io[q])
    {
      io[at + k] := bytes[k];
    }
  }
}
