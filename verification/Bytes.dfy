/** Bytes of configuration space and of device memory.  Multi-byte registers are
    little-endian, so every mask operation of the driver on a 16- or 32-bit register is
    carried out here byte by byte. */
module Bytes {
  type byte = bv8

  // `fresh` where `mask` has a one bit, `old` elsewhere.
  function Merge(was: byte, now: byte, mask: byte): byte {
    (was & !mask) | (now & mask)
  }

  lemma MergeFacts(was: byte, now: byte, other: byte)
    ensures Merge(was, now, 0) == was && Merge(was, now, 0xFF) == now
    ensures Merge(was, was, other) == was
  {
  }

  function Min(a: nat, b: nat): nat { if a <= b then a else b }

  // A read outside the space returns all ones, as a PCI read that nobody claims does.
  function At(bytes: seq<byte>, i: nat): byte {
    if i < |bytes| then bytes[i] else 0xFF
  }

  // `bytes` with `b` at `i`; a write outside changes nothing.
  function Poke(bytes: seq<byte>, i: nat, b: byte): (r: seq<byte>)
    ensures |r| == |bytes|
  {
    if i < |bytes| then bytes[i := b] else bytes
  }

  // `dst` with the bytes of `src` copied over [off, off + n).
  function Copied(dst: seq<byte>, src: seq<byte>, off: nat, n: nat): (r: seq<byte>)
    ensures |r| == |dst|
    ensures forall q :: 0 <= q < |r| ==> r[q] == if off <= q < off + n then At(src, q) else dst[q]
  {
    if n == 0 then dst else Poke(Copied(dst, src, off, n - 1), off + n - 1, At(src, off + n - 1))
  }

  // `dst` with every byte of [off, off + n) set to `b`.
  function Filled(dst: seq<byte>, off: nat, n: nat, b: byte): (r: seq<byte>)
    ensures |r| == |dst|
    ensures forall q :: 0 <= q < |r| ==> r[q] == if off <= q < off + n then b else dst[q]
  {
    if n == 0 then dst else Poke(Filled(dst, off, n - 1, b), off + n - 1, b)
  }

  function Num(b: byte): (n: nat)
    ensures n < 256
  {
    b as nat
  }
}
