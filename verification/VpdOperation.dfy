/** One VPD operation in numbers: a guest writes the address register, and the storage or the data
    register changes accordingly. */
module VpdOperation {
  import opened Bytes
  import opened PciCaps
  import opened StdCapInit
  import opened Layout
  import opened Perms
  import opened ConfigAccess
  import opened ListLinks
  import opened GuestRuns
  import opened VpdHandshake

  // Fifteen bits of address; the sixteenth tells a store.
  function Addressed(lo: byte, hi: byte): nat { Num(lo) + 256 * (Num(hi) % 128) }

  lemma AddressBits(lo: byte, hi: byte)
    ensures VpdAddr(lo, hi) == Addressed(lo, hi)
    ensures VpdF(hi) <==> Num(hi) >= 128
    ensures Num(VpdFlip(hi)) == if Num(hi) >= 128 then Num(hi) - 128 else Num(hi) + 128
  {
    LowSeven(hi);
    TopBit(hi);
    hide Num;
  }

  lemma LowSeven(b: byte) ensures Num(b & 0x7F) == Num(b) % 128 {}
  lemma TopBit(b: byte) ensures b & 0x80 != 0 <==> Num(b) >= 128 ensures Num(b ^ 0x80) == if Num(b) >= 128 then Num(b) - 128 else Num(b) + 128 {}

  // The storage with four bytes replaced.
  predicate Replaced(store: seq<byte>, now: seq<byte>, addr: nat, data: seq<byte>)
    requires |data| == 4
  {
    |now| == |store| && forall i :: 0 <= i < |now| ==> now[i] == if addr <= i < addr + 4 then data[i - addr] else store[i]
  }

  // Four bytes of it, zero past its end.
  predicate Fetched(store: seq<byte>, addr: nat, data: seq<byte>) {
    |data| == 4 && forall k :: 0 <= k < 4 ==> data[k] == if addr + k < |store| then store[addr + k] else 0
  }

  // Storage, data register and upper address byte after an operation: a store of an aligned dword inside
  // the storage happens and clears the sixteenth bit, any other leaves all as it is; a fetch happens if
  // there is storage and sets it.
  predicate Operated(store: seq<byte>, data: seq<byte>, lo: byte, hi: byte, r: Regs)
    requires |data| == 4
  {
    var addr := Addressed(lo, hi);
    if Num(hi) >= 128 then
      if addr % 4 == 0 && addr + 4 <= |store| then Replaced(store, r.store, addr, data) && r.data == data && Num(r.hi) == Num(hi) - 128
      else r.store == store && r.data == data && r.hi == hi
    else if store == [] then r.store == store && r.data == data && r.hi == hi
    else r.store == store && Fetched(store, addr, r.data) && Num(r.hi) == Num(hi) + 128
  }

  lemma OperateExact(store: seq<byte>, data: seq<byte>, lo: byte, hi: byte)
    requires |data| == 4
    ensures Operated(store, data, lo, hi, Operate(store, data, lo, hi))
  {
    AddressBits(lo, hi);
    hide VpdAddr, VpdF, VpdFlip, Addressed, Num;
    PokeExact(store, Addressed(lo, hi), data);
    DwordExact(store, Addressed(lo, hi));
    hide Replaced, Fetched, Poke4, VpdDword;
  }

  lemma PokeExact(store: seq<byte>, addr: nat, data: seq<byte>)
    requires |data| == 4
    ensures addr + 4 <= |store| ==> Replaced(store, Poke4(store, addr, data), addr, data)
  {
  }

  lemma DwordExact(store: seq<byte>, addr: nat)
    ensures Fetched(store, addr, VpdDword(store, addr))
  {
  }

  // An access that ends at the upper address byte, however it is split, performs the operation that the
  // bytes written and the data register ask for.
  lemma AddressWritten(s: Vdev, caps: set<Cap>, c: Cap, pos: nat, bytes: seq<byte>)
    requires Good(s, caps) && VpdCap(caps, c) && c.start + 2 <= pos <= c.start + 3 && pos + |bytes| == c.start + 4
    ensures var t := WriteAccess(s, pos, bytes); var lo := if pos == c.start + 2 then bytes[0] else At(s.vconfig, c.start + 2);
      Operated(s.vpd, Dword(s.vconfig, c.start + 4), lo, bytes[|bytes| - 1], Regs(t.vpd, Dword(t.vconfig, c.start + 4), At(t.vconfig, c.start + 3)))
  {
    hide Good, WriteAccess, VpdCap, Operate, Operated, At;
    TriggerAccess(s, caps, c, pos, bytes);
    var lo := if pos == c.start + 2 then bytes[0] else At(s.vconfig, c.start + 2);
    OperateExact(s.vpd, Dword(s.vconfig, c.start + 4), lo, bytes[|bytes| - 1]);
  }
}
