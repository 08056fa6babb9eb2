/** What each request on a BAR does, case by case: refusals with their errors, and otherwise every byte
    of device memory and every entry of the registry afterwards. */
module BarOutcomes {
  import opened Bytes
  import opened BarAccess
  import opened BarRegions

  // Bytes behind BAR `bar`; the sixth is the ROM, or its 128 KiB shadow.
  function Behind(b: Bars, bar: nat): nat
    requires b.Valid() && bar <= 6
  {
    if b.ranges[bar].mapped then b.ranges[bar].len else if bar == 6 && b.shadow then 0x2_0000 else 0
  }

  // A byte no access reaches: in the MSI-X table, or past the contents of the ROM.
  predicate Shut(b: Bars, bar: nat, q: nat) {
    if bar == b.msixBar then b.msixOffset <= q < b.msixOffset + b.msixSize else bar == 6 && b.romSize <= q
  }

  // Whether an access at `pos` is refused: nothing is there, or the host cannot map it.
  function Refused(b: Bars, bar: nat, pos: nat, host: int): int
    requires b.Valid() && bar <= 6
  {
    if pos >= Behind(b, bar) then -22 else if host != 0 then (if bar == 6 then -12 else host) else 0
  }

  lemma SameRefusal(b: Bars, bar: nat, pos: nat, host: int)
    requires b.Valid() && bar <= 6
    ensures BarError(b, bar, pos, host) == Refused(b, bar, pos, host) && b.End(bar) == Behind(b, bar)
  {
  }

  // A read stops at the end of the BAR; shut bytes read as ones.
  lemma ReadOutcome(s: State, bar: nat, pos: nat, count: nat, host: int)
    requires s.Valid() && bar <= 6
    ensures var (rc, bytes) := Read(s, bar, pos, count, host); var left := Behind(s.bars, bar) - pos;
      if Refused(s.bars, bar, pos, host) != 0 then rc == Refused(s.bars, bar, pos, host) && bytes == []
      else
        && |bytes| == rc == (if count <= left then count else left) && |s.mem[bar]| == Behind(s.bars, bar)
        && forall i :: 0 <= i < |bytes| ==> bytes[i] == if Shut(s.bars, bar, pos + i) then 0xFF else s.mem[bar][pos + i]
  {
    SameRefusal(s.bars, bar, pos, host);
    hide ReadOut;
  }

  // A write too; shut bytes and all others stay.  The ROM cannot be written.
  lemma WriteOutcome(s: State, bar: nat, pos: nat, bytes: seq<byte>, host: int)
    requires s.Valid() && bar <= 6
    ensures var (t, rc) := Write(s, bar, pos, bytes, host); var left := Behind(s.bars, bar) - pos;
      if bar == 6 then t == s && rc == -22
      else if Refused(s.bars, bar, pos, host) != 0 then t == s && rc == Refused(s.bars, bar, pos, host)
      else
        && rc == (if |bytes| <= left then |bytes| else left)
        && t == s.(mem := t.mem) && |t.mem| == 7 && (forall b :: 0 <= b < 7 && b != bar ==> t.mem[b] == s.mem[b])
        && |t.mem[bar]| == |s.mem[bar]|
        && forall q :: 0 <= q < |t.mem[bar]| ==>
             t.mem[bar][q] == if pos <= q < pos + rc && !Shut(s.bars, bar, q) then bytes[q - pos] else s.mem[bar][q]
  {
    SameRefusal(s.bars, bar, pos, host);
    hide WriteIn;
  }

  // A registered eventfd that is signalled writes the first `count` bytes of its data, and no others.
  lemma SignalOutcome(s: State, i: nat)
    requires s.Valid() && Registered(s)
    ensures var t := Step(s, Signal(i));
      if i >= |s.entries| then t == s
      else
        var e := s.entries[i];
        && t == s.(mem := t.mem) && |t.mem| == 7 && e.bar <= 5 && e.count <= |e.data|
        && (forall b :: 0 <= b < 7 && b != e.bar ==> t.mem[b] == s.mem[b])
        && |t.mem[e.bar]| == |s.mem[e.bar]|
        && forall q :: 0 <= q < |t.mem[e.bar]| ==>
             t.mem[e.bar][q] == if e.pos <= q < e.pos + e.count then e.data[q - e.pos] else s.mem[e.bar][q]
  {
    if i < |s.entries| { assert EntryOk(s.bars, s.entries[i]); }
    hide WriteIn;
  }

  // Why registering or removing a write is refused before the list is looked at: its size, its place or
  // the table it would touch, then what the host says.
  function Unfit(b: Bars, k: Entry, fd: int, host: Host): int
    requires b.Valid()
  {
    if k.count !in {1, 2, 4, 8} || fd < -1 || k.bar > 5 || k.pos + k.count > b.ranges[k.bar].len then -22
    else if k.bar == b.msixBar && k.pos < b.msixOffset + b.msixSize && b.msixOffset < k.pos + k.count then -22
    else if k.count == 8 && !b.has64 then -22
    else if !b.ranges[k.bar].mapped then -12
    else host.map'
  }

  // Of the registry: a new write goes first, a known one is refused or, with fd -1, taken out, and all
  // others stay in order.
  lemma RegistryOutcome(s: State, k: Entry, fd: int, host: Host)
    requires s.Valid() && Registered(s) && |k.data| == 8
    ensures var (t, rc) := Ioeventfd(s, k.bar, k.pos, k.data, k.count, fd, host); var unfit := Unfit(s.bars, k, fd, host);
      && t == s.(entries := t.entries, nr := t.nr) && t.nr == |t.entries|
      && if unfit != 0 then t.entries == s.entries && rc == unfit
         else if k in s.entries && fd == -1 then
           rc == 0 && exists i :: 0 <= i < |s.entries| && s.entries[i] == k && t.entries == s.entries[..i] + s.entries[i + 1..]
         else if k in s.entries then t.entries == s.entries && rc == -17
         else if fd == -1 then t.entries == s.entries && rc == -19
         else if |s.entries| >= 1000 then t.entries == s.entries && rc == -28
         else if !host.mem then t.entries == s.entries && rc == -12
         else if host.enable != 0 then t.entries == s.entries && rc == host.enable
         else rc == 0 && t.entries == [k] + s.entries
  {
    var n := Find(s.entries, k, 0);
    assert k in s.entries <==> n < |s.entries|;
    hide Find;
  }
}
