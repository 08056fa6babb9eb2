/** A function that meets what the other modules assume of the hardware: power management at 64,
    an id the driver hides at 72, MSI at 80, VPD at 96 and PCI Express at 128, then in extended space a
    hidden first capability and a serial number. */
module SampleDevice {
  import opened Bytes
  import opened PciCaps
  import opened Chains
  import opened StdCapInit
  import opened ExtCapInit
  import opened ConfigInit
  import opened Layout
  import opened ConfigAccess
  import opened GuestView
  import BarSizing
  import VpdHandshake
  import CommandSync
  import GuestRuns

  const LIST: seq<nat> := [64, 72, 80, 96, 128]
  const EXT_LIST: seq<nat> := [256, 320]
  const HIDDEN_ID: byte := 0x0C

  function Uniform(b: byte): (r: seq<byte>)
    ensures |r| == EXT_SPACE && forall q :: 0 <= q < EXT_SPACE ==> r[q] == b
  {
    seq(EXT_SPACE, (q: nat) => b)
  }

  // The registers, with `command` in the upper byte of COMMAND.
  function Registers(command: byte): (hw: seq<byte>)
    ensures |hw| == EXT_SPACE && hw[COMMAND + 1] == command
    ensures hw[STATUS] == STATUS_CAP_LIST && hw[CAPABILITY_LIST] == 64
    ensures hw[64] == 1 && hw[65] == 72 && hw[72] == HIDDEN_ID && hw[73] == 80
    ensures hw[80] == 5 && hw[81] == 96 && hw[82] == 0 && hw[83] == 0 && hw[96] == 3 && hw[97] == 128
    ensures hw[128] == 0x10 && hw[129] == 0
    ensures hw[256] == 5 && hw[257] == 0 && hw[258] == 0 && hw[259] == 20 // a hidden id, next at 320
    ensures hw[320] == 3 && hw[321] == 0 && hw[322] == 0 && hw[323] == 0
  {
    var a := Uniform(0)[COMMAND + 1 := command][STATUS := STATUS_CAP_LIST][CAPABILITY_LIST := 64];
    var b := a[64 := 1][65 := 72][72 := HIDDEN_ID][73 := 80][80 := 5][81 := 96][96 := 3][97 := 128][128 := 0x10];
    b[256 := 5][259 := 20][320 := 3]
  }

  const Memory64 := Resource(true, 0x1_0000, false, false, true)
  const FourPorts := Resource(true, 4, true, false, false)

  // The device, with `bar` behind its first base address register.
  function Sample(command: byte, bar: Resource): Plugged {
    var none := Resource(false, 0, false, false, false);
    Plugged(Pdev(EXT_SPACE, 2, false, false, false, [0, 0, 0, 0]), Func(false, false, [bar, none, none, none, none, none], none, false),
            Registers(command), Uniform(0xFF), [1, 2, 3, 4], Uniform(0xFF), Uniform(0xFF))
  }

  lemma SampleLens(command: byte, bar: Resource)
    ensures var lens := Sample(command, bar).Lens();
      |lens| == STD_SPACE && lens[64] == 8 && lens[72] == 0 && lens[80] == 10 && lens[96] == 8 && lens[128] == 44
  {
    var x := Sample(command, bar);
    assert x.hw == Registers(command);
    assert 0 as byte & 0x80 == 0 && 0 as byte & 0x01 == 0;
  }

  lemma SampleExtLens(command: byte, bar: Resource)
    ensures var elens := Sample(command, bar).ELens(); |elens| == EXT_SPACE && elens[256] == 0 && elens[320] == 12
  {
    assert Sample(command, bar).hw == Registers(command);
  }

  lemma SampleChain(command: byte)
    ensures StdChain(Registers(command), 64, LIST)
  {
    var hw := Registers(command);
    assert StdChain(hw, 0, []);
    hide Registers;
    StdChainCons(hw, 128, []);
    StdChainCons(hw, 96, [128]);
    StdChainCons(hw, 80, [96, 128]);
    StdChainCons(hw, 72, [80, 96, 128]);
    StdChainCons(hw, 64, [72, 80, 96, 128]);
    assert [64] + ([72] + ([80] + ([96] + ([128] + [])))) == LIST;
  }

  lemma SampleExtChain(command: byte)
    ensures ExtChain(Registers(command), 256, EXT_LIST) && ExtId(Registers(command), 256) == 5
  {
    var hw := Registers(command);
    assert NextField(0, 20) == 320 && NextField(0, 0) == 0;
    hide Registers, NextField;
    assert ExtNext(hw, 256) == 320 && ExtNext(hw, 320) == 0;
    assert ExtChain(hw, 0, []);
    ExtChainCons(hw, 320, []);
    ExtChainCons(hw, 256, [320]);
    assert [256] + ([320] + []) == EXT_LIST;
  }

  lemma PlacedCons(lens: seq<nat>, p: nat, rest: seq<nat>, lo: nat, hi: nat, min: nat)
    requires Placed(lens, rest, lo, hi, min) && lo <= p < hi && p % 4 == 0 && p !in rest
    requires LenAt(lens, p) != 0 ==> min <= LenAt(lens, p) && p + LenAt(lens, p) <= hi
    requires forall r :: r in rest ==> p + LenAt(lens, p) <= r
    ensures Placed(lens, [p] + rest, lo, hi, min) && Kept(lens, [p] + rest) == (if LenAt(lens, p) == 0 then [] else [p]) + Kept(lens, rest)
  {
    assert ([p] + rest)[1..] == rest;
    forall q | Covers(lens, p, q) ensures Uncovered(lens, rest, q) { }
    hide Placed, Kept;
  }

  lemma PlacedTail(lens: seq<nat>)
    requires |lens| == STD_SPACE && lens[80] == 10 && lens[96] == 8 && lens[128] == 44
    ensures Placed(lens, [80, 96, 128], HEADER, STD_SPACE, 2) && Kept(lens, [80, 96, 128]) == [80, 96, 128]
  {
    assert Placed(lens, [], HEADER, STD_SPACE, 2) && Kept(lens, []) == [];
    hide Placed, Kept;
    PlacedCons(lens, 128, [], HEADER, STD_SPACE, 2);
    PlacedCons(lens, 96, [128], HEADER, STD_SPACE, 2);
    PlacedCons(lens, 80, [96, 128], HEADER, STD_SPACE, 2);
    assert [80] + ([96] + ([128] + [])) == [80, 96, 128];
  }

  lemma SamplePlaced(lens: seq<nat>)
    requires |lens| == STD_SPACE && lens[64] == 8 && lens[72] == 0 && lens[80] == 10 && lens[96] == 8 && lens[128] == 44
    ensures Placed(lens, LIST, HEADER, STD_SPACE, 2) && Kept(lens, LIST) == [64, 80, 96, 128]
  {
    hide Placed, Kept;
    PlacedTail(lens);
    PlacedCons(lens, 72, [80, 96, 128], HEADER, STD_SPACE, 2);
    assert [72] + [80, 96, 128] == [72, 80, 96, 128] && [64] + [72, 80, 96, 128] == LIST;
    PlacedCons(lens, 64, [72, 80, 96, 128], HEADER, STD_SPACE, 2);
  }

  lemma SampleExtPlaced(elens: seq<nat>)
    requires |elens| == EXT_SPACE && elens[256] == 0 && elens[320] == 12
    ensures Placed(elens, EXT_LIST, STD_SPACE, EXT_SPACE, 4) && Kept(elens, EXT_LIST) == [320]
  {
    assert Placed(elens, [], STD_SPACE, EXT_SPACE, 4) && Kept(elens, []) == [];
    hide Placed, Kept;
    PlacedCons(elens, 320, [], STD_SPACE, EXT_SPACE, 4);
    PlacedCons(elens, 256, [320], STD_SPACE, EXT_SPACE, 4);
    assert [256] + ([320] + []) == EXT_LIST;
  }

  // The sample is well formed: a capability is hidden in each list, the first of the extended one
  // behind an anchor, and it has one VPD capability.
  lemma SampleWellFormed(command: byte, bar: Resource)
    ensures var x := Sample(command, bar);
      && WellFormed(x, LIST, EXT_LIST) && FindsExtended(x.dev, x.hw, LIST)
      && Kept(x.Lens(), LIST) == [64, 80, 96, 128] && Shown(x.ELens(), EXT_LIST) == [256, 320]
      && VpdHandshake.VpdCap(x.Caps(LIST, EXT_LIST), Cap(96, 8, 3))
  {
    SampleStd(command, bar);
    SampleExt(command, bar);
    SampleApart(command, bar);
    SampleRo(command, bar);
    hide StdLens, ExtLens, Placed, StdFormed, ExtFormed, Kept, Shown, NoTwins, AllCaps, FindsExtended, Registers, Uniform, At;
    hide VpdHandshake.VpdCap;
  }

  lemma SampleRo(command: byte, bar: Resource)
    ensures var x := Sample(command, bar); x.Sized() && forall p :: p in LIST ==> At(x.ro, p) == 0xFF
  {
    hide Registers;
  }

  lemma SampleStd(command: byte, bar: Resource)
    ensures var x := Sample(command, bar);
      && StdFormed(x.dev, x.hw, x.Lens(), LIST) && Kept(x.Lens(), LIST) == [64, 80, 96, 128]
      && (forall p :: p in LIST && Num(At(x.hw, p)) == ID_MSI ==> p == 80)
  {
    var x := Sample(command, bar);
    SampleLens(command, bar);
    SampleChain(command);
    SamplePlaced(x.Lens());
    assert x.hw == Registers(command);
    hide StdLens, StdChain, Placed, Kept, Registers;
    assert STATUS_CAP_LIST & STATUS_CAP_LIST != 0;
    forall p | p in LIST ensures p in {64, 72, 80, 96, 128} { }
  }

  lemma SampleExt(command: byte, bar: Resource)
    ensures var x := Sample(command, bar);
      FindsExtended(x.dev, x.hw, LIST) && ExtFormed(x.dev, x.hw, x.ELens(), EXT_LIST) && Shown(x.ELens(), EXT_LIST) == [256, 320]
  {
    var x := Sample(command, bar);
    SampleExtLens(command, bar);
    SampleExtChain(command);
    SampleExtPlaced(x.ELens());
    assert x.hw == Registers(command);
    hide ExtLens, ExtChain, Placed, Kept, Registers, ExtId;
    assert LIST[4] == 128 && ProbesExtended(x.hw, LIST[4]);
  }

  lemma SampleApart(command: byte, bar: Resource)
    ensures var caps := Sample(command, bar).Caps(LIST, EXT_LIST); NoTwins(caps) && VpdHandshake.VpdCap(caps, Cap(96, 8, 3))
  {
    SampleCaps(command, bar);
    hide AllCaps, StdLens, ExtLens, Registers;
  }

  // Its 64-bit register is one that can be sized.
  lemma SampleSizable(command: byte)
    ensures BarSizing.AllFaithful(Sample(command, Memory64).func.bars)
  {
    var bars := Sample(command, Memory64).func.bars;
    assert BarSizing.PowerOfTwo(0x1_0000);
    BarSizing.FaithfulExact(bars);
  }

  // With INTx disabled in hardware the sample opens with guest and driver apart ...
  lemma SampleAhead()
    ensures !CommandSync.FollowsGuest(Opened(Sample(CommandSync.INTX_DISABLE, Memory64)))
  {
    hide WellFormed, Opened, CommandSync.FollowsGuest;
    SampleWellFormed(CommandSync.INTX_DISABLE, Memory64);
    CommandSync.OpenedAhead(Sample(CommandSync.INTX_DISABLE, Memory64), LIST, EXT_LIST);
  }

  // ... and with four I/O ports in its first register it shows the guest the next one unsized.
  lemma SampleUnsized()
    ensures var x := Sample(0, FourPorts); var s := Opened(x); var next := BarAt(1);
      Got(WriteAccess(WriteAccess(s, 0x10, BarSizing.Zeros(24)), BarAt(0), BarSizing.AllOnes()), next, 4, next) != BarSizing.SizedAt(s.func.bars, next, 0xFF)
  {
    hide *;
    var x := Sample(0, FourPorts);
    SampleTiny();
    SampleWellFormed(0, FourPorts);
    OpenedSteady(x, LIST, EXT_LIST);
    GuestRuns.SteadyGood(Opened(x), x.Caps(LIST, EXT_LIST));
    BarSizing.TinyBreaks(Opened(x), x.Caps(LIST, EXT_LIST), 0);
  }

  lemma SampleTiny()
    ensures var x := Sample(0, FourPorts); x.dev.Valid()
    ensures var bars := Opened(Sample(0, FourPorts)).func.bars; |bars| == 6 && BarSizing.Tiny(bars, 0) && BarSizing.Legal(bars[1])
  {
    hide Plugged.Built, SavedBars, Registers;
  }

  lemma SampleCaps(command: byte, bar: Resource)
    ensures Sample(command, bar).Caps(LIST, EXT_LIST) ==
      {Cap(64, 8, 1), Cap(80, 10, 5), Cap(96, 8, 3), Cap(128, 44, 0x10)} + {Cap(256, 4, 5), Cap(320, 12, 3)}
  {
    SampleLens(command, bar);
    SampleExtLens(command, bar);
    hide Registers, StdLens, ExtLens, CapsOf, Anchored;
    StdCaps(Registers(command), Sample(command, bar).Lens());
    ExtCaps(Registers(command), Sample(command, bar).ELens());
  }

  lemma StdCaps(hw: seq<byte>, lens: seq<nat>)
    requires |lens| == STD_SPACE && lens[64] == 8 && lens[72] == 0 && lens[80] == 10 && lens[96] == 8 && lens[128] == 44
    requires |hw| == EXT_SPACE && hw[64] == 1 && hw[80] == 5 && hw[96] == 3 && hw[128] == 0x10
    ensures CapsOf(hw, lens, LIST) == {Cap(64, 8, 1), Cap(80, 10, 5), Cap(96, 8, 3), Cap(128, 44, 0x10)}
  {
    assert 64 in LIST && 72 in LIST && 80 in LIST && 96 in LIST && 128 in LIST by {
      assert LIST[0] == 64 && LIST[1] == 72 && LIST[2] == 80 && LIST[3] == 96 && LIST[4] == 128;
    }
    var a, b := Cap(64, LenAt(lens, 64), At(hw, 64)), Cap(80, LenAt(lens, 80), At(hw, 80));
    var c, d := Cap(96, LenAt(lens, 96), At(hw, 96)), Cap(128, LenAt(lens, 128), At(hw, 128));
    assert a in CapsOf(hw, lens, LIST) && b in CapsOf(hw, lens, LIST) && c in CapsOf(hw, lens, LIST) && d in CapsOf(hw, lens, LIST);
  }

  lemma ExtCaps(hw: seq<byte>, elens: seq<nat>)
    requires |elens| == EXT_SPACE && elens[256] == 0 && elens[320] == 12 && |hw| == EXT_SPACE && hw[256] == 5 && hw[320] == 3
    ensures CapsOf(hw, Anchored(elens), EXT_LIST) == {Cap(256, 4, 5), Cap(320, 12, 3)}
  {
    assert 256 in EXT_LIST && 320 in EXT_LIST by { assert EXT_LIST[0] == 256 && EXT_LIST[1] == 320; }
    var alens := Anchored(elens);
    var a, b := Cap(256, LenAt(alens, 256), At(hw, 256)), Cap(320, LenAt(alens, 320), At(hw, 320));
    assert a in CapsOf(hw, alens, EXT_LIST) && b in CapsOf(hw, alens, EXT_LIST);
  }
}
