/** The serial protocol on arbitrary bytes: what the board does with noise and with every command, and
    which answer the host gives for whatever stands on the line. */
module SerialOutcomes {
  import opened SerialLink

  // ---------------------------------------------------------------- decimal numbers

  // The number that a string of digits with an optional sign stands for.
  function Parse(s: string): int
    decreases |s|
  {
    if s == "" then 0
    else if s[0] == '-' then -Parse(s[1..])
    else 10 * Parse(s[..|s| - 1]) + (s[|s| - 1] as int - '0' as int)
  }

  predicate Digits(s: string) { s != "" && forall i :: 0 <= i < |s| ==> '0' <= s[i] <= '9' }

  // What the board prints of a number reads back as that number, without leading zeros.
  lemma {:induction false} DecimalReadsBack(n: int)
    ensures Parse(Decimal(n)) == n
    ensures n >= 0 ==> Digits(Decimal(n)) && (Decimal(n)[0] == '0' ==> n == 0)
    decreases if n < 0 then 1 - n else n
  {
    if n < 0 {
      DecimalReadsBack(-n);
      assert ("-" + Decimal(-n))[1..] == Decimal(-n);
    } else if n >= 10 {
      DecimalReadsBack(n / 10);
      var s, d := Decimal(n / 10), Digit(n % 10);
      assert (s + [d])[..|s + [d]| - 1] == s;
    } else {
      assert [Digit(n)][..0] == "";
    }
  }

  // ---------------------------------------------------------------- the board

  // Waiting for a frame, the board ignores every other byte, and a false start.
  lemma NoiseIgnored(b: Board, x: char, readings: seq<nat>)
    requires b.state == 0
    ensures x != 'm' ==> Feed(b, [x], readings) == b
    ensures x != 'c' ==> Feed(b, ['m', x], readings) == b
  {
    FeedCons(b, x, "", readings);
    assert [x] + "" == [x];
    FeedCons(b, 'm', [x], readings);
    FeedCons(Receive(b, 'm', readings), x, "", readings);
    assert ['m'] + [x] == ['m', x];
  }

  // The byte after the magic is the command whatever it is; only a line end executes it.
  lemma FrameEnds(b: Board, c: char, x: char, readings: seq<nat>)
    requires b.state == 0
    ensures var t := Feed(b, ['m', 'c', c, x], readings);
      && t.state == 0
      && (x == '\r' || x == '\n' ==> t == Feed(b, ['m', 'c', c, '\r'], readings) && t.executed == b.executed + [Value(c)])
      && (x != '\r' && x != '\n' ==> t == b.(cmd := Value(c)))
  {
    hide CmdExec, Decimal;
    FeedFour(b, c, x, readings);
    FeedFour(b, c, '\r', readings);
    Executed(b.(cmd := Value(c), state := 0, out := b.out + "*" + Decimal(Value(c)) + "\r\n"), Value(c), readings);
  }

  lemma FeedFour(b: Board, c: char, x: char, readings: seq<nat>)
    ensures Feed(b, ['m', 'c', c, x], readings) ==
      Receive(Receive(Receive(Receive(b, 'm', readings), 'c', readings), c, readings), x, readings)
  {
    hide Receive;
    var b1 := Receive(b, 'm', readings);
    var b2 := Receive(b1, 'c', readings);
    FeedCons(b, 'm', ['c', c, x], readings);
    FeedCons(b1, 'c', [c, x], readings);
    FeedCons(b2, c, [x], readings);
    FeedCons(Receive(b2, c, readings), x, [], readings);
    assert ['m'] + ['c', c, x] == ['m', 'c', c, x] && ['c'] + [c, x] == ['c', c, x] && [c] + [x] == [c, x] && [x] + [] == [x];
  }

  lemma Executed(b: Board, cmd: int, readings: seq<nat>)
    ensures var t := CmdExec(b, cmd, readings); t.executed == b.executed + [cmd] && t.state == b.state && t.cmd == b.cmd
  {
    hide Decimal;
  }

  // The answer to each command: the echo of it, then for power commands the new state, for 2 the state,
  // for 3 to 5 the voltage of an analog pin and for 9 a zero, each on a line of its own; for any other
  // nothing.  Only 0 and 1 switch, state and pin together.
  lemma CommandAnswer(b: Board, c: char, readings: seq<nat>)
    requires b.state == 0
    ensures var t := Feed(b, Frame(c), readings); var echo := b.out + "*" + Decimal(Value(c)) + "\r\n";
      && t.state == 0 && t.executed == b.executed + [Value(c)]
      && (c == '0' ==> t.out == echo + "-" + "\r\n" && !t.gpuPower && !t.mosfet)
      && (c == '1' ==> t.out == echo + "+" + "\r\n" && t.gpuPower && t.mosfet)
      && (c == '2' ==> t.out == echo + (if b.gpuPower then "+" else "-") + "\r\n")
      && (c in {'3', '4', '5'} ==>
            var pin := c as int - '3' as int; var volts := if pin < |readings| then readings[pin] else 0;
            t.out == echo + Decimal(volts) + "\r\n")
      && (c == '9' ==> t.out == echo + "0" + "\r\n")
      && (c !in {'0', '1', '2', '3', '4', '5', '9'} ==> t.out == echo)
      && (c != '0' && c != '1' ==> t.gpuPower == b.gpuPower && t.mosfet == b.mosfet)
  {
    FrameResyncs(b, c, readings);
    hide Decimal, Feed;
  }

  // ---------------------------------------------------------------- the host

  // What `n` waits bring of a line.
  function Taken(line: string, waits: seq<nat>, n: nat): nat {
    if Sum(waits, n) <= |line| then Sum(waits, n) else |line|
  }

  // The loop splits the line in what it read and what it left, and has enough if and only if the first
  // hundred waits bring seven bytes of it.
  lemma {:induction false} GatherSplits(line: string, waits: seq<nat>, i: nat)
    requires i <= 100 && Taken(line, waits, i) < 7
    ensures var have := Taken(line, waits, i); var g := Gather(line[..have], line[have..], waits, i);
      g.response + g.line == line && (g.enough <==> Taken(line, waits, 100) >= 7)
    decreases 100 - i
  {
    var have := Taken(line, waits, i);
    var rest := line[have..];
    var n := Least(WaitAt(waits, i), |rest|);
    SplitMore(line, have, n);
    TakenMore(line, waits, i);
    TakenGrows(line, waits, i + 1);
    GatherTurn(line, have, waits, i);
    hide Taken, Sum, WaitAt, Gather;
    if i < 100 && have + n < 7 { GatherSplits(line, waits, i + 1); }
  }

  // One turn of the loop.
  lemma GatherTurn(line: string, have: nat, waits: seq<nat>, i: nat)
    requires have <= |line| && have < 7 && i <= 100
    ensures var n := Least(WaitAt(waits, i), |line| - have);
      Gather(line[..have], line[have..], waits, i) ==
        if i == 100 then Gathered(false, line[..have + n], line[have + n..])
        else if have + n >= 7 then Gathered(true, line[..have + n], line[have + n..])
        else Gather(line[..have + n], line[have + n..], waits, i + 1)
  {
    SplitMore(line, have, Least(WaitAt(waits, i), |line| - have));
    hide WaitAt;
  }

  lemma SplitMore(line: string, have: nat, n: nat)
    requires have + n <= |line|
    ensures line[..have] + line[have..][..n] == line[..have + n] && line[have..][n..] == line[have + n..]
    ensures line[..have + n] + line[have + n..] == line
  {
  }

  lemma TakenMore(line: string, waits: seq<nat>, i: nat)
    ensures Taken(line, waits, i + 1) == Taken(line, waits, i) + Least(WaitAt(waits, i), |line| - Taken(line, waits, i))
  {
    assert Sum(waits, i + 1) == Sum(waits, i) + WaitAt(waits, i);
  }

  lemma TakenGrows(line: string, waits: seq<nat>, i: nat)
    ensures i <= 100 ==> Taken(line, waits, i) <= Taken(line, waits, 100)
  {
    if i <= 100 { SumGrows(waits, i, 100); }
  }

  // The host's answer for any line: 22 if the frame did not go out, 23 unless the first hundred waits
  // bring seven bytes, 24 unless those begin with the echo of the command, and otherwise success.  It
  // takes bytes from the front of the line only.
  lemma SendOutcome(c: char, written: bool, line: string, waits: seq<nat>)
    ensures var (rc, left) := SendCommand(c, written, line, waits);
      && rc == (if !written then 22
                else if |line| < 7 || Sum(waits, 100) < 7 then 23
                else if line[0] != '*' || line[1] != c || line[2] != '\r' || line[3] != '\n' then 24
                else 0)
      && (!written ==> left == line)
      && |left| <= |line| && left == line[|line| - |left|..]
  {
    if written {
      assert Sum(waits, 0) == 0 && line[..0] == "" && line[0..] == line;
      GatherSplits(line, waits, 0);
      var g := Gather("", line, waits, 0);
      hide Gather, Sum;
      assert g.line == line[|g.response|..];
      if g.enough {
        assert g.response[..4] == [line[0], line[1], line[2], line[3]];
      }
    }
  }
}
