/** The serial protocol between host/serial.cpp and arduino/main.ino: the framing automaton of the
    board, the host that waits for its replies, and what a sequence of commands achieves. */
module SerialLink {
  const MAGIC := "mc"
  const REPLY := 7           // bytes the host waits for
  const RETRIES: nat := 100

  // The board: parser state, power state and pin, the bytes it printed and the commands it executed.
  datatype Board = Board(state: nat, cmd: int, gpuPower: bool, mosfet: bool, out: string, executed: seq<int>)

  function Decimal(n: int): string
    decreases if n < 0 then 1 - n else n
  {
    if n < 0 then "-" + Decimal(-n)
    else if n < 10 then [Digit(n)]
    else Decimal(n / 10) + [Digit(n % 10)]
  }

  function Digit(n: nat): char { if n < 10 then '0' + n as char else '?' }

  function Println(b: Board, s: string): Board { b.(out := b.out + s + "\r\n") }

  function SetGpu(b: Board, value: bool): Board { b.(gpuPower := value, mosfet := value) }

  function Analog(readings: seq<nat>, pin: nat): nat { if pin < |readings| then readings[pin] else 0 }

  // cmdExec; `readings` are the values of the analog pins.
  function CmdExec(b: Board, cmd: int, readings: seq<nat>): Board {
    var e := b.(executed := b.executed + [cmd]);
    if cmd == 0 then Println(SetGpu(e, false), "-")
    else if cmd == 1 then Println(SetGpu(e, true), "+")
    else if cmd == 2 then Println(e, if e.gpuPower then "+" else "-")
    else if 3 <= cmd <= 5 then Println(e, Decimal(Analog(readings, cmd - 3)))
    else if cmd == 9 then Println(e, "0")
    else e
  }

  // One turn of the loop of handleSerial.
  function Receive(b: Board, c: char, readings: seq<nat>): Board {
    if b.state < |MAGIC| then b.(state := if c == MAGIC[b.state] then b.state + 1 else 0)
    else if b.state == |MAGIC| then b.(cmd := c as int - '0' as int, state := b.state + 1)
    else if c == '\n' || c == '\r' then CmdExec(Println(b.(out := b.out + "*"), Decimal(b.cmd)).(state := 0), b.cmd, readings)
    else b.(state := 0)
  }

  function Feed(b: Board, s: string, readings: seq<nat>): Board
    decreases |s|
  {
    if s == "" then b else Feed(Receive(b, s[0], readings), s[1..], readings)
  }

  function Frame(c: char): string { MAGIC + [c, '\r'] }

  lemma FeedFrame(b: Board, c: char, readings: seq<nat>)
    ensures Feed(b, Frame(c), readings) ==
      Receive(Receive(Receive(Receive(b, 'm', readings), 'c', readings), c, readings), '\r', readings)
  {
    hide Receive;
    var b1 := Receive(b, 'm', readings);
    var b2 := Receive(b1, 'c', readings);
    assert Frame(c) == ['m', 'c', c, '\r'];
    FeedCons(b, 'm', ['c', c, '\r'], readings);
    FeedCons(b1, 'c', [c, '\r'], readings);
    FeedCons(b2, c, ['\r'], readings);
    FeedCons(Receive(b2, c, readings), '\r', [], readings);
    assert ['m'] + ['c', c, '\r'] == ['m', 'c', c, '\r'] && ['c'] + [c, '\r'] == ['c', c, '\r'] && [c] + ['\r'] == [c, '\r'];
    assert ['\r'] + [] == ['\r'];
  }

  lemma FeedCons(b: Board, c: char, s: string, readings: seq<nat>)
    ensures Feed(b, [c] + s, readings) == Feed(Receive(b, c, readings), s, readings)
  {
    hide Receive;
    assert ([c] + s)[1..] == s;
  }

  // From any parser state one frame brings the automaton back to its start: the command is
  // executed if it was there already, and lost without any effect otherwise.
  lemma FrameResyncs(b: Board, c: char, readings: seq<nat>)
    ensures var t := Feed(b, Frame(c), readings);
      && t.state == 0
      && (b.state != 0 ==> t == b.(state := 0, cmd := t.cmd))
      && (b.state == 0 ==>
            t == CmdExec(b.(cmd := c as int - '0' as int, out := b.out + "*" + Decimal(c as int - '0' as int) + "\r\n"), c as int - '0' as int, readings))
  {
    FeedFrame(b, c, readings);
    hide Decimal;
    var b2 := Receive(Receive(b, 'm', readings), 'c', readings);
    if b.state == 0 {
      assert b2 == b.(state := 2);
    } else {
      assert b2.state == 0 && b2 == b.(state := 0, cmd := b2.cmd);
    }
  }

  // The commands the host sends.
  predicate HostCommand(c: char) { c == '0' || c == '1' || c == '9' }

  function Value(c: char): int { c as int - '0' as int }

  function Reply(c: char): string { ['*', c, '\r', '\n', if c == '0' then '-' else if c == '1' then '+' else '0', '\r', '\n'] }

  // Their replies are seven bytes long and echo the command.
  lemma HostReply(b: Board, c: char, readings: seq<nat>)
    requires HostCommand(c) && b.state == 0
    ensures var t := Feed(b, Frame(c), readings);
      && t.out == b.out + Reply(c) && t.executed == b.executed + [Value(c)] && t.state == 0
      && t.gpuPower == (if c == '0' then false else if c == '1' then true else b.gpuPower)
      && (c != '9' ==> t.mosfet == t.gpuPower) && (c == '9' ==> t.mosfet == b.mosfet)
  {
    FrameResyncs(b, c, readings);
    assert Decimal(Value(c)) == [c];
    var t := Feed(b, Frame(c), readings);
    assert t.out == b.out + "*" + [c] + "\r\n" + [Reply(c)[4]] + "\r\n";
    assert t.out == b.out + Reply(c);
  }

  // ---------------------------------------------------------------- the host

  // How many bytes the i-th wait brings at most; zero for one that times out.
  function WaitAt(waits: seq<nat>, i: nat): nat { if i < |waits| then waits[i] else 0 }

  function Sum(waits: seq<nat>, n: nat): nat { if n == 0 then 0 else Sum(waits, n - 1) + WaitAt(waits, n - 1) }

  function Least(a: nat, b: nat): nat { if a <= b then a else b }

  // The reading loop of sendCommand from its i-th turn on: the response, if it is long enough in
  // time, and what is left on the line.
  datatype Gathered = Gathered(enough: bool, response: string, line: string)

  function Gather(response: string, line: string, waits: seq<nat>, i: nat): (g: Gathered)
    ensures g.enough ==> |g.response| >= REPLY
    decreases RETRIES + 1 - i
  {
    if |response| >= REPLY then Gathered(true, response, line)
    else
      var n := Least(WaitAt(waits, i), |line|);
      if i >= RETRIES then Gathered(false, response + line[..n], line[n..])
      else Gather(response + line[..n], line[n..], waits, i + 1)
  }

  // sendCommand: zero or the error code, and what is left on the line.
  function SendCommand(c: char, written: bool, line: string, waits: seq<nat>): (int, string) {
    if !written then (22, line)
    else
      var g := Gather("", line, waits, 0);
      if !g.enough then (23, g.line)
      else if g.response[..4] != ['*', c, '\r', '\n'] then (24, g.line)
      else (0, g.line)
  }

  lemma {:induction false} SumGrows(waits: seq<nat>, a: nat, b: nat)
    requires a <= b
    ensures Sum(waits, a) <= Sum(waits, b)
    decreases b
  {
    if a < b { SumGrows(waits, a, b - 1); }
  }

  // A reply of exactly seven bytes is taken whole if and only if the first hundred waits bring it.
  lemma {:induction false} GatherExact(reply: string, waits: seq<nat>, i: nat)
    requires |reply| == REPLY && i <= RETRIES && Sum(waits, i) < REPLY
    ensures var g := Gather(reply[..Sum(waits, i)], reply[Sum(waits, i)..], waits, i);
      && (g.enough <==> Sum(waits, RETRIES) >= REPLY)
      && (g.enough ==> g.response == reply && g.line == "")
    decreases RETRIES - i
  {
    var have := Sum(waits, i);
    var line := reply[have..];
    var n := Least(WaitAt(waits, i), |line|);
    assert reply[..have] + line[..n] == reply[..have + n] && line[n..] == reply[have + n..];
    if i < RETRIES {
      assert Sum(waits, i + 1) == have + WaitAt(waits, i);
      if Sum(waits, i + 1) >= REPLY {
        SumGrows(waits, i + 1, RETRIES);
        assert reply[..have + n] == reply && reply[have + n..] == "";
      } else {
        GatherExact(reply, waits, i + 1);
      }
    }
  }

  // Nothing on the line: the host gives up.
  lemma {:induction false} GatherNothing(waits: seq<nat>, i: nat)
    requires i <= RETRIES
    ensures Gather("", "", waits, i) == Gathered(false, "", "")
    decreases RETRIES - i
  {
    var none: string := "";
    assert none + none[..0] == none && none[0..] == none;
    if i < RETRIES { GatherNothing(waits, i + 1); }
  }

  // ---------------------------------------------------------------- both ends

  // One command of the host, with the waits that follow it.
  datatype Command = Command(c: char, waits: seq<nat>)

  // A reply arrives within the waits the host grants it.
  predicate Prompt(m: Command) { Sum(m.waits, RETRIES) >= REPLY }

  datatype Link = Link(board: Board, line: string, results: seq<int>)

  // The frame reaches the board, its reply the line, and the host waits for it.
  function Exchange(k: Link, m: Command, readings: seq<nat>): Link {
    var b := Feed(k.board.(out := ""), Frame(m.c), readings);
    var r := SendCommand(m.c, true, k.line + b.out, m.waits);
    Link(b, r.1, k.results + [r.0])
  }

  function Session(k: Link, ms: seq<Command>, readings: seq<nat>): Link
    decreases |ms|
  {
    if ms == [] then k else Session(Exchange(k, ms[0], readings), ms[1..], readings)
  }

  // One exchange on a quiet line: success and one execution if the parser was at its start, a
  // timeout and no effect otherwise; the line is quiet again either way.
  lemma OneExchange(k: Link, m: Command, readings: seq<nat>)
    requires k.line == "" && HostCommand(m.c) && Prompt(m)
    ensures var t := Exchange(k, m, readings);
      && t.line == "" && t.board.state == 0
      && (if k.board.state == 0 then
            && t.results == k.results + [0] && t.board.executed == k.board.executed + [Value(m.c)]
            && t.board.gpuPower == (if m.c == '0' then false else if m.c == '1' then true else k.board.gpuPower)
          else
            t.results == k.results + [23] && t.board.executed == k.board.executed && t.board.gpuPower == k.board.gpuPower)
  {
    var b0 := k.board.(out := "");
    var b := Feed(b0, Frame(m.c), readings);
    if k.board.state == 0 {
      HostReply(b0, m.c, readings);
      assert "" + b.out == b.out && "" + Reply(m.c) == Reply(m.c);
      assert Reply(m.c)[..0] == "" && Reply(m.c)[0..] == Reply(m.c);
      GatherExact(Reply(m.c), m.waits, 0);
      assert Reply(m.c)[..4] == ['*', m.c, '\r', '\n'];
    } else {
      FrameResyncs(b0, m.c, readings);
      assert "" + b.out == "";
      GatherNothing(m.waits, 0);
    }
    hide Feed, Gather, Reply;
  }

  function Values(ms: seq<Command>): seq<int> {
    if ms == [] then [] else [Value(ms[0].c)] + Values(ms[1..])
  }

  // The power state that the last command for it asked for.
  function LastPower(ms: seq<Command>, was: bool): bool
    decreases |ms|
  {
    if ms == [] then was
    else LastPower(ms[1..], if ms[0].c == '0' then false else if ms[0].c == '1' then true else was)
  }

  function Zeros(n: nat): seq<int> { if n == 0 then [] else [0] + Zeros(n - 1) }

  // From the start state every command is executed exactly once, in order, and acknowledged.
  lemma {:induction false} SessionInSync(k: Link, ms: seq<Command>, readings: seq<nat>)
    requires k.line == "" && k.board.state == 0
    requires forall i :: 0 <= i < |ms| ==> HostCommand(ms[i].c) && Prompt(ms[i])
    ensures var t := Session(k, ms, readings);
      && t.line == "" && t.board.state == 0
      && t.board.executed == k.board.executed + Values(ms)
      && t.results == k.results + Zeros(|ms|)
      && t.board.gpuPower == LastPower(ms, k.board.gpuPower)
    decreases |ms|
  {
    hide Exchange, HostCommand, Prompt, Value;
    if ms != [] {
      var t := Exchange(k, ms[0], readings);
      assert HostCommand(ms[0].c);
      OneExchange(k, ms[0], readings);
      SessionInSync(t, ms[1..], readings);
      assert t.results + Zeros(|ms| - 1) == k.results + ([0] + Zeros(|ms| - 1));
      assert t.board.executed + Values(ms[1..]) == k.board.executed + ([Value(ms[0].c)] + Values(ms[1..]));
      hide Session;
    }
  }

  // From any parser state at most the first command is lost; every other one is executed exactly
  // once, in order, and acknowledged.
  lemma SessionRecovers(k: Link, ms: seq<Command>, readings: seq<nat>)
    requires k.line == "" && ms != []
    requires forall i :: 0 <= i < |ms| ==> HostCommand(ms[i].c) && Prompt(ms[i])
    ensures var t := Session(k, ms, readings); var lost := k.board.state != 0; var done := if lost then ms[1..] else ms;
      && t.line == "" && t.board.state == 0
      && t.board.executed == k.board.executed + Values(done)
      && t.results == k.results + (if lost then [23] else []) + Zeros(|done|)
      && t.board.gpuPower == LastPower(done, k.board.gpuPower)
  {
    if k.board.state == 0 {
      SessionInSync(k, ms, readings);
    } else {
      hide Exchange, HostCommand, Prompt;
      assert HostCommand(ms[0].c);
      OneExchange(k, ms[0], readings);
      SessionInSync(Exchange(k, ms[0], readings), ms[1..], readings);
    }
  }

  // ---------------------------------------------------------------- the two programs

  class Arduino {
    var state: nat
    var cmd: int
    var gpuPower: bool
    var mosfet: bool
    var out: string
    var executed: seq<int>

    ghost function Value(): Board
      reads this
    {
      Board(state, cmd, gpuPower, mosfet, out, executed)
    }

    // setup
    constructor ()
      ensures Value() == Board(0, 0, true, true, "", [])
    {
      state, cmd, out, executed := 0, 0, "", [];
      gpuPower, mosfet := true, true;
    }

    method SetPower(value: bool)
      modifies `gpuPower, `mosfet
      ensures Value() == SetGpu(old(Value()), value)
    {
      mosfet := value;
      gpuPower := value;
    }

    method PrintLine(s: string)
      modifies `out
      ensures Value() == Println(old(Value()), s)
    {
      out := out + s + "\r\n";
    }

    // cmdExec
    method Execute(c: int, readings: seq<nat>)
      modifies `gpuPower, `mosfet, `out, `executed
      ensures Value() == CmdExec(old(Value()), c, readings)
    {
      executed := executed + [c];
      if c == 0 {
        SetPower(false);
        PrintLine("-");
      } else if c == 1 {
        SetPower(true);
        PrintLine("+");
      } else if c == 2 {
        PrintLine(if gpuPower then "+" else "-");
      } else if 3 <= c <= 5 {
        PrintLine(Decimal(Analog(readings, c - 3)));
      } else if c == 9 {
        PrintLine("0");
      }
    }

    // handleSerial, with the bytes that are available.
    method HandleSerial(input: string, readings: seq<nat>)
      modifies this
      ensures Value() == Feed(old(Value()), input, readings)
    {
      hide CmdExec, Decimal;
      var i := 0;
      while i < |input|
        invariant i <= |input|
        invariant Feed(old(Value()), input, readings) == Feed(Value(), input[i..], readings)
      {
        var c := input[i];
        assert input[i..][1..] == input[i + 1..];
        if state < |MAGIC| {
          if c == MAGIC[state] {
            state := state + 1;
          } else {
            state := 0;
          }
        } else if state == |MAGIC| {
          cmd := c as int - '0' as int;
          state := state + 1;
        } else if c == '\n' || c == '\r' {
          out := out + "*";
          PrintLine(Decimal(cmd));
          state := 0;
          Execute(cmd, readings);
        } else {
          state := 0;
        }
        i := i + 1;
      }
    }
  }

  class SerialUsb {
    var lastError: int
    var line: string // what the board has sent and the host has not read

    constructor ()
      ensures lastError == 0 && line == ""
    {
      lastError, line := 0, "";
    }

    // sendCommand, after its frame went out; `written` says whether it did.
    method Send(c: char, written: bool, waits: seq<nat>) returns (ok: bool)
      modifies this
      ensures (lastError, line) == SendCommand(c, written, old(line), waits)
      ensures ok <==> lastError == 0
    {
      lastError := 0;
      if !written {
        lastError := 22;
        return false;
      }
      var response, retry: nat, i: nat := "", RETRIES, 0;
      while |response| < REPLY
        invariant i <= RETRIES && retry == RETRIES - i && lastError == 0
        invariant Gather("", old(line), waits, 0) == Gather(response, line, waits, i)
        decreases retry
      {
        var n := Least(WaitAt(waits, i), |line|);
        response, line := response + line[..n], line[n..];
        if retry == 0 {
          lastError := 23;
          return false;
        }
        retry, i := retry - 1, i + 1;
      }
      if response[..4] != ['*', c, '\r', '\n'] {
        lastError := 24;
        return false;
      }
      return true;
    }

    // setGpuPower and ping
    method SetGpuPower(value: bool, written: bool, waits: seq<nat>) returns (ok: bool)
      modifies this
      ensures (lastError, line) == SendCommand(if value then '1' else '0', written, old(line), waits)
      ensures ok <==> lastError == 0
    {
      ok := Send(if value then '1' else '0', written, waits);
    }

    method Ping(written: bool, waits: seq<nat>) returns (ok: bool)
      modifies this
      ensures (lastError, line) == SendCommand('9', written, old(line), waits)
      ensures ok <==> lastError == 0
    {
      ok := Send('9', written, waits);
    }
  }
}
