/** What a late reply does to the serial protocol: the host gives up, the rest of the reply stays on
    the line, and later exchanges read it before their own. */
module StaleReplies {
  import opened SerialLink

  // The last `n` bytes of the reply to `p`.
  function Stale(p: char, n: nat): string
    requires n <= REPLY
  {
    Reply(p)[REPLY - n..]
  }

  // The first turn by which the waits have brought a whole reply.
  function Turns(waits: seq<nat>, i: nat): nat
    decreases RETRIES - i
  {
    if Sum(waits, i) >= REPLY || i >= RETRIES then i else Turns(waits, i + 1)
  }

  // The bytes a prompt exchange takes from a line of `total` bytes.
  function Taken(waits: seq<nat>, total: nat): nat { Least(Sum(waits, Turns(waits, 0)), total) }

  lemma {:induction false} TurnsEnough(waits: seq<nat>, i: nat)
    requires i <= RETRIES && Sum(waits, RETRIES) >= REPLY
    ensures Sum(waits, Turns(waits, i)) >= REPLY
    decreases RETRIES - i
  {
    if Sum(waits, i) < REPLY && i < RETRIES { TurnsEnough(waits, i + 1); }
  }

  // ---------------------------------------------------------------- one exchange

  lemma {:induction false} GatherTakes(line: string, waits: seq<nat>, i: nat)
    requires |line| >= REPLY && i <= RETRIES && Sum(waits, i) < REPLY && Sum(waits, RETRIES) >= REPLY
    ensures var k := Least(Sum(waits, Turns(waits, i)), |line|);
      && REPLY <= k <= |line|
      && Gather(line[..Sum(waits, i)], line[Sum(waits, i)..], waits, i) == Gathered(true, line[..k], line[k..])
    decreases RETRIES - i
  {
    var have := Sum(waits, i);
    var rest := line[have..];
    var n := Least(WaitAt(waits, i), |rest|);
    assert line[..have] + rest[..n] == line[..have + n] && rest[n..] == line[have + n..];
    assert Sum(waits, i + 1) == have + WaitAt(waits, i);
    if Sum(waits, i + 1) < REPLY {
      GatherTakes(line, waits, i + 1);
    } else {
      assert Turns(waits, i) == i + 1;
    }
  }

  // The echo of a reply, and what the other suffixes begin with.
  lemma StaleHead(p: char, n: nat)
    requires HostCommand(p) && 0 < n <= REPLY
    ensures n == REPLY ==> Stale(p, n)[..4] == ['*', p, '\r', '\n']
    ensures n < REPLY ==> Stale(p, n)[0] != '*'
  {
    assert Stale(p, n)[0] == Reply(p)[REPLY - n];
  }

  // What the host makes of a line that still holds `n` bytes of the reply to `p`.
  function Answer(p: char, n: nat, c: char): int { if n == 0 || (n == REPLY && p == c) then 0 else 24 }

  lemma HeadAnswers(p: char, n: nat, c: char, k: nat)
    requires HostCommand(p) && HostCommand(c) && n <= REPLY && REPLY <= k <= n + REPLY
    ensures var line := Stale(p, n) + Reply(c);
      (line[..k][..4] == ['*', c, '\r', '\n'] <==> Answer(p, n, c) == 0) && line[k..] == Stale(c, n + REPLY - k)
  {
    var line := Stale(p, n) + Reply(c);
    assert line[k..] == Reply(c)[k - n..];
    assert line[..k][..4] == line[..4];
    HeadAnswer(p, n, c);
    hide Reply, HostCommand, Answer;
  }

  lemma HeadAnswer(p: char, n: nat, c: char)
    requires HostCommand(p) && HostCommand(c) && n <= REPLY
    ensures var line := Stale(p, n) + Reply(c); line[..4] == ['*', c, '\r', '\n'] <==> Answer(p, n, c) == 0
  {
    var line := Stale(p, n) + Reply(c);
    var echo := ['*', c, '\r', '\n'];
    assert Reply(c)[..4] == echo;
    if n == 0 {
      assert Stale(p, n) == "" && line == Reply(c);
    } else {
      StaleHead(p, n);
      if n == REPLY {
        assert line[..4] == Stale(p, n)[..4];
        assert ['*', p, '\r', '\n'][1] == p && echo[1] == c;
      } else {
        assert line[..4][0] == Stale(p, n)[0] && echo[0] == '*';
      }
      hide Stale;
    }
    hide Reply, HostCommand;
  }

  // An exchange on a line that holds the last `n` bytes of the reply to `p`: the command is executed,
  // but the host answers by what it reads first, and as many bytes more are read as the waits bring.
  lemma StaleExchange(k: Link, p: char, n: nat, m: Command, readings: seq<nat>)
    requires k.board.state == 0 && HostCommand(p) && HostCommand(m.c) && n <= REPLY && k.line == Stale(p, n) && Prompt(m)
    ensures REPLY <= Taken(m.waits, n + REPLY) <= n + REPLY
    ensures var t := Exchange(k, m, readings);
      && t.line == Stale(m.c, n + REPLY - Taken(m.waits, n + REPLY)) && t.board.state == 0
      && t.board.executed == k.board.executed + [Value(m.c)]
      && t.board.gpuPower == (if m.c == '0' then false else if m.c == '1' then true else k.board.gpuPower)
      && t.results == k.results + [Answer(p, n, m.c)]
  {
    var b0 := k.board.(out := "");
    HostReply(b0, m.c, readings);
    assert "" + Reply(m.c) == Reply(m.c);
    var line := k.line + Reply(m.c);
    assert line[..0] == "" && line[0..] == line;
    hide Feed, Gather, Reply, Turns, Stale, HostCommand, Prompt;
    assert Sum(m.waits, RETRIES) >= REPLY by { PromptIs(m); }
    GatherTakes(line, m.waits, 0);
    HeadAnswers(p, n, m.c, Taken(m.waits, n + REPLY));
  }

  lemma PromptIs(m: Command)
    requires Prompt(m)
    ensures Sum(m.waits, RETRIES) >= REPLY
  {
  }

  // ---------------------------------------------------------------- whole sessions

  // The bytes left over after a sequence of exchanges that began with `n`.
  function Backlog(n: nat, ms: seq<Command>): nat
    decreases |ms|
  {
    if ms == [] then n
    else
      var k := Taken(ms[0].waits, n + REPLY);
      Backlog(if k <= n + REPLY then n + REPLY - k else 0, ms[1..])
  }

  function Answers(p: char, n: nat, ms: seq<Command>): seq<int>
    decreases |ms|
  {
    if ms == [] then []
    else [Answer(p, n, ms[0].c)] + Answers(ms[0].c, Backlog(n, ms[..1]), ms[1..])
  }

  function LastChar(p: char, ms: seq<Command>): char { if ms == [] then p else ms[|ms| - 1].c }

  lemma BacklogOne(n: nat, ms: seq<Command>)
    requires ms != []
    ensures Backlog(n, ms) == Backlog(Backlog(n, ms[..1]), ms[1..])
    ensures Taken(ms[0].waits, n + REPLY) <= n + REPLY ==> Backlog(n, ms[..1]) == n + REPLY - Taken(ms[0].waits, n + REPLY)
  {
    assert ms[..1][1..] == [] && ms[..1][0] == ms[0];
    hide Taken;
  }

  // Every command of a session is executed once and in order, however much of the reply to `p` is
  // left; the answers are those of the stream of replies shifted by the backlog, which never grows.
  lemma {:induction false} StaleSession(k: Link, p: char, n: nat, ms: seq<Command>, readings: seq<nat>)
    requires k.board.state == 0 && HostCommand(p) && n <= REPLY && k.line == Stale(p, n)
    requires forall i :: 0 <= i < |ms| ==> HostCommand(ms[i].c) && Prompt(ms[i])
    ensures Backlog(n, ms) <= n
    ensures var t := Session(k, ms, readings);
      && t.line == Stale(LastChar(p, ms), Backlog(n, ms)) && t.board.state == 0
      && t.board.executed == k.board.executed + Values(ms)
      && t.board.gpuPower == LastPower(ms, k.board.gpuPower)
      && t.results == k.results + Answers(p, n, ms)
    decreases |ms|
  {
    hide Exchange, HostCommand, Prompt, Value, Stale, Taken, Answer;
    if ms != [] {
      var t := Exchange(k, ms[0], readings);
      assert HostCommand(ms[0].c) && Prompt(ms[0]);
      StaleExchange(k, p, n, ms[0], readings);
      BacklogOne(n, ms);
      var left := Backlog(n, ms[..1]);
      StaleSession(t, ms[0].c, left, ms[1..], readings);
      assert t.results + Answers(ms[0].c, left, ms[1..]) == k.results + ([Answer(p, n, ms[0].c)] + Answers(ms[0].c, left, ms[1..]));
      assert t.board.executed + Values(ms[1..]) == k.board.executed + ([Value(ms[0].c)] + Values(ms[1..]));
      hide Session, Backlog;
    }
  }

  // As long as every exchange takes no more than its seven bytes, a whole stale reply stays on the
  // line, and each command is acknowledged exactly if it is the one sent before it.
  lemma {:induction false} ShiftStays(p: char, ms: seq<Command>)
    requires forall i :: 0 <= i < |ms| ==> Taken(ms[i].waits, 2 * REPLY) == REPLY
    ensures Backlog(REPLY, ms) == REPLY && |Answers(p, REPLY, ms)| == |ms|
    ensures forall i :: 0 <= i < |ms| ==>
      Answers(p, REPLY, ms)[i] == if (if i == 0 then p else ms[i - 1].c) == ms[i].c then 0 else 24
    decreases |ms|
  {
    hide Taken;
    if ms != [] {
      BacklogOne(REPLY, ms);
      ShiftStays(ms[0].c, ms[1..]);
      forall i | 0 <= i < |ms|
        ensures Answers(p, REPLY, ms)[i] == if (if i == 0 then p else ms[i - 1].c) == ms[i].c then 0 else 24
      {
        if i > 0 { assert Answers(p, REPLY, ms)[i] == Answers(ms[0].c, REPLY, ms[1..])[i - 1] && ms[1..][i - 1] == ms[i]; }
      }
    }
  }

  // Once the line is empty again every command is acknowledged.
  lemma {:induction false} ShiftEnds(p: char, ms: seq<Command>)
    requires forall i :: 0 <= i < |ms| ==> Prompt(ms[i])
    ensures Backlog(0, ms) == 0 && Answers(p, 0, ms) == Zeros(|ms|)
    decreases |ms|
  {
    hide Prompt;
    if ms != [] {
      assert Taken(ms[0].waits, REPLY) == REPLY by { PromptIs(ms[0]); TurnsEnough(ms[0].waits, 0); }
      hide Taken;
      BacklogOne(0, ms);
      ShiftEnds(ms[0].c, ms[1..]);
    }
  }

  // ---------------------------------------------------------------- how a reply becomes stale

  lemma {:induction false} GatherLate(reply: string, waits: seq<nat>, i: nat)
    requires |reply| == REPLY && i <= RETRIES && Sum(waits, RETRIES) < REPLY && Sum(waits, i) < REPLY
    ensures var k := Least(Sum(waits, RETRIES + 1), REPLY);
      Gather(reply[..Sum(waits, i)], reply[Sum(waits, i)..], waits, i) == Gathered(false, reply[..k], reply[k..])
    decreases RETRIES - i
  {
    var have := Sum(waits, i);
    var rest := reply[have..];
    var n := Least(WaitAt(waits, i), |rest|);
    assert reply[..have] + rest[..n] == reply[..have + n] && rest[n..] == reply[have + n..];
    assert Sum(waits, i + 1) == have + WaitAt(waits, i);
    if i < RETRIES {
      SumGrows(waits, i + 1, RETRIES);
      GatherLate(reply, waits, i + 1);
    }
  }

  lemma SevenBytes(c: char)
    ensures |Reply(c)| == REPLY
  {
  }

  // An exchange whose waits bring too little: the command is executed, the host gives up, and what it
  // has not read of the reply stays.
  lemma LateReply(k: Link, m: Command, readings: seq<nat>)
    requires k.board.state == 0 && k.line == "" && HostCommand(m.c) && !Prompt(m)
    ensures var t := Exchange(k, m, readings);
      && t.line == Stale(m.c, REPLY - Least(Sum(m.waits, RETRIES + 1), REPLY)) && t.board.state == 0
      && t.board.executed == k.board.executed + [Value(m.c)] && t.results == k.results + [23]
  {
    var b0 := k.board.(out := "");
    hide Feed, Gather, Reply, Value, HostCommand;
    HostReply(b0, m.c, readings);
    var reply := Reply(m.c);
    SevenBytes(m.c);
    assert "" + reply == reply && reply[..0] == "" && reply[0..] == reply;
    GatherLate(reply, m.waits, 0);
    hide Sum;
  }
}
