/** What every run of a heartbeat client satisfies: the counters, the halt, the LED, and the pace of its pings. */
module ClientRuns {
  import opened Base
  import opened Client
  import opened ClientOutcomes
  import Runs

  // ----- Counters and halt -----

  /** The reply, if any, received at one operation. */
  function ReplyAt(c: Client, e: Env): seq<Reply> {
    if c.connected && !c.halted then [e.reply] else []
  }

  /** The replies received, in order. */
  function Replies(c: Client, script: seq<Env>): seq<Reply> {
    Runs.Output(Next, ReplyAt, c, script)
  }

  /** Length of the run of 401 responses at the end. */
  function Trailing401(replies: seq<Reply>): nat {
    if replies == [] || replies[|replies| - 1] != Status(401) then 0
    else 1 + Trailing401(replies[..|replies| - 1])
  }

  /** Responses `i` to `i + 4` are all 401. */
  predicate Five401At(replies: seq<Reply>, i: nat) {
    i + 5 <= |replies| && forall j | i <= j < i + 5 :: replies[j] == Status(401)
  }

  lemma {:induction false} TrailingMeansFive(replies: seq<Reply>, k: nat)
    requires k <= |replies|
    ensures Trailing401(replies) >= k <==> forall j | |replies| - k <= j < |replies| :: replies[j] == Status(401)
  {
    if k > 0 && replies[|replies| - 1] == Status(401) {
      var before := replies[..|replies| - 1];
      TrailingMeansFive(before, k - 1);
    }
  }

  /** The 401 counter is the trailing run of 401 responses, is zero whenever the client is about to connect,
      and the client halts exactly when five 401 responses in a row have come, be it after any number of retries. */
  lemma {:induction false} AuthCounter(script: seq<Env>)
    ensures var c, replies := Run(START, script), Replies(START, script);
            && c.authFailures == Trailing401(replies) <= 5
            && (!c.connected ==> c.authFailures == 0)
            && (c.halted <==> c.authFailures == 5)
            && (c.halted <==> exists i: nat :: Five401At(replies, i))
  {
    if script != [] {
      var before, e := script[..|script| - 1], script[|script| - 1];
      AuthCounter(before);
      var at, replies := Run(START, before), Replies(START, before);
      if at.connected && !at.halted {
        FiveInExtension(replies, e.reply);
        assert (replies + [e.reply])[..|replies|] == replies;
      } else {
        assert replies + [] == replies;
      }
    }
  }

  lemma FiveInExtension(replies: seq<Reply>, r: Reply)
    requires !exists i: nat :: Five401At(replies, i)
    requires Trailing401(replies) < 5
    ensures (exists i: nat :: Five401At(replies + [r], i)) <==> Trailing401(replies + [r]) >= 5
  {
    var all := replies + [r];
    if i: nat :| Five401At(all, i) {
      if i + 5 <= |replies| {
        assert forall j | i <= j < i + 5 :: replies[j] == all[j];
        assert Five401At(replies, i);
        assert false;
      }
      TrailingMeansFive(all, 5);
    }
    if Trailing401(all) >= 5 {
      TrailingBounded(all);
      TrailingMeansFive(all, 5);
      assert Five401At(all, |all| - 5);
    }
  }

  lemma {:induction false} TrailingBounded(replies: seq<Reply>)
    ensures Trailing401(replies) <= |replies|
  {
    if replies != [] {
      TrailingBounded(replies[..|replies| - 1]);
    }
  }

  // ----- LED -----

  /** Whether the LED is lit after some acts, by the board's own reading of the pin. */
  function Lit(b: Board, lit: bool, acts: seq<Act>): bool {
    if acts == [] then lit
    else match acts[|acts| - 1]
         case Gpio(high) => high == Level(b, true)
         case _ => Lit(b, lit, acts[..|acts| - 1])
  }

  /** The LED shows the right thing at act `i`: off while waiting for the next heartbeat, on in every other wait and
      in the halt. */
  predicate LedRight(b: Board, acts: seq<Act>, i: nat)
    requires i < |acts|
  {
    match acts[i]
    case Delay(why, _) => Lit(b, false, acts[..i]) == (why != Heartbeat)
    case Halt => Lit(b, false, acts[..i])
    case _ => true
  }

  lemma {:induction false} LitAfter(b: Board, lit: bool, first: seq<Act>, rest: seq<Act>)
    ensures Lit(b, lit, first + rest) == Lit(b, Lit(b, lit, first), rest)
  {
    if rest == [] {
      assert first + rest == first;
    } else {
      LitAfter(b, lit, first, rest[..|rest| - 1]);
      assert (first + rest)[..|first + rest| - 1] == first + rest[..|rest| - 1];
    }
  }

  lemma {:induction false} RepeatKeepsLight(b: Board, lit: bool, why: Why, micros: nat, n: nat)
    ensures Lit(b, lit, Repeat(Delay(why, micros), n)) == lit
  {
    if n > 0 {
      RepeatKeepsLight(b, lit, why, micros, n - 1);
      assert Repeat(Delay(why, micros), n)[..n - 1] == Repeat(Delay(why, micros), n - 1);
    }
  }

  lemma RejoinInTheLight(b: Board, e: Env, i: nat)
    requires i <= |Rejoin(e)|
    ensures Lit(b, true, Rejoin(e)[..i])
  {
    var joins, polls := Repeat(Delay(Join, 5 * SECOND), e.joinFailures),
      Repeat(Delay(Address, SECOND / 2), e.addressPolls);
    var part := Rejoin(e)[..i];
    if i <= |joins| {
      assert part == Repeat(Delay(Join, 5 * SECOND), i);
      RepeatKeepsLight(b, true, Join, 5 * SECOND, i);
    } else {
      assert part == joins + Repeat(Delay(Address, SECOND / 2), i - |joins|);
      RepeatKeepsLight(b, true, Join, 5 * SECOND, |joins|);
      RepeatKeepsLight(b, true, Address, SECOND / 2, i - |joins|);
      LitAfter(b, true, joins, Repeat(Delay(Address, SECOND / 2), i - |joins|));
    }
  }

  /** One operation keeps the LED honest, whatever it showed before. */
  lemma OneOperation(b: Board, lit: bool, c: Client, e: Env, i: nat)
    requires i < |Acts(b, c, e)|
    ensures var acts := Acts(b, c, e);
            match acts[i]
            case Delay(why, _) => Lit(b, lit, acts[..i]) == (why != Heartbeat)
            case Halt => Lit(b, lit, acts[..i])
            case _ => true
  {
    var acts := Acts(b, c, e);
    if !c.connected && b.PicoW? && !e.linkUp && 0 < i <= |Rejoin(e)| {
      var on := [Gpio(Level(b, true))];
      assert acts[..i] == on + Rejoin(e)[..i - 1];
      LitAfter(b, lit, on, Rejoin(e)[..i - 1]);
      RejoinInTheLight(b, e, i - 1);
      assert on[..0] == [];
    } else if acts[i].Delay? || acts[i].Halt? {
      assert acts[i - 1].Gpio? && (acts[i - 1].high == Level(b, true) <==>
        acts[i] != Delay(Heartbeat, HEARTBEAT_SECS * SECOND));
      assert acts[..i][i - 1] == acts[i - 1];
    }
  }

  lemma {:induction false} LedTellsTheTruth(b: Board, script: seq<Env>, i: nat)
    requires i < |Trace(b, START, script)|
    ensures LedRight(b, Trace(b, START, script), i)
  {
    var before := script[..|script| - 1];
    var done, acts := Trace(b, START, before), Acts(b, Run(START, before), script[|script| - 1]);
    if i < |done| {
      LedTellsTheTruth(b, before, i);
      assert (done + acts)[..i] == done[..i];
    } else {
      assert (done + acts)[..i] == done + acts[..i - |done|];
      LitAfter(b, false, done, acts[..i - |done|]);
      OneOperation(b, Lit(b, false, done), Run(START, before), script[|script| - 1], i - |done|);
    }
  }

  // ----- The twins -----

  /** A trace as an observer sees it: the LED instead of the pin. */
  function Observed(b: Board, acts: seq<Act>): seq<Act> {
    seq(|acts|, i requires 0 <= i < |acts| => match acts[i] case Gpio(high) => Gpio(high == Level(b, true)) case a => a)
  }

  lemma {:induction false} TwinsAgree(script: seq<Env>)
    requires forall e | e in script :: e.linkUp
    ensures Observed(Esp32, Trace(Esp32, START, script)) == Observed(PicoW, Trace(PicoW, START, script))
  {
    if script != [] {
      var before, e := script[..|script| - 1], script[|script| - 1];
      TwinsAgree(before);
      assert e in script;
      var c := Run(START, before);
      TwinsAgreeOnce(c, e);
      ObservedAppend(Esp32, Trace(Esp32, START, before), Acts(Esp32, c, e));
      ObservedAppend(PicoW, Trace(PicoW, START, before), Acts(PicoW, c, e));
    }
  }

  lemma TwinsAgreeOnce(c: Client, e: Env)
    requires e.linkUp
    ensures Observed(Esp32, Acts(Esp32, c, e)) == Observed(PicoW, Acts(PicoW, c, e))
  {
    var esp, pico := Acts(Esp32, c, e), Acts(PicoW, c, e);
    assert |esp| == |pico|;
    assert forall i | 0 <= i < |esp| :: Observed(Esp32, esp)[i] == Observed(PicoW, pico)[i];
  }

  lemma ObservedAppend(b: Board, x: seq<Act>, y: seq<Act>)
    ensures Observed(b, x + y) == Observed(b, x) + Observed(b, y)
  {
  }

  // ----- Pace -----

  /** Time spent on some acts, in microseconds. */
  function Spent(acts: seq<Act>): nat {
    if acts == [] then 0
    else Spent(acts[..|acts| - 1]) +
         match acts[|acts| - 1]
         case Connect(_, took) => took
         case Request(_, took) => took
         case Delay(_, micros) => micros
         case _ => 0
  }

  lemma {:induction false} SpentAppend(x: seq<Act>, y: seq<Act>)
    ensures Spent(x + y) == Spent(x) + Spent(y)
  {
    if y == [] {
      assert x + y == x;
    } else {
      SpentAppend(x, y[..|y| - 1]);
      assert (x + y)[..|x + y| - 1] == x + y[..|y| - 1];
    }
  }

  const BEAT := BLINK + HEARTBEAT_SECS * SECOND

  /** Time an operation takes, with the wait that follows it. */
  function Cost(b: Board, c: Client, e: Env): nat {
    if c.halted then 0
    else if !c.connected then
      (if b.PicoW? && !e.linkUp then e.joinFailures * (5 * SECOND) + e.addressPolls * (SECOND / 2) else 0)
      + e.took + (if e.connects then 0 else BackoffSecs(c.failures + 1) * SECOND)
    else
      e.took + (if e.reply == Status(200) then BEAT
                else if Next(c, e).halted then 0
                else BackoffSecs(c.failures + 1) * SECOND)
  }

  lemma SpentOne(a: Act)
    ensures Spent([a]) == match a case Connect(_, took) => took case Request(_, took) => took
                                  case Delay(_, micros) => micros case _ => 0
  {
    assert [a][..0] == [];
    assert Spent([]) == 0;
  }

  lemma SpentTwo(a: Act, a': Act)
    ensures Spent([a, a']) == Spent([a]) + Spent([a'])
  {
    assert [a, a'] == [a] + [a'];
    SpentAppend([a], [a']);
  }

  lemma {:induction false} SpentRepeat(why: Why, micros: nat, n: nat)
    ensures Spent(Repeat(Delay(why, micros), n)) == n * micros
  {
    if n > 0 {
      SpentRepeat(why, micros, n - 1);
      assert Repeat(Delay(why, micros), n)[..n - 1] == Repeat(Delay(why, micros), n - 1);
    }
  }

  lemma SpentRejoining(b: Board, e: Env)
    ensures Spent([Gpio(Level(b, true))] + Rejoin(e) + [Gpio(Level(b, false))])
         == e.joinFailures * (5 * SECOND) + e.addressPolls * (SECOND / 2)
  {
    SpentRepeat(Join, 5 * SECOND, e.joinFailures);
    SpentRepeat(Address, SECOND / 2, e.addressPolls);
    SpentAppend(Repeat(Delay(Join, 5 * SECOND), e.joinFailures), Repeat(Delay(Address, SECOND / 2), e.addressPolls));
    SpentOne(Gpio(Level(b, true)));
    SpentOne(Gpio(Level(b, false)));
    SpentAppend([Gpio(Level(b, true))], Rejoin(e));
    SpentAppend([Gpio(Level(b, true))] + Rejoin(e), [Gpio(Level(b, false))]);
  }

  /** What precedes a connect, and what follows it. */
  function BeforeConnect(b: Board, e: Env): seq<Act> {
    if b.PicoW? && !e.linkUp then [Gpio(Level(b, true))] + Rejoin(e) + [Gpio(Level(b, false))] else []
  }

  function AfterConnect(b: Board, c: Client, e: Env): seq<Act> {
    if e.connects then [Gpio(Level(b, false))] else ErrorWait(b, c.failures + 1)
  }

  lemma ConnectInParts(b: Board, c: Client, e: Env)
    requires !c.halted && !c.connected
    ensures Acts(b, c, e) == BeforeConnect(b, e) + [Connect(e.connects, e.took)] + AfterConnect(b, c, e)
  {
    hide Rejoin, ErrorWait;
  }

  lemma CostBeforeConnect(b: Board, e: Env)
    ensures Spent(BeforeConnect(b, e))
         == if b.PicoW? && !e.linkUp then e.joinFailures * (5 * SECOND) + e.addressPolls * (SECOND / 2) else 0
  {
    hide Rejoin;
    SpentRejoining(b, e);
  }

  lemma CostAfterConnect(b: Board, c: Client, e: Env)
    ensures Spent(AfterConnect(b, c, e)) == if e.connects then 0 else BackoffSecs(c.failures + 1) * SECOND
  {
    hide BackoffSecs;
    SpentOne(Gpio(Level(b, false)));
    SpentPair(Level(b, true), Delay(Backoff, BackoffSecs(c.failures + 1) * SECOND));
  }

  lemma CostOfConnect(b: Board, c: Client, e: Env)
    requires !c.halted && !c.connected
    ensures Spent(Acts(b, c, e)) == Cost(b, c, e)
  {
    hide Spent, Acts, BeforeConnect, AfterConnect, BackoffSecs, Rejoin;
    var op := [Connect(e.connects, e.took)];
    ConnectInParts(b, c, e);
    CostBeforeConnect(b, e);
    CostAfterConnect(b, c, e);
    SpentOne(op[0]);
    SpentAppend(BeforeConnect(b, e), op);
    SpentAppend(BeforeConnect(b, e) + op, AfterConnect(b, c, e));
  }

  lemma CostOfRequest(b: Board, c: Client, e: Env)
    requires !c.halted && c.connected
    ensures Spent(Acts(b, c, e)) == Cost(b, c, e)
  {
    var op := [Request(e.reply, e.took)];
    var blink := [Gpio(Level(b, true)), Delay(Blink, BLINK)];
    var pause := [Gpio(Level(b, false)), Delay(Heartbeat, HEARTBEAT_SECS * SECOND)];
    var rest := if e.reply == Status(200) then blink + pause
                else if Next(c, e).halted then [Gpio(Level(b, true)), Halt]
                else ErrorWait(b, c.failures + 1);
    assert Acts(b, c, e) == op + rest;
    SpentOne(op[0]);
    SpentAppend(blink, pause);
    SpentPair(Level(b, true), Delay(Blink, BLINK));
    SpentPair(Level(b, false), Delay(Heartbeat, HEARTBEAT_SECS * SECOND));
    SpentPair(Level(b, true), Halt);
    SpentPair(Level(b, true), Delay(Backoff, BackoffSecs(c.failures + 1) * SECOND));
    SpentAppend(op, rest);
  }

  lemma SpentPair(high: bool, a: Act)
    ensures Spent([Gpio(high), a]) == Spent([a])
    ensures Spent([a]) == match a case Connect(_, took) => took case Request(_, took) => took
                                  case Delay(_, micros) => micros case _ => 0
  {
    SpentTwo(Gpio(high), a);
    SpentOne(Gpio(high));
    SpentOne(a);
  }

  lemma CostIsTimeOfActs(b: Board, c: Client, e: Env)
    ensures Spent(Acts(b, c, e)) == Cost(b, c, e)
  {
    if !c.halted && c.connected {
      CostOfRequest(b, c, e);
    } else if !c.halted {
      CostOfConnect(b, c, e);
    }
  }

  /** The client before operation `k`, and the time from its start to there, one operation at a time. */
  function At(script: seq<Env>, k: nat): Client
    requires k <= |script|
  {
    if k == 0 then START else Next(At(script, k - 1), script[k - 1])
  }

  function Elapsed(b: Board, script: seq<Env>, k: nat): nat
    requires k <= |script|
  {
    if k == 0 then 0 else Elapsed(b, script, k - 1) + Cost(b, At(script, k - 1), script[k - 1])
  }

  lemma {:induction false} ElapsedIsTimeOfTrace(b: Board, script: seq<Env>, k: nat)
    requires k <= |script|
    ensures At(script, k) == Run(START, script[..k])
    ensures Elapsed(b, script, k) == Spent(Trace(b, START, script[..k]))
  {
    hide Acts, Cost, Next, BackoffSecs;
    if k > 0 {
      ElapsedIsTimeOfTrace(b, script, k - 1);
      Runs.OneMore(Next, ActsOn(b), START, script, k - 1);
      SpentAppend(Trace(b, START, script[..k - 1]), Acts(b, At(script, k - 1), script[k - 1]));
      CostIsTimeOfActs(b, At(script, k - 1), script[k - 1]);
    }
  }

  /** Operation `k` is a heartbeat that was answered with 200. */
  predicate Succeeds(script: seq<Env>, k: nat)
    requires k < |script|
  {
    var c := At(script, k);
    c.connected && !c.halted && script[k].reply == Status(200)
  }

  /** When operation `k` ends, counted from the start of the program; its waits come after. */
  function EndOf(b: Board, script: seq<Env>, k: nat): nat
    requires k < |script|
  {
    Elapsed(b, script, k) + script[k].took
  }

  /** The seconds spent backing off after `f` failures in a row: 0, 2, 6, then 12f - 22. */
  function TotalBackoff(f: nat): nat {
    if f == 0 then 0 else TotalBackoff(f - 1) + BackoffSecs(f)
  }

  lemma {:induction false} TotalBackoffClosed(f: nat)
    ensures TotalBackoff(f) == if f == 0 then 0 else if f == 1 then 2 else if f == 2 then 6 else 12 * f - 22
  {
    if f > 0 {
      TotalBackoffClosed(f - 1);
      BackoffValues(f);
    }
  }

  lemma BackoffValues(f: nat)
    ensures BackoffSecs(f) == if f <= 1 then 2 else if f == 2 then 4 else if f == 3 then 8 else 12
  {
    assert Pow2(0) == 1 && Pow2(1) == 2 && Pow2(2) == 4 && Pow2(3) == 8;
  }

  /** The latency of the attempt that operation `k` completes: a request, together with the connect just before it
      if there was one. A successful connect by itself completes nothing. */
  function AttemptTook(script: seq<Env>, k: nat): nat
    requires k < |script|
  {
    script[k].took + if k > 0 && OnlyConnects(script, k - 1) then script[k - 1].took else 0
  }

  predicate OnlyConnects(script: seq<Env>, k: nat)
    requires k < |script|
  {
    !At(script, k).connected && script[k].connects
  }

  predicate AttemptsWithin(script: seq<Env>, latency: nat) {
    forall k | 0 <= k < |script| :: AttemptTook(script, k) <= latency
  }

  /** The backoffs of `f` failures, and one latency for each. */
  function Allowance(f: nat, latency: nat): nat {
    if f == 0 then 0 else Allowance(f - 1, latency) + BackoffSecs(f) * SECOND + latency
  }

  lemma {:induction false} AllowanceClosed(f: nat, latency: nat)
    ensures Allowance(f, latency) == TotalBackoff(f) * SECOND + Times(f, latency)
  {
    if f > 0 {
      AllowanceClosed(f - 1, latency);
      TimesNext(f - 1, latency);
    }
  }

  function Times(n: nat, latency: nat): nat { n * latency }

  lemma TimesNext(n: nat, latency: nat)
    ensures Times(n + 1, latency) == Times(n, latency) + latency
  {
  }

  /** From the end of successful heartbeat `a` to the start of operation `k`: the pause after the heartbeat, the
      backoffs, and at most one latency for each failure, plus that of a connect whose request is still to come. */
  predicate OnSchedule(b: Board, script: seq<Env>, a: nat, k: nat, latency: nat)
    requires a < k <= |script|
  {
    Elapsed(b, script, k)
    <= EndOf(b, script, a) + BEAT + Allowance(At(script, k).failures, latency)
       + (if OnlyConnects(script, k - 1) then script[k - 1].took else 0)
  }

  lemma {:induction false} SinceSuccess(b: Board, script: seq<Env>, a: nat, k: nat, latency: nat)
    requires a < k < |script| && Succeeds(script, a) && AttemptsWithin(script, latency)
    requires b.PicoW? ==> forall e | e in script :: e.linkUp
    requires !At(script, k).halted
    requires forall j | a < j < k :: !Succeeds(script, j)
    ensures OnSchedule(b, script, a, k, latency)
  {
    var c, e := At(script, k - 1), script[k - 1];
    assert e in script;
    if k - 1 > a {
      SinceSuccess(b, script, a, k - 1, latency);
      assert !Succeeds(script, k - 1) && AttemptTook(script, k - 1) <= latency;
      if !OnlyConnects(script, k - 1) {
        OneFailureMore(c, e, latency);
      }
    }
  }

  lemma OneFailureMore(c: Client, e: Env, latency: nat)
    requires !c.halted && !Next(c, e).halted
    requires !(!c.connected && e.connects) && !(c.connected && e.reply == Status(200))
    ensures var f := Next(c, e).failures;
            && f == c.failures + 1
            && Allowance(f, latency) == Allowance(c.failures, latency) + BackoffSecs(f) * SECOND + latency
  {
  }

  /** The request of operation `k` is on its way at `at`: after everything the client has done until then. */
  predicate DuringRequest(b: Board, script: seq<Env>, k: nat, at: int)
    requires k < |script|
  {
    var begun := Spent(Trace(b, START, script[..k]));
    begun <= at <= begun + script[k].took
  }

  /** Successive pings. The server handles each within its request; between two that are answered with 200,
      with `f` failed attempts in between, at most 7.1 s, the backoffs and `f + 2` latencies go by. */
  lemma PingsComeInTime(b: Board, script: seq<Env>, a: nat, k: nat, latency: nat, handledA: int, handledK: int)
    requires a < k < |script| && Succeeds(script, a) && Succeeds(script, k) && AttemptsWithin(script, latency)
    requires b.PicoW? ==> forall e | e in script :: e.linkUp
    requires forall j | a < j < k :: !Succeeds(script, j)
    requires DuringRequest(b, script, a, handledA) && DuringRequest(b, script, k, handledK)
    ensures handledK - handledA <= PingGap(FailedBetween(script, a, k), latency)
  {
    FailuresAreBetween(script, a, k);
    TotalBackoffClosed(At(script, k).failures);
    hide Spent, Trace, Run, Cost, Next;
    ElapsedIsTimeOfTrace(b, script, a);
    ElapsedIsTimeOfTrace(b, script, k);
    var f := At(script, k).failures;
    SinceSuccess(b, script, a, k, latency);
    AllowanceClosed(f, latency);
    TimesNext(f, latency);
    TimesNext(f + 1, latency);
    assert AttemptTook(script, k) <= latency && AttemptTook(script, a) <= latency;
  }

  /** 7.1 s, the backoffs of `f` failures in a row (0, 2, 6, and then 12f - 22 s), and `f + 2` latencies. */
  function PingGap(f: nat, latency: nat): nat {
    7_100_000 + 1_000_000 * (if f == 0 then 0 else if f == 1 then 2 else if f == 2 then 6 else 12 * f - 22)
    + Times(f + 2, latency)
  }

  /** A client that has just succeeded has counted exactly the failures since the success before. */
  lemma FailuresAreBetween(script: seq<Env>, a: nat, k: nat)
    requires a < k < |script| && Succeeds(script, a) && Succeeds(script, k)
    requires forall j | a < j < k :: !Succeeds(script, j)
    ensures At(script, k).failures == FailedBetween(script, a, k)
  {
    hide Next;
    AtIsRun(script, k);
    HaltsAtTheFifthDenial(script, k);
    forall j | 0 <= j <= k ensures Succeeds(script, j) <==> Succeeded(script, j) {
      AtIsRun(script, j);
      assert Running(script, j);
      CountersAreOutcomes(script, j);
    }
    CountersAreOutcomes(script, k);
    FailuresSinceSuccess(script, a, k);
  }

  lemma {:induction false} AtIsRun(script: seq<Env>, k: nat)
    requires k <= |script|
    ensures At(script, k) == Run(START, script[..k])
  {
    hide Next;
    if k > 0 {
      AtIsRun(script, k - 1);
      Runs.OneMore(Next, ActsOn(Esp32), START, script, k - 1);
    }
  }
}
