/** The heartbeat clients seen from outside: every counter, wait and light of a run follows from the outcomes of its
    operations alone. Waits are in microseconds. */
module ClientOutcomes {
  import opened Base
  import opened Client
  import Runs

  /** Operation `n` is a connect, not a request: the first, and whichever follows a failed connect or a broken
      request. */
  predicate IsConnect(script: seq<Env>, n: nat)
    requires n <= |script|
  {
    n == 0 || if IsConnect(script, n - 1) then !script[n - 1].connects else script[n - 1].reply == Broken
  }

  predicate Failed(script: seq<Env>, n: nat)
    requires n < |script|
  {
    if IsConnect(script, n) then !script[n].connects else script[n].reply != Status(200)
  }

  predicate Succeeded(script: seq<Env>, n: nat)
    requires n < |script|
  {
    !IsConnect(script, n) && script[n].reply == Status(200)
  }

  /** Failed connects and requests among the first `n` operations, since the last answer of 200. */
  function FailuresSince(script: seq<Env>, n: nat): nat
    requires n <= |script|
  {
    if n == 0 || Succeeded(script, n - 1) then 0
    else FailuresSince(script, n - 1) + if Failed(script, n - 1) then 1 else 0
  }

  /** How many answers of 401 in a row end the first `n` operations. */
  function Denials(script: seq<Env>, n: nat): nat
    requires n <= |script|
  {
    if n == 0 || IsConnect(script, n - 1) || script[n - 1].reply != Status(401) then 0 else Denials(script, n - 1) + 1
  }

  /** Five answers of 401 in a row have not come. */
  predicate Running(script: seq<Env>, n: nat)
    requires n <= |script|
  {
    forall m | 0 <= m <= n :: Denials(script, m) < 5
  }

  /** While it runs, the client is connected, counts and counts denials just as the outcomes say: the failures are those
      since the last 200. */
  lemma {:induction false} CountersAreOutcomes(script: seq<Env>, n: nat)
    requires n <= |script| && Running(script, n)
    ensures Run(START, script[..n]) ==
            Client(!IsConnect(script, n), false, FailuresSince(script, n), Denials(script, n))
  {
    if n > 0 {
      CountersAreOutcomes(script, n - 1);
      assert script[..n][..n - 1] == script[..n - 1];
      assert Denials(script, n) < 5;
      if IsConnect(script, n - 1) { NoDenialBeforeConnect(script, n - 1); }
    }
  }

  lemma NoDenialBeforeConnect(script: seq<Env>, n: nat)
    requires n <= |script| && IsConnect(script, n)
    ensures Denials(script, n) == 0
  {
  }

  /** The client halts at the fifth 401 in a row and stays as it was then; before that it never does. */
  lemma {:induction false} HaltsAtTheFifthDenial(script: seq<Env>, n: nat)
    requires n <= |script|
    ensures Run(START, script[..n]).halted <==> !Running(script, n)
    ensures n < |script| && Run(START, script[..n]).halted ==>
              Run(START, script[..n + 1]) == Run(START, script[..n])
    ensures n > 0 && Running(script, n - 1) && !Running(script, n) ==>
              Run(START, script[..n]) == Client(true, true, FailuresSince(script, n - 1), 5)
  {
    if n < |script| { assert script[..n + 1][..n] == script[..n]; }
    if Running(script, n) {
      CountersAreOutcomes(script, n);
    } else if n > 0 {
      HaltsAtTheFifthDenial(script, n - 1);
      assert script[..n][..n - 1] == script[..n - 1];
      if Running(script, n - 1) {
        CountersAreOutcomes(script, n - 1);
        var m :| 0 <= m <= n && Denials(script, m) >= 5;
        assert m == n && Denials(script, n - 1) < 5;
      }
    }
  }

  /** The wait after the `f`-th failure since the last success. */
  function WaitAfter(f: nat): nat {
    if f <= 1 then 2_000_000 else if f == 2 then 4_000_000 else if f == 3 then 8_000_000 else 12_000_000
  }

  /** The level that lights the LED is low on the ESP32 and high on the Pico W. */
  function Light(b: Board, on: bool): Act {
    Gpio(if b.Esp32? then !on else on)
  }

  /** The Pico W joins the network again before a connect if it has lost it. */
  function Joining(b: Board, e: Env): seq<Act> {
    if b.Esp32? || e.linkUp then []
    else [Light(b, true)] + seq(e.joinFailures, _ => Delay(Join, 5_000_000))
         + seq(e.addressPolls, _ => Delay(Address, 500_000)) + [Light(b, false)]
  }

  /** What follows the `f`-th failure since the last success. */
  function AfterFailure(b: Board, f: nat): seq<Act> {
    [Light(b, true), Delay(Backoff, WaitAfter(f))]
  }

  /** What the client does at operation `n`, by outcomes: it blinks for 100 ms and pauses for 7 s after a 200, halts
      at the
      fifth 401 in a row, and waits 2, 4, 8 and then 12 s after the failures since the last success. */
  function Expected(b: Board, script: seq<Env>, n: nat): seq<Act>
    requires n < |script|
  {
    var e, f := script[n], FailuresSince(script, n) + 1;
    if IsConnect(script, n) then
      Joining(b, e) + [Connect(e.connects, e.took)] + if e.connects then [Light(b, false)] else AfterFailure(b, f)
    else
      [Request(e.reply, e.took)] +
      if e.reply == Status(200) then
        [Light(b, true), Delay(Blink, 100_000), Light(b, false), Delay(Heartbeat, 7_000_000)]
      else if Denials(script, n + 1) == 5 then [Light(b, true), Halt]
      else AfterFailure(b, f)
  }

  lemma BackoffIsWaitAfter(f: nat)
    ensures BackoffSecs(f) * SECOND == WaitAfter(f)
  {
    assert Pow2(0) == 1 && Pow2(1) == 2 && Pow2(2) == 4 && Pow2(3) == 8;
  }

  lemma RejoinIsJoining(b: Board, e: Env)
    ensures Joining(b, e) == if b.PicoW? && !e.linkUp then [Gpio(Level(b, true))] + Rejoin(e) + [Gpio(Level(b, false))]
                             else []
  {
    assert Rejoin(e) == seq(e.joinFailures, _ => Delay(Join, 5_000_000)) + seq(e.addressPolls,
      _ => Delay(Address, 500_000));
  }

  lemma ActsAreExpected(b: Board, script: seq<Env>, n: nat)
    requires n < |script| && Running(script, n)
    ensures Acts(b, Run(START, script[..n]), script[n]) == Expected(b, script, n)
  {
    CountersAreOutcomes(script, n);
    BackoffIsWaitAfter(FailuresSince(script, n) + 1);
    RejoinIsJoining(b, script[n]);
    hide Rejoin, BackoffSecs, Run, Joining, FailuresSince;
  }

  /** Failed connects and requests after operation `a` and before operation `n`. */
  function FailedBetween(script: seq<Env>, a: nat, n: nat): nat
    requires a < n <= |script|
  {
    if n == a + 1 then 0 else FailedBetween(script, a, n - 1) + if Failed(script, n - 1) then 1 else 0
  }

  lemma {:induction false} FailuresSinceSuccess(script: seq<Env>, a: nat, n: nat)
    requires a < n <= |script| && Succeeded(script, a) && forall j | a < j < n :: !Succeeded(script, j)
    ensures FailuresSince(script, n) == FailedBetween(script, a, n)
  {
    if n > a + 1 { FailuresSinceSuccess(script, a, n - 1); }
  }

  /** The whole trace of a run that has not halted is what its outcomes call for, operation by operation. */
  function ExpectedTrace(b: Board, script: seq<Env>, n: nat): seq<Act>
    requires n <= |script|
  {
    if n == 0 then [] else ExpectedTrace(b, script, n - 1) + Expected(b, script, n - 1)
  }

  lemma {:induction false} TraceIsExpected(b: Board, script: seq<Env>, n: nat)
    requires n <= |script| && (n > 0 ==> Running(script, n - 1))
    ensures Trace(b, START, script[..n]) == ExpectedTrace(b, script, n)
  {
    hide Acts, Expected, Next;
    if n > 0 {
      TraceIsExpected(b, script, n - 1);
      ActsAreExpected(b, script, n - 1);
      Runs.OneMore(Next, ActsOn(b), START, script, n - 1);
    }
  }
}
