/** The heartbeat clients: clients/esp32/src/main.rs and clients/pico-w/src/main.rs.

    Both run an outer loop that connects and an inner loop that sends heartbeats. A run is driven by a
    script with one entry per operation, a connect or a request; each method consumes the script and
    records everything it does. The pure machine below is the specification of both. */
module Client {
  import opened Base
  import Runs

  const HEARTBEAT_SECS := 7
  const BACKOFF_BASE_SECS := 2
  const MAX_BACKOFF_SECS := 12
  const MAX_AUTH_FAILURES := 5
  const BLINK := 100_000

  datatype Reply = Status(code: nat) | Broken

  /** What the environment does at one operation. The last three fields matter only to the Pico W. */
  datatype Env = Env(
    connects: bool,          // the outcome, if the operation is a connect
    reply: Reply,            // the outcome, if it is a request
    took: nat,               // its latency in microseconds
    linkUp: bool,
    joinFailures: nat,       // failed joins before the link is back
    addressPolls: nat)       // polls before there is an address

  datatype Why = Backoff | Blink | Heartbeat | Join | Address

  datatype Act =
    | Gpio(high: bool)
    | Connect(ok: bool, took: nat)
    | Request(reply: Reply, took: nat)
    | Delay(why: Why, micros: nat)
    | Halt

  datatype Board = Esp32 | PicoW

  /** The pin level that lights the LED: GPIO8 of the ESP32 is active-low. */
  function Level(b: Board, lit: bool): bool {
    match b case Esp32 => !lit case PicoW => lit
  }

  function Pow2(n: nat): nat { if n == 0 then 1 else 2 * Pow2(n - 1) }

  function BackoffSecs(failures: nat): nat {
    Min(BACKOFF_BASE_SECS * Pow2(Min(if failures == 0 then 0 else failures - 1, 3)), MAX_BACKOFF_SECS)
  }

  datatype Client = Client(connected: bool, halted: bool, failures: nat, authFailures: nat)

  const START := Client(false, false, 0, 0)

  function Next(c: Client, e: Env): Client {
    if c.halted then c
    else if !c.connected then
      if e.connects then c.(connected := true) else c.(failures := c.failures + 1)
    else match e.reply
      case Status(code) =>
        if code == 200 then c.(failures := 0, authFailures := 0)
        else if code == 401 then
          if c.authFailures + 1 >= MAX_AUTH_FAILURES then c.(authFailures := c.authFailures + 1, halted := true)
          else c.(authFailures := c.authFailures + 1, failures := c.failures + 1)
        else c.(authFailures := 0, failures := c.failures + 1)
      case Broken => c.(connected := false, authFailures := 0, failures := c.failures + 1)
  }

  function Repeat(a: Act, n: nat): seq<Act> { seq(n, _ => a) }

  /** `wifi_connect` of the Pico W. */
  function Rejoin(e: Env): seq<Act> {
    Repeat(Delay(Join, 5 * SECOND), e.joinFailures) + Repeat(Delay(Address, SECOND / 2), e.addressPolls)
  }

  function ErrorWait(b: Board, failures: nat): seq<Act> {
    [Gpio(Level(b, true)), Delay(Backoff, BackoffSecs(failures) * SECOND)]
  }

  /** Everything done at one operation. */
  function Acts(b: Board, c: Client, e: Env): seq<Act> {
    if c.halted then []
    else if !c.connected then
      (if b.PicoW? && !e.linkUp then [Gpio(Level(b, true))] + Rejoin(e) + [Gpio(Level(b, false))] else [])
      + [Connect(e.connects, e.took)]
      + (if e.connects then [Gpio(Level(b, false))] else ErrorWait(b, c.failures + 1))
    else
      [Request(e.reply, e.took)]
      + (if e.reply == Status(200) then
           [Gpio(Level(b, true)), Delay(Blink, BLINK), Gpio(Level(b, false)), Delay(Heartbeat, HEARTBEAT_SECS * SECOND)]
         else if Next(c, e).halted then [Gpio(Level(b, true)), Halt]
         else ErrorWait(b, c.failures + 1))
  }

  function Run(c: Client, script: seq<Env>): Client {
    Runs.Fold(Next, c, script)
  }

  function ActsOn(b: Board): (Client, Env) -> seq<Act> {
    (c, e) => Acts(b, c, e)
  }

  function Trace(b: Board, c: Client, script: seq<Env>): seq<Act> {
    Runs.Output(Next, ActsOn(b), c, script)
  }

  /** The first `i` operations of the script have led to `c` and to `trace`. */
  ghost predicate Reached(b: Board, script: seq<Env>, i: nat, c: Client, trace: seq<Act>)
    requires i <= |script|
  {
    Run(START, script[..i]) == c && Trace(b, START, script[..i]) == trace
  }

  lemma Advance(b: Board, script: seq<Env>, i: nat, c: Client, trace: seq<Act>)
    requires i < |script| && Reached(b, script, i, c, trace)
    ensures Reached(b, script, i + 1, Next(c, script[i]), trace + Acts(b, c, script[i]))
  {
    assert script[..i + 1][..i] == script[..i];
  }

  lemma {:induction false} HaltedForGood(b: Board, script: seq<Env>, i: nat, c: Client, trace: seq<Act>)
    requires i <= |script| && Reached(b, script, i, c, trace) && c.halted
    ensures Reached(b, script, |script|, c, trace)
    decreases |script| - i
  {
    if i < |script| {
      Advance(b, script, i, c, trace);
      HaltedForGood(b, script, i + 1, c, trace);
    }
  }

  lemma ReachedEnd(b: Board, script: seq<Env>, c: Client, trace: seq<Act>)
    requires Reached(b, script, |script|, c, trace)
    ensures Run(START, script) == c && Trace(b, START, script) == trace
  {
    assert script[..|script|] == script;
  }

  /** One turn of the ESP32's inner loop, with the levels of an active-low pin. */
  method BeatEsp32(e: Env, failures0: nat, authFailures0: nat)
    returns (acts: seq<Act>, failures: nat, authFailures: nat, broken: bool, halted: bool)
    ensures var c := Client(true, false, failures0, authFailures0);
            && acts == Acts(Esp32, c, e)
            && Next(c, e) == Client(!broken, halted, failures, authFailures)
            && !(broken && halted)
  {
    failures, authFailures, broken, halted := failures0, authFailures0, false, false;
    acts := [Request(e.reply, e.took)];
    match e.reply
    case Status(code) =>
      if code == 200 {
        acts := acts + [Gpio(false), Delay(Blink, BLINK), Gpio(true)];
        failures := 0;
        authFailures := 0;
        acts := acts + [Delay(Heartbeat, HEARTBEAT_SECS * SECOND)];
      } else {
        if code == 401 {
          authFailures := authFailures + 1;
          if authFailures >= MAX_AUTH_FAILURES {
            acts := acts + [Gpio(false), Halt];
            halted := true;
            return;
          }
        } else {
          authFailures := 0;
        }
        failures := failures + 1;
        acts := acts + [Gpio(false), Delay(Backoff, BackoffSecs(failures) * SECOND)];
      }
    case Broken =>
      failures := failures + 1;
      authFailures := 0;
      acts := acts + [Gpio(false), Delay(Backoff, BackoffSecs(failures) * SECOND)];
      broken := true;
  }

  /** The connect step of the ESP32's outer loop. */
  method ConnectEsp32(e: Env, failures0: nat, ghost auth: nat) returns (acts: seq<Act>, failures: nat)
    ensures var c := Client(false, false, failures0, auth);
            acts == Acts(Esp32, c, e) && Next(c, e) == Client(e.connects, false, failures, auth)
  {
    acts, failures := [], failures0;
    acts := acts + [Connect(e.connects, e.took)];
    if e.connects {
      acts := acts + [Gpio(true)];
    } else {
      failures := failures + 1;
      acts := acts + [Gpio(false), Delay(Backoff, BackoffSecs(failures) * SECOND)];
    }
  }

  /** The ESP32 program, until the script ends or it halts. */
  method RunEsp32(script: seq<Env>) returns (trace: seq<Act>, halted: bool, failures: nat, authFailures: nat)
    ensures trace == Trace(Esp32, START, script)
    ensures var c := Run(START, script); c.halted == halted && c.failures == failures && c.authFailures == authFailures
  {
    trace, halted, failures, authFailures := [], false, 0, 0;
    ghost var connected := false;
    var i := 0;
    while i < |script|
      invariant 0 <= i <= |script| && !halted
      invariant connected ==> i == |script|
      invariant Reached(Esp32, script, i, Client(connected, false, failures, authFailures), trace)
    {
      Advance(Esp32, script, i, Client(false, false, failures, authFailures), trace);
      var acts;
      acts, failures := ConnectEsp32(script[i], failures, authFailures);
      trace := trace + acts;
      i := i + 1;
      if !script[i - 1].connects {
        continue;
      }
      var broken := false;
      while i < |script| && !broken
        invariant 0 < i <= |script|
        invariant Reached(Esp32, script, i, Client(!broken, false, failures, authFailures), trace)
      {
        var beat;
        Advance(Esp32, script, i, Client(true, false, failures, authFailures), trace);
        beat, failures, authFailures, broken, halted := BeatEsp32(script[i], failures, authFailures);
        i := i + 1;
        trace := trace + beat;
        if halted {
          HaltedForGood(Esp32, script, i, Client(true, true, failures, authFailures), trace);
          ReachedEnd(Esp32, script, Client(true, true, failures, authFailures), trace);
          return;
        }
      }
      connected := !broken;
    }
    ReachedEnd(Esp32, script, Client(connected, false, failures, authFailures), trace);
  }

  /** One turn of the Pico W's inner loop, with the levels of an active-high pin. */
  method BeatPicoW(e: Env, failures0: nat, authFailures0: nat)
    returns (acts: seq<Act>, failures: nat, authFailures: nat, broken: bool, halted: bool)
    ensures var c := Client(true, false, failures0, authFailures0);
            && acts == Acts(PicoW, c, e)
            && Next(c, e) == Client(!broken, halted, failures, authFailures)
            && !(broken && halted)
  {
    failures, authFailures, broken, halted := failures0, authFailures0, false, false;
    acts := [Request(e.reply, e.took)];
    match e.reply
    case Status(code) =>
      if code == 200 {
        acts := acts + [Gpio(true), Delay(Blink, BLINK), Gpio(false)];
        failures := 0;
        authFailures := 0;
        acts := acts + [Delay(Heartbeat, HEARTBEAT_SECS * SECOND)];
      } else {
        if code == 401 {
          authFailures := authFailures + 1;
          if authFailures >= MAX_AUTH_FAILURES {
            acts := acts + [Gpio(true), Halt];
            halted := true;
            return;
          }
        } else {
          authFailures := 0;
        }
        failures := failures + 1;
        acts := acts + [Gpio(true), Delay(Backoff, BackoffSecs(failures) * SECOND)];
      }
    case Broken =>
      failures := failures + 1;
      authFailures := 0;
      acts := acts + [Gpio(true), Delay(Backoff, BackoffSecs(failures) * SECOND)];
      broken := true;
  }

  /** The connect step of the Pico W's outer loop. */
  method ConnectPicoW(e: Env, failures0: nat, ghost auth: nat) returns (acts: seq<Act>, failures: nat)
    ensures var c := Client(false, false, failures0, auth);
            acts == Acts(PicoW, c, e) && Next(c, e) == Client(e.connects, false, failures, auth)
  {
    acts, failures := [], failures0;
    if !e.linkUp {
      var joins := WifiConnect(e);
      acts := [Gpio(true)] + joins + [Gpio(false)];
    }
    acts := acts + [Connect(e.connects, e.took)];
    if e.connects {
      acts := acts + [Gpio(false)];
    } else {
      failures := failures + 1;
      acts := acts + [Gpio(true), Delay(Backoff, BackoffSecs(failures) * SECOND)];
    }
  }

  /** The Pico W program: the same loops, with the link check of the outer loop. */
  method RunPicoW(script: seq<Env>) returns (trace: seq<Act>, halted: bool, failures: nat, authFailures: nat)
    ensures trace == Trace(PicoW, START, script)
    ensures var c := Run(START, script); c.halted == halted && c.failures == failures && c.authFailures == authFailures
  {
    trace, halted, failures, authFailures := [], false, 0, 0;
    ghost var connected := false;
    var i := 0;
    while i < |script|
      invariant 0 <= i <= |script| && !halted
      invariant connected ==> i == |script|
      invariant Reached(PicoW, script, i, Client(connected, false, failures, authFailures), trace)
    {
      Advance(PicoW, script, i, Client(false, false, failures, authFailures), trace);
      var acts;
      acts, failures := ConnectPicoW(script[i], failures, authFailures);
      trace := trace + acts;
      i := i + 1;
      if !script[i - 1].connects {
        continue;
      }
      var broken := false;
      while i < |script| && !broken
        invariant 0 < i <= |script|
        invariant Reached(PicoW, script, i, Client(!broken, false, failures, authFailures), trace)
      {
        var beat;
        Advance(PicoW, script, i, Client(true, false, failures, authFailures), trace);
        beat, failures, authFailures, broken, halted := BeatPicoW(script[i], failures, authFailures);
        i := i + 1;
        trace := trace + beat;
        if halted {
          HaltedForGood(PicoW, script, i, Client(true, true, failures, authFailures), trace);
          ReachedEnd(PicoW, script, Client(true, true, failures, authFailures), trace);
          return;
        }
      }
      connected := !broken;
    }
    ReachedEnd(PicoW, script, Client(connected, false, failures, authFailures), trace);
  }

  method WifiConnect(e: Env) returns (acts: seq<Act>)
    ensures acts == Rejoin(e)
  {
    acts := [];
    var joins := 0;
    while joins < e.joinFailures
      invariant 0 <= joins <= e.joinFailures && acts == Repeat(Delay(Join, 5 * SECOND), joins)
    {
      acts := acts + [Delay(Join, 5 * SECOND)];
      joins := joins + 1;
    }
    var joined := acts;
    var polls := 0;
    while polls < e.addressPolls
      invariant 0 <= polls <= e.addressPolls && acts == joined + Repeat(Delay(Address, SECOND / 2), polls)
    {
      acts := acts + [Delay(Address, SECOND / 2)];
      polls := polls + 1;
    }
  }
}
