/** Client and server together: a heartbeat client whose pauses fit the configured delay is never declared down. */
module Composition {
  import opened Base
  import opened Uptime
  import opened Models
  import opened Device
  import opened DeviceRuns
  import C = Client
  import opened ClientOutcomes
  import ClientRuns

  /** The server's view: arbitrary other events, then a ping of the client, and so on. */
  function Interleave(others: seq<seq<Event>>, pings: seq<Event>): seq<Event>
    requires |others| == |pings|
  {
    if pings == [] then []
    else Interleave(others[..|pings| - 1], pings[..|pings| - 1]) + others[|pings| - 1] + [pings[|pings| - 1]]
  }

  /** Each of the client's pings is handled at most `patience` after the one before. */
  predicate Paced(start: Time, pings: seq<Event>, patience: int) {
    forall i | 0 <= i < |pings| :: pings[i].Ping? && pings[i].at <= HandledBefore(start, pings, i) + patience
  }

  function HandledBefore(start: Time, pings: seq<Event>, i: int): Time
    requires 0 <= i <= |pings|
  {
    if i == 0 then start else pings[i - 1].at
  }

  /** Events that all happen before `limit` extend a run without breaking its pace. */
  lemma {:induction false} ExtendWithin(start: Time, es: seq<Event>, more: seq<Event>, limit: Time, patience: int)
    requires Ordered(start, es + more) && PingedWithin(Some(start), es, patience)
    requires LastPing(Some(start), es).Some? && LastPing(Some(start), es).value <= Clock(start, es)
    requires Clock(start, es + more) <= limit <= LastPing(Some(start), es).value + patience
    ensures PingedWithin(Some(start), es + more, patience)
    ensures var last, last' := LastPing(Some(start), es), LastPing(Some(start), es + more);
            last'.Some? && last.value <= last'.value <= Clock(start, es + more)
  {
    if more == [] {
      assert es + more == es;
    } else {
      var all, fewer := es + more, more[..|more| - 1];
      assert all[..|all| - 1] == es + fewer;
      OrderedPrefix(start, all, |all| - 1);
      ExtendWithin(start, es, fewer, limit, patience);
      OrderedPrefix(start, es + fewer, |es|);
      assert (es + fewer)[..|es|] == es;
    }
  }

  lemma {:induction false} PacedPingsSuffice(start: Time, others: seq<seq<Event>>, pings: seq<Event>, patience: int)
    requires |others| == |pings| && Ordered(start, Interleave(others, pings)) && Paced(start, pings, patience)
    ensures PingedWithin(Some(start), Interleave(others, pings), patience)
    ensures var last := LastPing(Some(start), Interleave(others, pings));
            && last == Some(HandledBefore(start, pings, |pings|))
            && last.value <= Clock(start, Interleave(others, pings))
  {
    if pings != [] {
      var n := |pings| - 1;
      var es, more := Interleave(others[..n], pings[..n]), others[n] + [pings[n]];
      var all := Interleave(others, pings);
      assert all == es + more;
      assert all[..|es|] == es;
      OrderedPrefix(start, all, |es|);
      assert Paced(start, pings[..n], patience) by {
        assert forall i | 0 <= i < n :: HandledBefore(start, pings[..n], i) == HandledBefore(start, pings, i);
      }
      PacedPingsSuffice(start, others[..n], pings[..n], patience);
      assert pings[n].at <= HandledBefore(start, pings, n) + patience;
      ExtendWithin(start, es, more, pings[n].at, patience);
      assert all[|all| - 1] == pings[n];
    }
  }

  /** `beats` are the client's successful heartbeats, in order and none left out. */
  ghost predicate AllBeats(script: seq<C.Env>, beats: seq<nat>) {
    && (forall i | 0 <= i < |beats| :: beats[i] < |script| && ClientRuns.Succeeds(script, beats[i]))
    && (forall i | 0 < i < |beats| :: Consecutive(script, beats[i - 1], beats[i]))
  }

  ghost predicate Consecutive(script: seq<C.Env>, a: nat, k: nat) {
    a < k < |script| && forall j | a < j < k :: !ClientRuns.Succeeds(script, j)
  }

  /** The server handles heartbeat `beat` at `at`, within the client's request; `origin` is when the client started. */
  predicate HandledWithin(b: C.Board, script: seq<C.Env>, origin: Time, beat: nat, at: Time)
    requires beat < |script|
  {
    ClientRuns.DuringRequest(b, script, beat, at - origin)
  }

  lemma GapGrows(f: nat, g: nat, latency: nat)
    requires f <= g
    ensures ClientRuns.PingGap(f, latency) <= ClientRuns.PingGap(g, latency)
  {
    TimesGrows(f + 2, g + 2, latency);
  }

  lemma TimesGrows(m: nat, n: nat, latency: nat)
    requires m <= n
    ensures ClientRuns.Times(m, latency) <= ClientRuns.Times(n, latency)
  {
    if m < n {
      TimesGrows(m, n - 1, latency);
      ClientRuns.TimesNext(n - 1, latency);
    }
  }

  /** The server has just handled heartbeat 0 and the device is up. From there to the last of the heartbeats, if at most
      `failures` attempts fail between two successes, no attempt takes longer than `latency`, and the delay covers
      the resulting gap, then no schedule of scans, further pings, pauses, unpauses or settings that respect that
      delay ever takes the device down. */
  lemma {:induction false} HeartbeatsKeepTheDeviceUp(
      b: C.Board, script: seq<C.Env>, beats: seq<nat>, failures: nat, latency: nat, origin: Time,
      d: UserState, start: Time, others: seq<seq<Event>>, pings: seq<Event>)
    requires b.PicoW? ==> forall e | e in script :: e.linkUp
    requires beats != [] && AllBeats(script, beats) && ClientRuns.AttemptsWithin(script, latency)
    requires forall i | 0 < i < |beats| :: FailedBetween(script, beats[i - 1], beats[i]) <= failures
    requires |others| == |pings| == |beats| - 1
    requires HandledWithin(b, script, origin, beats[0], start)
    requires forall i | 0 <= i < |pings| ::
               pings[i].Ping? && HandledWithin(b, script, origin, beats[i + 1], pings[i].at)
    requires Sound(d, start) && Effective(d.uptime) == Up && d.uptime.touchedAt == start
    requires Ordered(start, Interleave(others, pings))
    requires d.user.upDelay * SECOND >= ClientRuns.PingGap(failures, latency)
    requires DelayStaysAbove(Interleave(others, pings), ClientRuns.PingGap(failures, latency))
    ensures Effective(Run(d, Interleave(others, pings)).uptime) == Up
    ensures forall call | call in Log(d, Interleave(others, pings)) :: call.status != Down
  {
    hide ClientRuns.DuringRequest, ClientRuns.PingGap, Sound, Ordered, Interleave, Run, Log, DelayStaysAbove,
      ClientRuns.AttemptsWithin;
    var patience := ClientRuns.PingGap(failures, latency);
    forall i | 0 <= i < |pings|
      ensures pings[i].Ping? && pings[i].at <= HandledBefore(start, pings, i) + patience
    {
      var before := HandledBefore(start, pings, i);
      assert Consecutive(script, beats[i + 1 - 1], beats[i + 1]);
      assert HandledWithin(b, script, origin, beats[i], before);
      ClientRuns.PingsComeInTime(b, script, beats[i], beats[i + 1], latency, before - origin, pings[i].at - origin);
      GapGrows(FailedBetween(script, beats[i], beats[i + 1]), failures, latency);
    }
    PacedPingsSuffice(start, others, pings, patience);
    RegularPingsNeverDown(d, start, Some(start), Interleave(others, pings), patience);
  }
}
