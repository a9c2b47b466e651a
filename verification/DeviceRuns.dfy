/** Safety and liveness of the timed monitor, over whole runs of one device. */
module DeviceRuns {
  import opened Base
  import opened MaintenanceWindow
  import opened Uptime
  import opened Models
  import opened Notifications
  import opened Device
  import opened Thresholds
  import Runs

  // ----- No false alarm -----

  /** Event `i` is a ping, or an unpause that the device accepted. */
  predicate Refreshes(d: UserState, es: seq<Event>, i: nat)
    requires i < |es|
  {
    es[i].Ping? || (es[i].Unpause? && Run(d, es[..i]).uptime.status.Paused?)
  }

  lemma {:induction false} TouchedAfterEveryRefresh(d: UserState, start: Time, es: seq<Event>, i: nat)
    requires Sound(d, start) && Ordered(start, es)
    requires i < |es| && Refreshes(d, es, i)
    ensures Run(d, es).uptime.touchedAt >= es[i].at
  {
    var before := es[..|es| - 1];
    RunStaysSound(d, start, before);
    OrderedPrefix(start, es, |es| - 1);
    if i < |before| {
      assert before[..i] == es[..i];
      TouchedAfterEveryRefresh(d, start, before, i);
      OrderedPrefix(start, before, i);
    }
  }

  lemma OnlyScansTakeDown(d: UserState, now: Time, e: Event)
    requires Sound(d, now) && now <= Start(e) <= e.at
    requires Effective(d.uptime) != Down && Effective(Step(d, e).uptime) == Down
    ensures e.Scan? && Overdue(d, e.now) && d.uptime.status == Up
    ensures Calls(d, e) == [Dispatch(Down, Some(e.at - d.uptime.changedAt))]
  {
    if e.Scan? { OverdueReaches(d, e.now); }
  }

  /** A device goes down only in a scan that reads the clock strictly more than the current delay after
      every earlier ping and accepted unpause, outside the maintenance window, and the user is told. */
  lemma NoFalseAlarm(d: UserState, start: Time, es: seq<Event>, k: nat)
    requires Sound(d, start) && Ordered(start, es) && k < |es|
    requires Effective(Run(d, es[..k]).uptime) != Down && Effective(Run(d, es[..k + 1]).uptime) == Down
    ensures es[k].Scan?
    ensures var before := Run(d, es[..k]);
            && (forall i | 0 <= i < k && Refreshes(d, es, i) ::
                  es[k].now > es[i].at + before.user.upDelay * 1_000_000)
            && !Quiet(before.user, es[k].now)
            && before.uptime.status == Up
            && Calls(before, es[k]) == [Dispatch(Down, Some(es[k].at - before.uptime.changedAt))]
  {
    hide Step, Calls, Quiet, Effective, Ordered;
    OrderedPrefix(start, es, k);
    RunStaysSound(d, start, es[..k]);
    Runs.OneMore(Step, Calls, d, es, k);
    OnlyScansTakeDown(Run(d, es[..k]), Clock(start, es[..k]), es[k]);
    RefreshesCount(d, start, es, k);
  }

  lemma RefreshesCount(d: UserState, start: Time, es: seq<Event>, k: nat)
    requires Sound(d, start) && Ordered(start, es) && k <= |es|
    ensures forall i | 0 <= i < k && Refreshes(d, es, i) :: Run(d, es[..k]).uptime.touchedAt >= es[i].at
  {
    OrderedPrefix(start, es, k);
    forall i | 0 <= i < k && Refreshes(d, es, i)
      ensures Run(d, es[..k]).uptime.touchedAt >= es[i].at
    {
      assert es[..k][..i] == es[..i];
      TouchedAfterEveryRefresh(d, start, es[..k], i);
    }
  }

  function LastPing(last: Option<Time>, es: seq<Event>): Option<Time> {
    if es == [] then last
    else if es[|es| - 1].Ping? then Some(es[|es| - 1].at)
    else LastPing(last, es[..|es| - 1])
  }

  /** Once the device has connected, every scan comes at most `patience` after its latest ping. */
  predicate PingedWithin(last: Option<Time>, es: seq<Event>, patience: int) {
    es == [] ||
    (var before, e := es[..|es| - 1], es[|es| - 1];
     && PingedWithin(last, before, patience)
     && (e.Scan? && LastPing(last, before).Some? ==> e.now <= LastPing(last, before).value + patience))
  }

  /** No settings request sets a delay shorter than `patience`. */
  predicate DelayStaysAbove(es: seq<Event>, patience: int) {
    forall i | 0 <= i < |es| :: es[i].Settings? && es[i].req.upDelay.Some? ==>
      es[i].req.upDelay.value * SECOND >= patience
  }

  /** What regular pings keep. */
  predicate Regular(d: UserState, last: Option<Time>, patience: int) {
    && d.user.upDelay * SECOND >= patience
    && if last.Some? then d.uptime.touchedAt >= last.value && Effective(d.uptime) == Up
       else d.uptime.status.Uninitialized?
  }

  lemma StaysRegular(d: UserState, now: Time, last: Option<Time>, e: Event, patience: int)
    requires Sound(d, now) && now <= Start(e) <= e.at && Regular(d, last, patience)
    requires e.Scan? && last.Some? ==> e.now <= last.value + patience
    requires e.Settings? && e.req.upDelay.Some? ==> e.req.upDelay.value * SECOND >= patience
    ensures Regular(Step(d, e), if e.Ping? then Some(e.at) else last, patience)
    ensures forall c | c in Calls(d, e) :: c.status != Down
  {
    hide InMaintenance;
  }

  /** A device that pings often enough is never Down, not even behind a pause, however scans, pings,
      pauses, unpauses and settings changes interleave. */
  lemma {:induction false} RegularPingsNeverDown(d: UserState, start: Time, last: Option<Time>, es: seq<Event>,
                                                 patience: int)
    requires Sound(d, start) && Ordered(start, es)
    requires if last.Some? then d.uptime.touchedAt >= last.value && Effective(d.uptime) == Up
             else d.uptime.status.Uninitialized?
    requires PingedWithin(last, es, patience)
    requires d.user.upDelay * SECOND >= patience && DelayStaysAbove(es, patience)
    ensures var after, p := Run(d, es), LastPing(last, es);
            && after.user.upDelay * SECOND >= patience
            && if p.Some? then after.uptime.touchedAt >= p.value && Effective(after.uptime) == Up
               else after.uptime.status.Uninitialized?
    ensures Effective(Run(d, es).uptime) != Down
    ensures forall c | c in Log(d, es) :: c.status != Down
  {
    if es != [] {
      var before := es[..|es| - 1];
      assert forall i | 0 <= i < |before| :: before[i] == es[i];
      RegularPingsNeverDown(d, start, last, before, patience);
      RunStaysSound(d, start, before);
      OrderedPrefix(start, es, |es| - 1);
      StaysRegular(Run(d, before), Clock(start, before), LastPing(last, before), es[|es| - 1], patience);
      hide Step, Calls;
    }
  }

  // ----- Notification grammar -----

  function CountCalls(log: seq<Dispatch>, s: UpStatus): nat {
    if log == [] then 0 else CountCalls(log[..|log| - 1], s) + if log[|log| - 1].status == s then 1 else 0
  }

  /** Pings that restored the device but were kept silent by the maintenance window. */
  function SuppressedRestores(d: UserState, es: seq<Event>): nat {
    if es == [] then 0
    else
      var before, e := es[..|es| - 1], es[|es| - 1];
      var at := Run(d, before);
      SuppressedRestores(d, before)
      + if e.Ping? && at.uptime.status.Down? && Quiet(at.user, e.wall) then 1 else 0
  }

  function Downness(d: UserState): nat {
    if Effective(d.uptime) == Down then 1 else 0
  }

  /** Whether entry `i` may stand where it does in the log of a device that was `initial` when the process started. */
  predicate Fits(initial: UserState, log: seq<Dispatch>, i: nat)
    requires i < |log|
  {
    && TitleOf(log[i]).Some?
    && (log[i].status.Uninitialized? ==> i == 0 && initial.uptime.status.Uninitialized?)
    && (log[i].status.Up? ==> if i == 0 then Effective(initial.uptime) == Down else log[i - 1].status == Down)
    && (log[i].duration.None? <==> log[i].status.Uninitialized?)
  }

  ghost predicate Grammar(initial: UserState, log: seq<Dispatch>) {
    forall i | 0 <= i < |log| :: Fits(initial, log, i)
  }

  lemma GrammarAppend(initial: UserState, log: seq<Dispatch>, more: seq<Dispatch>)
    requires Grammar(initial, log) && |more| <= 1
    requires more != [] ==> Fits(initial, log + more, |log|)
    ensures Grammar(initial, log + more)
  {
    forall i | 0 <= i < |log + more| ensures Fits(initial, log + more, i) {
      if i < |log| {
        assert Fits(initial, log, i);
      }
    }
  }

  lemma CountAppend(log: seq<Dispatch>, more: seq<Dispatch>, s: UpStatus)
    requires |more| <= 1
    ensures CountCalls(log + more, s) == CountCalls(log, s) + if more != [] && more[0].status == s then 1 else 0
  {
    if more == [] {
      assert log + more == log;
    } else {
      assert (log + more)[..|log|] == log;
    }
  }

  /** What one event can send, by the status it starts from. */
  lemma CallsOf(d: UserState, now: Time, e: Event)
    requires Sound(d, now) && now <= Start(e) <= e.at
    ensures |Calls(d, e)| <= 1
    ensures Calls(d, e) == [] ==>
              || Effective(Step(d, e).uptime) == Effective(d.uptime)
              || (&& e.Ping? && Quiet(d.user, e.wall) && Effective(Step(d, e).uptime) == Up
                  && (d.uptime.status.Uninitialized? || d.uptime.status.Down?))
    ensures Calls(d, e) != [] ==>
              var call := Calls(d, e)[0];
              && !call.status.Paused?
              && call.duration.None? == call.status.Uninitialized?
              && Effective(d.uptime) == d.uptime.status
              && Effective(d.uptime) == (match call.status case Up => Down case Down => Up case _ => Uninitialized)
              && Effective(Step(d, e).uptime) == (if call.status.Down? then Down else Up)
              && !(e.Ping? && Quiet(d.user, e.wall))
  {
    if e.Ping? { QuietIsInMaintenance(d.user, e.wall); }
  }

  /** "Connected" comes at most once and first, every "power on" directly follows a "power off", and nothing
      is dispatched for a paused device. After a restart `d` is whatever was stored; a device down at the
      start may open with the "power on" whose "power off" an earlier process sent. */
  lemma {:induction false} NotificationGrammar(d: UserState, start: Time, es: seq<Event>)
    requires Sound(d, start) && Ordered(start, es)
    ensures Grammar(d, Log(d, es))
    ensures Effective(Run(d, es).uptime) == Down ==>
              if Log(d, es) == [] then Effective(d.uptime) == Down else Log(d, es)[|Log(d, es)| - 1].status == Down
    ensures Effective(Run(d, es).uptime) == Uninitialized ==> Effective(d.uptime) == Uninitialized && Log(d, es) == []
  {
    if es != [] {
      var before := es[..|es| - 1];
      NotificationGrammar(d, start, before);
      RunStaysSound(d, start, before);
      CallsOf(Run(d, before), Clock(start, before), es[|es| - 1]);
      GrammarAppend(d, Log(d, before), Calls(Run(d, before), es[|es| - 1]));
    }
  }

  /** The books balance: "power off" less "power on" less the restores a maintenance window kept silent
      is the change in being down, where a paused device counts as what it will go back to. */
  lemma {:induction false} NotificationBalance(d: UserState, start: Time, es: seq<Event>)
    requires Sound(d, start) && Ordered(start, es)
    ensures CountCalls(Log(d, es), Down) - CountCalls(Log(d, es), Up) - SuppressedRestores(d, es)
         == Downness(Run(d, es)) - Downness(d)
  {
    if es != [] {
      var before := es[..|es| - 1];
      NotificationBalance(d, start, before);
      RunStaysSound(d, start, before);
      CallsOf(Run(d, before), Clock(start, before), es[|es| - 1]);
      var log, more := Log(d, before), Calls(Run(d, before), es[|es| - 1]);
      CountAppend(log, more, Down);
      CountAppend(log, more, Up);
    }
  }

  // ----- Pauses -----

  /** Pings, scans and further pause requests leave a paused device as it is, but for the last touch, and send
      nothing. */
  lemma {:induction false} PausedIsFrozen(d: UserState, es: seq<Event>)
    requires d.uptime.status.Paused?
    requires forall e | e in es :: e.Ping? || e.Scan? || e.Pause?
    ensures Run(d, es) == d.(uptime := d.uptime.(touchedAt := Run(d, es).uptime.touchedAt))
    ensures Log(d, es) == []
  {
    if es != [] {
      PausedIsFrozen(d, es[..|es| - 1]);
    }
  }

  lemma {:induction false} GraceAfterRefresh(d: UserState, scans: seq<Event>)
    requires forall e | e in scans :: e.Scan? && e.now <= Deadline(d)
    ensures Run(d, scans) == d && Log(d, scans) == []
  {
    if scans != [] {
      assert scans[|scans| - 1] in scans;
      GraceAfterRefresh(d, scans[..|scans| - 1]);
    }
  }

  /** A pause and its unpause, with any pings and scans between and a full delay of scans after,
      restore the status, restart both timers at the unpause, and send nothing. */
  lemma PauseIsTransparent(d: UserState, pauseAt: Time, during: seq<Event>, resumeAt: Time, after: seq<Event>)
    requires WellFormed(d.uptime) && d.uptime.status in {Up, Down}
    requires forall e | e in during :: e.Ping? || e.Scan? || e.Pause?
    requires forall e | e in after :: e.Scan? && e.now <= resumeAt + d.user.upDelay * 1_000_000
    ensures var es := [Pause(pauseAt)] + during + [Unpause(resumeAt)] + after;
            && Run(d, es) == d.(uptime := d.uptime.(touchedAt := resumeAt, changedAt := resumeAt))
            && Log(d, es) == []
  {
    var p, u := [Pause(pauseAt)], [Unpause(resumeAt)];
    Runs.FoldOne(Step, d, Pause(pauseAt));
    Runs.OutputOne(Step, Calls, d, Pause(pauseAt));
    var paused := Run(d, p);
    PausedIsFrozen(paused, during);
    Runs.FoldConcat(Step, d, p, during);
    Runs.OutputConcat(Step, Calls, d, p, during);
    var held := Run(d, p + during);
    Runs.FoldConcat(Step, d, p + during, u);
    Runs.OutputConcat(Step, Calls, d, p + during, u);
    Runs.FoldOne(Step, held, Unpause(resumeAt));
    Runs.OutputOne(Step, Calls, held, Unpause(resumeAt));
    var resumed := Run(d, p + during + u);
    GraceAfterRefresh(resumed, after);
    Runs.FoldConcat(Step, d, p + during + u, after);
    Runs.OutputConcat(Step, Calls, d, p + during + u, after);
  }

  // ----- Bounded detection -----

  lemma {:induction false} ScansBeforeDetection(d: UserState, scans: seq<Event>)
    requires ValidSettings(d.user) && forall e | e in scans :: e.Scan? && !Overdue(d, e.now)
    ensures Run(d, scans) == d && Log(d, scans) == []
  {
    if scans != [] {
      assert scans[|scans| - 1] in scans;
      OverdueReaches(d, scans[|scans| - 1].now);
      ScansBeforeDetection(d, scans[..|scans| - 1]);
    }
  }

  /** Consecutive scans are at most `gap` apart. */
  predicate ScansEvery(scans: seq<Event>, gap: int) {
    && (forall e | e in scans :: e.Scan?)
    && (forall i | 0 < i < |scans| :: NowOf(scans, i - 1) <= NowOf(scans, i) <= NowOf(scans, i - 1) + gap)
  }

  function NowOf(scans: seq<Event>, i: int): Time
    requires 0 <= i < |scans|
  {
    Start(scans[i])
  }

  lemma {:induction false} FirstScanFrom(scans: seq<Event>, t: Time, n: nat) returns (k: nat)
    requires 0 < n <= |scans| && NowOf(scans, 0) < t <= NowOf(scans, n - 1)
    ensures 0 < k < n && NowOf(scans, k - 1) < t <= NowOf(scans, k)
  {
    if NowOf(scans, n - 2) < t {
      k := n - 1;
    } else {
      k := FirstScanFrom(scans, t, n - 1);
    }
  }

  /** The first scan, if any, that comes more than the delay after the last touch and outside the window. */
  ghost predicate CaughtAt(d: UserState, scans: seq<Event>, k: nat)
    requires forall e | e in scans :: e.Scan?
  {
    && k < |scans|
    && Overdue(d, scans[k].now)
    && (forall i | 0 <= i < k :: !Overdue(d, scans[i].now))
  }

  lemma {:induction false} FirstCaught(d: UserState, scans: seq<Event>, n: nat) returns (k: nat)
    requires (forall e | e in scans :: e.Scan?) && n < |scans| && Overdue(d, scans[n].now)
    ensures k <= n && CaughtAt(d, scans, k)
  {
    if i :| 0 <= i < n && Overdue(d, scans[i].now) {
      k := FirstCaught(d, scans, i);
    } else {
      k := n;
    }
  }

  lemma CaughtGoesDown(d: UserState, e: Event)
    requires ValidSettings(d.user) && e.Scan? && Overdue(d, e.now) && d.uptime.status.Up?
    requires d.uptime.changedAt <= e.at
    ensures Step(d, e) == d.(uptime := d.uptime.(status := Down, changedAt := e.at))
    ensures Calls(d, e) == [Dispatch(Down, Some(e.at - d.uptime.changedAt))]
  {
    OverdueReaches(d, e.now);
  }

  /** A device that stays silent is left alone until it is caught, and then goes down with one truthful report. */
  lemma DetectionIsExact(d: UserState, start: Time, scans: seq<Event>, k: nat)
    requires Sound(d, start) && d.uptime.status.Up? && Ordered(start, scans)
    requires (forall e | e in scans :: e.Scan?) && CaughtAt(d, scans, k)
    ensures forall i | 0 <= i <= k :: Run(d, scans[..i]) == d && Log(d, scans[..i]) == []
    ensures Run(d, scans[..k + 1]) == d.(uptime := d.uptime.(status := Down, changedAt := scans[k].at))
    ensures Log(d, scans[..k + 1]) == [Dispatch(Down, Some(scans[k].at - d.uptime.changedAt))]
  {
    forall i | 0 <= i <= k ensures Run(d, scans[..i]) == d && Log(d, scans[..i]) == [] {
      ScansBeforeDetection(d, scans[..i]);
    }
    assert scans[k] in scans;
    OrderedPrefix(start, scans, k);
    CaughtGoesDown(d, scans[k]);
    assert scans[..k + 1][..k] == scans[..k];
    Runs.OneMore(Step, Calls, d, scans, k);
  }

  lemma FreeMinuteReaches(d: UserState, free: Time, now: Time)
    requires FreeMinute(d.user.maintStart, d.user.maintEnd, free) && free <= now < free + MINUTE
    requires ValidSettings(d.user) && d.uptime.touchedAt + d.user.upDelay * 1_000_000 < free
    ensures Overdue(d, now)
  {
    OpenIsInWindow(d.user.maintStart, d.user.maintEnd, now);
  }

  lemma SomeScanReaches(d: UserState, scans: seq<Event>, gap: int, free: Time) returns (n: nat)
    requires ValidSettings(d.user) && d.uptime.touchedAt + d.user.upDelay * 1_000_000 < free
    requires FreeMinute(d.user.maintStart, d.user.maintEnd, free)
    requires 0 < gap <= MINUTE && ScansEvery(scans, gap) && scans != []
    requires NowOf(scans, 0) < free <= NowOf(scans, |scans| - 1)
    ensures n < |scans| && scans[n].Scan? && Overdue(d, scans[n].now) && NowOf(scans, n) < free + gap
  {
    n := FirstScanFrom(scans, free, |scans|);
    assert NowOf(scans, n) <= NowOf(scans, n - 1) + gap;
    assert scans[n] in scans;
    FreeMinuteReaches(d, free, NowOf(scans, n));
  }

  /** Whatever the maintenance window, if the loop scans at least once a minute an Up device that falls silent
      is caught within its delay, one day and one scan gap. */
  lemma SilentDeviceIsCaught(d: UserState, scans: seq<Event>, gap: int)
    requires ValidSettings(d.user) && d.uptime.touchedAt + d.user.upDelay * 1_000_000 >= 0
    requires 0 < gap <= 60_000_000 && ScansEvery(scans, gap) && scans != []
    requires NowOf(scans, 0) <= d.uptime.touchedAt + d.user.upDelay * 1_000_000
    requires NowOf(scans, |scans| - 1) >= d.uptime.touchedAt + (d.user.upDelay + 86400) * 1_000_000
    ensures exists k: nat :: CaughtAt(d, scans, k)
              && NowOf(scans, k) < d.uptime.touchedAt + (d.user.upDelay + 86400) * 1_000_000 + gap
  {
    var due := d.uptime.touchedAt + d.user.upDelay * 1_000_000;
    EveryDayHasAFreeMinute(d.user.maintStart, d.user.maintEnd, due);
    var free :| due < free <= due + DAY && FreeMinute(d.user.maintStart, d.user.maintEnd, free);
    var n := SomeScanReaches(d, scans, gap, free);
    var k := FirstCaught(d, scans, n);
    ScansAscend(scans, gap, k, n);
  }

  lemma {:induction false} ScansAscend(scans: seq<Event>, gap: int, k: nat, n: nat)
    requires ScansEvery(scans, gap) && k <= n < |scans|
    ensures NowOf(scans, k) <= NowOf(scans, n)
  {
    if k < n {
      ScansAscend(scans, gap, k, n - 1);
      assert NowOf(scans, n - 1) <= NowOf(scans, n);
    }
  }
}
