/** What one event does to one device, in arithmetic on its stored columns: when a scan takes it down, and when the
    maintenance window keeps a call silent. Times are in microseconds, the delay in seconds, the window in minutes. */
module Thresholds {
  import opened Base
  import opened MaintenanceWindow
  import opened Uptime
  import opened Models
  import opened Notifications
  import opened Device

  predicate Quiet(u: User, now: Time) {
    OpenAt(u.maintStart, u.maintEnd, now)
  }

  /** More than the delay has gone by since the last touch, and the window is not open. */
  predicate Overdue(d: UserState, now: Time) {
    now > d.uptime.touchedAt + d.user.upDelay * 1_000_000 && !Quiet(d.user, now)
  }

  lemma QuietIsInMaintenance(u: User, now: Time)
    requires ValidSettings(u)
    ensures InMaintenance(u, now) <==> Quiet(u, now)
  {
    OpenIsInWindow(u.maintStart, u.maintEnd, now);
  }

  lemma OverdueReaches(d: UserState, now: Time)
    requires ValidSettings(d.user)
    ensures ReachesGoDown(d, now) <==> Overdue(d, now) && !d.uptime.status.Paused?
  {
    QuietIsInMaintenance(d.user, now);
  }

  /** A scan takes down exactly the devices that are up, silent for longer than their delay and outside their window;
      it tells how long they were on, unless the clock ran back, and touches nothing else. */
  lemma ScanIsExact(d: UserState, now: Time, at: Time)
    requires ValidSettings(d.user)
    ensures var e := Scan(now, at);
            if d.uptime.status == Up && now > d.uptime.touchedAt + d.user.upDelay * 1_000_000 && !Quiet(d.user, now)
            then && Step(d, e) == d.(uptime := d.uptime.(status := Down, changedAt := at))
                 && Calls(d, e) == if at < d.uptime.changedAt then []
                                   else [Dispatch(Down, Some(at - d.uptime.changedAt))]
            else Step(d, e) == d && Calls(d, e) == []
  {
    OverdueReaches(d, now);
  }

  /** Inside the window a scan leaves every device alone, and no ping is told of. */
  lemma WindowKeepsQuiet(d: UserState, s: int, e: int, now: Time, at: Time)
    requires d.user.maintStart == Some(s) && d.user.maintEnd == Some(e)
    requires 0 <= s < 1440 && 0 <= e < 1440 && s != e && now >= 0
    requires (now / 60_000_000 - s) % 1440 < (e - s) % 1440
    ensures Step(d, Scan(now, at)) == d && Calls(d, Scan(now, at)) == [] && Calls(d, Ping(now, at)) == []
  {
    OpenIsInWindow(d.user.maintStart, d.user.maintEnd, now);
  }

  /** Only the window keeps quiet: outside, or without one, an overdue device goes down, and a ping that connects or
      restores a device is told of. */
  lemma OnlyTheWindowKeepsQuiet(d: UserState, now: Time, at: Time)
    requires ValidSettings(d.user) && now >= 0
    requires match (d.user.maintStart, d.user.maintEnd)
             case (Some(s), Some(e)) => (now / 60_000_000 - s) % 1440 >= (e - s) % 1440
             case _ => true
    ensures d.uptime.status == Up ==>
              (Step(d, Scan(now, at)).uptime.status == Down <==>
               now > d.uptime.touchedAt + d.user.upDelay * 1_000_000)
    ensures d.uptime.status == Uninitialized ==> Calls(d, Ping(now, at)) == [Dispatch(Uninitialized, None)]
    ensures d.uptime.status == Down ==>
              Calls(d, Ping(now, at)) == [Dispatch(Up, Some(if at < d.uptime.changedAt then 0
                                                            else at - d.uptime.changedAt))]
  {
    OpenIsInWindow(d.user.maintStart, d.user.maintEnd, now);
  }

  /** A ping refreshes the touch whatever the status and the window; it brings up what is down or not yet connected. */
  lemma PingIsExact(d: UserState, wall: Time, at: Time)
    ensures var d' := Step(d, Ping(wall, at));
            && d'.uptime.touchedAt == at && d' == d.(uptime := d'.uptime)
            && d'.uptime.id == d.uptime.id && d'.uptime.userId == d.uptime.userId
            && d'.uptime.createdAt == d.uptime.createdAt && d'.uptime.prePause == d.uptime.prePause
            && (if d.uptime.status in {Uninitialized, Down}
                then d'.uptime.status == Up && d'.uptime.changedAt == at
                else d'.uptime.status == d.uptime.status && d'.uptime.changedAt == d.uptime.changedAt)
    ensures d.uptime.status in {Up, Paused} ==> Calls(d, Ping(wall, at)) == []
  {
  }
}
