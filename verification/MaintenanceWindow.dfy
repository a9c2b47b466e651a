/** The daily maintenance window of a user: src/db/models.rs, `is_in_maintenance_window`. */
module MaintenanceWindow {
  import opened Base

  const MINUTES_PER_DAY := 1440
  const SECONDS_PER_DAY := 86400

  /** Minute of the UTC day of a number of seconds since the epoch. The bound makes the narrowing to i32 lossless. */
  function UtcMinuteOfDay(epochSecs: nat): (minute: int)
    ensures 0 <= minute < MINUTES_PER_DAY
    ensures 60 * minute <= epochSecs - SECONDS_PER_DAY * (epochSecs / SECONDS_PER_DAY) < 60 * (minute + 1)
  {
    (epochSecs % SECONDS_PER_DAY) / 60
  }

  /** Minute of the day of a clock reading; a reading before the epoch counts as the epoch itself. */
  function MinuteAt(now: Time): (minute: int)
    ensures 0 <= minute < MINUTES_PER_DAY
  {
    UtcMinuteOfDay(if now < 0 then 0 else now / SECOND)
  }

  predicate InWindow(start: Option<int>, end: Option<int>, minute: int) {
    match (start, end)
    case (Some(s), Some(e)) => if s < e then minute >= s && minute < e else minute >= s || minute < e
    case _ => false
  }

  /** What the table's two CHECK constraints and the settings handler accept: no window, or two distinct minutes. */
  predicate ValidWindow(start: Option<int>, end: Option<int>) {
    match (start, end)
    case (Some(s), Some(e)) => 0 <= s < MINUTES_PER_DAY && 0 <= e < MINUTES_PER_DAY && s != e
    case (None, None) => true
    case _ => false
  }

  /** What the checks keep out: with half a window missing it would never be open, and with equal bounds always. */
  lemma DegenerateWindows(s: int, minute: int)
    ensures !InWindow(None, None, minute) && !InWindow(Some(s), None, minute) && !InWindow(None, Some(s), minute)
    ensures InWindow(Some(s), Some(s), minute)
  {
  }

  /** Length of a window in minutes, measured around the clock. */
  function Length(s: int, e: int): (minutes: int)
    ensures 0 <= minutes < MINUTES_PER_DAY
  {
    (e - s) % MINUTES_PER_DAY
  }

  lemma ModSplit(d: int)
    requires -MINUTES_PER_DAY < d < MINUTES_PER_DAY
    ensures d % MINUTES_PER_DAY == if d < 0 then d + MINUTES_PER_DAY else d
  {
  }

  /** Membership is a comparison of distances from the start, modulo one day, whether or not the window crosses
      midnight. */
  lemma WindowIsModularInterval(s: int, e: int, minute: int)
    requires ValidWindow(Some(s), Some(e)) && 0 <= minute < MINUTES_PER_DAY
    ensures InWindow(Some(s), Some(e), minute) <==> (minute - s) % MINUTES_PER_DAY < Length(s, e)
  {
    ModSplit(minute - s);
    ModSplit(e - s);
  }

  /** Whether the window is open at a clock reading, said without its two branches: around the clock, the minutes since
      it began are fewer than the minutes it lasts. */
  predicate OpenAt(start: Option<int>, end: Option<int>, now: Time) {
    match (start, end)
    case (Some(s), Some(e)) => (Max(now, 0) / 60_000_000 - s) % 1440 < (e - s) % 1440
    case _ => false
  }

  lemma MinuteAtOf(now: Time)
    ensures MinuteAt(now) == Max(now, 0) / 60_000_000 % 1440
  {
    var secs := Max(now, 0) / SECOND;
    assert Max(now, 0) / 60_000_000 == secs / 60;
    DayHourMinuteOf(secs);
  }

  lemma DayHourMinuteOf(secs: nat)
    ensures secs % SECONDS_PER_DAY / 60 == secs / 60 % 1440
  {
    var days, rest := secs / SECONDS_PER_DAY, secs % SECONDS_PER_DAY;
    assert secs / 60 == 1440 * days + rest / 60;
  }

  lemma ShiftedModulo(m: int, s: int)
    ensures (m % 1440 - s) % 1440 == (m - s) % 1440
  {
    var days, minute := m / 1440, m % 1440;
    assert m - s == 1440 * days + (minute - s);
    AddDays(days, minute - s);
  }

  lemma AddDays(days: int, x: int)
    ensures (1440 * days + x) % 1440 == x % 1440
  {
    var q := x / 1440;
    assert 1440 * days + x == 1440 * (days + q) + x % 1440;
  }

  /** Both branches of the source's test, at the minute of any clock reading. */
  lemma OpenIsInWindow(start: Option<int>, end: Option<int>, now: Time)
    requires ValidWindow(start, end)
    ensures OpenAt(start, end, now) <==> InWindow(start, end, MinuteAt(now))
  {
    if start.Some? {
      WindowIsModularInterval(start.value, end.value, MinuteAt(now));
      MinuteAtOf(now);
      ShiftedModulo(Max(now, 0) / 60_000_000, start.value);
    }
  }

  /** Swapping start and end yields exactly the complementary window. */
  lemma SwapComplements(s: int, e: int, minute: int)
    requires ValidWindow(Some(s), Some(e)) && 0 <= minute < MINUTES_PER_DAY
    ensures InWindow(Some(e), Some(s), minute) <==> !InWindow(Some(s), Some(e), minute)
    ensures Length(s, e) + Length(e, s) == MINUTES_PER_DAY
  {
    ModSplit(e - s);
    ModSplit(s - e);
  }

  function Indicator(s: int, e: int, second: nat): nat {
    if InWindow(Some(s), Some(e), UtcMinuteOfDay(second)) then 1 else 0
  }

  /** How many of the `len` seconds from `from` on lie in the window. */
  function SecondsInside(s: int, e: int, from: nat, len: nat): nat {
    if len == 0 then 0 else SecondsInside(s, e, from, len - 1) + Indicator(s, e, from + len - 1)
  }

  lemma {:induction false} PeelFirst(s: int, e: int, from: nat, len: nat)
    requires len > 0
    ensures SecondsInside(s, e, from, len) == Indicator(s, e, from) + SecondsInside(s, e, from + 1, len - 1)
  {
    if len > 1 {
      PeelFirst(s, e, from, len - 1);
    }
  }

  lemma {:induction false} EveryDayAlike(s: int, e: int, from: nat)
    ensures SecondsInside(s, e, from, SECONDS_PER_DAY) == SecondsInside(s, e, 0, SECONDS_PER_DAY)
  {
    if from > 0 {
      EveryDayAlike(s, e, from - 1);
      PeelFirst(s, e, from - 1, SECONDS_PER_DAY);
      SameMinuteTomorrow(from - 1);
      var last := from - 1 + SECONDS_PER_DAY;
      assert Indicator(s, e, last) == Indicator(s, e, from - 1);
      assert from + (SECONDS_PER_DAY - 1) == last;
    }
  }

  lemma SameMinuteTomorrow(second: nat)
    ensures UtcMinuteOfDay(second + SECONDS_PER_DAY) == UtcMinuteOfDay(second)
  {
    assert (second + SECONDS_PER_DAY) % SECONDS_PER_DAY == second % SECONDS_PER_DAY;
  }

  /** Number of window minutes among the first `m` minutes of a day. */
  function MinutesInside(s: int, e: int, m: int): int {
    if s < e then Max(0, Min(m, e) - s) else Min(m, e) + Max(0, m - s)
  }

  lemma {:induction false} WithinOneMinute(s: int, e: int, m: nat, r: nat)
    requires m < MINUTES_PER_DAY && r <= 60
    ensures SecondsInside(s, e, 0, 60 * m + r)
         == SecondsInside(s, e, 0, 60 * m) + (if InWindow(Some(s), Some(e), m) then r else 0)
  {
    hide InWindow, ValidWindow;
    if r > 0 {
      WithinOneMinute(s, e, m, r - 1);
      SecondOfMinute(m, r - 1);
      var last := 60 * m + r - 1;
      assert SecondsInside(s, e, 0, last + 1) == SecondsInside(s, e, 0, last) + Indicator(s, e, last);
    }
  }

  lemma SecondOfMinute(m: nat, r: nat)
    requires m < MINUTES_PER_DAY && r < 60
    ensures UtcMinuteOfDay(60 * m + r) == m
  {
  }

  lemma {:induction false} FirstMinutes(s: int, e: int, m: nat)
    requires ValidWindow(Some(s), Some(e)) && m <= MINUTES_PER_DAY
    ensures SecondsInside(s, e, 0, 60 * m) == 60 * MinutesInside(s, e, m)
  {
    if m > 0 {
      FirstMinutes(s, e, m - 1);
      WithinOneMinute(s, e, m - 1, 60);
    }
  }

  /** Any 86400 consecutive seconds, wherever they start, hold exactly the window's length in seconds. */
  lemma AnyDayHoldsTheWindowOnce(s: int, e: int, from: nat)
    requires ValidWindow(Some(s), Some(e))
    ensures SecondsInside(s, e, from, SECONDS_PER_DAY) == 60 * Length(s, e)
  {
    EveryDayAlike(s, e, from);
    FirstMinutes(s, e, MINUTES_PER_DAY);
    ModSplit(e - s);
  }

  /** The minute that begins at `free` lies outside the window. */
  ghost predicate FreeMinute(start: Option<int>, end: Option<int>, free: Time) {
    forall now | free <= now < free + MINUTE :: !InWindow(start, end, MinuteAt(now))
  }

  /** A valid window leaves at least the minute at its end free, so one begins within a day of any instant. */
  lemma EveryDayHasAFreeMinute(start: Option<int>, end: Option<int>, t: Time)
    requires ValidWindow(start, end) && t >= 0
    ensures exists free | t < free <= t + DAY :: FreeMinute(start, end, free)
  {
    var e := match end case Some(e) => e case None => 0;
    var today := t / DAY;
    var day := if today * DAY + e * MINUTE > t then today else today + 1;
    var free := day * DAY + e * MINUTE;
    forall now | free <= now < free + MINUTE ensures !InWindow(start, end, MinuteAt(now)) {
      MinuteOfOffset(day, e, now - free);
    }
    assert FreeMinute(start, end, free);
  }

  lemma MinuteOfOffset(day: nat, minute: int, offset: int)
    requires 0 <= minute < MINUTES_PER_DAY && 0 <= offset < MINUTE
    ensures MinuteAt(day * DAY + minute * MINUTE + offset) == minute
  {
    var now := day * DAY + minute * MINUTE + offset;
    var second, micros := offset / SECOND, offset % SECOND;
    assert 0 <= second < 60;
    var secs := 60 * minute + second;
    WholeSeconds(SECONDS_PER_DAY * day + secs, micros);
    assert now / SECOND == SECONDS_PER_DAY * day + secs;
    SecondOfDay(day, secs);
    SecondOfMinute(minute, second);
  }

  lemma WholeSeconds(secs: nat, micros: int)
    requires 0 <= micros < SECOND
    ensures (SECOND * secs + micros) / SECOND == secs
  {
  }

  lemma SecondOfDay(day: nat, secs: nat)
    requires secs < SECONDS_PER_DAY
    ensures (SECONDS_PER_DAY * day + secs) % SECONDS_PER_DAY == secs
  {
  }
}
