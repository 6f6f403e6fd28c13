/** The hardware the alarm clock drives, seen only through the state the core
    reads and writes: wall-clock time as RTClib counts it, the DS3231 alarm
    slots, FreeRTOS software timers and the MP3 player's command stream. */
module Hardware {
  import opened Common

  /** A point in time: seconds since 2000-01-01 00:00:00, RTClib's epoch.
      That day was a Saturday. */
  type DateTime = int

  /** RTClib's default-constructed `DateTime()`, used by the core as "no time". */
  const NIL: DateTime := 0

  const DAY: int := 86400

  /** Seconds between the Unix epoch and 2000-01-01 (RTClib's SECONDS_FROM_1970_TO_2000). */
  const SECONDS_FROM_1970_TO_2000: int := 946684800

  /** Start of the calendar day that contains `t`. */
  function Midnight(t: DateTime): (r: DateTime)
    ensures r <= t < r + DAY
    ensures r % DAY == 0
  {
    t - t % DAY
  }

  /** Day of the week, 0 = Sunday (RTClib's `dayOfTheWeek`). */
  function Weekday(t: DateTime): (r: nat)
    ensures r < 7
  {
    (t / DAY + 6) % 7
  }

  function HourOf(t: DateTime): (r: int)
    ensures 0 <= r < 24
  {
    (t % DAY) / 3600
  }

  function MinuteOf(t: DateTime): (r: int)
    ensures 0 <= r < 60
  {
    (t % 3600) / 60
  }

  /** The hour and minute fields together give the time of day less its seconds. */
  lemma TimeOfDay(t: DateTime)
    ensures HourOf(t) * 3600 + MinuteOf(t) * 60 == t % DAY - t % 60
  {
    var s := t % DAY;
    assert s % 3600 == t % 3600 by {
      assert t == ((t / DAY) * 24 + s / 3600) * 3600 + s % 3600;
    }
    assert (t % 3600) % 60 == t % 60 by {
      assert t == ((t / 3600) * 60 + (t % 3600) / 60) * 60 + (t % 3600) % 60;
    }
  }

  /** Less than a day later is the same calendar day or the next one. */
  lemma MidnightWithinDay(s: DateTime, d: int)
    requires 0 <= d < DAY
    ensures Midnight(s + d) == Midnight(s) || Midnight(s + d) == Midnight(s) + DAY
  {
    var q := s / DAY;
    assert s + d == q * DAY + (s % DAY + d);
    if s % DAY + d < DAY {
      assert (s + d) / DAY == q;
    } else {
      assert s + d == (q + 1) * DAY + (s % DAY + d - DAY);
      assert (s + d) / DAY == q + 1;
    }
  }

  /** Moving `k` whole days ahead moves the weekday `k` places around the week. */
  lemma {:induction false} WeekdayAfterDays(t: DateTime, k: nat)
    ensures Weekday(t + k * DAY) == (Weekday(t) + k) % 7
  {
    assert (t + k * DAY) / DAY == t / DAY + k by {
      assert t + k * DAY == (t / DAY + k) * DAY + t % DAY;
    }
  }

  /** Two times in the same calendar day fall on the same weekday. */
  lemma SameDaySameWeekday(s: DateTime, t: DateTime)
    requires Midnight(s) <= t < Midnight(s) + DAY
    ensures Weekday(t) == Weekday(s)
  {
    assert t / DAY == s / DAY by {
      assert t == (s / DAY) * DAY + (t - Midnight(s));
    }
  }

  /** A FreeRTOS software timer, reduced to whether it is counting and its period. */
  datatype Timer = Timer(running: bool, periodMs: nat) {

    /** xTimerStart: the timer counts again from now. */
    function Start(): (t: Timer)
      ensures t.running && t.periodMs == periodMs
    {
      this.(running := true)
    }

    /** xTimerStop: the timer becomes dormant. */
    function Stop(): (t: Timer)
      ensures !t.running && t.periodMs == periodMs
    {
      this.(running := false)
    }

    /** xTimerReset: restarts the countdown; a dormant timer is started. */
    function Reset(): (t: Timer)
      ensures t.running && t.periodMs == periodMs
    {
      this.(running := true)
    }

    /** xTimerChangePeriod: sets the period; a dormant timer is started by it. */
    function ChangePeriod(ms: nat): (t: Timer)
      ensures t.running && t.periodMs == ms
    {
      Timer(true, ms)
    }
  }

  /** A command sent to the MP3 player module. */
  datatype PlayerCommand = Play(id: int) | PlayLoop(id: int) | StopPlayback | IncrVolume | DecrVolume

  /** The DS3231 real-time clock: the current time, the armed alarm slots
      (slot number to compare time, present while the slot's interrupt is
      enabled), the slots whose alarm flag is raised, and whether the chip
      accepts new alarm times (RTClib's setAlarm returns false otherwise). */
  class Rtc {
    var now: DateTime
    var armed: map<int, DateTime>
    var fired: set<int>
    var accepts: bool

    constructor (now: DateTime, accepts: bool)
      ensures this.now == now && this.accepts == accepts
      ensures armed == map[] && fired == {}
    {
      this.now := now;
      this.accepts := accepts;
      armed := map[];
      fired := {};
    }

    predicate AlarmFired(n: int)
      reads this
    {
      n in fired
    }

    /** clearAlarm: lowers the slot's alarm flag. */
    method ClearAlarm(n: int)
      modifies this
      ensures fired == old(fired) - {n}
      ensures now == old(now) && armed == old(armed) && accepts == old(accepts)
    {
      fired := fired - {n};
    }

    /** disableAlarm: disables the slot's interrupt. */
    method DisableAlarm(n: int)
      modifies this
      ensures armed == old(armed) - {n}
      ensures now == old(now) && fired == old(fired) && accepts == old(accepts)
    {
      armed := armed - {n};
    }

    /** setAlarm1/setAlarm2 in date-match mode. */
    method SetAlarm(n: int, t: DateTime) returns (ok: bool)
      modifies this
      ensures ok == old(accepts)
      ensures armed == if ok then old(armed)[n := t] else old(armed)
      ensures now == old(now) && fired == old(fired) && accepts == old(accepts)
    {
      ok := accepts;
      if ok {
        armed := armed[n := t];
      }
    }
  }
}
