/** One alarm of the clock and when it goes off next (lib/AlarmClock/src/alarm.h).
    An alarm has an hour, a minute, a repeat mask (bit i = weekday i, 0 = Sunday),
    an on/off toggle and a sound; its state is OFF, SNOOZE or PLAYING. The RTC
    slot of the alarm is armed with the time computed by `GetAlarmTime`. */
module Alarms {
  import opened Common
  import opened Hardware

  /** The ordinal of an alarm: there are exactly two. */
  datatype N = One | Two

  /** The RTC alarm slot that belongs to an alarm. */
  function NToInt(n: N): (r: int)
    ensures r == 1 || r == 2
    ensures r == 1 <==> n == One
  {
    if n == One then 1 else 2
  }

  datatype AlarmState = Off | Snooze | Playing

  /** The persisted settings of an alarm (all of it except its state). */
  datatype AlarmSettings = AlarmSettings(hour: Byte, minute: Byte, repeat: bv8, toggle: bool, sound: Byte)

  /** The JSON object the web interface exchanges for an alarm. */
  datatype AlarmJson = AlarmJson(id: int, hour: Byte, minute: Byte, repeat: Byte, toggle: bool, sound: Byte, nextDateTime: int)

  // ---------------------------------------------------------------------
  // When an alarm goes off
  // ---------------------------------------------------------------------

  /** The alarm's time of day on the date of `now`, seconds set to 0. */
  function Candidate(hour: Byte, minute: Byte, now: DateTime): DateTime
  {
    Midnight(now) + hour * 3600 + minute * 60
  }

  /** Whether the repeat mask selects weekday `wd` (`repeat & 1 << wd`). */
  predicate RepeatsOn(repeat: bv8, wd: nat)
    requires wd < 7
  {
    repeat & ((1 as bv8) << wd) != 0
  }

  /** The repeat loop exactly as the source runs it: each matching offset is
      ADDED to the candidate found so far, and the first candidate after `now`
      is the answer; offsets `i` up to `span - 1` are tried. */
  function RepeatScan(alarmTime: DateTime, now: DateTime, wd: nat, repeat: bv8, i: nat, span: nat): DateTime
    requires wd < 7
    decreases span - i
  {
    if i >= span then NIL
    else if RepeatsOn(repeat, (wd + i) % 7) then
      var t := alarmTime + i * DAY;
      if t > now then t else RepeatScan(t, now, wd, repeat, i + 1, span)
    else RepeatScan(alarmTime, now, wd, repeat, i + 1, span)
  }

  /** The alarm time that a scan of `span` day offsets yields. */
  function Schedule(hour: Byte, minute: Byte, repeat: bv8, toggle: bool, now: DateTime, span: nat): DateTime
  {
    if !toggle then NIL
    else
      var alarmTime := Candidate(hour, minute, now);
      if repeat == 0 then
        (if alarmTime < now then alarmTime + DAY else alarmTime)
      else
        RepeatScan(alarmTime, now, Weekday(now), repeat, 0, span)
  }

  /** getAlarmTime as the source writes it: the repeat loop tries offsets 0..6. */
  function AlarmTimeAsWritten(hour: Byte, minute: Byte, repeat: bv8, toggle: bool, now: DateTime): DateTime
  {
    Schedule(hour, minute, repeat, toggle, now, 7)
  }

  /** getAlarmTime with the repeat loop extended to offset 7, so that a weekday
      whose time has already passed today is found again one week later. */
  function NextAlarmTime(hour: Byte, minute: Byte, repeat: bv8, toggle: bool, now: DateTime): DateTime
  {
    Schedule(hour, minute, repeat, toggle, now, 8)
  }

  /** Offset `i` days from the candidate lands on a selected weekday after `now`. */
  predicate Qualifies(today: DateTime, now: DateTime, wd: nat, repeat: bv8, i: nat)
    requires wd < 7
  {
    RepeatsOn(repeat, (wd + i) % 7) && today + i * DAY > now
  }

  /** The least offset in [i, span) that qualifies, if any. */
  function FirstOffset(today: DateTime, now: DateTime, wd: nat, repeat: bv8, i: nat, span: nat): (o: Option<nat>)
    requires wd < 7
    ensures o.Some? ==> i <= o.value < span && Qualifies(today, now, wd, repeat, o.value)
    ensures o.Some? ==> forall j :: i <= j < o.value ==> !Qualifies(today, now, wd, repeat, j)
    ensures o.None? ==> forall j :: i <= j < span ==> !Qualifies(today, now, wd, repeat, j)
    decreases span - i
  {
    if i >= span then None
    else if Qualifies(today, now, wd, repeat, i) then Some(i)
    else FirstOffset(today, now, wd, repeat, i + 1, span)
  }

  /** The time an offset search result stands for. */
  function OffsetTime(today: DateTime, o: Option<nat>): DateTime
  {
    if o.Some? then today + o.value * DAY else NIL
  }

  /** Accumulating the offsets does no harm: only offset 0 can match without
      lying after `now`, and it adds nothing, so the scan returns the candidate
      moved by the FIRST qualifying offset. */
  lemma {:induction false} RepeatScanIsFirstOffset(today: DateTime, now: DateTime, wd: nat, repeat: bv8, i: nat, span: nat)
    requires wd < 7
    requires now < today + DAY
    ensures RepeatScan(today, now, wd, repeat, i, span) == OffsetTime(today, FirstOffset(today, now, wd, repeat, i, span))
    decreases span - i
  {
    if i < span {
      if RepeatsOn(repeat, (wd + i) % 7) {
        if i == 0 {
          assert today + i * DAY == today;
          if today <= now {
            RepeatScanIsFirstOffset(today, now, wd, repeat, i + 1, span);
          }
        } else {
          assert today + i * DAY >= today + DAY;
        }
      } else {
        RepeatScanIsFirstOffset(today, now, wd, repeat, i + 1, span);
      }
    }
  }

  /** The candidate lies on the same day as `now`, so one day later is after `now`. */
  lemma CandidateSameDay(hour: Byte, minute: Byte, now: DateTime)
    requires hour < 24 && minute < 60
    ensures Midnight(now) <= Candidate(hour, minute, now) < Midnight(now) + DAY
    ensures now < Candidate(hour, minute, now) + DAY
    ensures Weekday(Candidate(hour, minute, now)) == Weekday(now)
  {
    SameDaySameWeekday(now, Candidate(hour, minute, now));
  }

  /** The scan never answers with a time at or before `now`. */
  lemma {:induction false} RepeatScanAfterNow(alarmTime: DateTime, now: DateTime, wd: nat, repeat: bv8, i: nat, span: nat)
    requires wd < 7
    ensures var t := RepeatScan(alarmTime, now, wd, repeat, i, span); t == NIL || t > now
    decreases span - i
  {
    if i < span {
      if RepeatsOn(repeat, (wd + i) % 7) {
        RepeatScanAfterNow(alarmTime + i * DAY, now, wd, repeat, i + 1, span);
      } else {
        RepeatScanAfterNow(alarmTime, now, wd, repeat, i + 1, span);
      }
    }
  }

  /** An alarm time is never in the past: it is NIL or at least `now`. */
  lemma ScheduleNotInPast(hour: Byte, minute: Byte, repeat: bv8, toggle: bool, now: DateTime, span: nat)
    ensures var t := Schedule(hour, minute, repeat, toggle, now, span); t == NIL || t >= now
  {
    RepeatScanAfterNow(Candidate(hour, minute, now), now, Weekday(now), repeat, 0, span);
  }

  /** A disabled alarm has no time. */
  lemma DisabledAlarmHasNoTime(hour: Byte, minute: Byte, repeat: bv8, now: DateTime)
    ensures AlarmTimeAsWritten(hour, minute, repeat, false, now) == NIL
    ensures NextAlarmTime(hour, minute, repeat, false, now) == NIL
  {
  }

  /** A one-shot alarm goes off today at hour:minute:00, or tomorrow if that
      is strictly before `now`; a time equal to `now` is kept. */
  lemma OneShotAlarmTime(hour: Byte, minute: Byte, now: DateTime)
    ensures var t := AlarmTimeAsWritten(hour, minute, 0, true, now);
      var c := Candidate(hour, minute, now);
      t == NextAlarmTime(hour, minute, 0, true, now) &&
      (c < now ==> t == c + DAY) && (c >= now ==> t == c) &&
      t >= now && (t == now <==> c == now)
  {
  }

  /** Repeat mode as written: the result is the candidate moved by the first
      offset 0..6 that lands on a selected weekday strictly after `now`, on such
      a weekday; it is NIL exactly when no offset 0..6 qualifies. */
  lemma RepeatAlarmTimeAsWritten(hour: Byte, minute: Byte, repeat: bv8, now: DateTime)
    requires repeat != 0 && hour < 24 && minute < 60 && now >= 0
    ensures var t := AlarmTimeAsWritten(hour, minute, repeat, true, now);
      var c := Candidate(hour, minute, now);
      var wd := Weekday(now);
      (t == NIL <==> forall j :: 0 <= j < 7 ==> !Qualifies(c, now, wd, repeat, j)) &&
      (t != NIL ==> t > now && RepeatsOn(repeat, Weekday(t))) &&
      (t != NIL ==> exists o :: 0 <= o < 7 && t == c + o * DAY && Qualifies(c, now, wd, repeat, o) &&
                                forall j :: 0 <= j < o ==> !Qualifies(c, now, wd, repeat, j))
  {
    var c := Candidate(hour, minute, now);
    var wd := Weekday(now);
    CandidateSameDay(hour, minute, now);
    RepeatScanIsFirstOffset(c, now, wd, repeat, 0, 7);
    var off := FirstOffset(c, now, wd, repeat, 0, 7);
    if off.Some? {
      var o := off.value;
      WeekdayAfterDays(c, o);
      assert c + o * DAY > now >= 0;
    }
  }

  /** A repeat mask with a bit among 0..6 selects some weekday. */
  lemma MaskSelectsWeekday(repeat: bv8)
    requires repeat & 0x7F != 0
    ensures exists w :: 0 <= w < 7 && RepeatsOn(repeat, w)
  {
    if !RepeatsOn(repeat, 0) && !RepeatsOn(repeat, 1) && !RepeatsOn(repeat, 2) && !RepeatsOn(repeat, 3) &&
       !RepeatsOn(repeat, 4) && !RepeatsOn(repeat, 5) {
      assert RepeatsOn(repeat, 6);
    }
  }

  /** When the mask selects some weekday, one of the offsets 0..7 qualifies. */
  lemma SomeOffsetQualifies(today: DateTime, now: DateTime, wd: nat, repeat: bv8, w: nat)
    requires wd < 7 && w < 7 && RepeatsOn(repeat, w)
    requires now < today + DAY
    ensures FirstOffset(today, now, wd, repeat, 0, 8).Some?
  {
    if w == wd {
      ModUnique(wd + 7, 7, 1, w);
      assert Qualifies(today, now, wd, repeat, 7);
    } else {
      var k: nat := if w > wd then w - wd else w + 7 - wd;
      ModUnique(wd + k, 7, if w > wd then 0 else 1, w);
      assert today + k * DAY >= today + DAY;
      assert Qualifies(today, now, wd, repeat, k);
    }
  }

  /** With the scan extended to offset 7, an enabled alarm whose mask selects
      a weekday always has a next time: strictly after `now`, at most a week
      ahead, at hour:minute:00, on a selected weekday, and no earlier day at
      that time after `now` is selected. */
  lemma NextAlarmTimeIsNextOccurrence(hour: Byte, minute: Byte, repeat: bv8, now: DateTime)
    requires hour < 24 && minute < 60 && now >= 0
    requires exists w :: 0 <= w < 7 && RepeatsOn(repeat, w)
    ensures var t := NextAlarmTime(hour, minute, repeat, true, now);
      var c := Candidate(hour, minute, now);
      t != NIL && now < t <= now + 7 * DAY && RepeatsOn(repeat, Weekday(t)) &&
      exists o :: 0 <= o <= 7 && t == c + o * DAY &&
                  forall j :: 0 <= j < o ==> !Qualifies(c, now, Weekday(now), repeat, j)
  {
    var c := Candidate(hour, minute, now);
    var wd := Weekday(now);
    var w :| 0 <= w < 7 && RepeatsOn(repeat, w);
    CandidateSameDay(hour, minute, now);
    SomeOffsetQualifies(c, now, wd, repeat, w);
    RepeatScanIsFirstOffset(c, now, wd, repeat, 0, 8);
    var o := FirstOffset(c, now, wd, repeat, 0, 8).value;
    assert NextAlarmTime(hour, minute, repeat, true, now) == c + o * DAY;
    WeekdayAfterDays(c, o);
    if o == 7 {
      assert !Qualifies(c, now, wd, repeat, 0);
      assert (wd + 7) % 7 == (wd + 0) % 7;
      assert c <= now;
    } else {
      assert c + o * DAY <= c + 6 * DAY;
    }
  }

  /** Offsets beyond the first qualifying one do not matter: a longer scan
      finds the same offset, or the extra offset if there was none before. */
  lemma {:induction false} FirstOffsetExtended(today: DateTime, now: DateTime, wd: nat, repeat: bv8, i: nat)
    requires wd < 7 && i <= 7
    ensures FirstOffset(today, now, wd, repeat, i, 7).Some? ==>
      FirstOffset(today, now, wd, repeat, i, 8) == FirstOffset(today, now, wd, repeat, i, 7)
    ensures FirstOffset(today, now, wd, repeat, i, 7).None? ==>
      FirstOffset(today, now, wd, repeat, i, 8) == (if Qualifies(today, now, wd, repeat, 7) then Some(7) else None)
    decreases 7 - i
  {
    if i < 7 && !Qualifies(today, now, wd, repeat, i) {
      FirstOffsetExtended(today, now, wd, repeat, i + 1);
    }
  }

  /** The written scan and the extended one disagree only when the written one
      finds nothing and the alarm's weekday comes round again a week later. */
  lemma AsWrittenMissesOnlyNextWeek(hour: Byte, minute: Byte, repeat: bv8, toggle: bool, now: DateTime)
    requires hour < 24 && minute < 60
    ensures var a := AlarmTimeAsWritten(hour, minute, repeat, toggle, now);
      var b := NextAlarmTime(hour, minute, repeat, toggle, now);
      a != b ==> a == NIL && b == Candidate(hour, minute, now) + 7 * DAY
  {
    if toggle && repeat != 0 {
      var c := Candidate(hour, minute, now);
      CandidateSameDay(hour, minute, now);
      RepeatScanIsFirstOffset(c, now, Weekday(now), repeat, 0, 7);
      RepeatScanIsFirstOffset(c, now, Weekday(now), repeat, 0, 8);
      FirstOffsetExtended(c, now, Weekday(now), repeat, 0);
    }
  }

  /** The written scan loses a weekly alarm: an alarm repeating on Mondays only
      at 07:00, looked at on Monday 2000-01-03 at 08:00 (after it rang), has no
      time, so setAlarm disables its slot; the next Monday is what was meant. */
  lemma WeeklyAlarmLostAsWritten()
    ensures AlarmTimeAsWritten(7, 0, 2, true, 2 * DAY + 8 * 3600) == NIL
    ensures NextAlarmTime(7, 0, 2, true, 2 * DAY + 8 * 3600) == 9 * DAY + 7 * 3600
  {
    var now := 2 * DAY + 8 * 3600;
    var c := Candidate(7, 0, now);
    assert Weekday(now) == 1;
    assert c == 2 * DAY + 7 * 3600;
    CandidateSameDay(7, 0, now);
    RepeatScanIsFirstOffset(c, now, 1, 2, 0, 7);
    RepeatScanIsFirstOffset(c, now, 1, 2, 0, 8);
    assert !Qualifies(c, now, 1, 2, 0);
    assert !RepeatsOn(2, 2) && !RepeatsOn(2, 3) && !RepeatsOn(2, 4) && !RepeatsOn(2, 5) && !RepeatsOn(2, 6) && !RepeatsOn(2, 0);
    assert RepeatsOn(2, 1);
    assert FirstOffset(c, now, 1, 2, 0, 7) == None;
    assert FirstOffset(c, now, 1, 2, 0, 8) == Some(7);
  }

  // ---------------------------------------------------------------------
  // "In 8 hours" and JSON
  // ---------------------------------------------------------------------

  /** The repeat mask after setIn8hFromNow: a one-shot alarm stays one-shot,
      a repeating one also selects weekday `wd`. */
  function In8hRepeat(repeat: bv8, wd: nat): (r: bv8)
    requires wd < 7
    ensures repeat == 0 ==> r == 0
    ensures repeat != 0 ==> r & repeat == repeat && RepeatsOn(r, wd) && r & !(repeat | ((1 as bv8) << wd)) == 0
  {
    if repeat == 0 then 0 else repeat | ((1 as bv8) << wd)
  }

  /** After setIn8hFromNow the alarm's time is `now + 8h`, seconds cut off,
      whether it is one-shot or repeating, both with the scan as written and
      with the extended one. */
  lemma In8hFromNowGoesOffIn8h(repeat: bv8, now: DateTime)
    requires now >= 0
    ensures var t := now + 8 * 3600;
      AlarmTimeAsWritten(HourOf(t), MinuteOf(t), In8hRepeat(repeat, Weekday(t)), true, now) == t - t % 60
    ensures var t := now + 8 * 3600;
      NextAlarmTime(HourOf(t), MinuteOf(t), In8hRepeat(repeat, Weekday(t)), true, now) == t - t % 60
  {
    var t := now + 8 * 3600;
    TimeOfDay(t);
    MidnightWithinDay(now, 8 * 3600);
    if Midnight(t) == Midnight(now) {
      In8hSameDay(repeat, now);
    } else {
      In8hNextDay(repeat, now);
    }
    AsWrittenMissesOnlyNextWeek(HourOf(t), MinuteOf(t), In8hRepeat(repeat, Weekday(t)), true, now);
  }

  /** The case of In8hFromNowGoesOffIn8h where now + 8h is still today. */
  lemma In8hSameDay(repeat: bv8, now: DateTime)
    requires Midnight(now + 8 * 3600) == Midnight(now)
    ensures var t := now + 8 * 3600;
      NextAlarmTime(HourOf(t), MinuteOf(t), In8hRepeat(repeat, Weekday(t)), true, now) == t - t % 60
  {
    var t := now + 8 * 3600;
    var r := In8hRepeat(repeat, Weekday(t));
    var c := Candidate(HourOf(t), MinuteOf(t), now);
    TimeOfDay(t);
    assert c == t - t % 60;
    SameDaySameWeekday(now, t);
    if r != 0 {
      assert RepeatsOn(r, (Weekday(now) + 0) % 7);
      assert c + 0 * DAY > now;
    }
  }

  /** The case of In8hFromNowGoesOffIn8h where now + 8h is tomorrow. */
  lemma In8hNextDay(repeat: bv8, now: DateTime)
    requires Midnight(now + 8 * 3600) == Midnight(now) + DAY
    ensures var t := now + 8 * 3600;
      NextAlarmTime(HourOf(t), MinuteOf(t), In8hRepeat(repeat, Weekday(t)), true, now) == t - t % 60
  {
    var t := now + 8 * 3600;
    var r := In8hRepeat(repeat, Weekday(t));
    var c := Candidate(HourOf(t), MinuteOf(t), now);
    TimeOfDay(t);
    assert c == t - t % 60 - DAY;
    WeekdayAfterDays(Midnight(now), 1);
    SameDaySameWeekday(now, Midnight(now));
    SameDaySameWeekday(t, Midnight(now) + DAY);
    assert Weekday(t) == (Weekday(now) + 1) % 7;
    if r != 0 {
      assert RepeatScan(c, now, Weekday(now), r, 0, 8) == RepeatScan(c, now, Weekday(now), r, 1, 8) by {
        assert c + 0 * DAY == c;
      }
      assert RepeatsOn(r, (Weekday(now) + 1) % 7);
      assert c + 1 * DAY > now;
    }
  }

  /** alarmToJson: the fields, the alarm's id and its time from getAlarmTime
      in Unix seconds (0 for none). */
  function AlarmToJson(n: N, s: AlarmSettings, now: DateTime): (j: AlarmJson)
    requires now >= 0
    ensures j.id == NToInt(n)
    ensures var t := AlarmTimeAsWritten(s.hour, s.minute, s.repeat, s.toggle, now);
      (t == NIL <==> j.nextDateTime == 0) &&
      (t != NIL ==> j.nextDateTime - SECONDS_FROM_1970_TO_2000 == t && t >= now)
  {
    var t := AlarmTimeAsWritten(s.hour, s.minute, s.repeat, s.toggle, now);
    ScheduleNotInPast(s.hour, s.minute, s.repeat, s.toggle, now, 7);
    AlarmJson(NToInt(n), s.hour, s.minute, s.repeat as int, s.toggle, s.sound,
              if t != NIL then t + SECONDS_FROM_1970_TO_2000 else 0)
  }

  /** alarmFromJson: copies the five persisted fields. */
  function AlarmFromJson(j: AlarmJson): AlarmSettings
  {
    AlarmSettings(j.hour, j.minute, j.repeat as bv8, j.toggle, j.sound)
  }

  /** Reading back what alarmToJson wrote restores every persisted field. */
  lemma JsonRoundTrip(n: N, s: AlarmSettings, now: DateTime)
    requires now >= 0
    ensures AlarmFromJson(AlarmToJson(n, s, now)) == s
  {
  }

  // ---------------------------------------------------------------------
  // The alarm entity and its RTC operations
  // ---------------------------------------------------------------------

  class Alarm {
    const n: N
    var hour: Byte
    var minute: Byte
    var repeat: bv8
    var toggle: bool
    var sound: Byte
    var state: AlarmState

    /** A fresh alarm before its settings are loaded: every setting at its default 0. */
    constructor (n: N)
      ensures this.n == n && state == Off
      ensures Settings() == AlarmSettings(0, 0, 0, false, 0)
    {
      this.n := n;
      hour, minute, repeat, toggle, sound := 0, 0, 0, false, 0;
      state := Off;
    }

    function Settings(): AlarmSettings
      reads this
    {
      AlarmSettings(hour, minute, repeat, toggle, sound)
    }

    /** setIn8hFromNow: goes off at now + 8h; one-shot stays one-shot. */
    method SetIn8hFromNow(now: DateTime)
      modifies this
      ensures var t := now + 8 * 3600;
        hour == HourOf(t) && minute == MinuteOf(t) &&
        repeat == In8hRepeat(old(repeat), Weekday(t)) && toggle
      ensures sound == old(sound) && state == old(state)
    {
      var alarmTime := now + 8 * 3600;
      hour := HourOf(alarmTime);
      minute := MinuteOf(alarmTime);
      repeat := if repeat == 0 then 0 else repeat | ((1 as bv8) << Weekday(alarmTime));
      toggle := true;
    }

    /** alarmFromJson: overwrites the persisted fields, the state is kept. */
    method FromJson(j: AlarmJson)
      modifies this
      ensures Settings() == AlarmFromJson(j) && state == old(state)
    {
      hour := j.hour;
      minute := j.minute;
      repeat := j.repeat as bv8;
      toggle := j.toggle;
      sound := j.sound;
    }
  }

  /** getAlarmTime: NIL when disabled, the one-shot rule when nothing repeats,
      else the repeat loop over offsets 0..6. */
  method GetAlarmTime(alarm: Alarm, now: DateTime) returns (t: DateTime)
    ensures t == AlarmTimeAsWritten(alarm.hour, alarm.minute, alarm.repeat, alarm.toggle, now)
  {
    if !alarm.toggle {
      return NIL;
    }
    var alarmTime := Candidate(alarm.hour, alarm.minute, now);
    var dayOfWeek := Weekday(now);
    if alarm.repeat == 0 {
      if alarmTime < now {
        alarmTime := alarmTime + DAY;
      }
      return alarmTime;
    }
    t := ScanRepeatDays(alarmTime, now, dayOfWeek, alarm.repeat);
  }

  /** The repeat loop of getAlarmTime: each selected offset is ADDED to the
      candidate found so far, as in the source, and the first candidate after
      `now` is returned. */
  method ScanRepeatDays(today: DateTime, now: DateTime, dayOfWeek: nat, repeat: bv8) returns (t: DateTime)
    requires dayOfWeek < 7
    ensures t == RepeatScan(today, now, dayOfWeek, repeat, 0, 7)
  {
    var alarmTime := today;
    var i := 0;
    while i < 7
      invariant 0 <= i <= 7
      invariant RepeatScan(alarmTime, now, dayOfWeek, repeat, i, 7) == RepeatScan(today, now, dayOfWeek, repeat, 0, 7)
    {
      var nextWeekday := (dayOfWeek + i) % 7;
      if repeat & ((1 as bv8) << nextWeekday) != 0 {
        alarmTime := alarmTime + i * DAY;
        if alarmTime > now {
          return alarmTime;
        }
      }
      i := i + 1;
    }
    return NIL;
  }

  /** disableAlarm: disables the alarm's RTC slot. */
  method DisableAlarm(alarm: Alarm, rtc: Rtc)
    modifies rtc
    ensures rtc.armed == old(rtc.armed) - {NToInt(alarm.n)}
    ensures rtc.now == old(rtc.now) && rtc.fired == old(rtc.fired) && rtc.accepts == old(rtc.accepts)
  {
    rtc.DisableAlarm(NToInt(alarm.n));
  }

  /** setAlarm: clears the slot's flag, then arms the slot with the time from
      getAlarmTime, or disables it (and reports success) when there is none. */
  method SetAlarm(alarm: Alarm, rtc: Rtc) returns (ok: bool)
    modifies rtc
    ensures var slot := NToInt(alarm.n);
      var t := AlarmTimeAsWritten(alarm.hour, alarm.minute, alarm.repeat, alarm.toggle, old(rtc.now));
      rtc.fired == old(rtc.fired) - {slot} &&
      (t == NIL ==> ok && rtc.armed == old(rtc.armed) - {slot}) &&
      (t != NIL ==> ok == old(rtc.accepts) && rtc.armed == if ok then old(rtc.armed)[slot := t] else old(rtc.armed))
    ensures rtc.now == old(rtc.now) && rtc.accepts == old(rtc.accepts)
  {
    rtc.ClearAlarm(NToInt(alarm.n));
    var alarmTime := GetAlarmTime(alarm, rtc.now);
    if alarmTime == NIL {
      DisableAlarm(alarm, rtc);
      return true;
    }
    ok := rtc.SetAlarm(NToInt(alarm.n), alarmTime);
  }

  /** readAlarm: a raised slot flag puts the alarm into PLAYING and is cleared. */
  method ReadAlarm(alarm: Alarm, rtc: Rtc) returns (fired: bool)
    modifies alarm, rtc
    ensures fired == (NToInt(alarm.n) in old(rtc.fired))
    ensures alarm.state == (if fired then Playing else old(alarm.state))
    ensures rtc.fired == old(rtc.fired) - {NToInt(alarm.n)}
    ensures alarm.Settings() == old(alarm.Settings())
    ensures rtc.now == old(rtc.now) && rtc.armed == old(rtc.armed) && rtc.accepts == old(rtc.accepts)
  {
    var n := NToInt(alarm.n);
    if rtc.AlarmFired(n) {
      alarm.state := Playing;
      rtc.ClearAlarm(n);
      return true;
    }
    return false;
  }

  /** snoozeAlarm: arms the slot `minutes` from now; SNOOZE only if the RTC took it. */
  method SnoozeAlarm(alarm: Alarm, rtc: Rtc, minutes: int) returns (ok: bool)
    modifies alarm, rtc
    ensures var slot := NToInt(alarm.n);
      ok == old(rtc.accepts) &&
      rtc.fired == old(rtc.fired) - {slot} &&
      rtc.armed == (if ok then old(rtc.armed)[slot := old(rtc.now) + minutes * 60] else old(rtc.armed))
    ensures alarm.state == (if ok then Snooze else old(alarm.state))
    ensures alarm.Settings() == old(alarm.Settings())
    ensures rtc.now == old(rtc.now) && rtc.accepts == old(rtc.accepts)
  {
    var alarmTime := rtc.now + minutes * 60;
    rtc.ClearAlarm(NToInt(alarm.n));
    var success := rtc.SetAlarm(NToInt(alarm.n), alarmTime);
    if success {
      alarm.state := Snooze;
      return true;
    }
    return false;
  }
}
