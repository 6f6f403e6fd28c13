/** What happens when alarms go off, are snoozed and are stopped
    (lib/AlarmClock/src/alarm_handler.h). */
module AlarmHandler {
  import opened Common
  import opened Hardware
  import opened Alarms
  import opened SimpleLedc
  import MainLight
  import opened UserInterface
  import opened Sounds
  import opened AlarmClock

  // ---------------------------------------------------------------------
  // Stopping
  // ---------------------------------------------------------------------

  /** The settings of an alarm after stopAlarms: a ringing or snoozed
      one-shot alarm is switched off; everything else is kept. */
  function StoppedSettings(s: AlarmSettings, state: AlarmState): (r: AlarmSettings)
    ensures r.hour == s.hour && r.minute == s.minute && r.repeat == s.repeat && r.sound == s.sound
    ensures r.toggle == (s.toggle && (state == Off || s.repeat != 0))
  {
    if state != Off && s.repeat == 0 then s.(toggle := false) else s
  }

  /** The RTC's armed slots after stopAlarms handled the alarm in `slot`: an
      idle alarm is left alone, a one-shot alarm's slot is disabled, a
      repeating alarm is set again (setAlarm) with the time getAlarmTime
      computes, or disabled when that is NIL. */
  function StoppedArmed(s: AlarmSettings, state: AlarmState, slot: int, armed: map<int, DateTime>,
                        now: DateTime, accepts: bool): (r: map<int, DateTime>)
    ensures forall k :: k != slot ==> (k in r <==> k in armed)
    ensures forall k :: k != slot && k in r ==> r[k] == armed[k]
    ensures state == Off ==> r == armed
    ensures state != Off && s.repeat == 0 ==> slot !in r
  {
    if state == Off then armed
    else if s.repeat == 0 then armed - {slot}
    else
      var t := AlarmTimeAsWritten(s.hour, s.minute, s.repeat, s.toggle, now);
      if t == NIL then armed - {slot}
      else if accepts then armed[slot := t]
      else armed
  }

  /** The raised alarm flags after stopAlarms: setAlarm clears the flag of a
      repeating alarm it sets again. */
  function StoppedFired(s: AlarmSettings, state: AlarmState, slot: int, fired: set<int>): set<int>
  {
    if state != Off && s.repeat != 0 then fired - {slot} else fired
  }

  /** A stopped repeating alarm that is switched on keeps its settings, and
      its slot stays armed exactly when one of the day offsets 0..6 from today
      at the alarm's time lands on a selected weekday after now; it is then
      armed for that time, less than a week ahead, on a selected weekday. */
  lemma StopRearmsRepeatingAlarm(s: AlarmSettings, state: AlarmState, slot: int, armed: map<int, DateTime>, now: DateTime)
    requires state != Off && s.toggle && s.repeat != 0
    requires s.hour < 24 && s.minute < 60 && now >= 0
    ensures var r := StoppedArmed(s, state, slot, armed, now, true);
      var c := Candidate(s.hour, s.minute, now);
      (slot in r <==> exists j :: 0 <= j < 7 && Qualifies(c, now, Weekday(now), s.repeat, j)) &&
      (slot in r ==> now < r[slot] < now + 7 * DAY && RepeatsOn(s.repeat, Weekday(r[slot])))
    ensures StoppedSettings(s, state) == s
  {
    var c := Candidate(s.hour, s.minute, now);
    RepeatAlarmTimeAsWritten(s.hour, s.minute, s.repeat, now);
    CandidateSameDay(s.hour, s.minute, now);
    var t := AlarmTimeAsWritten(s.hour, s.minute, s.repeat, s.toggle, now);
    if t != NIL {
      var o :| 0 <= o < 7 && t == c + o * DAY && Qualifies(c, now, Weekday(now), s.repeat, o) &&
               forall j :: 0 <= j < o ==> !Qualifies(c, now, Weekday(now), s.repeat, j);
      assert t <= c + 6 * DAY;
    }
  }

  /** The mask with only bit `wd` selects weekday `wd` and no other. */
  lemma OneDayMask(wd: nat, w: nat)
    requires wd < 7 && w < 7
    ensures RepeatsOn((1 as bv8) << wd, w) <==> w == wd
  {
    if wd == 0 {
    } else if wd == 1 {
    } else if wd == 2 {
    } else if wd == 3 {
    } else if wd == 4 {
    } else if wd == 5 {
    } else {
    }
  }

  /** As written, stopping an alarm that repeats on today's weekday only,
      after its time has passed today, disarms its slot: none of the offsets
      0..6 qualifies, although the same time a week later is its next
      occurrence (for example a Monday-only 07:00 alarm stopped on Monday at
      07:05). */
  lemma StopDisarmsOneDayAlarm(s: AlarmSettings, state: AlarmState, slot: int, armed: map<int, DateTime>, now: DateTime)
    requires state != Off && s.toggle && s.repeat == (1 as bv8) << Weekday(now)
    requires s.hour < 24 && s.minute < 60 && now >= 0
    requires Candidate(s.hour, s.minute, now) <= now
    ensures slot !in StoppedArmed(s, state, slot, armed, now, true)
    ensures NextAlarmTime(s.hour, s.minute, s.repeat, true, now) == Candidate(s.hour, s.minute, now) + 7 * DAY
  {
    var c := Candidate(s.hour, s.minute, now);
    var wd := Weekday(now);
    forall j | 0 <= j < 7
      ensures !Qualifies(c, now, wd, s.repeat, j)
    {
      OneDayMask(wd, (wd + j) % 7);
    }
    OneDayMask(wd, wd);
    RepeatAlarmTimeAsWritten(s.hour, s.minute, s.repeat, now);
    NextAlarmTimeIsNextOccurrence(s.hour, s.minute, s.repeat, now);
    AsWrittenMissesOnlyNextWeek(s.hour, s.minute, s.repeat, true, now);
  }

  /** One of the two identical blocks of stopAlarms. */
  method StopAlarm(alarm: Alarm, rtc: Rtc)
    modifies alarm, rtc
    ensures alarm.state == Off
    ensures alarm.Settings() == StoppedSettings(old(alarm.Settings()), old(alarm.state))
    ensures rtc.armed == StoppedArmed(old(alarm.Settings()), old(alarm.state), NToInt(alarm.n), old(rtc.armed), old(rtc.now), old(rtc.accepts))
    ensures rtc.fired == StoppedFired(old(alarm.Settings()), old(alarm.state), NToInt(alarm.n), old(rtc.fired))
    ensures rtc.now == old(rtc.now) && rtc.accepts == old(rtc.accepts)
  {
    if alarm.state == Playing || alarm.state == Snooze {
      alarm.state := Off;
      if alarm.repeat == 0 {
        alarm.toggle := false;
        DisableAlarm(alarm, rtc);
      } else {
        var _ := SetAlarm(alarm, rtc);
      }
    }
  }

  /** What stopAlarms does to the indicator, the alarms and the RTC: the
      indicator goes dark, both alarms end OFF, one-shot ones switched off and
      disarmed, repeating ones set for their next time. */
  twostate predicate AlarmsStopped(c: Clock)
    reads c.indicatorLight, c.alarm1, c.alarm2, c.rtc
  {
    c.indicatorLight.curDuty == 0 &&
    c.alarm1.state == Off && c.alarm2.state == Off &&
    c.alarm1.Settings() == StoppedSettings(old(c.alarm1.Settings()), old(c.alarm1.state)) &&
    c.alarm2.Settings() == StoppedSettings(old(c.alarm2.Settings()), old(c.alarm2.state)) &&
    c.rtc.armed ==
      StoppedArmed(old(c.alarm2.Settings()), old(c.alarm2.state), 2,
        StoppedArmed(old(c.alarm1.Settings()), old(c.alarm1.state), 1, old(c.rtc.armed), old(c.rtc.now), old(c.rtc.accepts)),
        old(c.rtc.now), old(c.rtc.accepts)) &&
    c.rtc.fired ==
      StoppedFired(old(c.alarm2.Settings()), old(c.alarm2.state), 2,
        StoppedFired(old(c.alarm1.Settings()), old(c.alarm1.state), 1, old(c.rtc.fired))) &&
    c.rtc.now == old(c.rtc.now) && c.rtc.accepts == old(c.rtc.accepts)
  }

  /** stopAlarms: the player stops, the indicator goes dark, both alarms end
      OFF (one-shot ones switched off and disarmed, repeating ones set for
      their next time), and the turn-off timer stops. */
  method StopAlarms(c: Clock)
    requires c.Valid()
    modifies c, c.alarm1, c.alarm2, c.rtc, c.indicatorLight
    ensures c.Valid()
    ensures c.Vars() == old(c.Vars()).(player := old(c.player) + [StopPlayback],
                                       alarmTurnOffTimer := old(c.alarmTurnOffTimer).Stop())
    ensures AlarmsStopped(c)
  {
    c.player := c.player + [StopPlayback];
    c.indicatorLight.ToggleOff();
    StopAlarm(c.alarm1, c.rtc);
    StopAlarm(c.alarm2, c.rtc);
    c.alarmTurnOffTimer := c.alarmTurnOffTimer.Stop();
  }

  // ---------------------------------------------------------------------
  // Snoozing
  // ---------------------------------------------------------------------

  /** The state of an alarm after snoozeAlarms: a ringing alarm becomes
      SNOOZED when the RTC took the snooze time. */
  function SnoozedState(state: AlarmState, accepts: bool): (r: AlarmState)
    ensures r == Snooze <==> state == Snooze || (state == Playing && accepts)
    ensures r == Off <==> state == Off
  {
    if state == Playing && accepts then Snooze else state
  }

  /** The armed slots after snoozeAlarms handled the alarm in `slot`: a
      ringing alarm's slot is armed `minutes` after now, if the RTC takes it. */
  function SnoozedArmed(state: AlarmState, slot: int, armed: map<int, DateTime>, now: DateTime,
                        minutes: int, accepts: bool): (r: map<int, DateTime>)
    ensures forall k :: k != slot ==> (k in r <==> k in armed)
    ensures forall k :: k != slot && k in r ==> r[k] == armed[k]
    ensures state != Playing || !accepts ==> r == armed
  {
    if state == Playing && accepts then armed[slot := now + minutes * 60] else armed
  }

  function SnoozedFired(state: AlarmState, slot: int, fired: set<int>): set<int>
  {
    if state == Playing then fired - {slot} else fired
  }

  /** A snoozed alarm rings again snoozeTime minutes later: the int8_t cast
      keeps a snooze time of at most 127 minutes. */
  lemma SnoozeRingsAfterSnoozeTime(slot: int, armed: map<int, DateTime>, now: DateTime, snoozeTime: Byte)
    requires 1 <= snoozeTime <= 127
    ensures var r := SnoozedArmed(Playing, slot, armed, now, I8(snoozeTime), true);
      slot in r && r[slot] == now + snoozeTime * 60 && r[slot] > now
  {
    assert I8(snoozeTime) == snoozeTime;
  }

  /** One of the two identical blocks of snoozeAlarms. */
  method SnoozeIfPlaying(alarm: Alarm, rtc: Rtc, minutes: int)
    modifies alarm, rtc
    ensures alarm.state == SnoozedState(old(alarm.state), old(rtc.accepts))
    ensures alarm.Settings() == old(alarm.Settings())
    ensures rtc.armed == SnoozedArmed(old(alarm.state), NToInt(alarm.n), old(rtc.armed), old(rtc.now), minutes, old(rtc.accepts))
    ensures rtc.fired == SnoozedFired(old(alarm.state), NToInt(alarm.n), old(rtc.fired))
    ensures rtc.now == old(rtc.now) && rtc.accepts == old(rtc.accepts)
  {
    if alarm.state == Playing {
      var ok := SnoozeAlarm(alarm, rtc, minutes);
      if ok {
        alarm.state := Snooze;
      }
    }
  }

  /** What snoozeAlarms does to the indicator, the alarms and the RTC: the
      indicator dims to duty 1 and each ringing alarm is set `snoozeTime`
      minutes ahead (read as int8_t) and SNOOZED if the RTC took it. */
  twostate predicate AlarmsSnoozed(c: Clock, snoozeTime: Byte)
    reads c.indicatorLight, c.alarm1, c.alarm2, c.rtc
  {
    c.indicatorLight.curDuty == WrapDuty(1, c.indicatorLight.maxDuty) &&
    c.alarm1.state == SnoozedState(old(c.alarm1.state), old(c.rtc.accepts)) &&
    c.alarm2.state == SnoozedState(old(c.alarm2.state), old(c.rtc.accepts)) &&
    c.alarm1.Settings() == old(c.alarm1.Settings()) && c.alarm2.Settings() == old(c.alarm2.Settings()) &&
    c.rtc.armed ==
      SnoozedArmed(old(c.alarm2.state), 2,
        SnoozedArmed(old(c.alarm1.state), 1, old(c.rtc.armed), old(c.rtc.now), I8(snoozeTime), old(c.rtc.accepts)),
        old(c.rtc.now), I8(snoozeTime), old(c.rtc.accepts)) &&
    c.rtc.fired == SnoozedFired(old(c.alarm2.state), 2, SnoozedFired(old(c.alarm1.state), 1, old(c.rtc.fired))) &&
    c.rtc.now == old(c.rtc.now) && c.rtc.accepts == old(c.rtc.accepts)
  }

  /** snoozeAlarms: the player stops, the indicator dims to duty 1, the
      turn-off timer stops, and each ringing alarm is set snoozeTime minutes
      ahead (read as int8_t) and SNOOZED if the RTC took it. */
  method SnoozeAlarms(c: Clock)
    requires c.Valid()
    modifies c, c.alarm1, c.alarm2, c.rtc, c.indicatorLight
    ensures c.Valid()
    ensures c.Vars() == old(c.Vars()).(player := old(c.player) + [StopPlayback],
                                       alarmTurnOffTimer := old(c.alarmTurnOffTimer).Stop())
    ensures AlarmsSnoozed(c, old(c.snoozeTime))
  {
    c.player := c.player + [StopPlayback];
    c.indicatorLight.SetDuty(1);
    c.alarmTurnOffTimer := c.alarmTurnOffTimer.Stop();
    SnoozeIfPlaying(c.alarm1, c.rtc, I8(c.snoozeTime));
    SnoozeIfPlaying(c.alarm2, c.rtc, I8(c.snoozeTime));
  }

  // ---------------------------------------------------------------------
  // Ringing
  // ---------------------------------------------------------------------

  predicate HasRandomSound(sounds: seq<Sound>)
  {
    exists i :: 0 <= i < |sounds| && sounds[i].allowRandom
  }

  /** The commands one alarm block of handleAlarms sends: nothing when the
      alarm did not fire; its own sound looped; for sound 0 a random-allowed
      sound of the catalogue looped (or nothing, where the source's
      assertion that the random pick found a sound fails). */
  predicate Rings(fired: bool, sound: Byte, sounds: seq<Sound>, before: seq<PlayerCommand>, after: seq<PlayerCommand>)
  {
    if !fired then after == before
    else if sound != 0 then after == before + [PlayLoop(sound)]
    else after == before || exists k :: 0 <= k < |sounds| && sounds[k].allowRandom && after == before + [PlayLoop(sounds[k].id)]
  }

  /** The commands of the two alarm blocks, alarm 1's first. */
  ghost predicate RingsBoth(fired1: bool, sound1: Byte, fired2: bool, sound2: Byte, sounds: seq<Sound>,
                      before: seq<PlayerCommand>, after: seq<PlayerCommand>)
  {
    exists mid :: Rings(fired1, sound1, sounds, before, mid) && Rings(fired2, sound2, sounds, mid, after)
  }

  /** One of the two blocks of handleAlarms that read an alarm and play it. */
  method RingIfFired(c: Clock, alarm: Alarm)
    requires NToInt(alarm.n) in c.rtc.fired && alarm.sound == 0 ==> HasRandomSound(c.sounds[..])
    modifies c, alarm, c.rtc, c.sounds
    ensures var fired := NToInt(alarm.n) in old(c.rtc.fired);
      alarm.state == (if fired then Playing else old(alarm.state)) &&
      Rings(fired, alarm.sound, c.sounds[..], old(c.player), c.player)
    ensures alarm.Settings() == old(alarm.Settings())
    ensures c.rtc.fired == old(c.rtc.fired) - {NToInt(alarm.n)}
    ensures c.rtc.now == old(c.rtc.now) && c.rtc.armed == old(c.rtc.armed) && c.rtc.accepts == old(c.rtc.accepts)
    ensures c.Vars() == old(c.Vars()).(player := c.player)
    ensures forall k :: 0 <= k < c.sounds.Length ==>
      c.sounds[k].id == old(c.sounds[k].id) && c.sounds[k].allowRandom == old(c.sounds[k].allowRandom)
  {
    var fired := ReadAlarm(alarm, c.rtc);
    if fired {
      var sound := alarm.sound;
      if sound == 0 {
        var selected := FindRandomSound(c.sounds);
        if selected.Some? {
          c.player := c.player + [PlayLoop(c.sounds[selected.value].id)];
        }
      } else {
        c.player := c.player + [PlayLoop(sound)];
      }
    }
  }

  /** `for (auto &i: AC.defuseCode) i = (uint8_t) random(4)`. */
  method ScrambleCode(code: array<Byte>)
    modifies code
    ensures forall i :: 0 <= i < code.Length ==> code[i] < 4
  {
    var i := 0;
    while i < code.Length
      invariant 0 <= i <= code.Length
      invariant forall j :: 0 <= j < i ==> code[j] < 4
    {
      var digit: Byte :| digit < 4;
      code[i] := digit;
      i := i + 1;
    }
  }

  /** The two alarm blocks of handleAlarms. */
  method RingAlarms(c: Clock)
    requires c.Valid()
    requires (1 in c.rtc.fired && c.alarm1.sound == 0) || (2 in c.rtc.fired && c.alarm2.sound == 0)
      ==> HasRandomSound(c.sounds[..])
    modifies c, c.alarm1, c.alarm2, c.rtc, c.sounds
    ensures c.Vars() == old(c.Vars()).(player := c.player)
    ensures c.alarm1.state == (if 1 in old(c.rtc.fired) then Playing else old(c.alarm1.state))
    ensures c.alarm2.state == (if 2 in old(c.rtc.fired) then Playing else old(c.alarm2.state))
    ensures RingsBoth(1 in old(c.rtc.fired), c.alarm1.sound, 2 in old(c.rtc.fired), c.alarm2.sound,
                      c.sounds[..], old(c.player), c.player)
    ensures c.alarm1.Settings() == old(c.alarm1.Settings()) && c.alarm2.Settings() == old(c.alarm2.Settings())
    ensures c.rtc.fired == old(c.rtc.fired) - {1, 2}
    ensures c.rtc.armed == old(c.rtc.armed) && c.rtc.now == old(c.rtc.now) && c.rtc.accepts == old(c.rtc.accepts)
  {
    RingIfFired(c, c.alarm1);
    ghost var mid := c.player;
    ghost var catalogueMid := c.sounds[..];
    if 2 in c.rtc.fired && c.alarm2.sound == 0 {
      ghost var i :| 0 <= i < |old(c.sounds[..])| && old(c.sounds[..])[i].allowRandom;
      assert c.sounds[i].allowRandom;
    }
    RingIfFired(c, c.alarm2);
    RingsKeepsCatalogue(1 in old(c.rtc.fired), c.alarm1.sound, catalogueMid, c.sounds[..], old(c.player), mid);
    assert Rings(2 in old(c.rtc.fired), c.alarm2.sound, c.sounds[..], mid, c.player);
  }

  /** The rest of handleAlarms: timer, lights, alarm frame, defuse code, menu timer. */
  method ShowAlarm(c: Clock)
    requires c.Valid()
    modifies c, c.indicatorLight, c.mainLight, c.mainLight.ledc, c.ui, c.defuseCode
    ensures c.Valid()
    ensures c.Vars() == old(c.Vars()).(alarmTurnOffTimer := old(c.alarmTurnOffTimer).Start(), uiTimer := old(c.uiTimer).Stop())
    ensures c.indicatorLight.curDuty == c.indicatorLight.maxDuty && c.mainLight.ledc.curDuty == 7
    ensures c.mainLight.timer == (if c.mainLight.duration.value > 0 then old(c.mainLight.timer).Reset() else old(c.mainLight.timer))
    ensures c.ui.frame == ALARM_FRAME as nat && c.ui.cursor == 0 && c.ui.fixed == old(c.ui.fixed) && c.ui.calls == old(c.ui.calls)
    ensures forall i :: 0 <= i < c.defuseCode.Length ==> c.defuseCode[i] < 4
  {
    c.alarmTurnOffTimer := c.alarmTurnOffTimer.Start();
    c.indicatorLight.ToggleOn();
    c.mainLight.ToggleOn();
    c.ui.TransitionToFrame(ALARM_FRAME);
    ScrambleCode(c.defuseCode);
    c.uiTimer := c.uiTimer.Stop();
  }

  /** handleAlarms: nothing unless the RTC interrupt raised the trigger
      flag; then each fired alarm becomes PLAYING and its sound loops, the
      turn-off timer starts, both lights go fully on, the menu moves to the
      alarm frame, a new random defuse code is drawn and the menu timer
      stops. A sound of 0 asks for a random pick, which needs a
      random-allowed sound in the catalogue. */
  method HandleAlarms(c: Clock)
    requires c.Valid()
    requires c.anyAlarmTriggered && ((1 in c.rtc.fired && c.alarm1.sound == 0) || (2 in c.rtc.fired && c.alarm2.sound == 0))
      ==> HasRandomSound(c.sounds[..])
    modifies c, c.alarm1, c.alarm2, c.rtc, c.indicatorLight, c.mainLight, c.mainLight.ledc, c.ui, c.sounds, c.defuseCode
    ensures c.Valid()
    ensures !old(c.anyAlarmTriggered) ==>
      unchanged(c, c.alarm1, c.alarm2, c.rtc, c.indicatorLight, c.mainLight, c.mainLight.ledc, c.ui, c.sounds, c.defuseCode)
    ensures old(c.anyAlarmTriggered) ==>
      c.Vars() == old(c.Vars()).(player := c.player, anyAlarmTriggered := false,
                                 alarmTurnOffTimer := old(c.alarmTurnOffTimer).Start(), uiTimer := old(c.uiTimer).Stop())
    ensures old(c.anyAlarmTriggered) ==>
      c.alarm1.state == (if 1 in old(c.rtc.fired) then Playing else old(c.alarm1.state)) &&
      c.alarm2.state == (if 2 in old(c.rtc.fired) then Playing else old(c.alarm2.state))
    ensures old(c.anyAlarmTriggered) ==>
      RingsBoth(1 in old(c.rtc.fired), c.alarm1.sound, 2 in old(c.rtc.fired), c.alarm2.sound,
                c.sounds[..], old(c.player), c.player)
    ensures c.alarm1.Settings() == old(c.alarm1.Settings()) && c.alarm2.Settings() == old(c.alarm2.Settings())
    ensures old(c.anyAlarmTriggered) ==> c.rtc.fired == old(c.rtc.fired) - {1, 2}
    ensures c.rtc.armed == old(c.rtc.armed) && c.rtc.now == old(c.rtc.now) && c.rtc.accepts == old(c.rtc.accepts)
    ensures old(c.anyAlarmTriggered) ==>
      c.indicatorLight.curDuty == c.indicatorLight.maxDuty && c.mainLight.ledc.curDuty == 7 &&
      c.mainLight.timer == (if c.mainLight.duration.value > 0 then old(c.mainLight.timer).Reset() else old(c.mainLight.timer))
    ensures old(c.anyAlarmTriggered) ==>
      c.ui.frame == ALARM_FRAME as nat && c.ui.cursor == 0 && c.ui.fixed == old(c.ui.fixed) && c.ui.calls == old(c.ui.calls)
    ensures old(c.anyAlarmTriggered) ==> forall i :: 0 <= i < c.defuseCode.Length ==> c.defuseCode[i] < 4
  {
    if c.anyAlarmTriggered {
      c.anyAlarmTriggered := false;
      RaiseAlarms(c);
    }
  }

  /** handleAlarms once the trigger flag was seen: ring, then show. */
  method RaiseAlarms(c: Clock)
    requires c.Valid()
    requires (1 in c.rtc.fired && c.alarm1.sound == 0) || (2 in c.rtc.fired && c.alarm2.sound == 0)
      ==> HasRandomSound(c.sounds[..])
    modifies c, c.alarm1, c.alarm2, c.rtc, c.indicatorLight, c.mainLight, c.mainLight.ledc, c.ui, c.sounds, c.defuseCode
    ensures c.Valid()
    ensures c.Vars() == old(c.Vars()).(player := c.player, alarmTurnOffTimer := old(c.alarmTurnOffTimer).Start(),
                                       uiTimer := old(c.uiTimer).Stop())
    ensures c.alarm1.state == (if 1 in old(c.rtc.fired) then Playing else old(c.alarm1.state))
    ensures c.alarm2.state == (if 2 in old(c.rtc.fired) then Playing else old(c.alarm2.state))
    ensures RingsBoth(1 in old(c.rtc.fired), c.alarm1.sound, 2 in old(c.rtc.fired), c.alarm2.sound,
                      c.sounds[..], old(c.player), c.player)
    ensures c.alarm1.Settings() == old(c.alarm1.Settings()) && c.alarm2.Settings() == old(c.alarm2.Settings())
    ensures c.rtc.fired == old(c.rtc.fired) - {1, 2}
    ensures c.rtc.armed == old(c.rtc.armed) && c.rtc.now == old(c.rtc.now) && c.rtc.accepts == old(c.rtc.accepts)
    ensures c.indicatorLight.curDuty == c.indicatorLight.maxDuty && c.mainLight.ledc.curDuty == 7
    ensures c.mainLight.timer == (if c.mainLight.duration.value > 0 then old(c.mainLight.timer).Reset() else old(c.mainLight.timer))
    ensures c.ui.frame == ALARM_FRAME as nat && c.ui.cursor == 0 && c.ui.fixed == old(c.ui.fixed) && c.ui.calls == old(c.ui.calls)
    ensures forall i :: 0 <= i < c.defuseCode.Length ==> c.defuseCode[i] < 4
  {
    RingAlarms(c);
    ghost var rung := c.Vars();
    ghost var catalogue := c.sounds[..];
    ShowAlarm(c);
    assert c.sounds[..] == catalogue && c.player == rung.player;
  }

  /** Rings depends on the catalogue only through ids and random flags. */
  lemma RingsKeepsCatalogue(fired: bool, sound: Byte, s1: seq<Sound>, s2: seq<Sound>,
                            before: seq<PlayerCommand>, after: seq<PlayerCommand>)
    requires |s1| == |s2|
    requires forall k :: 0 <= k < |s1| ==> s1[k].id == s2[k].id && s1[k].allowRandom == s2[k].allowRandom
    requires Rings(fired, sound, s1, before, after)
    ensures Rings(fired, sound, s2, before, after)
  {
  }
}
