# AlarmClock r2v6 firmware core in Dafny

This project models the alarm core of the AlarmClock r2v6 firmware: the
two alarms and their next fire time, the alarm lifecycle (off, ringing,
snoozed, stopped), the OLED menu with its seventeen frame handles driven
by five touch pads, the sound catalogue, and the small building blocks
the core relies on:

- the room light in its two variants;
- the LEDC PWM channel allocator;
- the sliding-window average;
- the two change-notifying property classes;
- the write-through persisted settings (`Bean`);
- the LED matrix tab carousel;
- the number formatting of the matrix;
- the sound picker's file-name helpers.

The firmware keeps one global struct `AC`. It is modelled as the class
`AlarmClock.Clock`, whose references are fixed and whose plain fields
(player commands, snooze time, flags, timers) the handlers reassign. Each
object the firmware updates in place is a class with `modifies` and
`reads` frames:

- `Alarm`, `Rtc` and `UIDisplay`;
- the main light, the LEDC and the matrix;
- the property classes, `Bean` and `AveragedValue`;
- the navigator latch.

Pure helpers are functions with lemmas about them. The loops of the source
(`getFreeChannel`, the repeat-day scan over day offsets 0..6, the defuse code check, the window
fill and shift, `std::accumulate`, `findRandomSound`'s passes, `numToStr`'s
subscript pass) are methods with loop invariants, specified by functions.

Modelling conventions:

- Time is seconds since 2000-01-01 00:00:00 (RTClib's epoch), and the
  weekday is derived (0 = Sunday). RTClib's `DateTime()` ("no time") is
  0, named `NIL`.
- `uint8_t` arithmetic is written out with `U8`, and C's truncating `%`
  with `CRem`. The repeat mask is a `bv8` and the LEDC channel mask a
  `bv16`.
- The MP3 player is the list of commands it has been sent. FreeRTOS
  timers are values (running, period). The RTC holds its armed slots, its
  raised flags and whether it accepts a new alarm time. The Preferences
  store is a map.
- Randomness is a parameter (`draw`) or a nondeterministic choice.
- The touch pads are read from a `Pads` value. The display library's
  "animation done" and "frame FIXED" results are parameters.

## Model

| member | source | states |
|---|---|---|
| Alarms.NToInt | lib/AlarmClock/src/alarm.h:175 | alarm one uses RTC slot 1 and alarm two slot 2 |
| Alarms.FirstOffset | lib/AlarmClock/src/alarm.h:106-111 | the least day offset in a range whose weekday is in the mask and whose time is after now, or none, with every smaller offset failing |
| Alarms.Candidate | lib/AlarmClock/src/alarm.h:87-94 | today's date at hour:minute:00 (CandidateSameDay proves it lies on now's day and weekday) |
| Alarms.RepeatScan | lib/AlarmClock/src/alarm.h:106-114 | the loop as written, each matching offset added to the candidate so far, over offsets below `span` (RepeatScanIsFirstOffset and RepeatScanAfterNow state its result) |
| Alarms.Schedule | lib/AlarmClock/src/alarm.h:84-115 | getAlarmTime with the repeat loop trying `span` day offsets (ScheduleNotInPast: NIL or at least now) |
| Alarms.AlarmTimeAsWritten | lib/AlarmClock/src/alarm.h:84-115 | getAlarmTime as written, the repeat loop over offsets 0..6 (RepeatAlarmTimeAsWritten gives its value) |
| Alarms.NextAlarmTime | lib/AlarmClock/src/alarm.h:84-115 | getAlarmTime with the repeat loop extended to offset 7 (NextAlarmTimeIsNextOccurrence gives its value) |
| Alarms.RepeatScanIsFirstOffset | lib/AlarmClock/src/alarm.h:106-114 | the source's loop, which adds each matching offset to the candidate cumulatively, returns the candidate moved by the first qualifying offset, so the accumulation does no harm |
| Alarms.CandidateSameDay | lib/AlarmClock/src/alarm.h:87-95 | the candidate hour:minute:00 lies on now's calendar day and weekday, so one day later is after now |
| Alarms.RepeatScanAfterNow | lib/AlarmClock/src/alarm.h:106-114 | the repeat loop answers NIL or a time strictly after now |
| Alarms.ScheduleNotInPast | lib/AlarmClock/src/alarm.h:84-115 | a computed alarm time is NIL or at least now |
| Alarms.DisabledAlarmHasNoTime | lib/AlarmClock/src/alarm.h:85 | a switched-off alarm has the nil time |
| Alarms.OneShotAlarmTime | lib/AlarmClock/src/alarm.h:98-103 | with repeat 0 the time is today's hour:minute:00, one day later only if strictly before now; a time equal to now is kept |
| Alarms.RepeatAlarmTimeAsWritten | lib/AlarmClock/src/alarm.h:106-114 | with repeat set, the source returns the candidate moved by the first offset 0..6 that falls on a selected weekday after now, which is after now and on a selected weekday, and NIL exactly when no offset 0..6 qualifies |
| Alarms.MaskSelectsWeekday | lib/AlarmClock/src/alarm.h:49 | a mask with any of bits 0..6 set selects some weekday |
| Alarms.SomeOffsetQualifies | lib/AlarmClock/src/alarm.h:106-111 | when the mask selects a weekday, some offset 0..7 qualifies |
| Alarms.NextAlarmTimeIsNextOccurrence | lib/AlarmClock/src/alarm.h:106-114 | with the scan extended to offset 7, an enabled repeating alarm gets a time after now, at most a week ahead, on a selected weekday, at hour:minute:00, and no earlier such time exists |
| Alarms.FirstOffsetExtended | lib/AlarmClock/src/alarm.h:106 | extending the scan from 7 to 8 offsets changes the answer only where the 7-offset scan found nothing |
| Alarms.AsWrittenMissesOnlyNextWeek | lib/AlarmClock/src/alarm.h:106-114 | the source's scan and the extended one agree except where the source answers NIL and the alarm's weekday comes round again a week later |
| Alarms.WeeklyAlarmLostAsWritten | lib/AlarmClock/src/alarm.h:106-114 | a Monday-only alarm at 07:00 asked for at 08:00 on a Monday gets NIL as written, while the next Monday is what is meant |
| Alarms.In8hRepeat | lib/AlarmClock/src/alarm.h:127-128 | a repeat mask of 0 stays 0; otherwise every old bit is kept, the new weekday's bit is added, and nothing else is set |
| Alarms.In8hFromNowGoesOffIn8h | lib/AlarmClock/src/alarm.h:123-130 | after setIn8hFromNow the alarm's next time, by the written 0..6 scan and by the extended one alike, is now + 8 h with the seconds cut off, whether it was one-shot or repeating |
| Alarms.In8hSameDay | lib/AlarmClock/src/alarm.h:124-129 | the case of the above where now + 8 h is still today |
| Alarms.In8hNextDay | lib/AlarmClock/src/alarm.h:124-129 | the case of the above where now + 8 h is tomorrow |
| Alarms.AlarmToJson | lib/AlarmClock/src/alarm.h:142-151 | the JSON carries the slot id; its nextDateTime is 0 exactly when getAlarmTime (the 0..6 scan as written) has no time, and otherwise that time in Unix seconds, never before now |
| Alarms.JsonRoundTrip | lib/AlarmClock/src/alarm.h:158-164 | alarmFromJson of alarmToJson restores hour, minute, repeat, toggle and sound |
| Alarms.AlarmFromJson | lib/AlarmClock/src/alarm.h:158-164 | the five persisted fields taken from the JSON (JsonRoundTrip) |
| Alarms.Alarm.constructor | lib/AlarmClock/src/alarm.h:54-60 | a new alarm is OFF with every setting at its default |
| Alarms.Alarm.SetIn8hFromNow | lib/AlarmClock/src/alarm.h:123-130 | hour and minute become those of now + 8 h, the toggle is on, the repeat mask is In8hRepeat of the old one, sound and state are kept |
| Alarms.Alarm.FromJson | lib/AlarmClock/src/alarm.h:158-164 | the five persisted fields are overwritten from the JSON and the state is kept |
| Alarms.GetAlarmTime | lib/AlarmClock/src/alarm.h:84-115 | the method computes AlarmTimeAsWritten of the alarm's settings: the repeat loop tries offsets 0..6 only |
| Alarms.ScanRepeatDays | lib/AlarmClock/src/alarm.h:106-114 | the repeat loop over offsets 0..6, with cumulative offsets, computes RepeatScan with span 7 |
| Alarms.DisableAlarm | lib/AlarmClock/src/alarm.h:174-176 | the alarm's slot is disarmed; nothing else on the RTC changes |
| Alarms.SetAlarm | lib/AlarmClock/src/alarm.h:184-201 | the slot's flag is cleared; when getAlarmTime (the 0..6 scan as written) gives NIL the slot is disabled and true returned; otherwise the slot is armed with that time when the RTC accepts it, and the result says whether it did |
| Alarms.ReadAlarm | lib/AlarmClock/src/alarm.h:209-217 | the result is whether the slot fired; a fired alarm becomes PLAYING and its flag is cleared, otherwise nothing changes |
| Alarms.SnoozeAlarm | lib/AlarmClock/src/alarm.h:226-243 | the slot is cleared and armed `minutes` after now when the RTC accepts it; the state becomes SNOOZE only then |
| Hardware.Rtc.AlarmFired | lib/AlarmClock/src/alarm.h:211 | whether the slot's alarm flag is raised (`rtc.alarmFired`) |
| Hardware.Rtc.ClearAlarm | lib/AlarmClock/src/alarm.h:185 | `rtc.clearAlarm` lowers exactly the slot's flag and changes nothing else |
| Hardware.Rtc.DisableAlarm | lib/AlarmClock/src/alarm.h:175 | `rtc.disableAlarm` disarms exactly the slot and changes nothing else |
| Hardware.Rtc.SetAlarm | lib/AlarmClock/src/alarm.h:195-197 | `rtc.setAlarm1`/`setAlarm2` arm the slot with the time exactly when the chip accepts it, and report whether it did |
| AlarmClock.Clock.constructor | lib/AlarmClock/src/ui_handles.h:119 | the global struct starts on the home frame, cursor 0, zeroed code buffers, no alarm triggered and alarm 1 selected |
| AlarmClock.Clock.SelectedAlarm | lib/AlarmClock/src/ui_handles.h:229 | the alarm the menus edit is alarm 1 or alarm 2 as alarmToSet says |
| AlarmHandler.StoppedSettings | lib/AlarmClock/src/alarm_handler.h:30-48 | stopping keeps hour, minute, repeat and sound, and leaves the toggle on only for an idle or a repeating alarm |
| AlarmHandler.StoppedArmed | lib/AlarmClock/src/alarm_handler.h:30-48 | stopping touches only the alarm's own slot: an idle alarm's slot is kept and a one-shot alarm's slot is disarmed; a repeating one is set again with the time of the 0..6 scan as written |
| AlarmHandler.StopRearmsRepeatingAlarm | lib/AlarmClock/src/alarm_handler.h:35-38 | a stopped repeating alarm keeps its settings; its slot stays armed exactly when some offset 0..6 from today lands on a selected weekday after now, and then for a time after now, less than a week ahead, on a selected weekday |
| AlarmHandler.OneDayMask | lib/AlarmClock/src/alarm_handler.h:35-38 | the mask with only bit wd selects weekday wd and no other |
| AlarmHandler.StopDisarmsOneDayAlarm | lib/AlarmClock/src/alarm_handler.h:35-38 | as written, stopping an alarm that repeats on today's weekday only, after its time today, disarms its slot, although its next occurrence is the same time a week later |
| AlarmHandler.StopAlarm | lib/AlarmClock/src/alarm_handler.h:30-39 | a PLAYING or SNOOZED alarm ends OFF; a one-shot one is switched off and disarmed, a repeating one goes through setAlarm (the 0..6 scan as written, so it may be disarmed); an OFF alarm is untouched |
| AlarmHandler.StopAlarms | lib/AlarmClock/src/alarm_handler.h:27-51 | the player gets "stop", the indicator goes dark, both alarms are stopped as StopAlarm says, and the turn-off timer stops; nothing else changes |
| AlarmHandler.SnoozedState | lib/AlarmClock/src/alarm_handler.h:63-70 | an alarm ends SNOOZED exactly when it was SNOOZED, or was PLAYING and the RTC took the snooze; OFF stays OFF |
| AlarmHandler.SnoozedArmed | lib/AlarmClock/src/alarm_handler.h:63-70 | snoozing touches only a ringing alarm's own slot, and only when the RTC takes the time |
| AlarmHandler.SnoozeRingsAfterSnoozeTime | lib/AlarmClock/src/alarm_handler.h:64 | for a snooze time of 1..127 the int8_t cast keeps it, and the slot is armed that many minutes after now |
| AlarmHandler.SnoozeIfPlaying | lib/AlarmClock/src/alarm_handler.h:63-66 | only a PLAYING alarm whose snooze the RTC accepted becomes SNOOZED; the settings are kept |
| AlarmHandler.SnoozeAlarms | lib/AlarmClock/src/alarm_handler.h:59-71 | the player gets "stop", the indicator dims to duty 1, the turn-off timer stops, and each ringing alarm is snoozed for snoozeTime read as int8_t |
| AlarmHandler.RingIfFired | lib/AlarmClock/src/alarm_handler.h:82-86 | a fired alarm becomes PLAYING and loops its sound, or for sound 0 a random-allowed catalogue sound; an alarm that did not fire sends nothing |
| AlarmHandler.Rings | lib/AlarmClock/src/alarm_handler.h:82-91 | the commands of one alarm block: nothing unless fired; its sound looped; for sound 0 a random-allowed sound looped, or nothing |
| AlarmHandler.RingsBoth | lib/AlarmClock/src/alarm_handler.h:82-91 | the two alarm blocks in order, alarm 1's first |
| AlarmHandler.ScrambleCode | lib/AlarmClock/src/alarm_handler.h:96 | every defuse code digit ends in 0..3 |
| AlarmHandler.RingAlarms | lib/AlarmClock/src/alarm_handler.h:82-91 | both alarm blocks, alarm 1's commands first; both flags are cleared and the settings kept |
| AlarmHandler.ShowAlarm | lib/AlarmClock/src/alarm_handler.h:92-97 | the turn-off timer starts, both lights go full, the menu is on frame 1 with cursor 0, the defuse digits are in 0..3 and the UI timer stops |
| AlarmHandler.HandleAlarms | lib/AlarmClock/src/alarm_handler.h:79-98 | with the trigger flag down nothing changes; otherwise the flag is cleared and the alarms ring and show as above, even when neither alarm reported firing |
| AlarmHandler.RaiseAlarms | lib/AlarmClock/src/alarm_handler.h:82-97 | the part of handleAlarms after the flag check: ringing, then showing |
| AlarmHandler.RingsKeepsCatalogue | lib/AlarmClock/src/alarm_handler.h:84 | which commands a ringing alarm may send depends on the catalogue only through ids and random flags |
| Averaging.Repeat | lib/AveragedValue/AveragedValue.hpp:38 | k copies of a reading |
| Averaging.Window | lib/AveragedValue/AveragedValue.hpp:36-44 | the slots after a sequence of readings always number n |
| Averaging.WindowStep | lib/AveragedValue/AveragedValue.hpp:36-44 | reading k (k ≤ n) overwrites slots k-1..n-1 and keeps the earlier ones; later readings shift left and append |
| Averaging.WindowHoldsLastReadings | lib/AveragedValue/AveragedValue.hpp:41-44 | once n readings have arrived the window is exactly the last n readings |
| Averaging.FirstReadingIsAverage | lib/AveragedValue/AveragedValue.hpp:36-46 | the first reading fills every slot, so the average (exact real division) equals it |
| Averaging.AveragedValue.constructor | lib/AveragedValue/AveragedValue.hpp:18-23 | slots and value 0, all n slots still to fill |
| Averaging.AveragedValue.Get | lib/AveragedValue/AveragedValue.hpp:28 | the value is the window's sum divided by n, in exact real arithmetic |
| Averaging.AveragedValue.Update | lib/AveragedValue/AveragedValue.hpp:35-47 | the readings grow by one; initialReads counts down to 0 and stops; the slots fill from n-initialReads or shift; the window length stays n and the value is its average |
| Averaging.AveragedValue.Store | lib/AveragedValue/AveragedValue.hpp:36-44 | the slot part of update keeps the slots equal to the window of the readings |
| Averaging.AveragedValue.Fill | lib/AveragedValue/AveragedValue.hpp:38 | slots from `start` on hold the value, earlier ones are kept |
| Averaging.AveragedValue.ShiftIn | lib/AveragedValue/AveragedValue.hpp:42-43 | the slots shift left by one and the value is appended |
| Averaging.AveragedValue.Accumulate | lib/AveragedValue/AveragedValue.hpp:46 | the loop computes the sum of the slots |
| Averaging.AveragedValue.Assign | lib/AveragedValue/AveragedValue.hpp:60-63 | operator= is update |
| AcProperty.Round | lib/ACr2v6/src/ACr2v6/Property.hpp:37 | one change calls every listener once, in registration order, with the old value still stored |
| AcProperty.Property.constructor | lib/ACr2v6/src/ACr2v6/Property.hpp:23 | the initial value, no listeners |
| AcProperty.Property.Default | lib/ACr2v6/src/ACr2v6/Property.hpp:25 | the default-constructed value is 0 (`T{}`) and get returns it |
| AcProperty.Property.Get | lib/ACr2v6/src/ACr2v6/Property.hpp:54 | get returns the stored value |
| AcProperty.Property.Set | lib/ACr2v6/src/ACr2v6/Property.hpp:35-40 | an equal value changes nothing; a different one calls every listener while the old value is stored, then stores the new one |
| AcProperty.Property.AddListener | lib/ACr2v6/src/ACr2v6/Property.hpp:47 | the listener is appended after all earlier ones |
| BaseProperty.Round | lib/AlarmClock/base/Property.hpp:44-46 | one change calls every listener once, in registration order, with the new value already stored |
| BaseProperty.SetTwiceNotifiesOnce | lib/AlarmClock/base/Property.hpp:40-48 | setting the same value twice notifies at most once |
| BaseProperty.ChangeCallsEachListenerOnce | lib/AlarmClock/base/Property.hpp:40-48 | a change appends one call per listener, each seeing the new value stored and given (old, new) |
| BaseProperty.Property.constructor | lib/AlarmClock/base/Property.hpp:30 | name and initial value, no listeners |
| BaseProperty.Property.Get | lib/AlarmClock/base/Property.hpp:34 | get returns the stored value |
| BaseProperty.Property.Set | lib/AlarmClock/base/Property.hpp:40-48 | an equal value changes nothing; a new one is stored first and every listener then runs once |
| BaseProperty.Property.AddChangeListener | lib/AlarmClock/base/Property.hpp:54 | the listener is appended after all earlier ones |
| BaseProperty.Property.Assign | lib/AlarmClock/base/Property.hpp:61-64 | operator= is set |
| BaseProperty.Plus | lib/AlarmClock/base/Property.hpp:78 | the uint8 sum, wrapping past 255 |
| BaseProperty.Minus | lib/AlarmClock/base/Property.hpp:80 | the uint8 difference, wrapping below 0 |
| BaseProperty.AddAssign | lib/AlarmClock/base/Property.hpp:66 | += is set of the uint8 sum |
| BaseProperty.SubAssign | lib/AlarmClock/base/Property.hpp:68 | -= is set of the uint8 difference |
| BaseProperty.MulAssign | lib/AlarmClock/base/Property.hpp:70 | *= is set of the uint8 product |
| BaseProperty.DivAssign | lib/AlarmClock/base/Property.hpp:72 | /= is set of the quotient |
| BaseProperty.Increment | lib/AlarmClock/base/Property.hpp:74 | ++ is += 1, so 255 wraps to 0 |
| BaseProperty.Decrement | lib/AlarmClock/base/Property.hpp:76 | -- is -= 1, so 0 wraps to 255 |
| Beans.Preferences.constructor | lib/AlarmClock/src/Bean.hpp:26 | an empty store |
| Beans.Preferences.Put | lib/AlarmClock/src/Bean.hpp:53 | the key now maps to the value |
| Beans.Preferences.Remove | lib/AlarmClock/src/Bean.hpp:37 | the key is gone |
| Beans.Bean.constructor | lib/AlarmClock/src/Bean.hpp:26 | name and store as given, the cache at the default, the store untouched |
| Beans.Bean.Get | lib/AlarmClock/src/Bean.hpp:28 | get returns the cache and reads nothing from the store |
| Beans.Bean.Set | lib/AlarmClock/src/Bean.hpp:30 | the cache takes the value and the store is written, even when the value is unchanged |
| Beans.Bean.Load | lib/AlarmClock/src/Bean.hpp:32-35 | with the key present the cache takes the stored value; otherwise the cached default is written to the store |
| Beans.Bean.Reset | lib/AlarmClock/src/Bean.hpp:37 | the key is removed and the cache keeps its value |
| Beans.Bean.Assign | lib/AlarmClock/src/Bean.hpp:60-63 | operator= is set |
| FileUtils.LastDot | sound_picker/src/main/java/de/alarmclock/soundpicker/FileUtils.java:14 | the position of the last dot, or none when the name has no dot |
| FileUtils.ExtensionStart | sound_picker/src/main/java/de/alarmclock/soundpicker/FileUtils.java:14 | the pattern `[.][^.]+$` matches at exactly one place (the last dot, followed by at least one character) or nowhere |
| FileUtils.GetNameWithoutExtension | sound_picker/src/main/java/de/alarmclock/soundpicker/FileUtils.java:28-30 | the name cut before the match, or the whole name when there is none |
| FileUtils.GetExtension | sound_picker/src/main/java/de/alarmclock/soundpicker/FileUtils.java:38-42 | the match, a dot followed by at least one non-dot; none (the exception) exactly when the pattern matches nowhere |
| FileUtils.NameAndExtensionRebuildName | sound_picker/src/main/java/de/alarmclock/soundpicker/FileUtils.java:28-42 | name without extension followed by the extension gives back the name |
| FileUtils.ExtensionRoundTrip | sound_picker/src/main/java/de/alarmclock/soundpicker/FileUtils.java:28-42 | appending a dot-led extension without dots to a base is split back into base and extension |
| FileUtils.TrailingDotHasNoExtension | sound_picker/src/main/java/de/alarmclock/soundpicker/FileUtils.java:14 | "song." has no extension and keeps its name |
| LutMainLight.IncrIndex | lib/AlarmClock/main/MainLight.hpp:74 | one index up within the table, the last wrapping to 0 |
| LutMainLight.PeriodMs | lib/AlarmClock/main/MainLight.hpp:57 | the timer period of a duration index, DURATION_LUT minutes in milliseconds |
| LutMainLight.DecrIndexAsWritten | lib/AlarmClock/main/MainLight.hpp:79 | the source's decrement, `p - 1` taken as uint8, stays within the table |
| LutMainLight.DecrIndex | lib/AlarmClock/main/MainLight.hpp:79 | one index down within the table, 0 wrapping to the last |
| LutMainLight.IndexStepsInverse | lib/AlarmClock/main/MainLight.hpp:74-89 | stepping up and down undo each other |
| LutMainLight.DecrIndexAsWrittenAgrees | lib/AlarmClock/main/MainLight.hpp:79 | the written decrement is right away from 0, and at 0 exactly when the table size divides 256 |
| LutMainLight.DecrDurationAtZeroAsWritten | lib/AlarmClock/main/MainLight.hpp:89 | decrDuration at index 0 goes to index 5 as written, where 9 is meant |
| LutMainLight.MainLight.constructor | lib/AlarmClock/main/MainLight.hpp:101-110 | duty OFF, duration MIN_30, a dormant one-shot timer of 30 minutes |
| LutMainLight.MainLight.Setup | lib/AlarmClock/main/MainLight.hpp:47-61 | the two listeners are attached; values, LEDC and timer are kept |
| LutMainLight.MainLight.DutyChanged | lib/AlarmClock/main/MainLight.hpp:49-54 | the LEDC gets LINEAR_DUTY_LUT[v]; the timer is reset when v > 0 and stopped otherwise |
| LutMainLight.MainLight.DurationChanged | lib/AlarmClock/main/MainLight.hpp:55-60 | the period becomes DURATION_LUT[v] minutes; the timer runs exactly when the duty is above 0 |
| LutMainLight.MainLight.AssignDuty | lib/AlarmClock/main/MainLight.hpp:67 | `duty = v` through set: the listener runs only on a change |
| LutMainLight.MainLight.AssignDuration | lib/AlarmClock/main/MainLight.hpp:69 | `duration = v` through set: the listener runs only on a change |
| LutMainLight.MainLight.SetDuty | lib/AlarmClock/main/MainLight.hpp:67 | the duty index becomes the value |
| LutMainLight.MainLight.SetDuration | lib/AlarmClock/main/MainLight.hpp:69 | the duration index becomes the value |
| LutMainLight.MainLight.IncrDuty | lib/AlarmClock/main/MainLight.hpp:74 | the duty steps up round 0..3; once set up, the LEDC shows its table value and the timer runs exactly when lit |
| LutMainLight.MainLight.DecrDuty | lib/AlarmClock/main/MainLight.hpp:79 | the duty steps down round 0..3, as above |
| LutMainLight.MainLight.IncrDuration | lib/AlarmClock/main/MainLight.hpp:84 | the duration steps up round 0..9; the period follows the table and the timer runs exactly when lit |
| LutMainLight.MainLight.DecrDuration | lib/AlarmClock/main/MainLight.hpp:89 | as written: the duration index becomes `(p - 1 + 10) % 10` with `p - 1` taken as uint8, which is one down from 1..9 and 5 from 0; once set up, the period follows the table and the timer runs exactly when lit |
| LutMainLight.MainLight.DecrDurationWrapping | lib/AlarmClock/main/MainLight.hpp:89 | as evidently intended: the duration steps down round 0..9 with 0 wrapping to 9, and incrDuration undoes it; the period follows the table |
| LutMainLight.MainLight.TimerExpired | lib/AlarmClock/main/MainLight.hpp:109 | the timer callback sets the duty to 0, which turns the LEDC off and stops the timer |
| MainLight.IncrDurationValue | lib/AlarmClock/src/MainLight.hpp:68-73 | the on-time grows, except from 226 up, where the uint8 sum wraps below 30 |
| MainLight.DecrDurationValue | lib/AlarmClock/src/MainLight.hpp:79-84 | the on-time shrinks, except below 5, where the uint8 difference wraps to 251 or more |
| MainLight.DurationSteps | lib/AlarmClock/src/MainLight.hpp:68-84 | +5 below 30, +10 below 90, +30 otherwise; -30 from 90, -10 from 30, -5 otherwise; decrDuration undoes incrDuration except at 25..29 and 80..89 (where the step sizes differ) and from 226 on |
| MainLight.MainLight.constructor | lib/AlarmClock/src/MainLight.hpp:14-27 | a 3-bit LEDC on a fresh channel, duty 0, the duration bean named "lightDuration", a dormant timer |
| MainLight.MainLight.Setup | lib/AlarmClock/src/MainLight.hpp:32-36 | the on-time is loaded, and a non-zero one becomes the timer period |
| MainLight.MainLight.ToggleOn | lib/AlarmClock/src/MainLight.hpp:42-45 | full duty; the timer is reset only when an on-time is set |
| MainLight.MainLight.ToggleOff | lib/AlarmClock/src/MainLight.hpp:50-53 | duty 0 and the timer stopped |
| MainLight.MainLight.SetDuration | lib/AlarmClock/src/MainLight.hpp:59-62 | the on-time is stored; only a non-zero one changes the period |
| MainLight.MainLight.IncrDuration | lib/AlarmClock/src/MainLight.hpp:68-73 | the on-time takes IncrDurationValue and is persisted; the timer is not touched |
| MainLight.MainLight.DecrDuration | lib/AlarmClock/src/MainLight.hpp:79-84 | the on-time takes DecrDurationValue and is persisted; the timer is not touched |
| MainLight.MainLight.SetDuty | lib/AlarmClock/src/MainLight.hpp:96-100 | the LEDC takes the duty modulo 8; the timer runs exactly when duty and on-time are both non-zero; the period is kept |
| MainLight.MainLight.IncrDuty | lib/AlarmClock/src/MainLight.hpp:105-109 | one step brighter, 7 wrapping to 0; the timer runs exactly when lit with an on-time set |
| MainLight.MainLight.DecrDuty | lib/AlarmClock/src/MainLight.hpp:114-118 | one step darker, 0 wrapping to 7; the timer runs exactly when lit with an on-time set |
| MainLight.MainLight.TimerExpired | lib/AlarmClock/src/MainLight.hpp:22 | the timer callback turns the light off and the one-shot timer is dormant |
| MainLight.MainLight.ToJson | lib/AlarmClock/src/MainLight.hpp:129-132 | the duty (at most 7) and the on-time |
| MainLight.MainLight.FromJson | lib/AlarmClock/src/MainLight.hpp:138-141 | setDuty, then setDuration: duty modulo 8, the on-time stored, and the timer running when either call started it |
| Matrix.SuccIndex | lib/MD_Parola_Matrix64x16/Matrix32x8.hpp:50 | `(i + 1) % n` is the successor, the last wrapping to 0 |
| Matrix.PredIndex | lib/MD_Parola_Matrix64x16/Matrix32x8.hpp:49 | `(i - 1 + n) % n` is the predecessor, 0 wrapping to the last |
| Matrix.RingNeighboursInverse | lib/MD_Parola_Matrix64x16/Matrix32x8.hpp:48-51 | in the ring, next and prev undo each other |
| Matrix.Advance | lib/MD_Parola_Matrix64x16/Matrix32x8.hpp:155-158 | following next k times from tab 0 stays on a tab |
| Matrix.AdvanceReaches | lib/MD_Parola_Matrix64x16/Matrix32x8.hpp:48-51 | following next k times from tab 0 reaches tab k mod n, so every tab is reachable |
| Matrix.ScrollEndsAfterThreeSteps | lib/MD_Parola_Matrix64x16/Matrix32x8.hpp:84-110 | a scroll in either direction is over after three completed animations, the second ending on SCROLL_FINISH |
| Matrix.NextAnimation | lib/MD_Parola_Matrix64x16/Matrix32x8.hpp:85-110 | the animation state after a completed animation (ScrollEndsAfterThreeSteps) |
| Matrix.IdleStaysIdle | lib/MD_Parola_Matrix64x16/Matrix32x8.hpp:86-87 | with no animation, loop changes nothing however often it runs |
| Matrix.Matrix32x8.constructor | lib/MD_Parola_Matrix64x16/Matrix32x8.hpp:44-53 | one tab per text supplier, linked in a ring, the current tab is tab 0 |
| Matrix.Matrix32x8.Setup | lib/MD_Parola_Matrix64x16/Matrix32x8.hpp:59-73 | setup succeeds exactly when the display starts, and then resets the text effects |
| Matrix.Matrix32x8.Loop | lib/MD_Parola_Matrix64x16/Matrix32x8.hpp:80-113 | nothing changes until the animation is done; then the animation takes its next state, and the current tab becomes the target when an ongoing scroll finishes |
| Matrix.Matrix32x8.ScrollNextTab | lib/MD_Parola_Matrix64x16/Matrix32x8.hpp:155-158 | the animation and lastAnimation become SCROLL_NEXT and the target is the current tab's next |
| Matrix.Matrix32x8.ScrollPrevTab | lib/MD_Parola_Matrix64x16/Matrix32x8.hpp:163-166 | the animation and lastAnimation become SCROLL_PREV and the target is the current tab's prev |
| Matrix.Matrix32x8.ScrollToStart | lib/MD_Parola_Matrix64x16/Matrix32x8.hpp:171-184 | nothing at tab 0; otherwise the target is tab 0, scrolling against the last direction |
| Matrix.ScrollNextLands | lib/MD_Parola_Matrix64x16/Matrix32x8.hpp:155-158 | scrollNext followed by three completed animations lands on the next tab, idle |
| Navigation.FirstTouched | lib/AlarmClock/src/navigation.h:61-66 | None exactly when no pad is touched; otherwise the first touched pad in the order Center, Left, Right, Up, Down |
| Navigation.Step | lib/AlarmClock/src/navigation.h:68-76 | one call of read: the direction returned and the new latch (LatchFollowsPads, EmitsOnlyOnTouchDown) |
| Navigation.LatchFollowsPads | lib/AlarmClock/src/navigation.h:68-74 | after each call the latch says whether some pad is touched |
| Navigation.EmitsOnlyOnTouchDown | lib/AlarmClock/src/navigation.h:68-76 | a direction is returned exactly when the latch was released and some pad is touched, and it is the first touched pad |
| Navigation.Run | lib/AlarmClock/src/navigation.h:57-77 | one output per call |
| Navigation.EmissionsCountTouchDowns | lib/AlarmClock/src/navigation.h:57-77 | over any trace, the directions returned number the released-to-touched transitions |
| Navigation.HeldPadsEmitNothing | lib/AlarmClock/src/navigation.h:68-76 | while some pad stays touched, every later call returns None |
| Navigation.Navigator.constructor | lib/AlarmClock/src/navigation.h:58 | the latch starts released |
| Navigation.Navigator.Read | lib/AlarmClock/src/navigation.h:57-77 | read returns the direction and moves the latch as Step says |
| SimpleLedc.AllInUseIsFull | lib/ESP32_SimpleLEDC/ESP32_SimpleLEDC.hpp:113 | a mask with all 16 channel bits set is 0xFFFF |
| SimpleLedc.AvailableIffSomeChannelFree | lib/ESP32_SimpleLEDC/ESP32_SimpleLEDC.hpp:113 | the mask is not full exactly when some channel is free |
| SimpleLedc.ClearUndoesSet | lib/ESP32_SimpleLEDC/ESP32_SimpleLEDC.hpp:34-86 | remove undoes getFreeChannel on the mask |
| SimpleLedc.ChannelPool.constructor | lib/ESP32_SimpleLEDC/ESP32_SimpleLEDC.hpp:117 | no channel in use |
| SimpleLedc.ChannelPool.GetFreeChannel | lib/ESP32_SimpleLEDC/ESP32_SimpleLEDC.hpp:30-40 | the lowest clear bit is returned and set, and no other bit changes; a full mask is refused |
| SimpleLedc.ChannelPool.Remove | lib/ESP32_SimpleLEDC/ESP32_SimpleLEDC.hpp:84-87 | the mask loses exactly the channel's bit |
| SimpleLedc.WrapDuty | lib/ESP32_SimpleLEDC/ESP32_SimpleLEDC.hpp:89 | the stored duty is at most maxDuty and equals the duty given when that is in range |
| SimpleLedc.DutyUp | lib/ESP32_SimpleLEDC/ESP32_SimpleLEDC.hpp:99 | ++ adds one, maxDuty wrapping to 0 |
| SimpleLedc.DutyDown | lib/ESP32_SimpleLEDC/ESP32_SimpleLEDC.hpp:101 | -- subtracts one, 0 wrapping to maxDuty |
| SimpleLedc.DutyUpDownInverse | lib/ESP32_SimpleLEDC/ESP32_SimpleLEDC.hpp:99-101 | ++ and -- undo each other |
| SimpleLedc.Ledc.constructor | lib/ESP32_SimpleLEDC/ESP32_SimpleLEDC.hpp:67-70 | the lowest free channel is taken, maxDuty is 2^resolution - 1 and the duty 0 |
| SimpleLedc.Ledc.Remove | lib/ESP32_SimpleLEDC/ESP32_SimpleLEDC.hpp:84-87 | this LEDC's channel bit is cleared |
| SimpleLedc.Ledc.SetDuty | lib/ESP32_SimpleLEDC/ESP32_SimpleLEDC.hpp:89 | the duty is stored modulo maxDuty + 1 |
| SimpleLedc.Ledc.GetDuty | lib/ESP32_SimpleLEDC/ESP32_SimpleLEDC.hpp:91 | the stored duty, never above maxDuty |
| SimpleLedc.Ledc.ToggleOff | lib/ESP32_SimpleLEDC/ESP32_SimpleLEDC.hpp:95 | duty 0 |
| SimpleLedc.Ledc.ToggleOn | lib/ESP32_SimpleLEDC/ESP32_SimpleLEDC.hpp:97 | duty maxDuty |
| SimpleLedc.Ledc.Increment | lib/ESP32_SimpleLEDC/ESP32_SimpleLEDC.hpp:99 | the duty takes DutyUp |
| SimpleLedc.Ledc.Decrement | lib/ESP32_SimpleLEDC/ESP32_SimpleLEDC.hpp:101 | the duty takes DutyDown |
| Sounds.NewSound | lib/AlarmClock/src/Sound.hpp:22 | id, name and allowRandom as given, not played |
| Sounds.ToJson | lib/AlarmClock/src/Sound.hpp:28-32 | id, name and allowRandom of a sound |
| Sounds.FromJson | lib/AlarmClock/src/Sound.hpp:34-36 | a sound with the JSON's id, name and allowRandom, not played (SoundsJsonRoundTrip) |
| Sounds.SoundsToJson | lib/AlarmClock/src/Sound.hpp:38-46 | one object per sound, in order |
| Sounds.SoundsFromJson | lib/AlarmClock/src/Sound.hpp:48-55 | one sound per object, in order |
| Sounds.SoundsJsonRoundTrip | lib/AlarmClock/src/Sound.hpp:38-55 | reading back what soundsToJson wrote keeps order, ids, names and allowRandom, with played cleared |
| Sounds.GetSoundById | lib/AlarmClock/src/Sound.hpp:78-86 | the index of the first sound with the id, or the end when there is none |
| Sounds.Pool | lib/AlarmClock/src/Sound.hpp:89-95 | the random pool holds exactly the catalogue's allowRandom and unplayed sounds |
| Sounds.ClearPlayed | lib/AlarmClock/src/Sound.hpp:97 | every played flag cleared, nothing else changed |
| Sounds.Refreshed | lib/AlarmClock/src/Sound.hpp:96-104 | the catalogue with its played flags cleared when the pool is empty (RefreshedPoolNonEmpty, RefreshedKeepsCatalogue) |
| Sounds.RefreshedPoolNonEmpty | lib/AlarmClock/src/Sound.hpp:96-104 | after the refresh the pool is empty only when no sound allows random picks |
| Sounds.MarkPlayedShrinksPool | lib/AlarmClock/src/Sound.hpp:116 | marking an eligible sound played shrinks the pool by one |
| Sounds.FindRandomSound | lib/AlarmClock/src/Sound.hpp:88-117 | the flags are refreshed when the pool is empty; the pick, if any, is an eligible sound, the only one whose played flag is set; ids and random flags are kept |
| Sounds.RefreshPlayed | lib/AlarmClock/src/Sound.hpp:89-104 | the catalogue is refreshed as Refreshed says and the entries are its non-empty pool |
| Sounds.RefreshedKeepsCatalogue | lib/AlarmClock/src/Sound.hpp:96-104 | the refresh keeps length, ids, names and random flags |
| Sounds.ClearAllPlayed | lib/AlarmClock/src/Sound.hpp:97 | the loop clears every played flag |
| Sounds.SelectAndMark | lib/AlarmClock/src/Sound.hpp:108-116 | the find with a fresh draw per sound: a found sound has the id of a pool entry and only it is marked played; nothing found changes nothing |
| TextUtils.DigitChar | lib/MD_Parola_Matrix64x16/text_utils.h:24 | the character of a digit |
| TextUtils.NatToDecimal | lib/MD_Parola_Matrix64x16/text_utils.h:20 | std::to_string of a natural number: digits only, no leading zero, spelling the number |
| TextUtils.IntToDecimal | lib/MD_Parola_Matrix64x16/text_utils.h:20 | std::to_string of an integer: a minus sign before the digits of a negative one |
| TextUtils.DecimalLength | lib/MD_Parola_Matrix64x16/text_utils.h:21-22 | the decimal text fits in k characters exactly when the number is below 10^k |
| TextUtils.Zeros | lib/MD_Parola_Matrix64x16/text_utils.h:21 | k zero characters |
| TextUtils.ZerosValue | lib/MD_Parola_Matrix64x16/text_utils.h:21 | a run of zeros spells 0 |
| TextUtils.LeadingZerosKeepValue | lib/MD_Parola_Matrix64x16/text_utils.h:21 | leading zeros do not change the value |
| TextUtils.PrefixValue | lib/MD_Parola_Matrix64x16/text_utils.h:22 | a prefix of a decimal text spells its leading digits |
| TextUtils.SubscriptChar | lib/MD_Parola_Matrix64x16/text_utils.h:24 | a digit becomes glyph 192 + digit, anything else is kept |
| TextUtils.Fitted | lib/MD_Parola_Matrix64x16/text_utils.h:21-22 | padded with leading zeros or cut, the text has exactly `digits` characters |
| TextUtils.Repaired | lib/MD_Parola_Matrix64x16/text_utils.h:23 | the repair of a last character that is not a digit keeps the length |
| TextUtils.Formatted | lib/MD_Parola_Matrix64x16/text_utils.h:19-26 | numToStr's result has exactly `digits` characters |
| TextUtils.SubscriptAll | lib/MD_Parola_Matrix64x16/text_utils.h:24 | every character replaced by its subscript glyph |
| TextUtils.NumToStr | lib/MD_Parola_Matrix64x16/text_utils.h:19-26 | the method computes Formatted |
| TextUtils.SubscriptDigits | lib/MD_Parola_Matrix64x16/text_utils.h:24 | the loop computes SubscriptAll |
| TextUtils.NumberThatFitsKeepsValue | lib/MD_Parola_Matrix64x16/text_utils.h:19-26 | a number below 10^digits comes out as exactly `digits` digits spelling the number |
| TextUtils.NumberTooWideKeepsLeadingDigits | lib/MD_Parola_Matrix64x16/text_utils.h:22 | a wider number keeps its leading `digits` digits, the number divided by the dropped power of ten |
| TextUtils.FormattedEndsInDigit | lib/MD_Parola_Matrix64x16/text_utils.h:23-24 | the result always ends in a digit, plain or subscript |
| TextUtils.SubscriptIsGlyphwise | lib/MD_Parola_Matrix64x16/text_utils.h:24 | the subscript form differs from the plain one glyph for glyph |
| TextUtils.NegativeCutToSign | lib/MD_Parola_Matrix64x16/text_utils.h:22-23 | -5 in one digit is cut to "-" and repaired to "0" |
| TextUtils.CBell | lib/MD_Parola_Matrix64x16/text_utils.h:37 | the filled bell exactly when asked for, else the outlined one |
| TextUtils.Bell.ToChar | lib/MD_Parola_Matrix64x16/text_utils.h:47 | the bell's glyph is c_bell of its flag |
| UserInterface.UIDisplay.constructor | lib/UserInterface/UIDisplay.hpp:40-44 | no frames, cursor 0, frame 0 |
| UserInterface.UIDisplay.SetFrames | lib/UserInterface/UIDisplay.hpp:52-56 | one handle per frame, in argument order |
| UserInterface.UIDisplay.CurrentHandle | lib/UserInterface/UIDisplay.hpp:72-75 | a handle is called only while the frame is FIXED, and it is the current frame's |
| UserInterface.UIDisplay.Loop | lib/UserInterface/UIDisplay.hpp:71-75 | the current frame's handle is called exactly once when FIXED, and none otherwise |
| UserInterface.UIDisplay.Update | lib/UserInterface/UIDisplay.hpp:76-77 | the frame state is the library's, and loop returns whether it is FIXED |
| UserInterface.UIDisplay.TransitionToFrame | lib/UserInterface/UIDisplay.hpp:107-110 | the frame changes and the cursor is always reset to 0 |
| UserInterface.UIDisplay.SetCursor | lib/UserInterface/UIDisplay.hpp:116 | the cursor takes the value |
| UserInterface.UIDisplay.GetCursor | lib/UserInterface/UIDisplay.hpp:122 | getCursor returns the last value set |
| UiHandles.MenuNext | lib/AlarmClock/src/ui_handles.h:219 | `(cursor + 1) % n` stays on an entry |
| UiHandles.MenuPrev | lib/AlarmClock/src/ui_handles.h:216 | `(cursor + n - 1) % n` stays on an entry |
| UiHandles.MenuNextValue | lib/AlarmClock/src/ui_handles.h:219 | the next entry, the last wrapping to 0 |
| UiHandles.MenuPrevValue | lib/AlarmClock/src/ui_handles.h:216 | the previous entry, 0 wrapping to the last |
| UiHandles.MenuNextPrevInverse | lib/AlarmClock/src/ui_handles.h:215-219 | Up and Down on a menu undo each other |
| UiHandles.SnoozeTimeSteps | lib/AlarmClock/src/ui_handles.h:96-111 | Up and Down keep a snooze time of 2..45 in range (Up past 45 wraps to 2, Down at 2 to 45); Down undoes Up on the ladder except at its top |
| UiHandles.SnoozeUp | lib/AlarmClock/src/ui_handles.h:96-103 | Up on the snooze frame (SnoozeTimeSteps) |
| UiHandles.SnoozeDown | lib/AlarmClock/src/ui_handles.h:104-111 | Down on the snooze frame (SnoozeTimeSteps) |
| UiHandles.HourTensUp | lib/AlarmClock/src/ui_handles.h:305 | Up on the hour tens digit (HourTensSteps) |
| UiHandles.HourTensDown | lib/AlarmClock/src/ui_handles.h:326 | Down on the hour tens digit (HourTensSteps) |
| UiHandles.HourOnesUp | lib/AlarmClock/src/ui_handles.h:308 | Up on the hour ones digit (HourOnesUpSteps) |
| UiHandles.HourOnesDownAsWritten | lib/AlarmClock/src/ui_handles.h:329 | Down on the hour ones digit as written, with C's remainder (HourOnesDownSteps) |
| UiHandles.HourOnesDown | lib/AlarmClock/src/ui_handles.h:329 | Down on the hour ones digit with the digit wrapping 0 to 9 (HourOnesDownSteps) |
| UiHandles.MinuteTensUp | lib/AlarmClock/src/ui_handles.h:311 | Up on the minute tens digit (MinuteTensSteps) |
| UiHandles.MinuteTensDown | lib/AlarmClock/src/ui_handles.h:332 | Down on the minute tens digit (MinuteTensSteps) |
| UiHandles.MinuteOnesUp | lib/AlarmClock/src/ui_handles.h:314 | Up on the minute ones digit (MinuteOnesUpSteps) |
| UiHandles.MinuteOnesDownAsWritten | lib/AlarmClock/src/ui_handles.h:335 | Down on the minute ones digit as written, with C's remainder (MinuteOnesDownSteps) |
| UiHandles.MinuteOnesDown | lib/AlarmClock/src/ui_handles.h:335 | Down on the minute ones digit with the digit wrapping 0 to 9 (MinuteOnesDownSteps) |
| UiHandles.OnesDigitDownAsWrittenLeavesRange | lib/AlarmClock/src/ui_handles.h:329-335 | as written, Down on hour 0 or minute 0 gives 255 |
| UiHandles.OnesDigitDownAgreesAwayFromZero | lib/AlarmClock/src/ui_handles.h:329-335 | away from a ones digit of 0 the written Down is the wrapping one |
| UiHandles.PrevDigitOfPredecessor | lib/AlarmClock/src/ui_handles.h:329 | for x ≥ 1 the ones digit of x - 1 is the previous digit of x's |
| UiHandles.OnesUpValue | lib/AlarmClock/src/ui_handles.h:314 | `x - x % 10 + (x + 1) % 10` steps the ones digit round 0..9 and keeps the rest |
| UiHandles.OnesDownValue | lib/AlarmClock/src/ui_handles.h:335 | the wrapping Down steps the ones digit back round 0..9 and keeps the rest |
| UiHandles.HourOnesUpSteps | lib/AlarmClock/src/ui_handles.h:308 | Up on the hour ones digit keeps an hour 0..23 in range and its tens digit; the wrapping Down undoes it, and so does the written Down except from hour 09, where Up gives 00 and the written Down then 255 |
| UiHandles.HourOnesDownSteps | lib/AlarmClock/src/ui_handles.h:329 | the wrapping Down on the hour ones digit keeps an hour in range and its tens digit, and Up undoes it; the written Down agrees except at hour 00, where it gives 255 and Up turns 255 back into 0 |
| UiHandles.HourTensSteps | lib/AlarmClock/src/ui_handles.h:305-326 | the hour tens buttons keep an hour in range; Down undoes Up unless Up clamped to 23 |
| UiHandles.MinuteTensSteps | lib/AlarmClock/src/ui_handles.h:311-332 | the minute tens buttons keep a minute in range and its ones digit, and undo each other |
| UiHandles.MinuteOnesUpSteps | lib/AlarmClock/src/ui_handles.h:314 | Up on the minute ones digit keeps a minute in range and its tens digit; the wrapping Down undoes it, and so does the written Down except from minute 09, where Up gives 00 and the written Down then 255 |
| UiHandles.MinuteOnesDownSteps | lib/AlarmClock/src/ui_handles.h:335 | the wrapping Down on the minute ones digit keeps a minute in range and its tens digit, and Up undoes it; the written Down agrees except at minute 00, where it gives 255 and Up turns that into 59 |
| UiHandles.DayMaskValue | lib/AlarmClock/src/ui_handles.h:317 | each weekday's mask is one bit, distinct for distinct days |
| UiHandles.SetRepeatDay | lib/AlarmClock/src/ui_handles.h:317 | Up on a day: its bit set (RepeatDaySteps) |
| UiHandles.ClearRepeatDay | lib/AlarmClock/src/ui_handles.h:338 | Down on a day: its bit cleared (RepeatDaySteps) |
| UiHandles.SingleBitMasks | lib/AlarmClock/src/ui_handles.h:317-338 | setting or clearing one bit touches no other |
| UiHandles.RepeatDaySteps | lib/AlarmClock/src/ui_handles.h:317-338 | setting (Up) or clearing (Down) a day changes whether the alarm repeats on that day and on no other |
| UiHandles.GetInput | lib/AlarmClock/src/ui_handles.h:11-18 | the pads are read once and the direction returned unchanged; a direction resets the UI timer only while no alarm is PLAYING |
| UiHandles.MenuCursorSteps | lib/AlarmClock/src/ui_handles.h:215-219 | in the settings (6 entries), alarm and player menus (4 entries) Up and Down keep the cursor on an entry and undo each other |
| UiHandles.BackReturnsToSettingsEntry | lib/AlarmClock/src/ui_handles.h:187-207 | each settings entry opens its frame, and Left from that frame returns to the settings with the cursor on that entry |
| UiHandles.BackReturnsToMenuEntry | lib/AlarmClock/src/ui_handles.h:359-361 | Left from the player sub-frames returns to their menu entries, and from the alarm sound frame to "set sound" once corrected; as written it lands on "set in 8h" |
| UiHandles.AlarmTimeCursorSteps | lib/AlarmClock/src/ui_handles.h:291-301 | the time frame's cursor stays on 0..10, Left at 0 and Right at 10 leave the frame, and Left undoes Right |
| UiHandles.TimeEditKeepsTimeValid | lib/AlarmClock/src/ui_handles.h:302-343 | as written, an edit keeps a valid time valid exactly when it is not Down on the ones digit of hour 00 or minute 00, which leaves 255 in that field; every edit keeps the sound and switches the alarm on, and a digit edit keeps the repeat days |
| UiHandles.TimeEdit | lib/AlarmClock/src/ui_handles.h:302-343 | the time frame's Up/Down edit as written (TimeEditKeepsTimeValid, TimeEditUndo, TimeEditRepeatDay) |
| UiHandles.TimeEditAgreesWithWrapping | lib/AlarmClock/src/ui_handles.h:329-335 | the written edit differs from the wrapping one exactly on Down from hour 00 or minute 00, where it puts 255 and the wrapping one 9 |
| UiHandles.TimeEditWrappingKeepsTimeValid | lib/AlarmClock/src/ui_handles.h:302-343 | as evidently intended, every edit keeps a valid time valid, keeps the sound and switches the alarm on |
| UiHandles.TimeEditUndo | lib/AlarmClock/src/ui_handles.h:302-343 | as written, Down undoes Up on the ones digits except from hour 09 and minute 09 (which end at 255), and on the minute tens; Up undoes Down except from minute 00 (which ends at 59); on the hour tens Down undoes Up unless Up clamped to 23 |
| UiHandles.HourOnesUndo | lib/AlarmClock/src/ui_handles.h:308-329 | on the hour ones digit, Down after Up gives back the hour except 09 (255), and Up after Down always does |
| UiHandles.MinuteOnesUndo | lib/AlarmClock/src/ui_handles.h:314-335 | on the minute ones digit, Down after Up gives back the minute except 09 (255), and Up after Down except 00 (59) |
| UiHandles.TimeEditWrappingUndo | lib/AlarmClock/src/ui_handles.h:302-343 | as evidently intended, Down and Up undo each other on the hour ones and both minute digits, and on the hour tens unless Up clamped |
| UiHandles.TimeEditRepeatDay | lib/AlarmClock/src/ui_handles.h:317-338 | on cursor 4..10 Up makes the alarm repeat on weekday cursor-4 and Down stops it; other days and the time are kept |
| UiHandles.DefuseDigit | lib/AlarmClock/src/ui_handles.h:143-158 | Left, Right, Up, Down enter 0, 1, 2, 3 |
| UiHandles.DefuseDigitsOnePadEach | lib/AlarmClock/src/ui_handles.h:143-158 | every digit 0..3 is entered by exactly one pad |
| UiHandles.DefuseWrite | lib/AlarmClock/src/ui_handles.h:138-158 | with the handle returning after a full code, a digit pad writes at the cursor only below the last digit |
| UiHandles.DefuseWriteOverrunsAsWritten | lib/AlarmClock/src/ui_handles.h:122-158 | as written, a digit pad pressed on the pass that accepts the code writes index 6 of the six-digit buffer; elsewhere the two agree |
| UiHandles.DefuseWriteAsWritten | lib/AlarmClock/src/ui_handles.h:122-158 | the code index written as the source runs: after an accepted code a digit pad writes at cursor 6 (DefuseWriteOverrunsAsWritten) |
| UiHandles.CodeMatches | lib/AlarmClock/src/ui_handles.h:124-131 | the loop answers whether the six digits entered equal the defuse code |
| UiHandles.DenseLookup | lib/AlarmClock/src/ui_handles.h:478 | with ids 1, 2, ... in order, id k is found at index k-1 |
| UiHandles.FlipAllowRandom | lib/AlarmClock/src/ui_handles.h:479 | only the chosen sound's allowRandom flips; everything else is kept |
| UiHandles.FlipAllowRandomTwice | lib/AlarmClock/src/ui_handles.h:479 | flipping twice restores the catalogue |
| UiHandles.FlipKeepsIds | lib/AlarmClock/src/ui_handles.h:479 | flipping keeps ids and dense ids |
| UiHandles.ToggleCopyLosesEditAsWritten | lib/AlarmClock/src/ui_handles.h:478-479 | as written the flag is flipped on a copy, and the catalogue is left differing from the edited one |
| UiHandles.ToggleCopyAsWritten | lib/AlarmClock/src/ui_handles.h:478-479 | the catalogue unchanged and the flipped copy (ToggleCopyLosesEditAsWritten) |
| UiHandles.In8hUnarmedAsWritten | lib/AlarmClock/src/ui_handles.h:235-237 | as written, "set in 8h" changes the alarm's next time to now + 8 h but leaves its RTC slot, here disarmed, as it was |
| UiHandles.AlarmMenuArmsAsWritten | lib/AlarmClock/src/ui_handles.h:231-253 | only Right on "enable/disable" calls setAlarm (In8hUnarmedAsWritten) |
| UiHandles.AlarmSoundMoveAsWritten | lib/AlarmClock/src/ui_handles.h:359-365 | Left returns to alarm menu entry 2, Right goes home (BackReturnsToMenuEntry) |
| UiHandles.DefusedMove | lib/AlarmClock/src/ui_handles.h:133-158 | the move of the pass that accepts a full code: home, then the switch with the cursor still 6 |
| UiHandles.DefusedMoveIsHomeThenDefuseMove | lib/AlarmClock/src/ui_handles.h:133-158 | that move is the move home followed by the defuse frame's move at cursor 6, and never stays on the defuse frame |
| UiHandles.UiHome | lib/AlarmClock/src/ui_handles.h:21-58 | Center opens the defuse frame while an alarm rings, the snooze frame while one is snoozed, else the overview, and only then is the UI active; Left/Right scroll the matrix and start its timer; Up/Down step the main light |
| UiHandles.HomeReact | lib/AlarmClock/src/ui_handles.h:30-57 | uiHome's switch on the pressed pad, as above |
| UiHandles.HomeOpen | lib/AlarmClock/src/ui_handles.h:31-40 | the Center branch of uiHome |
| UiHandles.UiAlarm | lib/AlarmClock/src/ui_handles.h:61-77 | Center, Left and Right open the defuse frame; Up/Down step the main light |
| UiHandles.UiAlarmSnooze | lib/AlarmClock/src/ui_handles.h:80-115 | with no alarm snoozed, Center/Right snooze the ringing alarms and go home, and Up/Down step the snooze time; with one snoozed, Center/Right open the defuse frame and Up/Down do nothing; Left goes to the alarm frame while one rings, else home |
| UiHandles.SnoozeReact | lib/AlarmClock/src/ui_handles.h:83-114 | uiAlarmSnooze's switch on the pressed pad, as above |
| UiHandles.SnoozeConfirm | lib/AlarmClock/src/ui_handles.h:84-91 | the Center/Right branch of uiAlarmSnooze |
| UiHandles.UiAlarmDefuse | lib/AlarmClock/src/ui_handles.h:118-162 | at cursor 6 a mismatch sets snooze time 5, opens the snooze frame and reads no pad; a match stops the player and the alarms, goes home, and then reads the pads with the cursor still 6 (DefusedMove); below 6 a digit pad stores its digit at the cursor and advances it, Center leaves; a digit is written only below index 6 |
| UiHandles.DefusedThenInput | lib/AlarmClock/src/ui_handles.h:133-158 | as written, after a matching code: "stop" twice, alarms stopped, then the pads are read and the switch runs with cursor 6, writing no digit |
| UiHandles.UiAlarmDefuseReturning | lib/AlarmClock/src/ui_handles.h:118-162 | as evidently intended: the pass that checks a full code returns whatever the outcome, so a match goes home without reading the pads and no digit is written past the code |
| UiHandles.DefuseCheck | lib/AlarmClock/src/ui_handles.h:122-137 | the check of a complete code: a mismatch sets snooze time 5 and opens the snooze frame; a match stops the player (twice), the indicator and the alarms and goes home |
| UiHandles.Defused | lib/AlarmClock/src/ui_handles.h:133-136 | a matching code: "stop" twice, indicator off, alarms stopped as StopAlarms says, home |
| UiHandles.DefuseReact | lib/AlarmClock/src/ui_handles.h:138-161 | the pad switch with the cursor and "playing" read on entry: Center leaves for the alarm frame or home, a digit pad writes its digit when the cursor is below 6 and steps the cursor |
| UiHandles.UiOverview | lib/AlarmClock/src/ui_handles.h:165-179 | Center/Right open the settings, Left goes home |
| UiHandles.UiSettings | lib/AlarmClock/src/ui_handles.h:182-224 | Center/Right open the entry under the cursor, entries 0 and 1 also selecting alarm 1 or 2; Left goes back; Up/Down move round six entries |
| UiHandles.SettingsReact | lib/AlarmClock/src/ui_handles.h:184-223 | uiSettings's switch on the pressed pad, as above |
| UiHandles.SettingsOpen | lib/AlarmClock/src/ui_handles.h:187-210 | the entry under the cursor opens its frame and selects its alarm |
| UiHandles.EditAlarm | lib/AlarmClock/src/ui_handles.h:232-251 | an alarm menu edit of the selected alarm, then setAlarm exactly when asked; the RTC is untouched otherwise |
| UiHandles.EditAndArm | lib/AlarmClock/src/ui_handles.h:232-251 | as evidently intended: an alarm menu edit, then setAlarm whenever there was an edit; no edit leaves the RTC alone |
| UiHandles.UiAlarmMenu | lib/AlarmClock/src/ui_handles.h:227-274 | entry 0 opens the time frame and entry 3 the sound frame; entry 1 flips the toggle and entry 2 sets the alarm 8 h from now (Center stays, Right goes home); only Right on entry 1 then calls setAlarm, every other edit leaves the RTC as it was; Left returns to its settings entry; Up/Down move round four entries; the other alarm is untouched |
| UiHandles.AlarmMenuReact | lib/AlarmClock/src/ui_handles.h:230-273 | uiAlarmMenu's switch on the pressed pad, as above, with setAlarm only for Right on entry 1 |
| UiHandles.AlarmMenuReactArming | lib/AlarmClock/src/ui_handles.h:230-273 | as evidently intended: the same switch with every edit followed by setAlarm |
| UiHandles.AlarmMenuNavigate | lib/AlarmClock/src/ui_handles.h:240-270 | the menu moves of uiAlarmMenu |
| UiHandles.AlarmSoundMove | lib/AlarmClock/src/ui_handles.h:359-365 | as evidently intended, Left returns to alarm menu entry 3, "set sound" (BackReturnsToMenuEntry) |
| UiHandles.EditTime | lib/AlarmClock/src/ui_handles.h:302-341 | the digit or day under the cursor steps as the source writes it (Down on a ones digit of 0 gives 255), and the alarm is switched on |
| UiHandles.EditTimeAndArm | lib/AlarmClock/src/ui_handles.h:302-342 | the time edit as written, followed by setAlarm with the 0..6 scan |
| UiHandles.UiAlarmTime | lib/AlarmClock/src/ui_handles.h:277-347 | Left/Right walk the cursor over four digits and seven days (leaving before the first and after the last), Center goes home, Up/Down make the written edit of the item under the cursor and re-arm the selected alarm with the 0..6 scan; the other alarm is untouched |
| UiHandles.AlarmTimeReact | lib/AlarmClock/src/ui_handles.h:290-346 | uiAlarmTime's switch on the pressed pad, as above |
| UiHandles.UiAlarmSound | lib/AlarmClock/src/ui_handles.h:350-375 | Center plays the alarm's sound (a random draw for 0), Up/Down step the sound round 0..numSounds-1, Left returns to the alarm menu with the cursor on entry 2 ("set in 8h"), Right goes home |
| UiHandles.AlarmSoundReact | lib/AlarmClock/src/ui_handles.h:354-374 | uiAlarmSound's switch on the pressed pad, as above |
| UiHandles.StepSound | lib/AlarmClock/src/ui_handles.h:366-371 | only the sound changes, one step round the catalogue size |
| UiHandles.PlayChoice | lib/AlarmClock/src/ui_handles.h:355-357 | the sound Center plays: the selected one, or the random draw for 0 |
| UiHandles.UiPlayerMenu | lib/AlarmClock/src/ui_handles.h:378-419 | Center/Right open the volume, play or sounds frame, or stop the player on entry 2 (Right then goes home, Center stays); Left returns to the settings' player entry; Up/Down move round four entries |
| UiHandles.PlayerMenuReact | lib/AlarmClock/src/ui_handles.h:380-418 | uiPlayerMenu's switch on the pressed pad, as above |
| UiHandles.PlayerMenuOpen | lib/AlarmClock/src/ui_handles.h:387-405 | the inner switch on the cursor |
| UiHandles.PlayerMenuCommands | lib/AlarmClock/src/ui_handles.h:381-398 | "stop" for Center or Right on entry 2, else nothing |
| UiHandles.VolumeCommands | lib/AlarmClock/src/ui_handles.h:431-436 | volume up for Up, down for Down, else nothing |
| UiHandles.UiPlayerVolume | lib/AlarmClock/src/ui_handles.h:422-440 | Up/Down send volume up/down, Center/Right go home, Left returns to the player menu |
| UiHandles.VolumeReact | lib/AlarmClock/src/ui_handles.h:423-439 | uiPlayerVolume's switch on the pressed pad, as above |
| UiHandles.UiPlayerPlay | lib/AlarmClock/src/ui_handles.h:443-467 | Center plays the sound under the cursor (a random draw for 0) and, like Left, returns to the menu's play entry; Right goes home; Up/Down move round the catalogue |
| UiHandles.PlayerPlayReact | lib/AlarmClock/src/ui_handles.h:446-466 | uiPlayerPlay's switch on the pressed pad, as above |
| UiHandles.PlaySelected | lib/AlarmClock/src/ui_handles.h:447-453 | the Center branch of uiPlayerPlay |
| UiHandles.FlipSound | lib/AlarmClock/src/ui_handles.h:478-479 | the allowRandom flag of the sound with the id flips in the catalogue itself |
| UiHandles.UiPlayerSounds | lib/AlarmClock/src/ui_handles.h:470-495 | Center and Right flip allowRandom on a copy of sound cursor+1, so the catalogue is left unchanged; Right also goes home; Left returns to the menu's sounds entry; Up/Down move round numSounds-1 entries |
| UiHandles.PlayerSoundsReact | lib/AlarmClock/src/ui_handles.h:473-494 | uiPlayerSounds's switch on the pressed pad, as above |
| UiHandles.PlayerSoundsFlip | lib/AlarmClock/src/ui_handles.h:474-480 | the Center/Right branch as written: the returned copy of sound cursor+1 has allowRandom flipped and the catalogue is unchanged (ToggleCopyAsWritten) |
| UiHandles.PlayerSoundsFlipStored | lib/AlarmClock/src/ui_handles.h:474-480 | as evidently intended: the flip is stored in the catalogue, which becomes FlipAllowRandom at the sound's index |
| UiHandles.UiLightDuration | lib/AlarmClock/src/ui_handles.h:498-517 | Up/Down step and persist the main light's on-time, Center/Right go home, Left returns to the settings' light entry |
| UiHandles.LightDurationReact | lib/AlarmClock/src/ui_handles.h:499-516 | uiLightDuration's switch on the pressed pad, as above |
| UiHandles.UiWiFiMenu | lib/AlarmClock/src/ui_handles.h:520-535 | Center/Right open smart config, Left returns to the settings' Wi-Fi entry |
| UiHandles.UiSmartConfig | lib/AlarmClock/src/ui_handles.h:538-572 | Center sets cursor 1 (running); while it runs Left/Right do nothing, otherwise they go to the Wi-Fi menu or home |
| UiHandles.UiInfo | lib/AlarmClock/src/ui_handles.h:575-590 | Center/Right go home, Left returns to the settings' info entry |
| UiHandles.PlayerSoundsMoveLands | lib/AlarmClock/src/ui_handles.h:486-491 | on the sounds frame the cursor stays below numSounds - 1 |
| UiHandles.UiLoop | lib/UserInterface/UIDisplay.hpp:71-78 | the frame's handle runs exactly once while FIXED; the handles keep the cursor within the bounds they rely on and the catalogue's ids dense |
| UiHandles.Dispatch | lib/UserInterface/UIDisplay.hpp:73-74 | the handle of the frame shown is called; the bounds and ids are kept |
| UiHandles.DispatchIdle | lib/AlarmClock/src/ui_handles.h:21-77 | the home and alarm handles keep the bounds and ids |
| UiHandles.DispatchSnooze | lib/AlarmClock/src/ui_handles.h:80-115 | the snooze handle keeps the bounds and ids |
| UiHandles.DispatchDefuse | lib/AlarmClock/src/ui_handles.h:118-162 | the defuse handle keeps the cursor at most 6 |
| UiHandles.DispatchOverview | lib/AlarmClock/src/ui_handles.h:165-179 | the overview handle keeps the bounds and ids |
| UiHandles.DispatchSettings | lib/AlarmClock/src/ui_handles.h:182-224 | the settings handle keeps the bounds and ids |
| UiHandles.DispatchAlarmMenu | lib/AlarmClock/src/ui_handles.h:227-274 | the alarm menu handle keeps the bounds and ids |
| UiHandles.DispatchAlarmTime | lib/AlarmClock/src/ui_handles.h:277-347 | the alarm time handle keeps the cursor at most 10 |
| UiHandles.DispatchAlarmSound | lib/AlarmClock/src/ui_handles.h:350-375 | the alarm sound handle keeps the bounds and ids |
| UiHandles.DispatchPlayerMenu | lib/AlarmClock/src/ui_handles.h:378-419 | the player menu handle keeps the bounds and ids |
| UiHandles.DispatchVolume | lib/AlarmClock/src/ui_handles.h:422-440 | the volume handle keeps the bounds and ids |
| UiHandles.DispatchPlay | lib/AlarmClock/src/ui_handles.h:443-467 | the play handle keeps the bounds and ids |
| UiHandles.DispatchCatalogue | lib/AlarmClock/src/ui_handles.h:470-495 | the sounds handle keeps its cursor on a catalogue sound and the ids dense |
| UiHandles.DispatchLight | lib/AlarmClock/src/ui_handles.h:498-517 | the light duration and info handles keep the bounds and ids |
| UiHandles.DispatchWiFi | lib/AlarmClock/src/ui_handles.h:520-572 | the Wi-Fi menu and smart config handles keep the bounds and ids |

## Left out

- JSON documents, SPIFFS files and the Preferences library are not modelled as bytes. The JSON functions copy fields, and the Preferences namespace is a map.
- `loadSounds`, `saveSounds` and `setupAlarm` are file and storage plumbing around the modelled functions. They are not modelled.
- The RTC chip, the MP3 player, the LEDC hardware writes and FreeRTOS timers are abstract state. Player commands are recorded but not executed. Timer callbacks are separate methods, and nothing models when they fire.
- The matrix timer started by uiHome calls `Matrix.Matrix32x8.ScrollToStart`. The model does not fire it.
- The `alarmTurnOffTimer` callback, which lives outside the modelled files, is not modelled.
- Random numbers are a parameter (`draw`) or a nondeterministic choice. Nothing says which value the generator picks.
- `findRandomSound` in the source has no return statement. The model returns the index it selected.
- uiSmartConfig's background task (Wi-Fi smart config, delays, the cursor updates from the task) runs concurrently. Only the Center press that shows "running" is modelled.
- The OLED drawing, the frame animation and MD_Parola's text effects are not modelled. Whether the frame is FIXED and whether an animation is done are inputs.
- The touch pads' capacitive thresholds are not modelled. The pads are booleans.
- `numToStr` takes the decimal text of the number as input, as `std::to_string` produces it. Types other than integers are not modelled.
- In `AveragedValue`, `T` is `float` in the firmware and `real` in the model: the sum and the division are exact, and float rounding is not modelled.
- `Bean<T>` is generic over the stored type. The uint8, bool and String beans differ only in their Preferences calls, which the map replaces.
- The earlier firmware variants' structs (the `AC` struct of `lib/ACr2v6`) are not part of this model. Only their Property class is.
- UiHandles.UiLoop, UiHandles.Dispatch and the UiHandles.Dispatch* methods ask for at least two sounds, dense ids 1..n, and a cursor within the bounds the handles index by. The source does not check these. Without them, the source divides by zero or dereferences the end iterator.
- UiHandles.UiAlarmSound, UiHandles.UiPlayerPlay and UiHandles.UiPlayerSounds ask for one or two sounds on Up/Down. The source divides by zero otherwise.
- UiHandles.UiAlarmMenu, UiHandles.AlarmMenuReact, UiHandles.EditAlarm and UiHandles.EditAndArm do not spell out the armed time. They state `Rearmed`: setAlarm ran on the edited settings. `Alarms.In8hFromNowGoesOffIn8h` gives that time for "set in 8h".
- The model's getAlarmTime, setAlarm, alarmToJson, stopAlarms and the handlers that re-arm an alarm follow the source's 0..6 scan (`AlarmTimeAsWritten`). The extended scan `NextAlarmTime` is the corrected definition; only lemmas use it.
- AlarmHandler.RingIfFired sends no command for a fired alarm with sound 0 when the random pick finds nothing. In the source the assertion at lib/AlarmClock/src/Sound.hpp:115 aborts then, or, with assertions off, the end iterator is dereferenced. It also requires a random-allowed sound in the catalogue for such an alarm: with none, `uniform_int_distribution(0, -1)` at Sound.hpp:107 is undefined behaviour.
- AlarmHandler.RingAlarms: the same two gaps as RingIfFired, for either alarm.
- AlarmHandler.HandleAlarms: the same two gaps as RingIfFired, for either alarm once the trigger flag is up.
- AlarmHandler.RaiseAlarms: the same two gaps as RingIfFired, for either alarm.
- The snoozed state is named `SNOOZED` in alarm_handler.h and ui_handles.h, while the enum at lib/AlarmClock/src/alarm.h:37 declares `SNOOZE`. The model has one state, `Snooze`, for both.
- UiHandles.UiAlarmDefuse does not model the write of `code[6]`, one past the six-digit buffer, which a digit pad causes on the pass that accepts the code. The model writes nothing there and states that no digit is written at index 6; `UiHandles.DefuseWriteAsWritten` records where the source writes.
- UiHandles.DefuseReact: the same `code[6]` write at cursor 6 is not modelled; the cursor still steps to 7.
- UiHandles.DefusedThenInput: the same `code[6]` write is not modelled; it states that the code buffer is unchanged.

## Findings

| source | as written | input that shows it | evidently intended | confidence | as-written member | corrected member |
|---|---|---|---|---|---|---|
| lib/AlarmClock/src/alarm.h:106-114 | The repeat scan tries day offsets 0..6 only. An alarm whose only weekday is today, with its time already past, gets no time, so setAlarm disables its slot. | Repeat Monday only at 07:00, asked on a Monday at 08:00: the result is NIL. Stopping such an alarm then disarms it (AlarmHandler.StopDisarmsOneDayAlarm). | The next Monday at 07:00 (offset 7). | not executed; high | Alarms.WeeklyAlarmLostAsWritten | Alarms.NextAlarmTimeIsNextOccurrence |
| lib/AlarmClock/main/MainLight.hpp:89 | `duration - 1` is uint8, so index 0 gives 255, and (255 + 10) % 10 is 5. | decrDuration at MIN_5 (index 0) goes to index 5 (MIN_60). | Wrap to index 9 (MIN_240), like decrDuty does because 4 divides 256. | not executed; high | LutMainLight.DecrDurationAtZeroAsWritten | LutMainLight.MainLight.DecrDurationWrapping |
| lib/AlarmClock/src/ui_handles.h:329 | `(h - 1) % 10` is C's remainder. For hour 0 it is -1, and `min(23, -1)` stored as uint8 makes the hour 255. Hours 10 and 20 are fine: `h - 1` is 9 or 19, so the digit becomes 9 as meant. | Hour 00 (and likewise minute 00 at line 335), Down on the ones digit: 255. | The ones digit wraps 0 to 9, as Up wraps 9 to 0. | not executed; high | UiHandles.TimeEditAgreesWithWrapping | UiHandles.TimeEditWrappingKeepsTimeValid |
| lib/AlarmClock/src/ui_handles.h:478-479 | `auto sound = *getSoundById(...)` copies the sound, so flipping allowRandom changes only the copy. | Any sound on the sounds frame with Center: the catalogue stays as it was. | The catalogue's sound is flipped. | not executed; high | UiHandles.ToggleCopyLosesEditAsWritten | UiHandles.PlayerSoundsFlipStored |
| lib/AlarmClock/src/ui_handles.h:122-158 | A matching code stops the alarms but does not return, so the switch reads the pads with the cursor still 6. | Cursor 6, matching code, Left pressed in the same pass: `code[6]` is written, past the six-digit array. Center in that pass goes to the alarm frame although the alarms were just stopped. | Return after the match, as after a mismatch. | not executed; medium | UiHandles.DefuseWriteOverrunsAsWritten | UiHandles.UiAlarmDefuseReturning |
| lib/AlarmClock/src/ui_handles.h:232-237 | Center on "enable/disable" or "set in 8h" edits the alarm without calling setAlarm. Right on "set in 8h" (line 251) does the same. | A disarmed alarm, Center on "set in 8h": its next time is now + 8 h, but the RTC slot stays disarmed. | setAlarm after every edit, as Right on "enable/disable" (line 247) and the time frame do. | not executed; medium | UiHandles.In8hUnarmedAsWritten | UiHandles.AlarmMenuReactArming |
| lib/AlarmClock/src/ui_handles.h:361 | Left on the alarm sound frame returns to the alarm menu at entry 2, "set in 8h". | Alarm sound frame, Left, then Center: the alarm is rescheduled 8 h from now. | Entry 3, "set sound", which opened the frame, as every other sub-frame returns to its entry. | not executed; medium | UiHandles.UiAlarmSound | UiHandles.BackReturnsToMenuEntry |
