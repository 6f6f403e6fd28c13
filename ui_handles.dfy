/** The input handles of the OLED menu frames
    (lib/AlarmClock/src/ui_handles.h). Each handle is called once per
    main-loop pass while its frame is shown: it reads the touch pads once
    (`getInput`) and acts on the direction returned. */
module UiHandles {
  import opened Common
  import opened Hardware
  import opened Alarms
  import opened SimpleLedc
  import MainLight
  import Matrix
  import opened UserInterface
  import opened Navigation
  import opened Sounds
  import opened AlarmClock
  import opened AlarmHandler

  // ---------------------------------------------------------------------
  // Menu cursors
  // ---------------------------------------------------------------------

  /** `(cursor + 1) % n`: the next entry of an n-entry menu. */
  function MenuNext(cursor: nat, n: nat): (r: nat)
    requires n >= 1
    ensures r < n
  {
    (cursor + 1) % n
  }

  /** `(cursor + n - 1) % n`: the previous entry of an n-entry menu. */
  function MenuPrev(cursor: nat, n: nat): (r: nat)
    requires n >= 1
    ensures r < n
  {
    (cursor + n - 1) % n
  }

  lemma MenuNextValue(cursor: nat, n: nat)
    requires cursor < n
    ensures MenuNext(cursor, n) == if cursor + 1 < n then cursor + 1 else 0
  {
    if cursor + 1 < n {
      ModUnique(cursor + 1, n, 0, cursor + 1);
    } else {
      ModUnique(cursor + 1, n, 1, 0);
    }
  }

  lemma MenuPrevValue(cursor: nat, n: nat)
    requires cursor < n
    ensures MenuPrev(cursor, n) == if cursor == 0 then n - 1 else cursor - 1
  {
    if cursor == 0 {
      ModUnique(n - 1, n, 0, n - 1);
    } else {
      ModUnique(cursor + n - 1, n, 1, cursor - 1);
    }
  }

  /** Up and Down on a menu undo each other, and wrap around at the ends. */
  lemma MenuNextPrevInverse(cursor: nat, n: nat)
    requires cursor < n
    ensures MenuPrev(MenuNext(cursor, n), n) == cursor
    ensures MenuNext(MenuPrev(cursor, n), n) == cursor
    ensures MenuNext(n - 1, n) == 0 && MenuPrev(0, n) == n - 1
  {
    MenuNextValue(cursor, n);
    MenuPrevValue(MenuNext(cursor, n), n);
    MenuPrevValue(cursor, n);
    MenuNextValue(MenuPrev(cursor, n), n);
    MenuNextValue(n - 1, n);
    MenuPrevValue(0, n);
  }

  // ---------------------------------------------------------------------
  // Snooze time
  // ---------------------------------------------------------------------

  /** Up on the snooze frame: +1 below 10, +5 below 20, +10 otherwise (in
      uint8_t), and back to 2 above 45. */
  function SnoozeUp(t: Byte): Byte
  {
    var u := if t < 10 then t + 1 else if t < 20 then t + 5 else U8(t + 10);
    if u > 45 then 2 else u
  }

  /** Down on the snooze frame: -10 above 20, -5 above 10, -1 above 2, and
      round to 45 from 2 or less. */
  function SnoozeDown(t: Byte): Byte
  {
    if t > 20 then t - 10 else if t > 10 then t - 5 else if t > 2 then t - 1 else 45
  }

  /** The snooze times Up visits from 2: 2..10, 15, 20, 30, 40. */
  predicate OnSnoozeLadder(t: int)
  {
    2 <= t <= 10 || t == 15 || t == 20 || t == 30 || t == 40
  }

  /** Both buttons keep a snooze time of 2..45 minutes in that range, Up
      keeps it on the ladder, and Down undoes Up everywhere on the ladder
      but at its top, where Up wraps to 2 and Down wraps to 45. */
  lemma SnoozeTimeSteps(t: Byte)
    ensures 2 <= t <= 45 ==> 2 <= SnoozeUp(t) <= 45 && 2 <= SnoozeDown(t) <= 45
    ensures OnSnoozeLadder(t) ==> OnSnoozeLadder(SnoozeUp(t))
    ensures OnSnoozeLadder(t) && t != 40 ==> SnoozeDown(SnoozeUp(t)) == t
    ensures OnSnoozeLadder(t) ==> SnoozeUp(SnoozeDown(t)) == t
    ensures SnoozeUp(40) == 2 && SnoozeDown(2) == 45
  {
  }

  // ---------------------------------------------------------------------
  // Alarm time digits
  // ---------------------------------------------------------------------

  function Min(a: int, b: int): int
  {
    if a < b then a else b
  }

  /** Up on the hour tens digit. */
  function HourTensUp(h: Byte): Byte
  {
    U8(Min(23, (h + 10) % 30))
  }

  /** Down on the hour tens digit. */
  function HourTensDown(h: Byte): Byte
  {
    U8(Min(23, (h + 20) % 30))
  }

  /** Up on the hour ones digit: the digit goes round 0..9 (0..3 in the
      twenties, 23 going to 20). */
  function HourOnesUp(h: Byte): Byte
  {
    U8(if h == 23 then 20 else h - h % 10 + (h + 1) % 10)
  }

  /** Down on the hour ones digit as the source writes it: `(h - 1) % 10`
      takes C's remainder, which is -1 for hour 0. */
  function HourOnesDownAsWritten(h: Byte): Byte
  {
    U8(Min(23, h - h % 10 + CRem(h - 1, 10)))
  }

  /** Down on the hour ones digit with the digit wrapping from 0 to 9. */
  function HourOnesDown(h: Byte): Byte
  {
    U8(Min(23, h - h % 10 + (h % 10 + 9) % 10))
  }

  /** Up on the minute tens digit. */
  function MinuteTensUp(m: Byte): Byte
  {
    U8(Min(59, (m + 10) % 60))
  }

  /** Down on the minute tens digit. */
  function MinuteTensDown(m: Byte): Byte
  {
    U8(Min(59, (m + 50) % 60))
  }

  /** Up on the minute ones digit. */
  function MinuteOnesUp(m: Byte): Byte
  {
    U8(Min(59, m - m % 10 + (m + 1) % 10))
  }

  /** Down on the minute ones digit as the source writes it (C remainder). */
  function MinuteOnesDownAsWritten(m: Byte): Byte
  {
    U8(Min(59, m - m % 10 + CRem(m - 1, 10)))
  }

  /** Down on the minute ones digit with the digit wrapping from 0 to 9. */
  function MinuteOnesDown(m: Byte): Byte
  {
    U8(Min(59, m - m % 10 + (m % 10 + 9) % 10))
  }

  /** Down on a ones digit of 0 gives 255 as written: hour 00 and minute
      :00 both become 255, an hour and a minute that do not exist. */
  lemma OnesDigitDownAsWrittenLeavesRange()
    ensures HourOnesDownAsWritten(0) == 255 && HourOnesDown(0) == 9
    ensures MinuteOnesDownAsWritten(0) == 255 && MinuteOnesDown(0) == 9
  {
    assert CRem(-1, 10) == -1;
  }

  /** Apart from a ones digit of 0, the source's Down is the wrapping one. */
  lemma OnesDigitDownAgreesAwayFromZero(h: Byte, m: Byte)
    requires h != 0 && m != 0
    ensures HourOnesDownAsWritten(h) == HourOnesDown(h)
    ensures MinuteOnesDownAsWritten(m) == MinuteOnesDown(m)
  {
    PrevDigitOfPredecessor(h);
    PrevDigitOfPredecessor(m);
  }

  /** For x >= 1 the ones digit of x - 1 is the previous digit of x's. */
  lemma PrevDigitOfPredecessor(x: nat)
    requires x >= 1
    ensures CRem(x - 1, 10) == (x % 10 + 9) % 10
  {
    var t, d := x / 10, x % 10;
    if d == 0 {
      ModUnique(x - 1, 10, t - 1, 9);
      ModUnique(9, 10, 0, 9);
    } else {
      ModUnique(x - 1, 10, t, d - 1);
      ModUnique(d + 9, 10, 1, d - 1);
    }
  }


  function NextDigit(d: int): int
  {
    if d == 9 then 0 else d + 1
  }

  function PrevDigit(d: int): int
  {
    if d == 0 then 9 else d - 1
  }

  /** `x - x % 10 + (x + 1) % 10` steps the ones digit of x round 0..9. */
  lemma OnesUpValue(x: nat)
    ensures x - x % 10 + (x + 1) % 10 == 10 * (x / 10) + NextDigit(x % 10)
  {
    var t, d := x / 10, x % 10;
    if d == 9 {
      ModUnique(x + 1, 10, t + 1, 0);
    } else {
      ModUnique(x + 1, 10, t, d + 1);
    }
  }

  /** `x - x % 10 + (x % 10 + 9) % 10` steps the ones digit of x back round 0..9. */
  lemma OnesDownValue(x: nat)
    ensures x - x % 10 + (x % 10 + 9) % 10 == 10 * (x / 10) + PrevDigit(x % 10)
  {
    var d := x % 10;
    if d == 0 {
      ModUnique(9, 10, 0, 9);
    } else {
      ModUnique(d + 9, 10, 1, d - 1);
    }
  }

  lemma DigitsOf(t: int, d: int)
    requires 0 <= d < 10
    ensures (10 * t + d) % 10 == d && (10 * t + d) / 10 == t
  {
    ModUnique(10 * t + d, 10, t, d);
  }

  /** The hour ones Up button keeps an hour 0..23 in range and keeps its
      tens digit; the wrapping Down undoes it, and so does the written Down
      except from hour 09, where Up lands on 00 and Down gives 255. */
  lemma HourOnesUpSteps(h: Byte)
    requires h <= 23
    ensures HourOnesUp(h) <= 23 && HourOnesUp(h) / 10 == h / 10
    ensures HourOnesDown(HourOnesUp(h)) == h
    ensures h != 9 ==> HourOnesDownAsWritten(HourOnesUp(h)) == h
    ensures h == 9 ==> HourOnesUp(h) == 0 && HourOnesDownAsWritten(HourOnesUp(h)) == 255
  {
    OnesDigitDownAsWrittenLeavesRange();
    var t, d := h / 10, h % 10;
    DigitsOf(t, d);
    OnesUpValue(h);
    var up := HourOnesUp(h);
    if h == 23 {
      assert up == 20;
      DigitsOf(2, 0);
      OnesDownValue(20);
    } else {
      assert up == 10 * t + NextDigit(d);
      DigitsOf(t, NextDigit(d));
      OnesDownValue(up);
    }
    if up != 0 {
      OnesDigitDownAgreesAwayFromZero(up, 1);
    }
  }

  /** The wrapping hour ones Down keeps an hour 0..23 in range and keeps
      its tens digit, and Up undoes it; the written Down is the same except
      at hour 00, which it turns into 255 (and Up turns 255 back into 0). */
  lemma HourOnesDownSteps(h: Byte)
    requires h <= 23
    ensures HourOnesDown(h) <= 23 && HourOnesDown(h) / 10 == h / 10
    ensures HourOnesUp(HourOnesDown(h)) == h
    ensures h != 0 ==> HourOnesDownAsWritten(h) == HourOnesDown(h)
    ensures h == 0 ==> HourOnesDownAsWritten(h) == 255 && HourOnesUp(HourOnesDownAsWritten(h)) == h
  {
    OnesDigitDownAsWrittenLeavesRange();
    if h != 0 {
      OnesDigitDownAgreesAwayFromZero(h, 1);
    }
    var t, d := h / 10, h % 10;
    DigitsOf(t, d);
    OnesDownValue(h);
    var down := HourOnesDown(h);
    if t == 2 && d == 0 {
      assert down == 23;
      DigitsOf(2, 3);
      OnesUpValue(23);
    } else {
      assert down == 10 * t + PrevDigit(d);
      DigitsOf(t, PrevDigit(d));
      OnesUpValue(down);
    }
  }

  /** The hour tens buttons keep an hour in range; Down undoes Up unless
      Up had to clamp (hours 14..19 land on 23). */
  lemma HourTensSteps(h: Byte)
    requires h <= 23
    ensures HourTensUp(h) <= 23 && HourTensDown(h) <= 23
    ensures (h + 10) % 30 <= 23 ==> HourTensDown(HourTensUp(h)) == h
    ensures 14 <= h <= 19 ==> HourTensUp(h) == 23
  {
  }

  /** The minute tens buttons keep a minute 0..59 in range and its ones
      digit, and undo each other. */
  lemma MinuteTensSteps(m: Byte)
    requires m <= 59
    ensures MinuteTensUp(m) <= 59 && MinuteTensDown(m) <= 59
    ensures MinuteTensUp(m) % 10 == m % 10 && MinuteTensDown(m) % 10 == m % 10
    ensures MinuteTensDown(MinuteTensUp(m)) == m && MinuteTensUp(MinuteTensDown(m)) == m
  {
    if m < 50 {
      ModUnique(m + 10, 60, 0, m + 10);
      ModUnique(m + 10 + 50, 60, 1, m);
    } else {
      ModUnique(m + 10, 60, 1, m - 50);
      ModUnique(m - 50 + 50, 60, 0, m);
    }
    if m < 10 {
      ModUnique(m + 50, 60, 0, m + 50);
      ModUnique(m + 50 + 10, 60, 1, m);
    } else {
      ModUnique(m + 50, 60, 1, m - 10);
      ModUnique(m - 10 + 10, 60, 0, m);
    }
    DigitsOf(m / 10, m % 10);
    DigitsOf(m / 10 + 1, m % 10);
    DigitsOf(m / 10 - 1, m % 10);
    DigitsOf(m / 10 + 5, m % 10);
    DigitsOf(m / 10 - 5, m % 10);
  }

  /** The minute ones Up button keeps a minute 0..59 in range and its tens
      digit; the wrapping Down undoes it, and so does the written Down except
      from minute 09, where Up lands on 00 and Down gives 255. */
  lemma MinuteOnesUpSteps(m: Byte)
    requires m <= 59
    ensures MinuteOnesUp(m) <= 59 && MinuteOnesUp(m) / 10 == m / 10
    ensures MinuteOnesDown(MinuteOnesUp(m)) == m
    ensures m != 9 ==> MinuteOnesDownAsWritten(MinuteOnesUp(m)) == m
    ensures m == 9 ==> MinuteOnesUp(m) == 0 && MinuteOnesDownAsWritten(MinuteOnesUp(m)) == 255
  {
    OnesDigitDownAsWrittenLeavesRange();
    var t, d := m / 10, m % 10;
    DigitsOf(t, d);
    OnesUpValue(m);
    var up := MinuteOnesUp(m);
    assert up == 10 * t + NextDigit(d);
    DigitsOf(t, NextDigit(d));
    OnesDownValue(up);
    if up != 0 {
      OnesDigitDownAgreesAwayFromZero(1, up);
    }
  }

  /** The wrapping minute ones Down keeps a minute 0..59 in range and its
      tens digit, and Up undoes it; the written Down is the same except at
      minute 00, which it turns into 255 (and Up turns 255 into 59). */
  lemma MinuteOnesDownSteps(m: Byte)
    requires m <= 59
    ensures MinuteOnesDown(m) <= 59 && MinuteOnesDown(m) / 10 == m / 10
    ensures MinuteOnesUp(MinuteOnesDown(m)) == m
    ensures m != 0 ==> MinuteOnesDownAsWritten(m) == MinuteOnesDown(m)
    ensures m == 0 ==> MinuteOnesDownAsWritten(m) == 255 && MinuteOnesUp(MinuteOnesDownAsWritten(m)) == 59
  {
    OnesDigitDownAsWrittenLeavesRange();
    if m != 0 {
      OnesDigitDownAgreesAwayFromZero(1, m);
    }
    var t, d := m / 10, m % 10;
    DigitsOf(t, d);
    OnesDownValue(m);
    var down := MinuteOnesDown(m);
    assert down == 10 * t + PrevDigit(d);
    DigitsOf(t, PrevDigit(d));
    OnesUpValue(down);
  }


  /** The bit of weekday `day` in the repeat mask (`1 << day`). */
  function DayMask(day: nat): bv8
    requires day < 7
  {
    (1 as bv8) << day
  }

  /** Up on a repeat day (cursor 4..10 is day 0..6): the day's bit is set. */
  function SetRepeatDay(r: bv8, day: nat): bv8
    requires day < 7
  {
    r | DayMask(day)
  }

  /** Down on a repeat day: the day's bit is cleared. */
  function ClearRepeatDay(r: bv8, day: nat): bv8
    requires day < 7
  {
    r & !DayMask(day)
  }

  /** The weekday whose bit is the single-bit mask `m`. */
  function MaskDay(m: bv8): nat
  {
    if m == 1 then 0 else if m == 2 then 1 else if m == 4 then 2
    else if m == 8 then 3 else if m == 16 then 4 else if m == 32 then 5 else 6
  }

  /** Each day's mask is a single bit, and distinct days have distinct bits. */
  lemma DayMaskValue(day: nat)
    requires day < 7
    ensures var m := DayMask(day); m == 1 || m == 2 || m == 4 || m == 8 || m == 16 || m == 32 || m == 64
    ensures MaskDay(DayMask(day)) == day
  {
    if day == 0 {
    } else if day == 1 {
    } else if day == 2 {
    } else if day == 3 {
    } else if day == 4 {
    } else if day == 5 {
    } else {
    }
  }

  /** Setting or clearing a single bit touches no other bit. */
  lemma SingleBitMasks(r: bv8, a: bv8, b: bv8)
    requires a == 1 || a == 2 || a == 4 || a == 8 || a == 16 || a == 32 || a == 64
    requires b == 1 || b == 2 || b == 4 || b == 8 || b == 16 || b == 32 || b == 64
    ensures (r | a) & b != 0 <==> a == b || r & b != 0
    ensures (r & !a) & b != 0 <==> a != b && r & b != 0
  {
  }

  /** Setting or clearing a day changes whether the alarm repeats on that
      day and on no other. */
  lemma RepeatDaySteps(r: bv8, day: nat, w: nat)
    requires day < 7 && w < 7
    ensures RepeatsOn(SetRepeatDay(r, day), w) <==> w == day || RepeatsOn(r, w)
    ensures RepeatsOn(ClearRepeatDay(r, day), w) <==> w != day && RepeatsOn(r, w)
  {
    DayMaskValue(day);
    DayMaskValue(w);
    SingleBitMasks(r, DayMask(day), DayMask(w));
  }

  // ---------------------------------------------------------------------
  // Input
  // ---------------------------------------------------------------------

  /** getInput's effect on the UI timer: a direction restarts the idle
      countdown, unless an alarm is ringing. */
  function InputTimer(t: Timer, dir: Direction, playing: bool): Timer
  {
    if dir != Direction.None && !playing then t.Reset() else t
  }

  /** The direction this pass's read of the pads returns. */
  twostate function Pressed(c: Clock, pads: Pads): Direction
  {
    Step(old(c.navigator.touched), pads).0
  }

  /** The pads were read once: the latch moved as `read` moves it. */
  twostate predicate InputRead(c: Clock, pads: Pads)
    reads c.navigator
  {
    c.navigator.touched == Step(old(c.navigator.touched), pads).1
  }

  /** The plain state after getInput and nothing else. */
  twostate function AfterInput(c: Clock, pads: Pads): ClockVars
  {
    old(c.Vars()).(uiTimer := InputTimer(old(c.uiTimer), Pressed(c, pads), old(c.AnyPlaying())))
  }

  /** getInput: reads the pads once and returns the direction; a direction
      restarts the UI timer unless an alarm is PLAYING. */
  method GetInput(c: Clock, pads: Pads) returns (dir: Direction)
    modifies c, c.navigator
    ensures dir == Pressed(c, pads) && InputRead(c, pads)
    ensures c.Vars() == AfterInput(c, pads)
  {
    dir := c.navigator.Read(pads);
    if dir != Direction.None && c.alarm1.state != Playing && c.alarm2.state != Playing {
      c.uiTimer := c.uiTimer.Reset();
    }
  }

  // ---------------------------------------------------------------------
  // Menu moves
  // ---------------------------------------------------------------------

  /** What a handle does to the menu: nothing, move the cursor, go to a
      frame (the cursor reset to 0), or go to a frame and set the cursor. */
  datatype Move = Stay | MoveCursor(to: Byte) | ToFrame(frame: Byte) | ToFrameAt(frame: Byte, at: Byte)

  /** The display made move `m` and nothing else. */
  twostate predicate Moved(ui: UIDisplay<Handle>, m: Move)
    reads ui
  {
    ui.fixed == old(ui.fixed) && ui.handles == old(ui.handles) && ui.calls == old(ui.calls) &&
    match m
    case Stay => ui.frame == old(ui.frame) && ui.cursor == old(ui.cursor)
    case MoveCursor(to) => ui.frame == old(ui.frame) && ui.cursor == to
    case ToFrame(f) => ui.frame == f as nat && ui.cursor == 0
    case ToFrameAt(f, at) => ui.frame == f as nat && ui.cursor == at
  }

  predicate IsDigitPad(dir: Direction)
  {
    dir == Left || dir == Right || dir == Up || dir == Down
  }

  function HomeMove(dir: Direction, playing: bool, snoozed: bool): Move
  {
    if dir == Center then
      ToFrame(if playing then DEFUSE_FRAME else if snoozed then SNOOZE_FRAME else OVERVIEW_FRAME)
    else Stay
  }

  function AlarmMove(dir: Direction): Move
  {
    if dir == Center || dir == Left || dir == Right then ToFrame(DEFUSE_FRAME) else Stay
  }

  function SnoozeMove(dir: Direction, snoozed: bool, playing: bool): Move
  {
    if dir == Center || dir == Right then ToFrame(if snoozed then DEFUSE_FRAME else HOME_FRAME)
    else if dir == Left then ToFrame(if playing then ALARM_FRAME else HOME_FRAME)
    else Stay
  }

  /** The defuse frame below the last digit: Center leaves, a digit pad
      moves the cursor on. */
  function DefuseMove(dir: Direction, cursor: Byte, playing: bool): Move
    requires cursor <= CODE_LENGTH
  {
    if dir == Center then ToFrame(if playing then ALARM_FRAME else HOME_FRAME)
    else if IsDigitPad(dir) then MoveCursor(cursor + 1)
    else Stay
  }

  /** The menu move of the pass that accepts a full code, as written: the
      handle goes home and then falls through to the pads with its cursor
      still 6, so Center leaves for the alarm frame when an alarm was
      playing, and a digit pad sets the cursor to 7 on the home frame. */
  function DefusedMove(dir: Direction, playing: bool): Move
  {
    if dir == Center then ToFrame(if playing then ALARM_FRAME else HOME_FRAME)
    else if IsDigitPad(dir) then ToFrameAt(HOME_FRAME, CODE_LENGTH + 1)
    else ToFrame(HOME_FRAME)
  }

  /** DefusedMove is the move home followed by the defuse frame's move from
      cursor 6: Center's frame replaces home, a digit's cursor step lands on
      the home frame, and no pad leaves the home frame with cursor 0. */
  lemma DefusedMoveIsHomeThenDefuseMove(dir: Direction, playing: bool)
    ensures var m := DefuseMove(dir, CODE_LENGTH, playing);
      DefusedMove(dir, playing) ==
        match m
        case Stay => ToFrame(HOME_FRAME)
        case MoveCursor(to) => ToFrameAt(HOME_FRAME, to)
        case ToFrame(f) => ToFrame(f)
        case ToFrameAt(f, at) => ToFrameAt(f, at)
    ensures DefusedMove(dir, playing).frame != DEFUSE_FRAME
  {
  }

  function OverviewMove(dir: Direction): Move
  {
    if dir == Center || dir == Right then ToFrame(SETTINGS_FRAME)
    else if dir == Left then ToFrame(HOME_FRAME)
    else Stay
  }

  /** The settings menu: alarm 1, alarm 2, player, light duration, Wi-Fi, info. */
  function SettingsMove(dir: Direction, cursor: Byte): Move
  {
    if dir == Center || dir == Right then
      if cursor <= 1 then ToFrame(ALARM_MENU_FRAME)
      else if cursor == 2 then ToFrame(PLAYER_MENU_FRAME)
      else if cursor == 3 then ToFrame(LIGHT_DURATION_FRAME)
      else if cursor == 4 then ToFrame(WIFI_MENU_FRAME)
      else if cursor == 5 then ToFrame(INFO_FRAME)
      else Stay
    else if dir == Left then ToFrame(OVERVIEW_FRAME)
    else if dir == Up then MoveCursor(MenuPrev(cursor, 6))
    else if dir == Down then MoveCursor(MenuNext(cursor, 6))
    else Stay
  }

  /** The alarm the settings menu selects for editing. */
  function SettingsSelection(dir: Direction, cursor: Byte, alarmToSet: N): N
  {
    if (dir == Center || dir == Right) && cursor == 0 then One
    else if (dir == Center || dir == Right) && cursor == 1 then Two
    else alarmToSet
  }

  /** The alarm menu's edits of the selected alarm. */
  datatype AlarmEdit = NoEdit | FlipToggle | In8h

  /** The alarm menu: set time, enable/disable, set in 8h, set sound. Center
      and Right make the same edit. */
  function AlarmMenuEdit(dir: Direction, cursor: Byte): AlarmEdit
  {
    if (dir == Center || dir == Right) && cursor == 1 then FlipToggle
    else if (dir == Center || dir == Right) && cursor == 2 then In8h
    else NoEdit
  }

  /** Center edits in place; Right edits and goes home. */
  function AlarmMenuMove(dir: Direction, cursor: Byte, alarmToSet: N): Move
  {
    if dir == Center && (cursor == 1 || cursor == 2) then Stay
    else if dir == Center || dir == Right then
      if cursor == 0 then ToFrame(ALARM_TIME_FRAME)
      else if cursor == 1 || cursor == 2 then ToFrame(HOME_FRAME)
      else if cursor == 3 then ToFrame(ALARM_SOUND_FRAME)
      else Stay
    else if dir == Left then ToFrameAt(SETTINGS_FRAME, if alarmToSet == One then 0 else 1)
    else if dir == Up then MoveCursor(MenuPrev(cursor, 4))
    else if dir == Down then MoveCursor(MenuNext(cursor, 4))
    else Stay
  }

  /** Whether the alarm menu as written passes an edit on to the RTC: only
      Right on enable/disable calls setAlarm. */
  function AlarmMenuArmsAsWritten(dir: Direction, cursor: Byte): bool
  {
    dir == Right && cursor == 1
  }

  /** The alarm time frame: cursor 0..3 on the digits, 4..10 on the days. */
  function AlarmTimeMove(dir: Direction, cursor: Byte): Move
  {
    if dir == Left then (if cursor == 0 then ToFrame(ALARM_MENU_FRAME) else MoveCursor(cursor - 1))
    else if dir == Center then ToFrame(HOME_FRAME)
    else if dir == Right then (if cursor == 10 then ToFrame(HOME_FRAME) else MoveCursor(U8(cursor + 1)))
    else Stay
  }

  /** The alarm sound frame as written: Left returns to the alarm menu with
      the cursor on entry 2, "set in 8h". */
  function AlarmSoundMoveAsWritten(dir: Direction): Move
  {
    if dir == Left then ToFrameAt(ALARM_MENU_FRAME, 2)
    else if dir == Right then ToFrame(HOME_FRAME)
    else Stay
  }

  /** The alarm sound frame with Left returning to the entry that opened
      it, "set sound" (3), as every other sub-frame does. */
  function AlarmSoundMove(dir: Direction): Move
  {
    if dir == Left then ToFrameAt(ALARM_MENU_FRAME, 3)
    else if dir == Right then ToFrame(HOME_FRAME)
    else Stay
  }

  /** The player menu: volume, play, stop, edit sounds. */
  function PlayerMenuMove(dir: Direction, cursor: Byte): Move
  {
    if dir == Center && cursor == 2 then Stay
    else if dir == Center || dir == Right then
      if cursor == 0 then ToFrame(PLAYER_VOLUME_FRAME)
      else if cursor == 1 then ToFrame(PLAYER_PLAY_FRAME)
      else if cursor == 2 then ToFrame(HOME_FRAME)
      else if cursor == 3 then ToFrame(PLAYER_SOUNDS_FRAME)
      else Stay
    else if dir == Left then ToFrameAt(SETTINGS_FRAME, 2)
    else if dir == Up then MoveCursor(MenuPrev(cursor, 4))
    else if dir == Down then MoveCursor(MenuNext(cursor, 4))
    else Stay
  }

  function PlayerVolumeMove(dir: Direction): Move
  {
    if dir == Center || dir == Right then ToFrame(HOME_FRAME)
    else if dir == Left then ToFrame(PLAYER_MENU_FRAME)
    else Stay
  }

  /** The play frame: the cursor is the sound id to play, 0 for a random one,
      and goes round 0..numSounds-1. */
  function PlayerPlayMove(dir: Direction, cursor: Byte, numSounds: nat): Move
    requires dir == Up || dir == Down ==> numSounds >= 1
  {
    if dir == Center || dir == Left then ToFrameAt(PLAYER_MENU_FRAME, 1)
    else if dir == Right then ToFrame(HOME_FRAME)
    else if dir == Up then MoveCursor(U8(MenuNext(cursor, numSounds)))
    else if dir == Down then MoveCursor(U8(MenuPrev(cursor, numSounds)))
    else Stay
  }

  /** The sounds frame: the cursor is one less than the sound's id and goes
      round 0..numSounds-2. */
  function PlayerSoundsMove(dir: Direction, cursor: Byte, numSounds: nat): Move
    requires dir == Up || dir == Down ==> numSounds >= 2
  {
    if dir == Right then ToFrame(HOME_FRAME)
    else if dir == Left then ToFrameAt(PLAYER_MENU_FRAME, 3)
    else if dir == Up then MoveCursor(U8(MenuNext(cursor, numSounds - 1)))
    else if dir == Down then MoveCursor(U8(MenuPrev(cursor, numSounds - 1)))
    else Stay
  }

  function LightDurationMove(dir: Direction): Move
  {
    if dir == Center || dir == Right then ToFrame(HOME_FRAME)
    else if dir == Left then ToFrameAt(SETTINGS_FRAME, 3)
    else Stay
  }

  function WiFiMenuMove(dir: Direction): Move
  {
    if dir == Center || dir == Right then ToFrame(SMART_CONFIG_FRAME)
    else if dir == Left then ToFrameAt(SETTINGS_FRAME, 4)
    else Stay
  }

  /** Cursor 1 means smart config is running; the frame cannot be left then. */
  function SmartConfigMove(dir: Direction, cursor: Byte): Move
  {
    if dir == Center then MoveCursor(1)
    else if dir == Right && cursor != 1 then ToFrame(HOME_FRAME)
    else if dir == Left && cursor != 1 then ToFrame(WIFI_MENU_FRAME)
    else Stay
  }

  function InfoMove(dir: Direction): Move
  {
    if dir == Center || dir == Right then ToFrame(HOME_FRAME)
    else if dir == Left then ToFrameAt(SETTINGS_FRAME, 5)
    else Stay
  }

  /** The three option menus: Up and Down keep the cursor on an entry (0..5
      in settings, 0..3 in the alarm and player menus) and undo each other. */
  lemma MenuCursorSteps(cursor: Byte, n: N)
    ensures cursor < 6 ==> SettingsMove(Up, cursor).to < 6 && SettingsMove(Down, cursor).to < 6
    ensures cursor < 6 ==> SettingsMove(Down, SettingsMove(Up, cursor).to) == MoveCursor(cursor)
    ensures cursor < 6 ==> SettingsMove(Up, SettingsMove(Down, cursor).to) == MoveCursor(cursor)
    ensures cursor < 4 ==> AlarmMenuMove(Up, cursor, n).to < 4 && AlarmMenuMove(Down, cursor, n).to < 4
    ensures cursor < 4 ==> AlarmMenuMove(Down, AlarmMenuMove(Up, cursor, n).to, n) == MoveCursor(cursor)
    ensures cursor < 4 ==> AlarmMenuMove(Up, AlarmMenuMove(Down, cursor, n).to, n) == MoveCursor(cursor)
    ensures cursor < 4 ==> PlayerMenuMove(Up, cursor).to < 4 && PlayerMenuMove(Down, cursor).to < 4
    ensures cursor < 4 ==> PlayerMenuMove(Down, PlayerMenuMove(Up, cursor).to) == MoveCursor(cursor)
    ensures cursor < 4 ==> PlayerMenuMove(Up, PlayerMenuMove(Down, cursor).to) == MoveCursor(cursor)
  {
    if cursor < 6 {
      MenuNextPrevInverse(cursor, 6);
    }
    if cursor < 4 {
      MenuNextPrevInverse(cursor, 4);
    }
  }

  /** The frame a settings entry opens, and Left from that frame, return to
      the settings menu with the cursor on that entry (for an alarm entry,
      the alarm it selected). */
  lemma BackReturnsToSettingsEntry(cursor: Byte)
    requires cursor < 6
    ensures var f := SettingsMove(Right, cursor).frame;
      var back := if f == ALARM_MENU_FRAME then AlarmMenuMove(Left, 0, SettingsSelection(Right, cursor, One))
                  else if f == PLAYER_MENU_FRAME then PlayerMenuMove(Left, 0)
                  else if f == LIGHT_DURATION_FRAME then LightDurationMove(Left)
                  else if f == WIFI_MENU_FRAME then WiFiMenuMove(Left)
                  else InfoMove(Left);
      back == ToFrameAt(SETTINGS_FRAME, cursor)
  {
  }

  /** Likewise for the player menu's sub-frames, and for the alarm menu's
      sound entry once corrected; as written, Left from the sound frame
      lands on "set in 8h", where Center reschedules the alarm. */
  lemma BackReturnsToMenuEntry()
    ensures PlayerVolumeMove(Left) == ToFrame(PLAYER_MENU_FRAME) && PlayerMenuMove(Right, 0) == ToFrame(PLAYER_VOLUME_FRAME)
    ensures PlayerPlayMove(Left, 0, 0) == ToFrameAt(PLAYER_MENU_FRAME, 1) && PlayerMenuMove(Right, 1) == ToFrame(PLAYER_PLAY_FRAME)
    ensures PlayerSoundsMove(Left, 0, 0) == ToFrameAt(PLAYER_MENU_FRAME, 3) && PlayerMenuMove(Right, 3) == ToFrame(PLAYER_SOUNDS_FRAME)
    ensures AlarmTimeMove(Left, 0) == ToFrame(ALARM_MENU_FRAME) && AlarmMenuMove(Right, 0, One) == ToFrame(ALARM_TIME_FRAME)
    ensures AlarmMenuMove(Right, 3, One) == ToFrame(ALARM_SOUND_FRAME) && AlarmSoundMove(Left) == ToFrameAt(ALARM_MENU_FRAME, 3)
    ensures AlarmSoundMoveAsWritten(Left) == ToFrameAt(ALARM_MENU_FRAME, 2) && AlarmMenuEdit(Center, 2) == In8h
  {
  }

  /** The alarm time frame's cursor stays on 0..10: Left below 0 and Right
      past 10 leave the frame, and Left undoes Right. */
  lemma AlarmTimeCursorSteps(cursor: Byte, dir: Direction)
    requires cursor <= 10
    ensures AlarmTimeMove(dir, cursor).MoveCursor? ==> AlarmTimeMove(dir, cursor).to <= 10
    ensures cursor < 10 ==> AlarmTimeMove(Left, AlarmTimeMove(Right, cursor).to) == MoveCursor(cursor)
    ensures 0 < cursor ==> AlarmTimeMove(Right, AlarmTimeMove(Left, cursor).to) == MoveCursor(cursor)
  {
  }

  // ---------------------------------------------------------------------
  // Alarm time edits
  // ---------------------------------------------------------------------

  /** Up (`up`) or Down on the alarm time frame at `cursor`, as the source
      writes it: the digit or the day under the cursor changes, and the
      alarm is switched on. Down on a ones digit of 0 takes C's remainder
      -1, so hour 00 and minute :x0 go wrong (see OnesDigitDownAsWrittenLeavesRange). */
  function TimeEdit(s: AlarmSettings, cursor: Byte, up: bool): AlarmSettings
    requires cursor <= 10
  {
    var edited :=
      if cursor == 0 then s.(hour := if up then HourTensUp(s.hour) else HourTensDown(s.hour))
      else if cursor == 1 then s.(hour := if up then HourOnesUp(s.hour) else HourOnesDownAsWritten(s.hour))
      else if cursor == 2 then s.(minute := if up then MinuteTensUp(s.minute) else MinuteTensDown(s.minute))
      else if cursor == 3 then s.(minute := if up then MinuteOnesUp(s.minute) else MinuteOnesDownAsWritten(s.minute))
      else s.(repeat := if up then SetRepeatDay(s.repeat, cursor - 4) else ClearRepeatDay(s.repeat, cursor - 4));
    edited.(toggle := true)
  }

  /** The time edit as evidently intended: Down on a ones digit wraps 0 to 9. */
  function TimeEditWrapping(s: AlarmSettings, cursor: Byte, up: bool): AlarmSettings
    requires cursor <= 10
  {
    var edited :=
      if cursor == 0 then s.(hour := if up then HourTensUp(s.hour) else HourTensDown(s.hour))
      else if cursor == 1 then s.(hour := if up then HourOnesUp(s.hour) else HourOnesDown(s.hour))
      else if cursor == 2 then s.(minute := if up then MinuteTensUp(s.minute) else MinuteTensDown(s.minute))
      else if cursor == 3 then s.(minute := if up then MinuteOnesUp(s.minute) else MinuteOnesDown(s.minute))
      else s.(repeat := if up then SetRepeatDay(s.repeat, cursor - 4) else ClearRepeatDay(s.repeat, cursor - 4));
    edited.(toggle := true)
  }

  /** Down on the hour ones digit at hour 0, or on the minute ones digit at
      minute 0: the only edits where the source's Down goes wrong. */
  predicate DownFromZero(s: AlarmSettings, cursor: Byte, up: bool)
  {
    !up && ((cursor == 1 && s.hour == 0) || (cursor == 3 && s.minute == 0))
  }

  /** The written edit differs from the wrapping one exactly on Down from a
      zero hour or minute, and then puts 255 where the wrapping one puts 9. */
  lemma TimeEditAgreesWithWrapping(s: AlarmSettings, cursor: Byte, up: bool)
    requires cursor <= 10
    ensures TimeEdit(s, cursor, up) != TimeEditWrapping(s, cursor, up) <==> DownFromZero(s, cursor, up)
    ensures DownFromZero(s, cursor, up) ==>
      TimeEdit(s, cursor, up) == TimeEditWrapping(s, cursor, up).(hour := if cursor == 1 then 255 else s.hour,
                                                                   minute := if cursor == 3 then 255 else s.minute)
    ensures DownFromZero(s, cursor, up) ==> TimeEditWrapping(s, cursor, up) == s.(hour := if cursor == 1 then 9 else s.hour,
                                                                                  minute := if cursor == 3 then 9 else s.minute,
                                                                                  toggle := true)
  {
    OnesDigitDownAsWrittenLeavesRange();
    if s.hour != 0 {
      OnesDigitDownAgreesAwayFromZero(s.hour, 1);
    }
    if s.minute != 0 {
      OnesDigitDownAgreesAwayFromZero(1, s.minute);
    }
  }

  /** As written, an edit keeps a valid time valid except Down from a zero
      hour or minute, which leaves 255 in that field; every edit keeps the
      sound and switches the alarm on, and a digit edit keeps the repeat days. */
  lemma TimeEditKeepsTimeValid(s: AlarmSettings, cursor: Byte, up: bool)
    requires s.hour <= 23 && s.minute <= 59 && cursor <= 10
    ensures var r := TimeEdit(s, cursor, up);
      (r.hour <= 23 && r.minute <= 59 <==> !DownFromZero(s, cursor, up)) && r.toggle && r.sound == s.sound
    ensures DownFromZero(s, cursor, up) && cursor == 1 ==> TimeEdit(s, cursor, up).hour == 255
    ensures DownFromZero(s, cursor, up) && cursor == 3 ==> TimeEdit(s, cursor, up).minute == 255
    ensures cursor < 4 ==> TimeEdit(s, cursor, up).repeat == s.repeat
  {
    TimeEditWrappingKeepsTimeValid(s, cursor, up);
    TimeEditAgreesWithWrapping(s, cursor, up);
  }

  /** With the wrapping Down, every edit keeps a valid time valid. */
  lemma TimeEditWrappingKeepsTimeValid(s: AlarmSettings, cursor: Byte, up: bool)
    requires s.hour <= 23 && s.minute <= 59 && cursor <= 10
    ensures var r := TimeEditWrapping(s, cursor, up);
      r.hour <= 23 && r.minute <= 59 && r.toggle && r.sound == s.sound
    ensures cursor < 4 ==> TimeEditWrapping(s, cursor, up).repeat == s.repeat
  {
    if cursor == 0 {
      HourTensSteps(s.hour);
    } else if cursor == 1 {
      HourOnesUpSteps(s.hour);
      HourOnesDownSteps(s.hour);
    } else if cursor == 2 {
      MinuteTensSteps(s.minute);
    } else if cursor == 3 {
      MinuteOnesUpSteps(s.minute);
      MinuteOnesDownSteps(s.minute);
    }
  }

  /** As written, Down undoes Up on the ones digits except from hour 09 and
      minute 09, whose Up lands on 0 and whose Down then gives 255; Up undoes
      Down on the hour ones and minute tens digits, and on the minute ones
      digit except from minute 00, which goes to 255 and then to 59. On the
      hour tens digit Down undoes Up unless Up was clamped to 23. */
  lemma TimeEditUndo(s: AlarmSettings, cursor: Byte)
    requires s.hour <= 23 && s.minute <= 59
    ensures 1 <= cursor <= 3 && !(cursor == 1 && s.hour == 9) && !(cursor == 3 && s.minute == 9) ==>
      TimeEdit(TimeEdit(s, cursor, true), cursor, false) == s.(toggle := true)
    ensures cursor == 1 && s.hour == 9 ==> TimeEdit(TimeEdit(s, 1, true), 1, false) == s.(hour := 255, toggle := true)
    ensures cursor == 3 && s.minute == 9 ==> TimeEdit(TimeEdit(s, 3, true), 3, false) == s.(minute := 255, toggle := true)
    ensures 1 <= cursor <= 3 && !(cursor == 3 && s.minute == 0) ==>
      TimeEdit(TimeEdit(s, cursor, false), cursor, true) == s.(toggle := true)
    ensures cursor == 3 && s.minute == 0 ==> TimeEdit(TimeEdit(s, 3, false), 3, true) == s.(minute := 59, toggle := true)
    ensures cursor == 0 && (s.hour + 10) % 30 <= 23 ==> TimeEdit(TimeEdit(s, 0, true), 0, false) == s.(toggle := true)
  {
    if cursor == 0 {
      HourTensSteps(s.hour);
    } else if cursor == 1 {
      HourOnesUndo(s);
    } else if cursor == 2 {
      MinuteTensSteps(s.minute);
    } else if cursor == 3 {
      MinuteOnesUndo(s);
    }
  }

  /** The hour ones case of TimeEditUndo. */
  lemma HourOnesUndo(s: AlarmSettings)
    requires s.hour <= 23
    ensures TimeEdit(TimeEdit(s, 1, true), 1, false) ==
      s.(hour := if s.hour == 9 then 255 else s.hour, toggle := true)
    ensures TimeEdit(TimeEdit(s, 1, false), 1, true) == s.(toggle := true)
  {
    HourOnesUpSteps(s.hour);
    HourOnesDownSteps(s.hour);
  }

  /** The minute ones case of TimeEditUndo. */
  lemma MinuteOnesUndo(s: AlarmSettings)
    requires s.minute <= 59
    ensures TimeEdit(TimeEdit(s, 3, true), 3, false) ==
      s.(minute := if s.minute == 9 then 255 else s.minute, toggle := true)
    ensures TimeEdit(TimeEdit(s, 3, false), 3, true) ==
      s.(minute := if s.minute == 0 then 59 else s.minute, toggle := true)
  {
    var m := s.minute;
    var up := TimeEdit(s, 3, true);
    var down := TimeEdit(s, 3, false);
    assert up == s.(minute := MinuteOnesUp(m), toggle := true);
    assert down == s.(minute := MinuteOnesDownAsWritten(m), toggle := true);
    assert TimeEdit(up, 3, false).minute == if m == 9 then 255 else m by {
      MinuteOnesUpSteps(m);
    }
    assert TimeEdit(down, 3, true).minute == if m == 0 then 59 else m by {
      MinuteOnesDownSteps(m);
    }
  }

  /** With the wrapping Down, Down undoes Up on the hour ones digit and both
      minute digits, and Up undoes Down; on the hour tens digit Down undoes
      Up unless Up was clamped to 23. Both leave the alarm on. */
  lemma TimeEditWrappingUndo(s: AlarmSettings, cursor: Byte)
    requires s.hour <= 23 && s.minute <= 59
    ensures 1 <= cursor <= 3 ==> TimeEditWrapping(TimeEditWrapping(s, cursor, true), cursor, false) == s.(toggle := true)
    ensures 1 <= cursor <= 3 ==> TimeEditWrapping(TimeEditWrapping(s, cursor, false), cursor, true) == s.(toggle := true)
    ensures cursor == 0 && (s.hour + 10) % 30 <= 23 ==> TimeEditWrapping(TimeEditWrapping(s, 0, true), 0, false) == s.(toggle := true)
  {
    if cursor == 0 {
      HourTensSteps(s.hour);
    } else if cursor == 1 {
      HourOnesUpSteps(s.hour);
      HourOnesDownSteps(s.hour);
    } else if cursor == 2 {
      MinuteTensSteps(s.minute);
    } else if cursor == 3 {
      MinuteOnesUpSteps(s.minute);
      MinuteOnesDownSteps(s.minute);
    }
  }

  /** On cursor 4..10, Up makes the alarm repeat on weekday cursor-4 and
      Down stops it repeating there; every other weekday and the time are
      kept. */
  lemma TimeEditRepeatDay(s: AlarmSettings, cursor: Byte, w: nat)
    requires 4 <= cursor <= 10 && w < 7
    ensures RepeatsOn(TimeEdit(s, cursor, true).repeat, w) <==> w == cursor - 4 || RepeatsOn(s.repeat, w)
    ensures RepeatsOn(TimeEdit(s, cursor, false).repeat, w) <==> w != cursor - 4 && RepeatsOn(s.repeat, w)
    ensures TimeEdit(s, cursor, true).hour == s.hour && TimeEdit(s, cursor, true).minute == s.minute
    ensures TimeEdit(s, cursor, false).hour == s.hour && TimeEdit(s, cursor, false).minute == s.minute
  {
    RepeatDaySteps(s.repeat, cursor - 4, w);
  }

  // ---------------------------------------------------------------------
  // Defuse code
  // ---------------------------------------------------------------------

  /** The digit a pad enters: Left 0, Right 1, Up 2, Down 3. */
  function DefuseDigit(dir: Direction): (d: Byte)
    requires IsDigitPad(dir)
    ensures d < 4
  {
    if dir == Left then 0 else if dir == Right then 1 else if dir == Up then 2 else 3
  }

  /** Every digit a defuse code holds (0..3) is entered by exactly one pad. */
  lemma DefuseDigitsOnePadEach(d: Byte)
    requires d < 4
    ensures exists dir :: IsDigitPad(dir) && DefuseDigit(dir) == d
    ensures forall a, b :: IsDigitPad(a) && IsDigitPad(b) && DefuseDigit(a) == DefuseDigit(b) ==> a == b
  {
    if d == 0 {
      assert DefuseDigit(Left) == d;
    } else if d == 1 {
      assert DefuseDigit(Right) == d;
    } else if d == 2 {
      assert DefuseDigit(Up) == d;
    } else {
      assert DefuseDigit(Down) == d;
    }
  }

  /** The code index the defuse frame writes as written: after a full code
      that matches, the handle goes on to read the pads and a digit pad
      writes at the cursor, which is 6. */
  function DefuseWriteAsWritten(cursor: Byte, matches: bool, dir: Direction): Option<nat>
  {
    if cursor == CODE_LENGTH && !matches then Option.None
    else if IsDigitPad(dir) then Some(cursor)
    else Option.None
  }

  /** The code index the defuse frame writes, with the handle returning
      after a full code whatever the outcome. */
  function DefuseWrite(cursor: Byte, dir: Direction): (w: Option<nat>)
    requires cursor <= CODE_LENGTH
    ensures w.Some? ==> w.value < CODE_LENGTH && IsDigitPad(dir)
  {
    if cursor < CODE_LENGTH && IsDigitPad(dir) then Some(cursor) else Option.None
  }

  /** As written, a digit pad pressed on the pass that accepts the code
      writes `code[6]`, one past the end of the six-digit buffer; the two
      agree everywhere else. */
  lemma DefuseWriteOverrunsAsWritten(cursor: Byte, matches: bool, dir: Direction)
    requires cursor <= CODE_LENGTH
    ensures DefuseWriteAsWritten(6, true, Left) == Some(6) && 6 >= CODE_LENGTH
    ensures DefuseWrite(6, Left) == Option.None
    ensures !(cursor == CODE_LENGTH && matches) ==> DefuseWriteAsWritten(cursor, matches, dir) == DefuseWrite(cursor, dir)
  {
  }

  /** The code check of the defuse frame: the six digits entered against the
      six of the defuse code, leaving at the first mismatch. */
  method CodeMatches(code: array<Byte>, defuseCode: array<Byte>) returns (ok: bool)
    requires code.Length == CODE_LENGTH && defuseCode.Length == CODE_LENGTH
    ensures ok <==> code[..] == defuseCode[..]
  {
    var i := 0;
    while i < CODE_LENGTH
      invariant 0 <= i <= CODE_LENGTH
      invariant code[..i] == defuseCode[..i]
    {
      if code[i] != defuseCode[i] {
        assert code[..][i] != defuseCode[..][i];
        return false;
      }
      i := i + 1;
    }
    assert code[..] == code[..CODE_LENGTH];
    assert defuseCode[..] == defuseCode[..CODE_LENGTH];
    return true;
  }

  // ---------------------------------------------------------------------
  // Sounds
  // ---------------------------------------------------------------------

  /** Arduino's `random(n)`: a number in 0..n-1, and 0 when n is 0. */
  predicate RandomDraw(n: nat, r: nat)
  {
    if n == 0 then r == 0 else r < n
  }

  /** Ids 1, 2, ... in catalogue order. */
  predicate DenseIds(sounds: seq<Sound>)
  {
    forall k :: 0 <= k < |sounds| ==> sounds[k].id == k + 1
  }

  /** In a catalogue with dense ids, id `id` is found at index id-1. */
  lemma DenseLookup(sounds: seq<Sound>, id: Byte)
    requires DenseIds(sounds) && 1 <= id <= |sounds|
    ensures GetSoundById(id, sounds) == id - 1
  {
    assert sounds[id - 1].id == id;
  }

  /** The sound at index `i` with its allowRandom flag flipped. */
  function FlipAllowRandom(sounds: seq<Sound>, i: nat): (r: seq<Sound>)
    requires i < |sounds|
    ensures |r| == |sounds| && r[i].allowRandom == !sounds[i].allowRandom
    ensures r[i].id == sounds[i].id && r[i].name == sounds[i].name && r[i].played == sounds[i].played
    ensures forall k :: 0 <= k < |r| && k != i ==> r[k] == sounds[k]
  {
    sounds[i := sounds[i].(allowRandom := !sounds[i].allowRandom)]
  }

  /** Flipping twice gives back the catalogue. */
  lemma FlipAllowRandomTwice(sounds: seq<Sound>, i: nat)
    requires i < |sounds|
    ensures FlipAllowRandom(FlipAllowRandom(sounds, i), i) == sounds
  {
    var r := FlipAllowRandom(FlipAllowRandom(sounds, i), i);
    assert forall k :: 0 <= k < |r| ==> r[k] == sounds[k];
  }

  /** Flipping a flag keeps the catalogue's ids. */
  lemma FlipKeepsIds(sounds: seq<Sound>, i: nat)
    requires DenseIds(sounds) && i < |sounds|
    ensures DenseIds(FlipAllowRandom(sounds, i))
  {
  }

  /** The sounds frame's edit as written: `auto sound = *getSoundById(...)`
      copies the sound, so the flag is flipped on the copy and the
      catalogue is returned as it was. */
  function ToggleCopyAsWritten(sounds: seq<Sound>, id: Byte): (seq<Sound>, Sound)
    requires GetSoundById(id, sounds) < |sounds|
  {
    var copy := sounds[GetSoundById(id, sounds)];
    (sounds, copy.(allowRandom := !copy.allowRandom))
  }

  /** As written, the edit never reaches the catalogue: the flipped sound is
      the one the edit means, but the catalogue differs from the edited one. */
  lemma ToggleCopyLosesEditAsWritten(sounds: seq<Sound>, id: Byte)
    requires GetSoundById(id, sounds) < |sounds|
    ensures var i := GetSoundById(id, sounds);
      ToggleCopyAsWritten(sounds, id).1 == FlipAllowRandom(sounds, i)[i] &&
      ToggleCopyAsWritten(sounds, id).0 != FlipAllowRandom(sounds, i)
  {
    var i := GetSoundById(id, sounds);
    assert FlipAllowRandom(sounds, i)[i].allowRandom != sounds[i].allowRandom;
  }

  // ---------------------------------------------------------------------
  // Effects shared by the handles
  // ---------------------------------------------------------------------

  /** The matrix started scrolling (`a` is ScrollNext or ScrollPrev) from
      the current tab towards its neighbour on that side. */
  twostate predicate Scrolled(m: Matrix.Matrix32x8, a: Matrix.Animation)
    reads m
  {
    m.Valid() && m.animation == a && m.lastAnimation == a &&
    m.tabs == old(m.tabs) && m.currentTab == old(m.currentTab) && m.setupDone == old(m.setupDone) &&
    m.effectIn == old(m.effectIn) && m.effectOut == old(m.effectOut) &&
    m.scrollTo == Some(if a == Matrix.ScrollNext then m.tabs[m.currentTab].next else m.tabs[m.currentTab].prev)
  }

  /** The main light's duty went one step up (`up`) or down round 0..7,
      its off-timer running exactly while it is lit with a duration set. */
  twostate predicate DutyStepped(l: MainLight.MainLight, up: bool)
    reads l, l.ledc, l.duration
  {
    l.Valid() && old(l.ledc.curDuty) <= 7 &&
    l.ledc.curDuty == (if up then DutyUp(old(l.ledc.curDuty), 7) else DutyDown(old(l.ledc.curDuty), 7)) &&
    l.timer.running == (l.ledc.curDuty > 0 && l.duration.value > 0) && l.timer.periodMs == old(l.timer.periodMs)
  }

  /** The alarm menu's edit `e` of alarm `a`, `now` being AC.now; the state
      is kept. */
  twostate predicate Edited(a: Alarm, e: AlarmEdit, now: DateTime)
    reads a
  {
    a.state == old(a.state) && a.Settings() == EditedSettings(old(a.Settings()), e, now)
  }

  /** The settings after the alarm menu's edit `e`. */
  function EditedSettings(s: AlarmSettings, e: AlarmEdit, now: DateTime): AlarmSettings
  {
    match e
    case NoEdit => s
    case FlipToggle => s.(toggle := !s.toggle)
    case In8h =>
      var t := now + 8 * 3600;
      s.(hour := HourOf(t), minute := MinuteOf(t), repeat := In8hRepeat(s.repeat, Weekday(t)), toggle := true)
  }

  /** setAlarm ran for `a`: its slot's flag is cleared and the slot holds
      the time getAlarmTime computes, is disabled when there is none, or is kept
      when the RTC refuses the time. */
  twostate predicate Rearmed(a: Alarm, rtc: Rtc)
    reads a, rtc
  {
    var slot := NToInt(a.n);
    var t := AlarmTimeAsWritten(a.hour, a.minute, a.repeat, a.toggle, old(rtc.now));
    rtc.fired == old(rtc.fired) - {slot} &&
    rtc.armed == (if t == NIL then old(rtc.armed) - {slot}
                  else if old(rtc.accepts) then old(rtc.armed)[slot := t]
                  else old(rtc.armed)) &&
    rtc.now == old(rtc.now) && rtc.accepts == old(rtc.accepts)
  }

  /** As written, "set in 8h" from the menu never reaches the RTC: the
      alarm's next time is now + 8h, but the slot stays as it was, here
      disarmed, so the alarm does not go off. */
  lemma In8hUnarmedAsWritten(repeat: bv8, now: DateTime, armed: map<int, DateTime>)
    requires now >= 0 && 1 !in armed
    ensures AlarmMenuEdit(Center, 2) == In8h && !AlarmMenuArmsAsWritten(Center, 2)
    ensures AlarmMenuEdit(Right, 2) == In8h && !AlarmMenuArmsAsWritten(Right, 2)
    ensures AlarmMenuEdit(Center, 1) == FlipToggle && !AlarmMenuArmsAsWritten(Center, 1)
    ensures var t := now + 8 * 3600;
      var next := AlarmTimeAsWritten(HourOf(t), MinuteOf(t), In8hRepeat(repeat, Weekday(t)), true, now);
      next == t - t % 60 && next != NIL && 1 !in armed
  {
    In8hFromNowGoesOffIn8h(repeat, now);
  }

  // ---------------------------------------------------------------------
  // The handles
  // ---------------------------------------------------------------------

  /** uiHome: Center opens the defuse frame while an alarm rings, the
      snooze frame while one is snoozed, else the overview (and only then
      is the UI active); Left/Right scroll the matrix and start its return
      timer, whose callback is Matrix.Matrix32x8.ScrollToStart; Up/Down
      step the main light. */
  method UiHome(c: Clock, pads: Pads)
    requires c.Valid()
    modifies c, c.navigator, c.matrix, c.mainLight, c.mainLight.ledc, c.ui
    ensures c.Valid() && InputRead(c, pads)
    ensures var dir := Pressed(c, pads);
      c.Vars() == AfterInput(c, pads).(
        uiActive := dir == Center && !old(c.AnyPlaying()) && !old(c.AnySnoozed()),
        matrixScrollTimer := if dir == Left || dir == Right then old(c.matrixScrollTimer).Start() else old(c.matrixScrollTimer))
    ensures Moved(c.ui, HomeMove(Pressed(c, pads), old(c.AnyPlaying()), old(c.AnySnoozed())))
    ensures Pressed(c, pads) == Left ==> Scrolled(c.matrix, Matrix.ScrollPrev)
    ensures Pressed(c, pads) == Right ==> Scrolled(c.matrix, Matrix.ScrollNext)
    ensures Pressed(c, pads) != Left && Pressed(c, pads) != Right ==> unchanged(c.matrix)
    ensures Pressed(c, pads) == Up ==> DutyStepped(c.mainLight, true)
    ensures Pressed(c, pads) == Down ==> DutyStepped(c.mainLight, false)
    ensures Pressed(c, pads) != Up && Pressed(c, pads) != Down ==> unchanged(c.mainLight, c.mainLight.ledc)
  {
    c.uiActive := false;
    var dir := GetInput(c, pads);
    HomeReact(c, dir);
  }

  /** uiHome's reaction to a pressed pad. */
  method HomeReact(c: Clock, dir: Direction)
    requires c.Valid()
    modifies c, c.matrix, c.mainLight, c.mainLight.ledc, c.ui
    ensures c.Valid()
    ensures c.Vars() == old(c.Vars()).(
        uiActive := (dir == Center && !c.AnyPlaying() && !c.AnySnoozed()) || old(c.uiActive),
        matrixScrollTimer := if dir == Left || dir == Right then old(c.matrixScrollTimer).Start() else old(c.matrixScrollTimer))
    ensures Moved(c.ui, HomeMove(dir, c.AnyPlaying(), c.AnySnoozed()))
    ensures dir == Left ==> Scrolled(c.matrix, Matrix.ScrollPrev)
    ensures dir == Right ==> Scrolled(c.matrix, Matrix.ScrollNext)
    ensures dir != Left && dir != Right ==> unchanged(c.matrix)
    ensures dir == Up ==> DutyStepped(c.mainLight, true)
    ensures dir == Down ==> DutyStepped(c.mainLight, false)
    ensures dir != Up && dir != Down ==> unchanged(c.mainLight, c.mainLight.ledc)
  {
    match dir
    case Center =>
      HomeOpen(c);
    case Left =>
      c.matrix.ScrollPrevTab();
      c.matrixScrollTimer := c.matrixScrollTimer.Start();
    case Right =>
      c.matrix.ScrollNextTab();
      c.matrixScrollTimer := c.matrixScrollTimer.Start();
    case Up =>
      c.mainLight.IncrDuty();
    case Down =>
      c.mainLight.DecrDuty();
    case _ =>
  }

  /** uiHome on Center: the defuse frame while an alarm rings, else the
      snooze frame while one is snoozed, else the overview, which makes the
      UI active. */
  method HomeOpen(c: Clock)
    requires c.Valid()
    modifies c, c.ui
    ensures c.Valid()
    ensures c.Vars() == old(c.Vars()).(uiActive := (!c.AnyPlaying() && !c.AnySnoozed()) || old(c.uiActive))
    ensures Moved(c.ui, HomeMove(Center, c.AnyPlaying(), c.AnySnoozed()))
  {
    if c.AnyPlaying() {
      c.ui.TransitionToFrame(DEFUSE_FRAME);
    } else if c.AnySnoozed() {
      c.ui.TransitionToFrame(SNOOZE_FRAME);
    } else {
      c.uiActive := true;
      c.ui.TransitionToFrame(OVERVIEW_FRAME);
    }
  }

  /** uiAlarm: Center, Left and Right open the defuse frame; Up/Down step
      the main light. */
  method UiAlarm(c: Clock, pads: Pads)
    requires c.Valid()
    modifies c, c.navigator, c.mainLight, c.mainLight.ledc, c.ui
    ensures c.Valid() && InputRead(c, pads) && c.Vars() == AfterInput(c, pads)
    ensures Moved(c.ui, AlarmMove(Pressed(c, pads)))
    ensures Pressed(c, pads) == Up ==> DutyStepped(c.mainLight, true)
    ensures Pressed(c, pads) == Down ==> DutyStepped(c.mainLight, false)
    ensures Pressed(c, pads) != Up && Pressed(c, pads) != Down ==> unchanged(c.mainLight, c.mainLight.ledc)
  {
    var dir := GetInput(c, pads);
    match dir
    case Center | Left | Right =>
      c.ui.TransitionToFrame(DEFUSE_FRAME);
    case Up =>
      c.mainLight.IncrDuty();
    case Down =>
      c.mainLight.DecrDuty();
    case _ =>
  }

  /** The snooze time after uiAlarmSnooze: Up/Down step it along the
      ladder while no alarm is snoozed. */
  function SnoozeSetting(dir: Direction, snoozed: bool, t: Byte): Byte
  {
    if snoozed then t
    else if dir == Up then SnoozeUp(t)
    else if dir == Down then SnoozeDown(t)
    else t
  }

  /** uiAlarmSnooze: while no alarm is snoozed, Center/Right snooze the
      ringing alarms and go home, and Up/Down change the snooze time; while
      one is, Center/Right open the defuse frame. Left goes back. */
  method UiAlarmSnooze(c: Clock, pads: Pads)
    requires c.Valid()
    modifies c, c.navigator, c.ui, c.alarm1, c.alarm2, c.rtc, c.indicatorLight
    ensures c.Valid() && InputRead(c, pads)
    ensures Moved(c.ui, SnoozeMove(Pressed(c, pads), old(c.AnySnoozed()), old(c.AnyPlaying())))
    ensures var dir := Pressed(c, pads);
      (dir == Center || dir == Right) && !old(c.AnySnoozed()) ==>
        c.Vars() == AfterInput(c, pads).(player := old(c.player) + [StopPlayback],
                                         alarmTurnOffTimer := old(c.alarmTurnOffTimer).Stop()) &&
        AlarmsSnoozed(c, old(c.snoozeTime))
    ensures var dir := Pressed(c, pads);
      !((dir == Center || dir == Right) && !old(c.AnySnoozed())) ==>
        c.Vars() == AfterInput(c, pads).(snoozeTime := SnoozeSetting(dir, old(c.AnySnoozed()), old(c.snoozeTime))) &&
        unchanged(c.alarm1, c.alarm2, c.rtc, c.indicatorLight)
  {
    var dir := GetInput(c, pads);
    SnoozeReact(c, dir);
  }

  /** uiAlarmSnooze's reaction to a pressed pad. */
  method SnoozeReact(c: Clock, dir: Direction)
    requires c.Valid()
    modifies c, c.ui, c.alarm1, c.alarm2, c.rtc, c.indicatorLight
    ensures c.Valid()
    ensures Moved(c.ui, SnoozeMove(dir, old(c.AnySnoozed()), old(c.AnyPlaying())))
    ensures (dir == Center || dir == Right) && !old(c.AnySnoozed()) ==>
      c.Vars() == old(c.Vars()).(player := old(c.player) + [StopPlayback],
                                 alarmTurnOffTimer := old(c.alarmTurnOffTimer).Stop()) &&
      AlarmsSnoozed(c, old(c.snoozeTime))
    ensures !((dir == Center || dir == Right) && !old(c.AnySnoozed())) ==>
      c.Vars() == old(c.Vars()).(snoozeTime := SnoozeSetting(dir, old(c.AnySnoozed()), old(c.snoozeTime))) &&
      unchanged(c.alarm1, c.alarm2, c.rtc, c.indicatorLight)
  {
    var snoozed := c.AnySnoozed();
    var playing := c.AnyPlaying();
    match dir
    case Center | Right =>
      SnoozeConfirm(c);
    case Left =>
      if playing {
        c.ui.TransitionToFrame(ALARM_FRAME);
      } else {
        c.ui.TransitionToFrame(HOME_FRAME);
      }
    case Up =>
      if !snoozed {
        c.snoozeTime := SnoozeUp(c.snoozeTime);
      }
    case Down =>
      if !snoozed {
        c.snoozeTime := SnoozeDown(c.snoozeTime);
      }
    case _ =>
  }

  /** uiAlarmSnooze on Center/Right: the defuse frame while an alarm is
      snoozed, else the ringing alarms are snoozed and the menu goes home. */
  method SnoozeConfirm(c: Clock)
    requires c.Valid()
    modifies c, c.ui, c.alarm1, c.alarm2, c.rtc, c.indicatorLight
    ensures c.Valid()
    ensures Moved(c.ui, SnoozeMove(Center, old(c.AnySnoozed()), old(c.AnyPlaying())))
    ensures !old(c.AnySnoozed()) ==>
      c.Vars() == old(c.Vars()).(player := old(c.player) + [StopPlayback],
                                 alarmTurnOffTimer := old(c.alarmTurnOffTimer).Stop()) &&
      AlarmsSnoozed(c, old(c.snoozeTime))
    ensures old(c.AnySnoozed()) ==> c.Vars() == old(c.Vars()) && unchanged(c.alarm1, c.alarm2, c.rtc, c.indicatorLight)
  {
    if c.AnySnoozed() {
      c.ui.TransitionToFrame(DEFUSE_FRAME);
    } else {
      SnoozeAlarms(c);
      c.ui.TransitionToFrame(HOME_FRAME);
    }
  }

  /** uiAlarmDefuse: below the last digit, a digit pad stores its digit at
      the cursor and moves on, Center leaves; at cursor 6 the code is
      checked: a mismatch resets the snooze time to 5, opens the snooze
      frame and returns without reading the pads; a match stops everything
      and goes home, and then, as written, falls through to read the pads
      with the cursor still 6 (DefusedMove). */
  method UiAlarmDefuse(c: Clock, pads: Pads)
    requires c.Valid() && c.ui.cursor <= CODE_LENGTH
    modifies c, c.navigator, c.ui, c.code, c.alarm1, c.alarm2, c.rtc, c.indicatorLight
    ensures c.Valid()
    ensures old(c.ui.cursor) == CODE_LENGTH && old(c.code[..]) != old(c.defuseCode[..]) ==>
      c.Vars() == old(c.Vars()).(snoozeTime := 5) && Moved(c.ui, ToFrame(SNOOZE_FRAME)) &&
      unchanged(c.navigator, c.alarm1, c.alarm2, c.rtc, c.indicatorLight)
    ensures old(c.ui.cursor) == CODE_LENGTH && old(c.code[..]) == old(c.defuseCode[..]) ==>
      InputRead(c, pads) &&
      c.Vars() == old(c.Vars()).(player := old(c.player) + [StopPlayback, StopPlayback],
                                 alarmTurnOffTimer := old(c.alarmTurnOffTimer).Stop(),
                                 uiTimer := InputTimer(old(c.uiTimer), Pressed(c, pads), false)) &&
      AlarmsStopped(c) && Moved(c.ui, DefusedMove(Pressed(c, pads), old(c.AnyPlaying())))
    ensures old(c.ui.cursor) < CODE_LENGTH ==>
      InputRead(c, pads) && c.Vars() == AfterInput(c, pads) &&
      Moved(c.ui, DefuseMove(Pressed(c, pads), old(c.ui.cursor), old(c.AnyPlaying()))) &&
      unchanged(c.alarm1, c.alarm2, c.rtc, c.indicatorLight)
    ensures var w := DefuseWriteAsWritten(old(c.ui.cursor), old(c.code[..]) == old(c.defuseCode[..]), Pressed(c, pads));
      c.code[..] == if w.Some? && w.value < CODE_LENGTH then old(c.code[..])[w.value := DefuseDigit(Pressed(c, pads))]
                    else old(c.code[..])
  {
    var cursor := c.ui.GetCursor();
    var playing := c.AnyPlaying();
    if cursor == CODE_LENGTH {
      var ok := CodeMatches(c.code, c.defuseCode);
      if !ok {
        c.snoozeTime := 5;
        c.ui.TransitionToFrame(SNOOZE_FRAME);
        return;
      }
      DefusedThenInput(c, pads, playing);
      return;
    }
    var dir := GetInput(c, pads);
    DefuseReact(c, dir, cursor, playing);
  }

  /** The rest of the pass that accepts a full code, as written: the alarms
      stop and the menu goes home (Defused), then the pads are read and the
      switch runs with the cursor 6 and `playing` read on entry. */
  method DefusedThenInput(c: Clock, pads: Pads, playing: bool)
    requires c.Valid()
    modifies c, c.navigator, c.ui, c.code, c.alarm1, c.alarm2, c.rtc, c.indicatorLight
    ensures c.Valid() && InputRead(c, pads)
    ensures c.Vars() == old(c.Vars()).(player := old(c.player) + [StopPlayback, StopPlayback],
                                       alarmTurnOffTimer := old(c.alarmTurnOffTimer).Stop(),
                                       uiTimer := InputTimer(old(c.uiTimer), Pressed(c, pads), false))
    ensures AlarmsStopped(c) && Moved(c.ui, DefusedMove(Pressed(c, pads), playing))
    ensures c.code[..] == old(c.code[..])
  {
    Defused(c);
    var dir := GetInput(c, pads);
    DefuseReact(c, dir, CODE_LENGTH, playing);
  }

  /** uiAlarmDefuse as evidently intended: the pass that checks a full code
      ends there, whatever the outcome, so the pads are not read and no
      digit is written past the code. */
  method UiAlarmDefuseReturning(c: Clock, pads: Pads)
    requires c.Valid() && c.ui.cursor <= CODE_LENGTH
    modifies c, c.navigator, c.ui, c.code, c.alarm1, c.alarm2, c.rtc, c.indicatorLight
    ensures c.Valid()
    ensures old(c.ui.cursor) == CODE_LENGTH && old(c.code[..]) != old(c.defuseCode[..]) ==>
      c.Vars() == old(c.Vars()).(snoozeTime := 5) && Moved(c.ui, ToFrame(SNOOZE_FRAME)) &&
      unchanged(c.navigator, c.alarm1, c.alarm2, c.rtc, c.indicatorLight)
    ensures old(c.ui.cursor) == CODE_LENGTH && old(c.code[..]) == old(c.defuseCode[..]) ==>
      c.Vars() == old(c.Vars()).(player := old(c.player) + [StopPlayback, StopPlayback],
                                 alarmTurnOffTimer := old(c.alarmTurnOffTimer).Stop()) &&
      AlarmsStopped(c) && Moved(c.ui, ToFrame(HOME_FRAME)) && unchanged(c.navigator)
    ensures old(c.ui.cursor) < CODE_LENGTH ==>
      InputRead(c, pads) && c.Vars() == AfterInput(c, pads) &&
      Moved(c.ui, DefuseMove(Pressed(c, pads), old(c.ui.cursor), old(c.AnyPlaying()))) &&
      unchanged(c.alarm1, c.alarm2, c.rtc, c.indicatorLight)
    ensures var w := DefuseWrite(old(c.ui.cursor), Pressed(c, pads));
      c.code[..] == if w.Some? then old(c.code[..])[w.value := DefuseDigit(Pressed(c, pads))] else old(c.code[..])
  {
    var cursor := c.ui.GetCursor();
    if cursor == CODE_LENGTH {
      DefuseCheck(c);
      return;
    }
    var playing := c.AnyPlaying();
    var dir := GetInput(c, pads);
    DefuseReact(c, dir, cursor, playing);
  }

  /** The check of a complete defuse code. */
  method DefuseCheck(c: Clock)
    requires c.Valid() && c.ui.cursor == CODE_LENGTH
    modifies c, c.ui, c.alarm1, c.alarm2, c.rtc, c.indicatorLight
    ensures c.Valid()
    ensures c.code[..] != c.defuseCode[..] ==>
      c.Vars() == old(c.Vars()).(snoozeTime := 5) && Moved(c.ui, ToFrame(SNOOZE_FRAME)) &&
      unchanged(c.alarm1, c.alarm2, c.rtc, c.indicatorLight)
    ensures c.code[..] == c.defuseCode[..] ==>
      c.Vars() == old(c.Vars()).(player := old(c.player) + [StopPlayback, StopPlayback],
                                 alarmTurnOffTimer := old(c.alarmTurnOffTimer).Stop()) &&
      AlarmsStopped(c) && Moved(c.ui, ToFrame(HOME_FRAME))
  {
    var ok := CodeMatches(c.code, c.defuseCode);
    if !ok {
      c.snoozeTime := 5;
      c.ui.TransitionToFrame(SNOOZE_FRAME);
      return;
    }
    Defused(c);
  }

  /** A matching defuse code: the player and the alarms stop, the menu goes home. */
  method Defused(c: Clock)
    requires c.Valid()
    modifies c, c.ui, c.alarm1, c.alarm2, c.rtc, c.indicatorLight
    ensures c.Valid()
    ensures c.Vars() == old(c.Vars()).(player := old(c.player) + [StopPlayback, StopPlayback],
                                       alarmTurnOffTimer := old(c.alarmTurnOffTimer).Stop())
    ensures AlarmsStopped(c) && Moved(c.ui, ToFrame(HOME_FRAME))
  {
    c.player := c.player + [StopPlayback];
    c.indicatorLight.ToggleOff();
    c.ui.TransitionToFrame(HOME_FRAME);
    StopAlarms(c);
  }

  /** uiAlarmDefuse's switch on the pad read, with the cursor and whether
      an alarm was playing as the handle read them on entry. A digit pad
      writes its digit at the cursor and steps the cursor; at cursor 6 the
      source writes `code[6]`, past the six digits, which is not modelled. */
  method DefuseReact(c: Clock, dir: Direction, cursor: Byte, playing: bool)
    requires c.Valid() && cursor <= CODE_LENGTH
    modifies c.ui, c.code
    ensures c.Valid()
    ensures Moved(c.ui, DefuseMove(dir, cursor, playing))
    ensures var w := DefuseWrite(cursor, dir);
      c.code[..] == if w.Some? then old(c.code[..])[w.value := DefuseDigit(dir)] else old(c.code[..])
  {
    if dir == Center {
      if playing {
        c.ui.TransitionToFrame(ALARM_FRAME);
      } else {
        c.ui.TransitionToFrame(HOME_FRAME);
      }
    } else if IsDigitPad(dir) {
      if cursor < CODE_LENGTH {
        c.code[cursor] := DefuseDigit(dir);
      }
      c.ui.SetCursor(cursor + 1);
    }
  }

  /** uiOverview: Center/Right open the settings, Left goes home. */
  method UiOverview(c: Clock, pads: Pads)
    requires c.Valid()
    modifies c, c.navigator, c.ui
    ensures c.Valid() && InputRead(c, pads) && c.Vars() == AfterInput(c, pads)
    ensures Moved(c.ui, OverviewMove(Pressed(c, pads)))
  {
    var dir := GetInput(c, pads);
    match dir
    case Center | Right =>
      c.ui.TransitionToFrame(SETTINGS_FRAME);
    case Left =>
      c.ui.TransitionToFrame(HOME_FRAME);
    case _ =>
  }

  /** uiSettings: Center/Right open the entry under the cursor (entries 0
      and 1 also select alarm 1 or 2), Left goes back, Up/Down move round
      the six entries. */
  method UiSettings(c: Clock, pads: Pads)
    requires c.Valid()
    modifies c, c.navigator, c.ui
    ensures c.Valid() && InputRead(c, pads)
    ensures c.Vars() == AfterInput(c, pads).(alarmToSet := SettingsSelection(Pressed(c, pads), old(c.ui.cursor), old(c.alarmToSet)))
    ensures Moved(c.ui, SettingsMove(Pressed(c, pads), old(c.ui.cursor)))
  {
    var dir := GetInput(c, pads);
    SettingsReact(c, dir);
  }

  /** uiSettings's reaction to a pressed pad. */
  method SettingsReact(c: Clock, dir: Direction)
    requires c.Valid()
    modifies c, c.ui
    ensures c.Valid()
    ensures c.Vars() == old(c.Vars()).(alarmToSet := SettingsSelection(dir, old(c.ui.cursor), old(c.alarmToSet)))
    ensures Moved(c.ui, SettingsMove(dir, old(c.ui.cursor)))
  {
    var cursor := c.ui.GetCursor();
    match dir
    case Center | Right =>
      SettingsOpen(c);
    case Left =>
      c.ui.TransitionToFrame(OVERVIEW_FRAME);
    case Up =>
      c.ui.SetCursor((cursor as int + 5) % 6);
    case Down =>
      c.ui.SetCursor((cursor as int + 1) % 6);
    case _ =>
  }

  /** uiSettings on Center/Right: opens the entry under the cursor. */
  method SettingsOpen(c: Clock)
    requires c.Valid()
    modifies c, c.ui
    ensures c.Valid()
    ensures c.Vars() == old(c.Vars()).(alarmToSet := SettingsSelection(Center, old(c.ui.cursor), old(c.alarmToSet)))
    ensures Moved(c.ui, SettingsMove(Center, old(c.ui.cursor)))
  {
    var cursor := c.ui.GetCursor();
    if cursor == 0 {
      c.alarmToSet := One;
      c.ui.TransitionToFrame(ALARM_MENU_FRAME);
    } else if cursor == 1 {
      c.alarmToSet := Two;
      c.ui.TransitionToFrame(ALARM_MENU_FRAME);
    } else if cursor == 2 {
      c.ui.TransitionToFrame(PLAYER_MENU_FRAME);
    } else if cursor == 3 {
      c.ui.TransitionToFrame(LIGHT_DURATION_FRAME);
    } else if cursor == 4 {
      c.ui.TransitionToFrame(WIFI_MENU_FRAME);
    } else if cursor == 5 {
      c.ui.TransitionToFrame(INFO_FRAME);
    }
  }

  /** An alarm menu edit, followed by setAlarm when `arm` holds; the RTC
      is untouched otherwise. */
  method EditAlarm(a: Alarm, rtc: Rtc, e: AlarmEdit, arm: bool, now: DateTime)
    modifies a, rtc
    ensures Edited(a, e, now)
    ensures arm ==> Rearmed(a, rtc)
    ensures !arm ==> unchanged(rtc)
  {
    if e == FlipToggle {
      a.toggle := !a.toggle;
    } else if e == In8h {
      a.SetIn8hFromNow(now);
    }
    if arm {
      var _ := SetAlarm(a, rtc);
    }
  }

  /** The alarm menu edit as evidently intended: every edit is followed by
      setAlarm, so the RTC always holds the edited alarm's time. */
  method EditAndArm(a: Alarm, rtc: Rtc, e: AlarmEdit, now: DateTime)
    modifies a, rtc
    ensures Edited(a, e, now)
    ensures e == NoEdit ==> unchanged(rtc)
    ensures e != NoEdit ==> Rearmed(a, rtc)
  {
    EditAlarm(a, rtc, e, e != NoEdit, now);
  }

  /** uiAlarmMenu for the selected alarm: entry 0 opens the time frame and
      entry 3 the sound frame; entry 1 enables/disables the alarm and entry
      2 sets it 8 hours from now (Center stays, Right goes home); Left
      returns to its settings entry; Up/Down move round the four entries.
      Only Right on entry 1 calls setAlarm (AlarmMenuArmsAsWritten): the
      other edits leave the RTC as it was. The edit of the alarm and the
      move on the menu touch disjoint objects, so they are made one after
      the other. */
  method UiAlarmMenu(c: Clock, pads: Pads)
    requires c.Valid()
    modifies c, c.navigator, c.ui, c.alarm1, c.alarm2, c.rtc
    ensures c.Valid() && InputRead(c, pads) && c.Vars() == AfterInput(c, pads)
    ensures Moved(c.ui, AlarmMenuMove(Pressed(c, pads), old(c.ui.cursor), old(c.alarmToSet)))
    ensures Edited(old(c.SelectedAlarm()), AlarmMenuEdit(Pressed(c, pads), old(c.ui.cursor)), old(c.now))
    ensures unchanged(if old(c.alarmToSet) == One then c.alarm2 else c.alarm1)
    ensures AlarmMenuArmsAsWritten(Pressed(c, pads), old(c.ui.cursor)) ==> Rearmed(old(c.SelectedAlarm()), c.rtc)
    ensures !AlarmMenuArmsAsWritten(Pressed(c, pads), old(c.ui.cursor)) ==> unchanged(c.rtc)
  {
    var dir := GetInput(c, pads);
    AlarmMenuReact(c, dir);
  }

  /** uiAlarmMenu's reaction to a pressed pad. */
  method AlarmMenuReact(c: Clock, dir: Direction)
    requires c.Valid()
    modifies c.ui, c.alarm1, c.alarm2, c.rtc
    ensures c.Valid()
    ensures Moved(c.ui, AlarmMenuMove(dir, old(c.ui.cursor), c.alarmToSet))
    ensures Edited(c.SelectedAlarm(), AlarmMenuEdit(dir, old(c.ui.cursor)), c.now)
    ensures unchanged(if c.alarmToSet == One then c.alarm2 else c.alarm1)
    ensures AlarmMenuArmsAsWritten(dir, old(c.ui.cursor)) ==> Rearmed(c.SelectedAlarm(), c.rtc)
    ensures !AlarmMenuArmsAsWritten(dir, old(c.ui.cursor)) ==> unchanged(c.rtc)
  {
    var cursor := c.ui.GetCursor();
    EditAlarm(if c.alarmToSet == One then c.alarm1 else c.alarm2, c.rtc, AlarmMenuEdit(dir, cursor),
              AlarmMenuArmsAsWritten(dir, cursor), c.now);
    AlarmMenuNavigate(c.ui, dir, c.alarmToSet);
  }

  /** uiAlarmMenu's reaction as evidently intended: every edit re-arms the
      alarm (EditAndArm). */
  method AlarmMenuReactArming(c: Clock, dir: Direction)
    requires c.Valid()
    modifies c.ui, c.alarm1, c.alarm2, c.rtc
    ensures c.Valid()
    ensures Moved(c.ui, AlarmMenuMove(dir, old(c.ui.cursor), c.alarmToSet))
    ensures Edited(c.SelectedAlarm(), AlarmMenuEdit(dir, old(c.ui.cursor)), c.now)
    ensures unchanged(if c.alarmToSet == One then c.alarm2 else c.alarm1)
    ensures AlarmMenuEdit(dir, old(c.ui.cursor)) == NoEdit ==> unchanged(c.rtc)
    ensures AlarmMenuEdit(dir, old(c.ui.cursor)) != NoEdit ==> Rearmed(c.SelectedAlarm(), c.rtc)
  {
    var cursor := c.ui.GetCursor();
    EditAndArm(if c.alarmToSet == One then c.alarm1 else c.alarm2, c.rtc, AlarmMenuEdit(dir, cursor), c.now);
    AlarmMenuNavigate(c.ui, dir, c.alarmToSet);
  }

  /** The moves of uiAlarmMenu on the menu. */
  method AlarmMenuNavigate(ui: UIDisplay<Handle>, dir: Direction, alarmToSet: N)
    requires ui.Valid() && ui.handles == FRAMES
    modifies ui
    ensures ui.Valid()
    ensures Moved(ui, AlarmMenuMove(dir, old(ui.cursor), alarmToSet))
  {
    var cursor := ui.GetCursor();
    if dir == Center && (cursor == 1 || cursor == 2) {
    } else if dir == Center || dir == Right {
      if cursor == 0 {
        ui.TransitionToFrame(ALARM_TIME_FRAME);
      } else if cursor == 1 || cursor == 2 {
        ui.TransitionToFrame(HOME_FRAME);
      } else if cursor == 3 {
        ui.TransitionToFrame(ALARM_SOUND_FRAME);
      }
    } else if dir == Left {
      ui.TransitionToFrame(SETTINGS_FRAME);
      ui.SetCursor(if alarmToSet == One then 0 else 1);
    } else if dir == Up {
      ui.SetCursor((cursor as int + 3) % 4);
    } else if dir == Down {
      ui.SetCursor((cursor as int + 1) % 4);
    }
  }

  /** The alarm time frame's edit of an alarm: TimeEdit on its settings. */
  twostate predicate TimeEdited(a: Alarm, cursor: Byte, up: bool)
    requires cursor <= 10
    reads a
  {
    a.state == old(a.state) && a.Settings() == TimeEdit(old(a.Settings()), cursor, up)
  }

  /** Up/Down on the alarm time frame: the digit or day under the cursor
      steps and the alarm is enabled. */
  method EditTime(a: Alarm, cursor: Byte, up: bool)
    requires cursor <= 10
    modifies a
    ensures TimeEdited(a, cursor, up)
  {
    var h := a.hour;
    var m := a.minute;
    var r := a.repeat;
    if cursor == 0 {
      a.hour := if up then HourTensUp(h) else HourTensDown(h);
    } else if cursor == 1 {
      a.hour := if up then HourOnesUp(h) else HourOnesDownAsWritten(h);
    } else if cursor == 2 {
      a.minute := if up then MinuteTensUp(m) else MinuteTensDown(m);
    } else if cursor == 3 {
      a.minute := if up then MinuteOnesUp(m) else MinuteOnesDownAsWritten(m);
    } else {
      a.repeat := if up then SetRepeatDay(r, cursor - 4) else ClearRepeatDay(r, cursor - 4);
    }
    a.toggle := true;
  }

  /** The time edit followed by setAlarm, which re-arms the alarm. */
  method EditTimeAndArm(a: Alarm, rtc: Rtc, cursor: Byte, up: bool)
    requires cursor <= 10
    modifies a, rtc
    ensures TimeEdited(a, cursor, up) && Rearmed(a, rtc)
  {
    EditTime(a, cursor, up);
    var _ := SetAlarm(a, rtc);
  }

  /** uiAlarmTime for the selected alarm: Left/Right walk the cursor over
      the four digits and seven weekdays (leaving to the alarm menu before
      the first, home after the last), Center goes home, Up/Down edit the
      item under the cursor and re-arm the alarm. */
  method UiAlarmTime(c: Clock, pads: Pads)
    requires c.Valid() && c.ui.cursor <= 10
    modifies c, c.navigator, c.ui, c.alarm1, c.alarm2, c.rtc
    ensures c.Valid() && InputRead(c, pads) && c.Vars() == AfterInput(c, pads)
    ensures Moved(c.ui, AlarmTimeMove(Pressed(c, pads), old(c.ui.cursor)))
    ensures Pressed(c, pads) == Up || Pressed(c, pads) == Down ==>
      TimeEdited(old(c.SelectedAlarm()), old(c.ui.cursor), Pressed(c, pads) == Up) &&
      Rearmed(old(c.SelectedAlarm()), c.rtc)
    ensures Pressed(c, pads) != Up && Pressed(c, pads) != Down ==> unchanged(c.alarm1, c.alarm2, c.rtc)
    ensures unchanged(if old(c.alarmToSet) == One then c.alarm2 else c.alarm1)
  {
    var dir := GetInput(c, pads);
    AlarmTimeReact(c, dir);
  }

  /** uiAlarmTime's reaction to a pressed pad. */
  method AlarmTimeReact(c: Clock, dir: Direction)
    requires c.Valid() && c.ui.cursor <= 10
    modifies c.ui, c.alarm1, c.alarm2, c.rtc
    ensures c.Valid()
    ensures Moved(c.ui, AlarmTimeMove(dir, old(c.ui.cursor)))
    ensures dir == Up || dir == Down ==> TimeEdited(c.SelectedAlarm(), old(c.ui.cursor), dir == Up) && Rearmed(c.SelectedAlarm(), c.rtc)
    ensures dir != Up && dir != Down ==> unchanged(c.alarm1, c.alarm2, c.rtc)
    ensures unchanged(if c.alarmToSet == One then c.alarm2 else c.alarm1)
  {
    var cursor := c.ui.GetCursor();
    var alarm := if c.alarmToSet == One then c.alarm1 else c.alarm2;
    match dir
    case Left =>
      if cursor == 0 {
        c.ui.TransitionToFrame(ALARM_MENU_FRAME);
      } else {
        c.ui.SetCursor(cursor - 1);
      }
    case Center =>
      c.ui.TransitionToFrame(HOME_FRAME);
    case Right =>
      if cursor == 10 {
        c.ui.TransitionToFrame(HOME_FRAME);
      } else {
        c.ui.SetCursor(cursor + 1);
      }
    case Up =>
      EditTimeAndArm(alarm, c.rtc, cursor, true);
    case Down =>
      EditTimeAndArm(alarm, c.rtc, cursor, false);
    case _ =>
  }

  /** An alarm whose sound alone changed, to `v`. */
  twostate predicate SoundSet(a: Alarm, v: Byte)
    reads a
  {
    a.state == old(a.state) && a.Settings() == old(a.Settings()).(sound := v)
  }

  /** The sound Center plays on the alarm sound and player play frames: the
      one selected, or for 0 the random draw. */
  function PlayChoice(selected: Byte, draw: nat): PlayerCommand
  {
    Play(if selected != 0 then selected else U8(draw))
  }

  /** uiAlarmSound for the selected alarm: Center plays its sound (sound 0
      stands for a random one; `draw` is `random(numSounds)`), Up/Down step
      the sound round the catalogue size, Left returns to the alarm menu
      with the cursor on entry 2, "set in 8h" (AlarmSoundMoveAsWritten),
      Right goes home. */
  method UiAlarmSound(c: Clock, pads: Pads, draw: nat)
    requires c.Valid() && RandomDraw(c.sounds.Length, draw)
    requires var d := Step(c.navigator.touched, pads).0; d == Up || d == Down ==> c.sounds.Length >= 1
    modifies c, c.navigator, c.ui, c.alarm1, c.alarm2
    ensures c.Valid() && InputRead(c, pads)
    ensures c.Vars() == AfterInput(c, pads).(player := old(c.player) +
      if Pressed(c, pads) == Center then [PlayChoice(old(c.SelectedAlarm().sound), draw)] else [])
    ensures Moved(c.ui, AlarmSoundMoveAsWritten(Pressed(c, pads)))
    ensures Pressed(c, pads) == Up ==> SoundSet(old(c.SelectedAlarm()), U8(MenuNext(old(c.SelectedAlarm().sound), c.sounds.Length)))
    ensures Pressed(c, pads) == Down ==> SoundSet(old(c.SelectedAlarm()), U8(MenuPrev(old(c.SelectedAlarm().sound), c.sounds.Length)))
    ensures Pressed(c, pads) != Up && Pressed(c, pads) != Down ==> unchanged(c.alarm1, c.alarm2)
    ensures unchanged(if old(c.alarmToSet) == One then c.alarm2 else c.alarm1)
  {
    var dir := GetInput(c, pads);
    AlarmSoundReact(c, dir, draw);
  }

  /** uiAlarmSound's reaction to a pressed pad. */
  method AlarmSoundReact(c: Clock, dir: Direction, draw: nat)
    requires c.Valid()
    requires dir == Up || dir == Down ==> c.sounds.Length >= 1
    modifies c, c.ui, c.alarm1, c.alarm2
    ensures c.Valid()
    ensures c.Vars() == old(c.Vars()).(player := old(c.player) +
      if dir == Center then [PlayChoice(old(c.SelectedAlarm().sound), draw)] else [])
    ensures Moved(c.ui, AlarmSoundMoveAsWritten(dir))
    ensures dir == Up ==> SoundSet(old(c.SelectedAlarm()), U8(MenuNext(old(c.SelectedAlarm().sound), c.sounds.Length)))
    ensures dir == Down ==> SoundSet(old(c.SelectedAlarm()), U8(MenuPrev(old(c.SelectedAlarm().sound), c.sounds.Length)))
    ensures dir != Up && dir != Down ==> unchanged(c.alarm1, c.alarm2)
    ensures unchanged(if old(c.alarmToSet) == One then c.alarm2 else c.alarm1)
  {
    var n := c.sounds.Length;
    var alarm := if c.alarmToSet == One then c.alarm1 else c.alarm2;
    var sound := alarm.sound;
    match dir
    case Center =>
      if sound != 0 {
        c.player := c.player + [Play(sound)];
      } else {
        c.player := c.player + [Play(U8(draw))];
      }
    case Left =>
      c.ui.TransitionToFrame(ALARM_MENU_FRAME);
      c.ui.SetCursor(2);
    case Right =>
      c.ui.TransitionToFrame(HOME_FRAME);
    case Up =>
      StepSound(alarm, n, true);
    case Down =>
      StepSound(alarm, n, false);
    case _ =>
  }

  /** uiAlarmSound on Up (`up`) or Down: the alarm's sound one step round
      the catalogue size `n`. */
  method StepSound(alarm: Alarm, n: nat, up: bool)
    requires n >= 1
    modifies alarm
    ensures SoundSet(alarm, U8(if up then MenuNext(old(alarm.sound), n) else MenuPrev(old(alarm.sound), n)))
  {
    var sound := alarm.sound;
    if up {
      alarm.sound := U8((sound + 1) % n);
    } else {
      alarm.sound := U8((sound + n - 1) % n);
    }
  }

  /** The commands uiPlayerMenu sends: "stop" on entry 2. */
  function PlayerMenuCommands(dir: Direction, cursor: Byte): seq<PlayerCommand>
  {
    if (dir == Center || dir == Right) && cursor == 2 then [StopPlayback] else []
  }

  /** uiPlayerMenu: Center/Right open the volume, play or sounds frame, or
      stop the player on entry 2 (Right then goes home, Center stays); Left
      returns to the settings' player entry; Up/Down move round four entries. */
  method UiPlayerMenu(c: Clock, pads: Pads)
    requires c.Valid()
    modifies c, c.navigator, c.ui
    ensures c.Valid() && InputRead(c, pads)
    ensures c.Vars() == AfterInput(c, pads).(player := old(c.player) + PlayerMenuCommands(Pressed(c, pads), old(c.ui.cursor)))
    ensures Moved(c.ui, PlayerMenuMove(Pressed(c, pads), old(c.ui.cursor)))
  {
    var dir := GetInput(c, pads);
    PlayerMenuReact(c, dir);
  }

  /** uiPlayerMenu's reaction to a pressed pad. */
  method PlayerMenuReact(c: Clock, dir: Direction)
    requires c.Valid()
    modifies c, c.ui
    ensures c.Valid()
    ensures c.Vars() == old(c.Vars()).(player := old(c.player) + PlayerMenuCommands(dir, old(c.ui.cursor)))
    ensures Moved(c.ui, PlayerMenuMove(dir, old(c.ui.cursor)))
  {
    var cursor := c.ui.GetCursor();
    if dir == Center && cursor == 2 {
      c.player := c.player + [StopPlayback];
    } else if dir == Center || dir == Right {
      PlayerMenuOpen(c);
    } else if dir == Left {
      c.ui.TransitionToFrame(SETTINGS_FRAME);
      c.ui.SetCursor(2);
    } else if dir == Up {
      c.ui.SetCursor((cursor as int + 3) % 4);
    } else if dir == Down {
      c.ui.SetCursor((cursor as int + 1) % 4);
    }
  }

  /** uiPlayerMenu on Right, or on Center away from entry 2: opens the
      entry under the cursor; entry 2 stops the player and goes home. */
  method PlayerMenuOpen(c: Clock)
    requires c.Valid()
    modifies c, c.ui
    ensures c.Valid()
    ensures c.Vars() == old(c.Vars()).(player := old(c.player) + PlayerMenuCommands(Right, old(c.ui.cursor)))
    ensures Moved(c.ui, PlayerMenuMove(Right, old(c.ui.cursor)))
  {
    var cursor := c.ui.GetCursor();
    if cursor == 0 {
      c.ui.TransitionToFrame(PLAYER_VOLUME_FRAME);
    } else if cursor == 1 {
      c.ui.TransitionToFrame(PLAYER_PLAY_FRAME);
    } else if cursor == 2 {
      c.player := c.player + [StopPlayback];
      c.ui.TransitionToFrame(HOME_FRAME);
    } else if cursor == 3 {
      c.ui.TransitionToFrame(PLAYER_SOUNDS_FRAME);
    }
  }

  /** The commands uiPlayerVolume sends. */
  function VolumeCommands(dir: Direction): seq<PlayerCommand>
  {
    if dir == Up then [IncrVolume] else if dir == Down then [DecrVolume] else []
  }

  /** uiPlayerVolume: Up/Down change the player's volume, Center/Right go
      home, Left returns to the player menu. */
  method UiPlayerVolume(c: Clock, pads: Pads)
    requires c.Valid()
    modifies c, c.navigator, c.ui
    ensures c.Valid() && InputRead(c, pads)
    ensures c.Vars() == AfterInput(c, pads).(player := old(c.player) + VolumeCommands(Pressed(c, pads)))
    ensures Moved(c.ui, PlayerVolumeMove(Pressed(c, pads)))
  {
    var dir := GetInput(c, pads);
    VolumeReact(c, dir);
  }

  /** uiPlayerVolume's reaction to a pressed pad. */
  method VolumeReact(c: Clock, dir: Direction)
    requires c.Valid()
    modifies c, c.ui
    ensures c.Valid()
    ensures c.Vars() == old(c.Vars()).(player := old(c.player) + VolumeCommands(dir))
    ensures Moved(c.ui, PlayerVolumeMove(dir))
  {
    match dir
    case Center | Right =>
      c.ui.TransitionToFrame(HOME_FRAME);
    case Left =>
      c.ui.TransitionToFrame(PLAYER_MENU_FRAME);
    case Up =>
      c.player := c.player + [IncrVolume];
    case Down =>
      c.player := c.player + [DecrVolume];
    case _ =>
  }

  /** uiPlayerPlay: Center plays the sound under the cursor (0: a random
      one, `draw` being `random(numSounds)`) and, like Left, returns to the
      menu's play entry; Right goes home; Up/Down move round the catalogue. */
  method UiPlayerPlay(c: Clock, pads: Pads, draw: nat)
    requires c.Valid() && RandomDraw(c.sounds.Length, draw)
    requires var d := Step(c.navigator.touched, pads).0; d == Up || d == Down ==> c.sounds.Length >= 1
    modifies c, c.navigator, c.ui
    ensures c.Valid() && InputRead(c, pads)
    ensures c.Vars() == AfterInput(c, pads).(player := old(c.player) +
      if Pressed(c, pads) == Center then [PlayChoice(old(c.ui.cursor), draw)] else [])
    ensures Moved(c.ui, PlayerPlayMove(Pressed(c, pads), old(c.ui.cursor), c.sounds.Length))
  {
    var dir := GetInput(c, pads);
    PlayerPlayReact(c, dir, draw);
  }

  /** uiPlayerPlay's reaction to a pressed pad. */
  method PlayerPlayReact(c: Clock, dir: Direction, draw: nat)
    requires c.Valid()
    requires dir == Up || dir == Down ==> c.sounds.Length >= 1
    modifies c, c.ui
    ensures c.Valid()
    ensures c.Vars() == old(c.Vars()).(player := old(c.player) +
      if dir == Center then [PlayChoice(old(c.ui.cursor), draw)] else [])
    ensures Moved(c.ui, PlayerPlayMove(dir, old(c.ui.cursor), c.sounds.Length))
  {
    var cursor := c.ui.GetCursor();
    var n := c.sounds.Length;
    match dir
    case Center =>
      PlaySelected(c, draw);
    case Left =>
      c.ui.TransitionToFrame(PLAYER_MENU_FRAME);
      c.ui.SetCursor(1);
    case Right =>
      c.ui.TransitionToFrame(HOME_FRAME);
    case Up =>
      c.ui.SetCursor(U8((cursor + 1) % n));
    case Down =>
      c.ui.SetCursor(U8((cursor + n - 1) % n));
    case _ =>
  }

  /** uiPlayerPlay on Center: plays the sound under the cursor (0: the
      random draw) and returns to the menu's play entry. */
  method PlaySelected(c: Clock, draw: nat)
    requires c.Valid()
    modifies c, c.ui
    ensures c.Valid()
    ensures c.Vars() == old(c.Vars()).(player := old(c.player) + [PlayChoice(old(c.ui.cursor), draw)])
    ensures Moved(c.ui, ToFrameAt(PLAYER_MENU_FRAME, 1))
  {
    var cursor := c.ui.GetCursor();
    if cursor != 0 {
      c.player := c.player + [Play(cursor)];
    } else {
      c.player := c.player + [Play(U8(draw))];
    }
    c.ui.TransitionToFrame(PLAYER_MENU_FRAME);
    c.ui.SetCursor(1);
  }

  /** Flips whether the sound with id `id` may be picked at random, in the
      catalogue itself. */
  method FlipSound(sounds: array<Sound>, id: Byte)
    requires GetSoundById(id, sounds[..]) < sounds.Length
    modifies sounds
    ensures sounds[..] == FlipAllowRandom(old(sounds[..]), GetSoundById(id, old(sounds[..])))
  {
    var i := GetSoundById(id, sounds[..]);
    sounds[i] := sounds[i].(allowRandom := !sounds[i].allowRandom);
  }

  /** uiPlayerSounds: the cursor walks the sounds with ids 1..numSounds-1;
      Center flips whether the sound under it (id cursor + 1) may be picked
      at random, Right does so and goes home, Left returns to the menu's
      sounds entry. The flip is made on a copy of the sound
      (ToggleCopyAsWritten), so the catalogue never changes. */
  method UiPlayerSounds(c: Clock, pads: Pads)
    requires c.Valid()
    requires var d := Step(c.navigator.touched, pads).0; d == Up || d == Down ==> c.sounds.Length >= 2
    requires var d := Step(c.navigator.touched, pads).0;
      d == Center || d == Right ==> GetSoundById(U8(c.ui.cursor + 1), c.sounds[..]) < c.sounds.Length
    modifies c, c.navigator, c.ui
    ensures c.Valid() && InputRead(c, pads) && c.Vars() == AfterInput(c, pads)
    ensures Moved(c.ui, PlayerSoundsMove(Pressed(c, pads), old(c.ui.cursor), c.sounds.Length))
    ensures unchanged(c.sounds)
  {
    var dir := GetInput(c, pads);
    PlayerSoundsReact(c, dir);
  }

  /** uiPlayerSounds's reaction to a pressed pad. */
  method PlayerSoundsReact(c: Clock, dir: Direction)
    requires c.Valid()
    requires dir == Up || dir == Down ==> c.sounds.Length >= 2
    requires dir == Center || dir == Right ==> GetSoundById(U8(c.ui.cursor + 1), c.sounds[..]) < c.sounds.Length
    modifies c.ui
    ensures c.Valid()
    ensures Moved(c.ui, PlayerSoundsMove(dir, old(c.ui.cursor), c.sounds.Length))
    ensures unchanged(c.sounds)
  {
    var cursor := c.ui.GetCursor();
    var n := c.sounds.Length;
    match dir
    case Center | Right =>
      var _ := PlayerSoundsFlip(c, dir == Right);
    case Left =>
      c.ui.TransitionToFrame(PLAYER_MENU_FRAME);
      c.ui.SetCursor(3);
    case Up =>
      c.ui.SetCursor(U8((cursor + 1) % (n - 1)));
    case Down =>
      c.ui.SetCursor(U8((cursor + n - 2) % (n - 1)));
    case _ =>
  }

  /** uiPlayerSounds on Center, or on Right (`home`, which also goes home):
      `auto sound = *getSoundById(cursor + 1)` copies the sound under the
      cursor and flips the copy's allowRandom (returned here as `copy`);
      the catalogue keeps its old value. */
  method PlayerSoundsFlip(c: Clock, home: bool) returns (copy: Sound)
    requires c.Valid()
    requires GetSoundById(U8(c.ui.cursor + 1), c.sounds[..]) < c.sounds.Length
    modifies c.ui
    ensures c.Valid()
    ensures Moved(c.ui, if home then ToFrame(HOME_FRAME) else Stay)
    ensures (c.sounds[..], copy) == ToggleCopyAsWritten(old(c.sounds[..]), U8(old(c.ui.cursor) + 1))
    ensures unchanged(c.sounds)
  {
    var cursor := c.ui.GetCursor();
    if home {
      c.ui.TransitionToFrame(HOME_FRAME);
    }
    copy := c.sounds[GetSoundById(U8(cursor as int + 1), c.sounds[..])];
    copy := copy.(allowRandom := !copy.allowRandom);
  }

  /** uiPlayerSounds on Center or Right as evidently intended: the flip is
      stored in the catalogue (FlipSound). */
  method PlayerSoundsFlipStored(c: Clock, home: bool)
    requires c.Valid()
    requires GetSoundById(U8(c.ui.cursor + 1), c.sounds[..]) < c.sounds.Length
    modifies c.ui, c.sounds
    ensures c.Valid()
    ensures Moved(c.ui, if home then ToFrame(HOME_FRAME) else Stay)
    ensures c.sounds[..] == FlipAllowRandom(old(c.sounds[..]), GetSoundById(U8(old(c.ui.cursor) + 1), old(c.sounds[..])))
  {
    var cursor := c.ui.GetCursor();
    if home {
      c.ui.TransitionToFrame(HOME_FRAME);
    }
    FlipSound(c.sounds, U8(cursor as int + 1));
  }

  /** uiLightDuration: Up/Down step the main light's stored duration,
      Center/Right go home, Left returns to the settings' light entry. */
  method UiLightDuration(c: Clock, pads: Pads)
    requires c.Valid()
    modifies c, c.navigator, c.ui, c.mainLight.duration, c.mainLight.duration.preferences
    ensures c.Valid() && InputRead(c, pads) && c.Vars() == AfterInput(c, pads)
    ensures Moved(c.ui, LightDurationMove(Pressed(c, pads)))
    ensures var d := c.mainLight.duration;
      Pressed(c, pads) == Up ==>
        d.value == MainLight.IncrDurationValue(old(d.value)) && d.Synced() &&
        d.preferences.store == old(d.preferences.store)[d.name := d.value]
    ensures var d := c.mainLight.duration;
      Pressed(c, pads) == Down ==>
        d.value == MainLight.DecrDurationValue(old(d.value)) && d.Synced() &&
        d.preferences.store == old(d.preferences.store)[d.name := d.value]
    ensures Pressed(c, pads) != Up && Pressed(c, pads) != Down ==>
      unchanged(c.mainLight.duration, c.mainLight.duration.preferences)
  {
    var dir := GetInput(c, pads);
    LightDurationReact(c, dir);
  }

  /** uiLightDuration's reaction to a pressed pad. */
  method LightDurationReact(c: Clock, dir: Direction)
    requires c.Valid()
    modifies c.ui, c.mainLight.duration, c.mainLight.duration.preferences
    ensures c.Valid()
    ensures Moved(c.ui, LightDurationMove(dir))
    ensures var d := c.mainLight.duration;
      dir == Up ==>
        d.value == MainLight.IncrDurationValue(old(d.value)) && d.Synced() &&
        d.preferences.store == old(d.preferences.store)[d.name := d.value]
    ensures var d := c.mainLight.duration;
      dir == Down ==>
        d.value == MainLight.DecrDurationValue(old(d.value)) && d.Synced() &&
        d.preferences.store == old(d.preferences.store)[d.name := d.value]
    ensures dir != Up && dir != Down ==>
      unchanged(c.mainLight.duration, c.mainLight.duration.preferences)
  {
    match dir
    case Center | Right =>
      c.ui.TransitionToFrame(HOME_FRAME);
    case Left =>
      c.ui.TransitionToFrame(SETTINGS_FRAME);
      c.ui.SetCursor(3);
    case Up =>
      c.mainLight.IncrDuration();
    case Down =>
      c.mainLight.DecrDuration();
    case _ =>
  }

  /** uiWiFiMenu: Center/Right open the smart config frame, Left returns to
      the settings' Wi-Fi entry. */
  method UiWiFiMenu(c: Clock, pads: Pads)
    requires c.Valid()
    modifies c, c.navigator, c.ui
    ensures c.Valid() && InputRead(c, pads) && c.Vars() == AfterInput(c, pads)
    ensures Moved(c.ui, WiFiMenuMove(Pressed(c, pads)))
  {
    var dir := GetInput(c, pads);
    match dir
    case Center | Right =>
      c.ui.TransitionToFrame(SMART_CONFIG_FRAME);
    case Left =>
      c.ui.TransitionToFrame(SETTINGS_FRAME);
      c.ui.SetCursor(4);
    case _ =>
  }

  /** uiSmartConfig: Center shows "running" (cursor 1) and starts smart
      config; while it runs, Left/Right do nothing, otherwise they go back
      to the Wi-Fi menu or home. */
  method UiSmartConfig(c: Clock, pads: Pads)
    requires c.Valid()
    modifies c, c.navigator, c.ui
    ensures c.Valid() && InputRead(c, pads) && c.Vars() == AfterInput(c, pads)
    ensures Moved(c.ui, SmartConfigMove(Pressed(c, pads), old(c.ui.cursor)))
  {
    var cursor := c.ui.GetCursor();
    var dir := GetInput(c, pads);
    match dir
    case Center =>
      c.ui.SetCursor(1);
    case Right =>
      if cursor != 1 {
        c.ui.TransitionToFrame(HOME_FRAME);
      }
    case Left =>
      if cursor != 1 {
        c.ui.TransitionToFrame(WIFI_MENU_FRAME);
      }
    case _ =>
  }

  /** uiInfo: Center/Right go home, Left returns to the settings' info entry. */
  method UiInfo(c: Clock, pads: Pads)
    requires c.Valid()
    modifies c, c.navigator, c.ui
    ensures c.Valid() && InputRead(c, pads) && c.Vars() == AfterInput(c, pads)
    ensures Moved(c.ui, InfoMove(Pressed(c, pads)))
  {
    var dir := GetInput(c, pads);
    match dir
    case Center | Right =>
      c.ui.TransitionToFrame(HOME_FRAME);
    case Left =>
      c.ui.TransitionToFrame(SETTINGS_FRAME);
      c.ui.SetCursor(5);
    case _ =>
  }

  // ---------------------------------------------------------------------
  // The display loop
  // ---------------------------------------------------------------------

  /** The cursor bounds the handles rely on: at most six digits entered on
      the defuse frame, one of eleven items on the alarm time frame, and on
      the player sounds frame a catalogue sound with id cursor + 1. */
  predicate CursorInRange(frame: nat, cursor: Byte, numSounds: nat)
  {
    (frame == DEFUSE_FRAME as nat ==> cursor <= CODE_LENGTH) &&
    (frame == ALARM_TIME_FRAME as nat ==> cursor <= 10) &&
    (frame == PLAYER_SOUNDS_FRAME as nat ==> cursor + 1 < numSounds)
  }

  /** A move from `frame` with `cursor` ends within the cursor bounds. */
  predicate LandsInRange(m: Move, frame: nat, cursor: Byte, numSounds: nat)
  {
    match m
    case Stay => CursorInRange(frame, cursor, numSounds)
    case MoveCursor(to) => CursorInRange(frame, to, numSounds)
    case ToFrame(f) => CursorInRange(f as nat, 0, numSounds)
    case ToFrameAt(f, at) => CursorInRange(f as nat, at, numSounds)
  }

  /** On the player sounds frame the cursor stays below numSounds - 1. */
  lemma PlayerSoundsMoveLands(dir: Direction, cursor: Byte, numSounds: nat)
    requires 2 <= numSounds && cursor + 1 < numSounds
    ensures LandsInRange(PlayerSoundsMove(dir, cursor, numSounds), PLAYER_SOUNDS_FRAME as nat, cursor, numSounds)
  {
  }

  /** UIDisplay.loop with the alarm clock's frames: while the frame is
      FIXED, its handle reads the pads and reacts; then the display updates
      (`fixedNow`: whether the display library leaves the frame FIXED). The
      handles keep the cursor within the bounds they rely on and keep the
      catalogue's ids. */
  method UiLoop(c: Clock, pads: Pads, draw: nat, fixedNow: bool) returns (isFixed: bool)
    requires c.Valid() && c.sounds.Length >= 2 && DenseIds(c.sounds[..])
    requires CursorInRange(c.ui.frame, c.ui.cursor, c.sounds.Length)
    requires RandomDraw(c.sounds.Length, draw)
    modifies c, c.navigator, c.ui, c.matrix, c.mainLight, c.mainLight.ledc, c.mainLight.duration,
             c.mainLight.duration.preferences, c.code, c.alarm1, c.alarm2, c.rtc, c.indicatorLight, c.sounds
    ensures c.Valid() && DenseIds(c.sounds[..])
    ensures CursorInRange(c.ui.frame, c.ui.cursor, c.sounds.Length)
    ensures c.ui.calls == old(c.ui.calls) + (if old(c.ui.fixed) then [FRAMES[old(c.ui.frame)]] else [])
    ensures isFixed == fixedNow && c.ui.fixed == fixedNow
  {
    var h := c.ui.Loop();
    if h.Some? {
      Dispatch(c, h.value, pads, draw);
    }
    isFixed := c.ui.Update(fixedNow);
  }

  /** Calls the handle of the frame shown. */
  method Dispatch(c: Clock, h: Handle, pads: Pads, draw: nat)
    requires c.Valid() && c.sounds.Length >= 2 && DenseIds(c.sounds[..])
    requires CursorInRange(c.ui.frame, c.ui.cursor, c.sounds.Length)
    requires RandomDraw(c.sounds.Length, draw)
    requires h == FRAMES[c.ui.frame]
    modifies c, c.navigator, c.ui, c.matrix, c.mainLight, c.mainLight.ledc, c.mainLight.duration,
             c.mainLight.duration.preferences, c.code, c.alarm1, c.alarm2, c.rtc, c.indicatorLight, c.sounds
    ensures c.Valid() && DenseIds(c.sounds[..])
    ensures CursorInRange(c.ui.frame, c.ui.cursor, c.sounds.Length)
    ensures c.ui.calls == old(c.ui.calls) && c.ui.fixed == old(c.ui.fixed)
  {
    match h
    case HomeHandle | AlarmHandle => DispatchIdle(c, h, pads, draw);
    case SnoozeHandle => DispatchSnooze(c, h, pads, draw);
    case DefuseHandle => DispatchDefuse(c, h, pads, draw);
    case OverviewHandle => DispatchOverview(c, h, pads, draw);
    case SettingsHandle => DispatchSettings(c, h, pads, draw);
    case AlarmMenuHandle => DispatchAlarmMenu(c, h, pads, draw);
    case AlarmTimeHandle => DispatchAlarmTime(c, h, pads, draw);
    case AlarmSoundHandle => DispatchAlarmSound(c, h, pads, draw);
    case PlayerMenuHandle => DispatchPlayerMenu(c, h, pads, draw);
    case PlayerVolumeHandle => DispatchVolume(c, h, pads, draw);
    case PlayerPlayHandle => DispatchPlay(c, h, pads, draw);
    case PlayerSoundsHandle => DispatchCatalogue(c, h, pads, draw);
    case LightDurationHandle | InfoHandle => DispatchLight(c, h, pads, draw);
    case WiFiMenuHandle | SmartConfigHandle => DispatchWiFi(c, h, pads, draw);
  }

  /** Calls the handle of the home or alarm frame. */
  method DispatchIdle(c: Clock, h: Handle, pads: Pads, draw: nat)
    requires c.Valid() && c.sounds.Length >= 2 && DenseIds(c.sounds[..])
    requires CursorInRange(c.ui.frame, c.ui.cursor, c.sounds.Length)
    requires RandomDraw(c.sounds.Length, draw)
    requires h == FRAMES[c.ui.frame]
    modifies c, c.navigator, c.ui, c.matrix, c.mainLight, c.mainLight.ledc, c.mainLight.duration,
             c.mainLight.duration.preferences, c.code, c.alarm1, c.alarm2, c.rtc, c.indicatorLight, c.sounds
    ensures c.Valid() && DenseIds(c.sounds[..])
    ensures CursorInRange(c.ui.frame, c.ui.cursor, c.sounds.Length)
    ensures c.ui.calls == old(c.ui.calls) && c.ui.fixed == old(c.ui.fixed)
  {
    match h
    case HomeHandle => UiHome(c, pads);
    case AlarmHandle => UiAlarm(c, pads);
    case _ =>
  }

  /** Calls the handle of the snooze frame. */
  method DispatchSnooze(c: Clock, h: Handle, pads: Pads, draw: nat)
    requires c.Valid() && c.sounds.Length >= 2 && DenseIds(c.sounds[..])
    requires CursorInRange(c.ui.frame, c.ui.cursor, c.sounds.Length)
    requires RandomDraw(c.sounds.Length, draw)
    requires h == FRAMES[c.ui.frame]
    modifies c, c.navigator, c.ui, c.matrix, c.mainLight, c.mainLight.ledc, c.mainLight.duration,
             c.mainLight.duration.preferences, c.code, c.alarm1, c.alarm2, c.rtc, c.indicatorLight, c.sounds
    ensures c.Valid() && DenseIds(c.sounds[..])
    ensures CursorInRange(c.ui.frame, c.ui.cursor, c.sounds.Length)
    ensures c.ui.calls == old(c.ui.calls) && c.ui.fixed == old(c.ui.fixed)
  {
    match h
    case SnoozeHandle => UiAlarmSnooze(c, pads);
    case _ =>
  }

  /** Calls the handle of the defuse frame. */
  method DispatchDefuse(c: Clock, h: Handle, pads: Pads, draw: nat)
    requires c.Valid() && c.sounds.Length >= 2 && DenseIds(c.sounds[..])
    requires CursorInRange(c.ui.frame, c.ui.cursor, c.sounds.Length)
    requires RandomDraw(c.sounds.Length, draw)
    requires h == FRAMES[c.ui.frame]
    modifies c, c.navigator, c.ui, c.matrix, c.mainLight, c.mainLight.ledc, c.mainLight.duration,
             c.mainLight.duration.preferences, c.code, c.alarm1, c.alarm2, c.rtc, c.indicatorLight, c.sounds
    ensures c.Valid() && DenseIds(c.sounds[..])
    ensures CursorInRange(c.ui.frame, c.ui.cursor, c.sounds.Length)
    ensures c.ui.calls == old(c.ui.calls) && c.ui.fixed == old(c.ui.fixed)
  {
    match h
    case DefuseHandle => UiAlarmDefuse(c, pads);
    case _ =>
  }

  /** Calls the handle of the overview frame. */
  method DispatchOverview(c: Clock, h: Handle, pads: Pads, draw: nat)
    requires c.Valid() && c.sounds.Length >= 2 && DenseIds(c.sounds[..])
    requires CursorInRange(c.ui.frame, c.ui.cursor, c.sounds.Length)
    requires RandomDraw(c.sounds.Length, draw)
    requires h == FRAMES[c.ui.frame]
    modifies c, c.navigator, c.ui, c.matrix, c.mainLight, c.mainLight.ledc, c.mainLight.duration,
             c.mainLight.duration.preferences, c.code, c.alarm1, c.alarm2, c.rtc, c.indicatorLight, c.sounds
    ensures c.Valid() && DenseIds(c.sounds[..])
    ensures CursorInRange(c.ui.frame, c.ui.cursor, c.sounds.Length)
    ensures c.ui.calls == old(c.ui.calls) && c.ui.fixed == old(c.ui.fixed)
  {
    match h
    case OverviewHandle => UiOverview(c, pads);
    case _ =>
  }

  /** Calls the handle of the settings frame. */
  method DispatchSettings(c: Clock, h: Handle, pads: Pads, draw: nat)
    requires c.Valid() && c.sounds.Length >= 2 && DenseIds(c.sounds[..])
    requires CursorInRange(c.ui.frame, c.ui.cursor, c.sounds.Length)
    requires RandomDraw(c.sounds.Length, draw)
    requires h == FRAMES[c.ui.frame]
    modifies c, c.navigator, c.ui, c.matrix, c.mainLight, c.mainLight.ledc, c.mainLight.duration,
             c.mainLight.duration.preferences, c.code, c.alarm1, c.alarm2, c.rtc, c.indicatorLight, c.sounds
    ensures c.Valid() && DenseIds(c.sounds[..])
    ensures CursorInRange(c.ui.frame, c.ui.cursor, c.sounds.Length)
    ensures c.ui.calls == old(c.ui.calls) && c.ui.fixed == old(c.ui.fixed)
  {
    match h
    case SettingsHandle => UiSettings(c, pads);
    case _ =>
  }

  /** Calls the handle of the alarm menu frame. */
  method DispatchAlarmMenu(c: Clock, h: Handle, pads: Pads, draw: nat)
    requires c.Valid() && c.sounds.Length >= 2 && DenseIds(c.sounds[..])
    requires CursorInRange(c.ui.frame, c.ui.cursor, c.sounds.Length)
    requires RandomDraw(c.sounds.Length, draw)
    requires h == FRAMES[c.ui.frame]
    modifies c, c.navigator, c.ui, c.matrix, c.mainLight, c.mainLight.ledc, c.mainLight.duration,
             c.mainLight.duration.preferences, c.code, c.alarm1, c.alarm2, c.rtc, c.indicatorLight, c.sounds
    ensures c.Valid() && DenseIds(c.sounds[..])
    ensures CursorInRange(c.ui.frame, c.ui.cursor, c.sounds.Length)
    ensures c.ui.calls == old(c.ui.calls) && c.ui.fixed == old(c.ui.fixed)
  {
    match h
    case AlarmMenuHandle => UiAlarmMenu(c, pads);
    case _ =>
  }

  /** Calls the handle of the alarm time frame. */
  method DispatchAlarmTime(c: Clock, h: Handle, pads: Pads, draw: nat)
    requires c.Valid() && c.sounds.Length >= 2 && DenseIds(c.sounds[..])
    requires CursorInRange(c.ui.frame, c.ui.cursor, c.sounds.Length)
    requires RandomDraw(c.sounds.Length, draw)
    requires h == FRAMES[c.ui.frame]
    modifies c, c.navigator, c.ui, c.matrix, c.mainLight, c.mainLight.ledc, c.mainLight.duration,
             c.mainLight.duration.preferences, c.code, c.alarm1, c.alarm2, c.rtc, c.indicatorLight, c.sounds
    ensures c.Valid() && DenseIds(c.sounds[..])
    ensures CursorInRange(c.ui.frame, c.ui.cursor, c.sounds.Length)
    ensures c.ui.calls == old(c.ui.calls) && c.ui.fixed == old(c.ui.fixed)
  {
    match h
    case AlarmTimeHandle => UiAlarmTime(c, pads);
    case _ =>
  }

  /** Calls the handle of the alarm sound frame. */
  method DispatchAlarmSound(c: Clock, h: Handle, pads: Pads, draw: nat)
    requires c.Valid() && c.sounds.Length >= 2 && DenseIds(c.sounds[..])
    requires CursorInRange(c.ui.frame, c.ui.cursor, c.sounds.Length)
    requires RandomDraw(c.sounds.Length, draw)
    requires h == FRAMES[c.ui.frame]
    modifies c, c.navigator, c.ui, c.matrix, c.mainLight, c.mainLight.ledc, c.mainLight.duration,
             c.mainLight.duration.preferences, c.code, c.alarm1, c.alarm2, c.rtc, c.indicatorLight, c.sounds
    ensures c.Valid() && DenseIds(c.sounds[..])
    ensures CursorInRange(c.ui.frame, c.ui.cursor, c.sounds.Length)
    ensures c.ui.calls == old(c.ui.calls) && c.ui.fixed == old(c.ui.fixed)
  {
    match h
    case AlarmSoundHandle => UiAlarmSound(c, pads, draw);
    case _ =>
  }

  /** Calls the handle of the player menu frame. */
  method DispatchPlayerMenu(c: Clock, h: Handle, pads: Pads, draw: nat)
    requires c.Valid() && c.sounds.Length >= 2 && DenseIds(c.sounds[..])
    requires CursorInRange(c.ui.frame, c.ui.cursor, c.sounds.Length)
    requires RandomDraw(c.sounds.Length, draw)
    requires h == FRAMES[c.ui.frame]
    modifies c, c.navigator, c.ui, c.matrix, c.mainLight, c.mainLight.ledc, c.mainLight.duration,
             c.mainLight.duration.preferences, c.code, c.alarm1, c.alarm2, c.rtc, c.indicatorLight, c.sounds
    ensures c.Valid() && DenseIds(c.sounds[..])
    ensures CursorInRange(c.ui.frame, c.ui.cursor, c.sounds.Length)
    ensures c.ui.calls == old(c.ui.calls) && c.ui.fixed == old(c.ui.fixed)
  {
    match h
    case PlayerMenuHandle => UiPlayerMenu(c, pads);
    case _ =>
  }

  /** Calls the handle of the player volume frame. */
  method DispatchVolume(c: Clock, h: Handle, pads: Pads, draw: nat)
    requires c.Valid() && c.sounds.Length >= 2 && DenseIds(c.sounds[..])
    requires CursorInRange(c.ui.frame, c.ui.cursor, c.sounds.Length)
    requires RandomDraw(c.sounds.Length, draw)
    requires h == FRAMES[c.ui.frame]
    modifies c, c.navigator, c.ui, c.matrix, c.mainLight, c.mainLight.ledc, c.mainLight.duration,
             c.mainLight.duration.preferences, c.code, c.alarm1, c.alarm2, c.rtc, c.indicatorLight, c.sounds
    ensures c.Valid() && DenseIds(c.sounds[..])
    ensures CursorInRange(c.ui.frame, c.ui.cursor, c.sounds.Length)
    ensures c.ui.calls == old(c.ui.calls) && c.ui.fixed == old(c.ui.fixed)
  {
    match h
    case PlayerVolumeHandle => UiPlayerVolume(c, pads);
    case _ =>
  }

  /** Calls the handle of the player play frame. */
  method DispatchPlay(c: Clock, h: Handle, pads: Pads, draw: nat)
    requires c.Valid() && c.sounds.Length >= 2 && DenseIds(c.sounds[..])
    requires CursorInRange(c.ui.frame, c.ui.cursor, c.sounds.Length)
    requires RandomDraw(c.sounds.Length, draw)
    requires h == FRAMES[c.ui.frame]
    modifies c, c.navigator, c.ui, c.matrix, c.mainLight, c.mainLight.ledc, c.mainLight.duration,
             c.mainLight.duration.preferences, c.code, c.alarm1, c.alarm2, c.rtc, c.indicatorLight, c.sounds
    ensures c.Valid() && DenseIds(c.sounds[..])
    ensures CursorInRange(c.ui.frame, c.ui.cursor, c.sounds.Length)
    ensures c.ui.calls == old(c.ui.calls) && c.ui.fixed == old(c.ui.fixed)
  {
    match h
    case PlayerPlayHandle => UiPlayerPlay(c, pads, draw);
    case _ =>
  }

  /** Calls the handle of the player sounds frame. */
  method DispatchCatalogue(c: Clock, h: Handle, pads: Pads, draw: nat)
    requires c.Valid() && c.sounds.Length >= 2 && DenseIds(c.sounds[..])
    requires CursorInRange(c.ui.frame, c.ui.cursor, c.sounds.Length)
    requires RandomDraw(c.sounds.Length, draw)
    requires h == FRAMES[c.ui.frame]
    modifies c, c.navigator, c.ui, c.matrix, c.mainLight, c.mainLight.ledc, c.mainLight.duration,
             c.mainLight.duration.preferences, c.code, c.alarm1, c.alarm2, c.rtc, c.indicatorLight, c.sounds
    ensures c.Valid() && DenseIds(c.sounds[..])
    ensures CursorInRange(c.ui.frame, c.ui.cursor, c.sounds.Length)
    ensures c.ui.calls == old(c.ui.calls) && c.ui.fixed == old(c.ui.fixed)
  {
    match h
    case PlayerSoundsHandle =>
      var n := c.sounds.Length;
      var cursor := c.ui.cursor;
      ghost var before := c.sounds[..];
      assert c.sounds[n - 1].id == n;
      DenseLookup(before, cursor + 1);
      PlayerSoundsMoveLands(Step(c.navigator.touched, pads).0, cursor, n);
      FlipKeepsIds(before, cursor);
      UiPlayerSounds(c, pads);
    case _ =>
  }

  /** Calls the handle of the light duration or info frame. */
  method DispatchLight(c: Clock, h: Handle, pads: Pads, draw: nat)
    requires c.Valid() && c.sounds.Length >= 2 && DenseIds(c.sounds[..])
    requires CursorInRange(c.ui.frame, c.ui.cursor, c.sounds.Length)
    requires RandomDraw(c.sounds.Length, draw)
    requires h == FRAMES[c.ui.frame]
    modifies c, c.navigator, c.ui, c.matrix, c.mainLight, c.mainLight.ledc, c.mainLight.duration,
             c.mainLight.duration.preferences, c.code, c.alarm1, c.alarm2, c.rtc, c.indicatorLight, c.sounds
    ensures c.Valid() && DenseIds(c.sounds[..])
    ensures CursorInRange(c.ui.frame, c.ui.cursor, c.sounds.Length)
    ensures c.ui.calls == old(c.ui.calls) && c.ui.fixed == old(c.ui.fixed)
  {
    match h
    case LightDurationHandle => UiLightDuration(c, pads);
    case InfoHandle => UiInfo(c, pads);
    case _ =>
  }

  /** Calls the handle of the Wi-Fi menu or smart config frame. */
  method DispatchWiFi(c: Clock, h: Handle, pads: Pads, draw: nat)
    requires c.Valid() && c.sounds.Length >= 2 && DenseIds(c.sounds[..])
    requires CursorInRange(c.ui.frame, c.ui.cursor, c.sounds.Length)
    requires RandomDraw(c.sounds.Length, draw)
    requires h == FRAMES[c.ui.frame]
    modifies c, c.navigator, c.ui, c.matrix, c.mainLight, c.mainLight.ledc, c.mainLight.duration,
             c.mainLight.duration.preferences, c.code, c.alarm1, c.alarm2, c.rtc, c.indicatorLight, c.sounds
    ensures c.Valid() && DenseIds(c.sounds[..])
    ensures CursorInRange(c.ui.frame, c.ui.cursor, c.sounds.Length)
    ensures c.ui.calls == old(c.ui.calls) && c.ui.fixed == old(c.ui.fixed)
  {
    match h
    case WiFiMenuHandle => UiWiFiMenu(c, pads);
    case SmartConfigHandle => UiSmartConfig(c, pads);
    case _ =>
  }
}
