/** The alarm clock's global state `AC` as the alarm handler and the UI
    handles use it (lib/AlarmClock/src/alarm_handler.h, ui_handles.h): the
    two alarms, the RTC, the indicator light, the main light, the LED
    matrix, the OLED menu, the touch pads, the sound catalogue, the defuse
    code, the snooze time, the flags and the timers. The MP3 player is
    reduced to the list of commands it has been sent. */
module AlarmClock {
  import opened Common
  import opened Hardware
  import opened Alarms
  import opened SimpleLedc
  import MainLight
  import Matrix
  import opened UserInterface
  import opened Navigation
  import opened Sounds

  /** The handle of each OLED frame; a frame's number is its index in FRAMES. */
  datatype Handle =
    | HomeHandle | AlarmHandle | SnoozeHandle | DefuseHandle | OverviewHandle
    | SettingsHandle | AlarmMenuHandle | AlarmTimeHandle | AlarmSoundHandle
    | PlayerMenuHandle | PlayerVolumeHandle | PlayerPlayHandle | PlayerSoundsHandle
    | LightDurationHandle | WiFiMenuHandle | SmartConfigHandle | InfoHandle

  const FRAMES: seq<Handle> := [
    HomeHandle, AlarmHandle, SnoozeHandle, DefuseHandle, OverviewHandle,
    SettingsHandle, AlarmMenuHandle, AlarmTimeHandle, AlarmSoundHandle,
    PlayerMenuHandle, PlayerVolumeHandle, PlayerPlayHandle, PlayerSoundsHandle,
    LightDurationHandle, WiFiMenuHandle, SmartConfigHandle, InfoHandle]

  const HOME_FRAME: Byte := 0
  const ALARM_FRAME: Byte := 1
  const SNOOZE_FRAME: Byte := 2
  const DEFUSE_FRAME: Byte := 3
  const OVERVIEW_FRAME: Byte := 4
  const SETTINGS_FRAME: Byte := 5
  const ALARM_MENU_FRAME: Byte := 6
  const ALARM_TIME_FRAME: Byte := 7
  const ALARM_SOUND_FRAME: Byte := 8
  const PLAYER_MENU_FRAME: Byte := 9
  const PLAYER_VOLUME_FRAME: Byte := 10
  const PLAYER_PLAY_FRAME: Byte := 11
  const PLAYER_SOUNDS_FRAME: Byte := 12
  const LIGHT_DURATION_FRAME: Byte := 13
  const WIFI_MENU_FRAME: Byte := 14
  const SMART_CONFIG_FRAME: Byte := 15
  const INFO_FRAME: Byte := 16

  /** The defuse code has six digits, each a pad 0..3. */
  const CODE_LENGTH: nat := 6

  /** alarmTurnOffTimer: 30 minutes, one-shot; matrixScrollTimer: 10 s. */
  const ALARM_TURN_OFF_MS: nat := 30 * 60 * 1000
  const MATRIX_SCROLL_MS: nat := 10000

  /** The plain (non-object) part of the state, for "nothing else changes". */
  datatype ClockVars = ClockVars(
    player: seq<PlayerCommand>, snoozeTime: Byte, anyAlarmTriggered: bool,
    uiActive: bool, alarmToSet: N, now: DateTime, uiTimer: Timer,
    alarmTurnOffTimer: Timer, matrixScrollTimer: Timer)

  class Clock {
    const alarm1: Alarm
    const alarm2: Alarm
    const rtc: Rtc
    const indicatorLight: Ledc
    const mainLight: MainLight.MainLight
    const matrix: Matrix.Matrix32x8
    const ui: UIDisplay<Handle>
    const navigator: Navigator
    const sounds: array<Sound>
    const defuseCode: array<Byte>
    /** The defuse frame's static buffer of the digits entered so far. */
    const code: array<Byte>

    var player: seq<PlayerCommand>
    var snoozeTime: Byte
    var anyAlarmTriggered: bool
    var uiActive: bool
    var alarmToSet: N
    var now: DateTime
    var uiTimer: Timer
    var alarmTurnOffTimer: Timer
    var matrixScrollTimer: Timer

    function Vars(): ClockVars
      reads this
    {
      ClockVars(player, snoozeTime, anyAlarmTriggered, uiActive, alarmToSet, now,
                uiTimer, alarmTurnOffTimer, matrixScrollTimer)
    }

    /** alarm1 and alarm2 use RTC slots 1 and 2; the two LEDCs are distinct;
        the menu has the 17 frames; the two code buffers have six digits. */
    predicate Valid()
      reads this, indicatorLight, mainLight, mainLight.ledc, matrix, ui
    {
      alarm1.n == One && alarm2.n == Two &&
      indicatorLight != mainLight.ledc && indicatorLight.Valid() && mainLight.Valid() &&
      matrix.Valid() && ui.Valid() && ui.handles == FRAMES &&
      defuseCode.Length == CODE_LENGTH && code.Length == CODE_LENGTH && defuseCode != code
    }

    /** The global struct: the hardware objects as given, a menu on the home
        frame, empty code buffers, no alarm triggered, alarm 1 selected, and
        the alarm and matrix timers dormant. */
    constructor (alarm1: Alarm, alarm2: Alarm, rtc: Rtc, indicatorLight: Ledc,
                 mainLight: MainLight.MainLight, matrix: Matrix.Matrix32x8, navigator: Navigator,
                 sounds: array<Sound>, snoozeTime: Byte, now: DateTime, uiTimer: Timer)
      requires alarm1.n == One && alarm2.n == Two
      requires indicatorLight != mainLight.ledc && indicatorLight.Valid() && mainLight.Valid()
      requires matrix.Valid()
      ensures Valid() && fresh(ui) && fresh(defuseCode) && fresh(code)
      ensures this.alarm1 == alarm1 && this.alarm2 == alarm2 && this.rtc == rtc
      ensures this.indicatorLight == indicatorLight && this.mainLight == mainLight
      ensures this.matrix == matrix && this.navigator == navigator && this.sounds == sounds
      ensures ui.frame == HOME_FRAME as nat && ui.cursor == 0 && ui.calls == []
      ensures defuseCode[..] == [0, 0, 0, 0, 0, 0] && code[..] == [0, 0, 0, 0, 0, 0]
      ensures Vars() == ClockVars([], snoozeTime, false, false, One, now, uiTimer,
                                  Timer(false, ALARM_TURN_OFF_MS), Timer(false, MATRIX_SCROLL_MS))
    {
      this.alarm1 := alarm1;
      this.alarm2 := alarm2;
      this.rtc := rtc;
      this.indicatorLight := indicatorLight;
      this.mainLight := mainLight;
      this.matrix := matrix;
      this.navigator := navigator;
      this.sounds := sounds;
      var display := new UIDisplay<Handle>();
      display.SetFrames(FRAMES);
      ui := display;
      defuseCode := new Byte[CODE_LENGTH](_ => 0);
      code := new Byte[CODE_LENGTH](_ => 0);
      player := [];
      this.snoozeTime := snoozeTime;
      anyAlarmTriggered := false;
      uiActive := false;
      alarmToSet := One;
      this.now := now;
      this.uiTimer := uiTimer;
      alarmTurnOffTimer := Timer(false, ALARM_TURN_OFF_MS);
      matrixScrollTimer := Timer(false, MATRIX_SCROLL_MS);
    }

    /** The alarm the alarm menu edits: alarm 1 or alarm 2 as alarmToSet says. */
    function SelectedAlarm(): (a: Alarm)
      reads this, indicatorLight, mainLight, mainLight.ledc, matrix, ui
      requires Valid()
      ensures a.n == alarmToSet
    {
      if alarmToSet == One then alarm1 else alarm2
    }

    /** Some alarm is PLAYING. */
    predicate AnyPlaying()
      reads this, alarm1, alarm2
    {
      alarm1.state == Playing || alarm2.state == Playing
    }

    /** Some alarm is SNOOZED. */
    predicate AnySnoozed()
      reads this, alarm1, alarm2
    {
      alarm1.state == Snooze || alarm2.state == Snooze
    }
  }
}
