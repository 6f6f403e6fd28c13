/** The room light of the newest firmware (lib/AlarmClock/src/MainLight.hpp):
    a 3-bit LEDC channel, an on-time in minutes persisted as a bean, and a
    one-shot timer that switches the light off when the on-time is over. */
module MainLight {
  import opened Common
  import opened Hardware
  import opened SimpleLedc
  import opened Beans

  /** incrDuration's step, in uint8 arithmetic: +5 below 30, +10 below 90, +30 above. */
  function IncrDurationValue(d: Byte): (r: Byte)
    ensures d < 226 ==> r > d
    ensures d >= 226 ==> r < 30
  {
    if d < 30 then U8(d + 5)
    else if d < 90 then U8(d + 10)
    else U8(d + 30)
  }

  /** decrDuration's step, in uint8 arithmetic: -30 from 90, -10 from 30, else -5. */
  function DecrDurationValue(d: Byte): (r: Byte)
    ensures d >= 5 ==> r < d
    ensures d < 5 ==> r >= 251
  {
    if d >= 90 then U8(d - 30)
    else if d >= 30 then U8(d - 10)
    else U8(d - 5)
  }

  /** The steps, value by value, and where decrDuration undoes incrDuration:
      everywhere except just below the thresholds 30 and 90, where the step
      up is smaller than the step back down. */
  lemma DurationSteps(d: Byte)
    ensures d < 30 ==> IncrDurationValue(d) == d + 5
    ensures 30 <= d < 90 ==> IncrDurationValue(d) == d + 10
    ensures 90 <= d ==> IncrDurationValue(d) == (d + 30) % 256
    ensures 90 <= d ==> DecrDurationValue(d) == d - 30
    ensures 30 <= d < 90 ==> DecrDurationValue(d) == d - 10
    ensures d < 30 ==> DecrDurationValue(d) == (d + 251) % 256
    ensures (d < 25 || 30 <= d < 80 || 90 <= d < 226) ==> DecrDurationValue(IncrDurationValue(d)) == d
    ensures 25 <= d < 30 ==> DecrDurationValue(IncrDurationValue(d)) == d - 5
    ensures 80 <= d < 90 ==> DecrDurationValue(IncrDurationValue(d)) == d - 20
  {
  }

  /** The light's timer callback does `toggleOff` on the LEDC. */
  const TIMER_MS: nat := 1000

  class MainLight {
    const duration: Bean<Byte>
    const ledc: Ledc
    var timer: Timer

    predicate Valid()
      reads this, ledc
    {
      ledc.Valid() && ledc.maxDuty == 7
    }

    /** The LEDC gets 3 bits on the lowest free channel; the timer is dormant. */
    constructor (pin: Byte, preferences: Preferences<Byte>, pool: ChannelPool)
      requires pool.IsAnyChannelAvailable()
      modifies pool
      ensures Valid() && fresh(ledc) && fresh(duration)
      ensures duration.name == "lightDuration" && duration.preferences == preferences && duration.value == 0
      ensures ledc.curDuty == 0 && timer == Timer(false, TIMER_MS)
    {
      duration := new Bean("lightDuration", preferences, 0);
      ledc := new Ledc(pin, 3, pool);
      timer := Timer(false, TIMER_MS);
    }

    /** setup: loads the on-time; a non-zero one becomes the timer period. */
    method Setup()
      requires Valid()
      modifies this, duration, duration.preferences
      ensures Valid() && duration.Synced()
      ensures duration.name in old(duration.preferences.store) ==> duration.value == old(duration.preferences.store)[duration.name]
      ensures duration.name !in old(duration.preferences.store) ==> duration.value == old(duration.value)
      ensures timer == if duration.value > 0 then old(timer).ChangePeriod(duration.value * 60 * 1000) else old(timer)
      ensures ledc.curDuty == old(ledc.curDuty)
    {
      duration.Load();
      if duration.Get() > 0 {
        timer := timer.ChangePeriod(duration.Get() * 60 * 1000);
      }
    }

    /** toggleOn: full duty; the timer restarts only when an on-time is set. */
    method ToggleOn()
      requires Valid()
      modifies this, ledc
      ensures Valid() && ledc.curDuty == 7
      ensures timer == if duration.value > 0 then old(timer).Reset() else old(timer)
    {
      if duration.Get() > 0 {
        timer := timer.Reset();
      }
      ledc.ToggleOn();
    }

    /** toggleOff: duty 0 and the timer stopped. */
    method ToggleOff()
      requires Valid()
      modifies this, ledc
      ensures Valid() && ledc.curDuty == 0 && !timer.running && timer.periodMs == old(timer.periodMs)
    {
      timer := timer.Stop();
      ledc.ToggleOff();
    }

    /** setDuration: stores the on-time; only a non-zero one changes the period. */
    method SetDuration(min: Byte)
      requires Valid()
      modifies this, duration, duration.preferences
      ensures Valid() && duration.value == min && duration.Synced()
      ensures duration.preferences.store == old(duration.preferences.store)[duration.name := min]
      ensures timer == if min > 0 then old(timer).ChangePeriod(min * 60 * 1000) else old(timer)
      ensures ledc.curDuty == old(ledc.curDuty)
    {
      duration.Assign(min);
      if min > 0 {
        timer := timer.ChangePeriod(min * 60 * 1000);
      }
    }

    /** incrDuration: steps the on-time up; the timer is left alone. */
    method IncrDuration()
      requires Valid()
      modifies duration, duration.preferences
      ensures duration.value == IncrDurationValue(old(duration.value)) && duration.Synced()
      ensures duration.preferences.store == old(duration.preferences.store)[duration.name := duration.value]
    {
      var durVal := duration.Get();
      duration.Assign(IncrDurationValue(durVal));
    }

    /** decrDuration: steps the on-time down; the timer is left alone. */
    method DecrDuration()
      requires Valid()
      modifies duration, duration.preferences
      ensures duration.value == DecrDurationValue(old(duration.value)) && duration.Synced()
      ensures duration.preferences.store == old(duration.preferences.store)[duration.name := duration.value]
    {
      var durVal := duration.Get();
      duration.Assign(DecrDurationValue(durVal));
    }

    function GetDuration(): Byte
      reads this, duration
    {
      duration.value
    }

    /** setDuty: the LEDC takes `duty` modulo 8; the timer runs iff the
        ARGUMENT and the on-time are both non-zero. */
    method SetDuty(duty: Byte)
      requires Valid()
      modifies this, ledc
      ensures Valid() && ledc.curDuty == duty % 8
      ensures timer.running == (duty > 0 && duration.value > 0) && timer.periodMs == old(timer.periodMs)
    {
      ledc.SetDuty(duty);
      if duty > 0 && duration.Get() > 0 {
        timer := timer.Reset();
      } else {
        timer := timer.Stop();
      }
    }

    /** incrDuty: one step brighter, 7 wraps to 0; timer runs iff lit and an on-time is set. */
    method IncrDuty()
      requires Valid()
      modifies this, ledc
      ensures Valid() && ledc.curDuty == DutyUp(old(ledc.curDuty), 7)
      ensures timer.running == (ledc.curDuty > 0 && duration.value > 0) && timer.periodMs == old(timer.periodMs)
    {
      ledc.Increment();
      if ledc.GetDuty() > 0 && duration.Get() > 0 {
        timer := timer.Reset();
      } else {
        timer := timer.Stop();
      }
    }

    /** decrDuty: one step darker, 0 wraps to 7; timer runs iff lit and an on-time is set. */
    method DecrDuty()
      requires Valid()
      modifies this, ledc
      ensures Valid() && ledc.curDuty == DutyDown(old(ledc.curDuty), 7)
      ensures timer.running == (ledc.curDuty > 0 && duration.value > 0) && timer.periodMs == old(timer.periodMs)
    {
      ledc.Decrement();
      if ledc.GetDuty() > 0 && duration.Get() > 0 {
        timer := timer.Reset();
      } else {
        timer := timer.Stop();
      }
    }

    function GetDuty(): nat
      reads this, ledc
      requires Valid()
    {
      ledc.GetDuty()
    }

    /** The timer callback: the light goes off; the one-shot timer is dormant again. */
    method TimerExpired()
      requires Valid()
      modifies this, ledc
      ensures Valid() && ledc.curDuty == 0 && timer == old(timer).Stop()
    {
      timer := timer.Stop();
      ledc.ToggleOff();
    }

    /** toJson: the duty and the on-time. */
    function ToJson(): (j: (nat, Byte))
      reads this, ledc, duration
      requires Valid()
      ensures j.0 <= 7
    {
      (ledc.GetDuty(), duration.value)
    }

    /** fromJson: setDuty, then setDuration. */
    method FromJson(duty: Byte, min: Byte)
      requires Valid()
      modifies this, ledc, duration, duration.preferences
      ensures Valid() && ledc.curDuty == duty % 8 && duration.value == min && duration.Synced()
      ensures timer.running == ((duty > 0 && old(duration.value) > 0) || min > 0)
    {
      SetDuty(duty);
      SetDuration(min);
    }
  }
}
