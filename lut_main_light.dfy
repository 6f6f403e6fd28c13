/** The room light of the `main` firmware variant (lib/AlarmClock/main/MainLight.hpp):
    a duty index 0..3 and a duration index 0..9, both change-notifying
    properties, looked up in fixed tables. The duty listener drives the LEDC
    and the timer, the duration listener sets the timer period, and the timer
    sets the duty back to 0 when it runs out. */
module LutMainLight {
  import opened Common
  import opened Hardware
  import BaseProperty

  /** LINEAR_DUTY_LUT: 8-bit LEDC duty per duty index. */
  const LINEAR_DUTY_LUT: seq<Byte> := [0, 16, 64, 255]

  /** DURATION_LUT: minutes per duration index. */
  const DURATION_LUT: seq<nat> := [5, 10, 15, 30, 45, 60, 90, 120, 180, 240]

  /** Duration::MIN_30, the duration property's initial index. */
  const MIN_30: Byte := 3

  /** The timer period for a duration index, in milliseconds. */
  function PeriodMs(index: nat): nat
    requires index < |DURATION_LUT|
  {
    1000 * 60 * DURATION_LUT[index]
  }

  /** `(p + 1) % size`: one index up, the last wraps to 0. */
  function IncrIndex(d: Byte, size: nat): (r: Byte)
    requires 0 < size <= 256 && d < size
    ensures r < size
    ensures d + 1 < size ==> r == d + 1
    ensures d + 1 == size ==> r == 0
  {
    var q := if d + 1 < size then 0 else 1;
    ModUnique(d + 1, size, q, d + 1 - q * size);
    (d + 1) % size
  }

  /** `(p - 1 + size) % size` as the source computes it: `p - 1` is the
      uint8_t that Property::operator- returns, so 0 - 1 is 255. */
  function DecrIndexAsWritten(d: Byte, size: nat): (r: Byte)
    requires 0 < size <= 256 && d < size
    ensures r < size
  {
    (U8(d - 1) + size) % size
  }

  /** One index down, 0 wrapping to the last index. */
  function DecrIndex(d: Byte, size: nat): (r: Byte)
    requires 0 < size <= 256 && d < size
    ensures r < size
    ensures d > 0 ==> r == d - 1
    ensures d == 0 ==> r == size - 1
  {
    var q := if d > 0 then 1 else 0;
    ModUnique(d + size - 1, size, q, d + size - 1 - q * size);
    (d + size - 1) % size
  }

  /** Stepping up and down undo each other. */
  lemma IndexStepsInverse(d: Byte, size: nat)
    requires 0 < size <= 256 && d < size
    ensures DecrIndex(IncrIndex(d, size), size) == d
    ensures IncrIndex(DecrIndex(d, size), size) == d
  {
  }

  /** The written decrement is right away from 0, and at 0 exactly when
      the table size divides 256: so for the 4 duties, but not the 10 durations. */
  lemma DecrIndexAsWrittenAgrees(d: Byte, size: nat)
    requires 0 < size <= 256 && d < size
    ensures d > 0 ==> DecrIndexAsWritten(d, size) == DecrIndex(d, size)
    ensures d == 0 ==> (DecrIndexAsWritten(d, size) == DecrIndex(d, size) <==> 256 % size == 0)
  {
    if d == 0 {
      assert DecrIndexAsWritten(d, size) == 255 % size by {
        ModUnique(255 + size, size, 255 / size + 1, 255 % size);
      }
      if 255 % size == size - 1 {
        ModUnique(256, size, 255 / size + 1, 0);
      }
      if 256 % size == 0 {
        ModUnique(255, size, 256 / size - 1, size - 1);
      }
    }
  }

  /** decrDuration at index 0 (MIN_5) jumps to index 5 (MIN_60), not to 9 (MIN_240). */
  lemma DecrDurationAtZeroAsWritten()
    ensures DecrIndexAsWritten(0, |DURATION_LUT|) == 5
    ensures DecrIndex(0, |DURATION_LUT|) == 9
  {
    assert U8(0 - 1) == 255;
  }

  class MainLight {
    const duty: BaseProperty.Property<Byte>
    const duration: BaseProperty.Property<Byte>
    var ledcDuty: Byte
    var timer: Timer
    var listening: bool

    /** Both indices are in range; once set up, each property has its one listener. */
    predicate Valid()
      reads this, duty, duration
    {
      duty != duration &&
      duty.value < |LINEAR_DUTY_LUT| && duration.value < |DURATION_LUT| &&
      (listening ==> duty.listeners == 1 && duration.listeners == 1) &&
      (!listening ==> duty.listeners == 0 && duration.listeners == 0)
    }

    /** Duty OFF, duration MIN_30, a dormant one-shot timer of 30 minutes. */
    constructor ()
      ensures Valid() && !listening && fresh(duty) && fresh(duration)
      ensures duty.value == 0 && duration.value == MIN_30 && ledcDuty == 0
      ensures timer == Timer(false, PeriodMs(MIN_30))
    {
      duty := new BaseProperty.Property("lightDuty", 0);
      duration := new BaseProperty.Property("lightDur", MIN_30);
      ledcDuty := 0;
      timer := Timer(false, PeriodMs(MIN_30));
      listening := false;
    }

    /** setup: attaches the duty and the duration listener. */
    method Setup()
      requires Valid() && !listening
      modifies this, duty, duration
      ensures Valid() && listening
      ensures duty.value == old(duty.value) && duration.value == old(duration.value)
      ensures ledcDuty == old(ledcDuty) && timer == old(timer)
    {
      var d := duty.AddChangeListener();
      var r := duration.AddChangeListener();
      listening := true;
    }

    /** The duty listener, called with the new duty index. */
    method DutyChanged(v: Byte)
      requires v < |LINEAR_DUTY_LUT|
      modifies this
      ensures ledcDuty == LINEAR_DUTY_LUT[v]
      ensures timer == if v > 0 then old(timer).Reset() else old(timer).Stop()
      ensures listening == old(listening)
    {
      ledcDuty := LINEAR_DUTY_LUT[v];
      if v > 0 {
        timer := timer.Reset();
      } else {
        timer := timer.Stop();
      }
    }

    /** The duration listener, called with the new duration index. */
    method DurationChanged(v: Byte)
      requires v < |DURATION_LUT| && duty.value < |LINEAR_DUTY_LUT|
      modifies this
      ensures timer == if duty.value > 0 then Timer(true, PeriodMs(v)) else Timer(false, PeriodMs(v))
      ensures ledcDuty == old(ledcDuty) && listening == old(listening)
    {
      timer := timer.ChangePeriod(PeriodMs(v));
      if duty.Get() > 0 {
        timer := timer.Reset();
      } else {
        timer := timer.Stop();
      }
    }

    /** `duty = v`: through Property::set, so the listener runs only on a change. */
    method AssignDuty(v: Byte)
      requires Valid() && v < |LINEAR_DUTY_LUT|
      modifies this, duty
      ensures Valid() && duty.value == v && duration.value == old(duration.value)
      ensures v == old(duty.value) ==> ledcDuty == old(ledcDuty) && timer == old(timer)
      ensures v != old(duty.value) && listening ==>
        ledcDuty == LINEAR_DUTY_LUT[v] && timer == (if v > 0 then old(timer).Reset() else old(timer).Stop())
      ensures !listening ==> ledcDuty == old(ledcDuty) && timer == old(timer)
      ensures listening == old(listening)
    {
      var mark := |duty.calls|;
      duty.Assign(v);
      if |duty.calls| > mark {
        DutyChanged(duty.calls[mark].newValue);
      }
    }

    /** `duration = v`: through Property::set, so the listener runs only on a change. */
    method AssignDuration(v: Byte)
      requires Valid() && v < |DURATION_LUT|
      modifies this, duration
      ensures Valid() && duration.value == v && duty.value == old(duty.value) && ledcDuty == old(ledcDuty)
      ensures v == old(duration.value) ==> timer == old(timer)
      ensures v != old(duration.value) && listening ==>
        timer == (if duty.value > 0 then Timer(true, PeriodMs(v)) else Timer(false, PeriodMs(v)))
      ensures !listening ==> timer == old(timer)
      ensures listening == old(listening)
    {
      var mark := |duration.calls|;
      duration.Assign(v);
      if |duration.calls| > mark {
        DurationChanged(duration.calls[mark].newValue);
      }
    }

    function GetDuty(): Byte
      reads duty
    {
      duty.Get()
    }

    function GetDuration(): Byte
      reads duration
    {
      duration.Get()
    }

    method SetDuty(val: Byte)
      requires Valid() && val < |LINEAR_DUTY_LUT|
      modifies this, duty
      ensures Valid() && duty.value == val && listening == old(listening)
    {
      AssignDuty(val);
    }

    method SetDuration(val: Byte)
      requires Valid() && val < |DURATION_LUT|
      modifies this, duration
      ensures Valid() && duration.value == val && listening == old(listening)
    {
      AssignDuration(val);
    }

    /** incrDuty: `(duty + 1) % 4`. */
    method IncrDuty()
      requires Valid()
      modifies this, duty
      ensures Valid() && duty.value == IncrIndex(old(duty.value), |LINEAR_DUTY_LUT|)
      ensures listening ==> ledcDuty == LINEAR_DUTY_LUT[duty.value] && timer.running == (duty.value > 0)
    {
      AssignDuty((BaseProperty.Plus(duty, 1)) % |LINEAR_DUTY_LUT|);
    }

    /** decrDuty: `(duty - 1 + 4) % 4`, which wraps correctly because 4 divides 256. */
    method DecrDuty()
      requires Valid()
      modifies this, duty
      ensures Valid() && duty.value == DecrIndex(old(duty.value), |LINEAR_DUTY_LUT|)
      ensures listening ==> ledcDuty == LINEAR_DUTY_LUT[duty.value] && timer.running == (duty.value > 0)
    {
      DecrIndexAsWrittenAgrees(duty.value, |LINEAR_DUTY_LUT|);
      AssignDuty((BaseProperty.Minus(duty, 1) + |LINEAR_DUTY_LUT|) % |LINEAR_DUTY_LUT|);
    }

    /** incrDuration: `(duration + 1) % 10`. */
    method IncrDuration()
      requires Valid()
      modifies this, duration
      ensures Valid() && duration.value == IncrIndex(old(duration.value), |DURATION_LUT|)
      ensures listening ==> timer.periodMs == PeriodMs(duration.value) && timer.running == (duty.value > 0)
    {
      AssignDuration((BaseProperty.Plus(duration, 1)) % |DURATION_LUT|);
    }

    /** decrDuration: `(duration - 1 + 10) % 10` on the uint8_t `duration - 1`,
        so index 0 goes to 5 (see DecrDurationAtZeroAsWritten); every other
        index steps down by one. */
    method DecrDuration()
      requires Valid()
      modifies this, duration
      ensures Valid() && duration.value == DecrIndexAsWritten(old(duration.value), |DURATION_LUT|)
      ensures old(duration.value) > 0 ==> duration.value == old(duration.value) - 1
      ensures old(duration.value) == 0 ==> duration.value == 5
      ensures listening ==> timer.periodMs == PeriodMs(duration.value) && timer.running == (duty.value > 0)
    {
      DecrIndexAsWrittenAgrees(duration.value, |DURATION_LUT|);
      DecrDurationAtZeroAsWritten();
      AssignDuration((BaseProperty.Minus(duration, 1) + |DURATION_LUT|) % |DURATION_LUT|);
    }

    /** decrDuration as evidently intended: index 0 wraps to the last index, 9. */
    method DecrDurationWrapping()
      requires Valid()
      modifies this, duration
      ensures Valid() && duration.value == DecrIndex(old(duration.value), |DURATION_LUT|)
      ensures IncrIndex(duration.value, |DURATION_LUT|) == old(duration.value)
      ensures listening ==> timer.periodMs == PeriodMs(duration.value) && timer.running == (duty.value > 0)
    {
      IndexStepsInverse(duration.value, |DURATION_LUT|);
      AssignDuration(DecrIndex(duration.Get(), |DURATION_LUT|));
    }

    /** The timer callback: `duty = 0`. */
    method TimerExpired()
      requires Valid()
      modifies this, duty
      ensures Valid() && duty.value == 0
      ensures listening && old(duty.value) > 0 ==> ledcDuty == 0 && !timer.running
    {
      AssignDuty(0);
    }
  }
}
