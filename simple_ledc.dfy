/** An ESP32 LEDC PWM channel (lib/ESP32_SimpleLEDC/ESP32_SimpleLEDC.hpp):
    channels are handed out from a 16-bit mask shared by all instances, and
    each instance keeps its duty below 2^resolution. */
module SimpleLedc {
  import opened Common

  const CHANNEL_COUNT: nat := 16

  /** Bit `i` of the channel mask is set. */
  predicate InUse(mask: bv16, i: nat)
    requires i < CHANNEL_COUNT
  {
    mask & ((1 as bv16) << i) != 0
  }

  /** `after` is `before` with channel `ch`'s bit set. */
  predicate TakesChannel(before: bv16, after: bv16, ch: nat)
    requires ch < CHANNEL_COUNT
  {
    after == before | ((1 as bv16) << ch)
  }

  /** A mask with all 16 channel bits set is the full mask. */
  lemma AllInUseIsFull(mask: bv16)
    requires forall i :: 0 <= i < CHANNEL_COUNT ==> InUse(mask, i)
    ensures mask == 0xFFFF
  {
    assert InUse(mask, 0) && InUse(mask, 1) && InUse(mask, 2) && InUse(mask, 3);
    assert InUse(mask, 4) && InUse(mask, 5) && InUse(mask, 6) && InUse(mask, 7);
    assert InUse(mask, 8) && InUse(mask, 9) && InUse(mask, 10) && InUse(mask, 11);
    assert InUse(mask, 12) && InUse(mask, 13) && InUse(mask, 14) && InUse(mask, 15);
  }

  /** The mask is not full exactly when some channel is free. */
  lemma AvailableIffSomeChannelFree(mask: bv16)
    ensures mask != 0xFFFF <==> exists i :: 0 <= i < CHANNEL_COUNT && !InUse(mask, i)
  {
    if mask != 0xFFFF && forall i :: 0 <= i < CHANNEL_COUNT ==> InUse(mask, i) {
      AllInUseIsFull(mask);
    }
    if mask == 0xFFFF {
      forall i | 0 <= i < CHANNEL_COUNT
        ensures InUse(mask, i)
      {
      }
    }
  }

  /** Setting a free channel's bit and clearing it again gives back the mask. */
  lemma ClearUndoesSet(mask: bv16, ch: nat)
    requires ch < CHANNEL_COUNT && !InUse(mask, ch)
    ensures (mask | ((1 as bv16) << ch)) & !((1 as bv16) << ch) == mask
  {
  }

  /** The class-wide `channelsInUse` mask. */
  class ChannelPool {
    var channelsInUse: bv16

    constructor ()
      ensures channelsInUse == 0
    {
      channelsInUse := 0;
    }

    /** isAnyChannelAvailable: the mask is not all ones. */
    predicate IsAnyChannelAvailable()
      reads this
    {
      channelsInUse != 0xFFFF
    }

    /** getFreeChannel: the lowest free channel, which becomes used. The
        source asserts that one exists. */
    method GetFreeChannel() returns (channel: nat)
      requires IsAnyChannelAvailable()
      modifies this
      ensures channel < CHANNEL_COUNT && !InUse(old(channelsInUse), channel)
      ensures forall i :: 0 <= i < channel ==> InUse(old(channelsInUse), i)
      ensures TakesChannel(old(channelsInUse), channelsInUse, channel)
    {
      var found := -1;
      var i := 0;
      while found == -1 && i < CHANNEL_COUNT
        invariant 0 <= i <= CHANNEL_COUNT
        invariant found == -1 ==> channelsInUse == old(channelsInUse)
        invariant found == -1 ==> forall j :: 0 <= j < i ==> InUse(old(channelsInUse), j)
        invariant found != -1 ==> 0 <= found < i && !InUse(old(channelsInUse), found)
        invariant found != -1 ==> forall j :: 0 <= j < found ==> InUse(old(channelsInUse), j)
        invariant found != -1 ==> TakesChannel(old(channelsInUse), channelsInUse, found)
      {
        if channelsInUse & ((1 as bv16) << i) == 0 {
          channelsInUse := channelsInUse | ((1 as bv16) << i);
          found := i;
        }
        i := i + 1;
      }
      if found == -1 {
        AllInUseIsFull(old(channelsInUse));
        assert false;
      }
      channel := found;
    }

    /** remove: marks the channel free again. */
    method Remove(channel: nat)
      requires channel < CHANNEL_COUNT
      modifies this
      ensures channelsInUse == old(channelsInUse) & !((1 as bv16) << channel)
      ensures !InUse(channelsInUse, channel)
    {
      channelsInUse := channelsInUse & !((1 as bv16) << channel);
    }
  }

  /** `curDuty = duty % (maxDuty + 1)` */
  function WrapDuty(duty: nat, maxDuty: nat): (r: nat)
    ensures r <= maxDuty
    ensures duty <= maxDuty ==> r == duty
  {
    duty % (maxDuty + 1)
  }

  /** operator++ on a stored duty: one up, maxDuty wraps to 0. */
  function DutyUp(duty: nat, maxDuty: nat): (r: nat)
    requires duty <= maxDuty
    ensures r <= maxDuty
    ensures duty < maxDuty ==> r == duty + 1
    ensures duty == maxDuty ==> r == 0
  {
    WrapDuty(duty + 1, maxDuty)
  }

  /** operator-- on a stored duty: one down, 0 wraps to maxDuty. */
  function DutyDown(duty: nat, maxDuty: nat): (r: nat)
    requires duty <= maxDuty
    ensures r <= maxDuty
    ensures duty > 0 ==> r == duty - 1
    ensures duty == 0 ==> r == maxDuty
  {
    WrapDuty(duty + (maxDuty + 1) - 1, maxDuty)
  }

  /** `++` and `--` undo each other. */
  lemma DutyUpDownInverse(duty: nat, maxDuty: nat)
    requires duty <= maxDuty
    ensures DutyDown(DutyUp(duty, maxDuty), maxDuty) == duty
    ensures DutyUp(DutyDown(duty, maxDuty), maxDuty) == duty
  {
  }

  /** LEDC: one channel driven with a resolution of 1 to 16 bits. */
  class Ledc {
    const pin: Byte
    const resolution: nat
    const channel: nat
    const maxDuty: nat
    var curDuty: nat

    predicate Valid()
      reads this
    {
      1 <= resolution <= 16 && maxDuty == Pow2(resolution) - 1 &&
      channel < CHANNEL_COUNT && curDuty <= maxDuty
    }

    /** Takes the lowest free channel from the pool; the duty starts at 0. */
    constructor (pin: Byte, resolution: nat, pool: ChannelPool)
      requires 1 <= resolution <= 16 && pool.IsAnyChannelAvailable()
      modifies pool
      ensures Valid() && curDuty == 0
      ensures this.pin == pin && this.resolution == resolution && maxDuty == Pow2(resolution) - 1
      ensures !InUse(old(pool.channelsInUse), channel)
      ensures forall i :: 0 <= i < channel ==> InUse(old(pool.channelsInUse), i)
      ensures TakesChannel(old(pool.channelsInUse), pool.channelsInUse, channel)
    {
      this.pin := pin;
      this.resolution := resolution;
      maxDuty := Pow2(resolution) - 1;
      curDuty := 0;
      var c := pool.GetFreeChannel();
      channel := c;
    }

    /** remove: frees this instance's channel. */
    method Remove(pool: ChannelPool)
      requires Valid()
      modifies pool
      ensures pool.channelsInUse == old(pool.channelsInUse) & !((1 as bv16) << channel)
    {
      pool.Remove(channel);
    }

    method SetDuty(duty: nat)
      requires Valid()
      modifies this
      ensures Valid() && curDuty == WrapDuty(duty, maxDuty)
    {
      curDuty := duty % (maxDuty + 1);
    }

    function GetDuty(): (d: nat)
      reads this
      requires Valid()
      ensures d <= maxDuty
    {
      curDuty
    }

    method ToggleOff()
      requires Valid()
      modifies this
      ensures Valid() && curDuty == 0
    {
      SetDuty(0);
    }

    method ToggleOn()
      requires Valid()
      modifies this
      ensures Valid() && curDuty == maxDuty
    {
      SetDuty(maxDuty);
    }

    method Increment()
      requires Valid()
      modifies this
      ensures Valid() && curDuty == DutyUp(old(curDuty), maxDuty)
    {
      SetDuty(GetDuty() + 1);
    }

    method Decrement()
      requires Valid()
      modifies this
      ensures Valid() && curDuty == DutyDown(old(curDuty), maxDuty)
    {
      SetDuty(GetDuty() + (maxDuty + 1) - 1);
    }
  }
}
