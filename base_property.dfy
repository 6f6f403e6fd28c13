/** A value that notifies change listeners (lib/AlarmClock/base/Property.hpp).
    `set` stores a different value FIRST and then calls every listener, in
    the order they were added, with (old, new). Listeners are identified by
    their registration index; what they do is up to their owner, so the
    property records each call in `calls`. */
module BaseProperty {
  import opened Common

  /** One listener call: the listener, the value stored while it ran, and
      the (old, new) pair it was given. */
  datatype Call<T> = Call(listener: nat, stored: T, oldValue: T, newValue: T)

  /** The calls one change makes: listeners 0 .. count-1 in turn. */
  function Round<T>(count: nat, stored: T, oldValue: T, newValue: T): (r: seq<Call<T>>)
    ensures |r| == count
    ensures forall k :: 0 <= k < count ==> r[k] == Call(k, stored, oldValue, newValue)
  {
    if count == 0 then [] else Round(count - 1, stored, oldValue, newValue) + [Call(count - 1, stored, oldValue, newValue)]
  }

  /** What `set(arg)` does to (value, calls) with `count` listeners. */
  ghost predicate SetEffect<T>(before: T, beforeCalls: seq<Call<T>>, count: nat, arg: T, after: T, afterCalls: seq<Call<T>>)
  {
    if arg == before then after == before && afterCalls == beforeCalls
    else after == arg && afterCalls == beforeCalls + Round(count, arg, before, arg)
  }

  /** A set whose value is already stored changes nothing: setting the same
      value twice notifies once. */
  lemma SetTwiceNotifiesOnce<T>(v0: T, c0: seq<Call<T>>, count: nat, arg: T, v1: T, c1: seq<Call<T>>, v2: T, c2: seq<Call<T>>)
    requires SetEffect(v0, c0, count, arg, v1, c1) && SetEffect(v1, c1, count, arg, v2, c2)
    ensures v2 == arg && c2 == c1
    ensures |c2| == |c0| + (if arg == v0 then 0 else count)
  {
  }

  /** Every call of a change sees the new value already stored, and the
      listeners are called once each, in registration order. */
  lemma ChangeCallsEachListenerOnce<T>(v0: T, c0: seq<Call<T>>, count: nat, arg: T, v1: T, c1: seq<Call<T>>)
    requires SetEffect(v0, c0, count, arg, v1, c1) && arg != v0
    ensures |c1| == |c0| + count && c1[..|c0|] == c0
    ensures forall k :: |c0| <= k < |c1| ==>
      c1[k].listener == k - |c0| && c1[k].stored == v1 && c1[k].oldValue == v0 && c1[k].newValue == arg
  {
  }

  class Property<T(==)> {
    const name: string
    var value: T
    var listeners: nat
    var calls: seq<Call<T>>

    /** Property(name, initialValue); `Property(name)` passes `T{}`. */
    constructor (name: string, initialValue: T)
      ensures this.name == name && value == initialValue && listeners == 0 && calls == []
    {
      this.name := name;
      value := initialValue;
      listeners := 0;
      calls := [];
    }

    function Get(): (v: T)
      reads this
      ensures v == value
    {
      value
    }

    method Set(newValue: T)
      modifies this
      ensures SetEffect(old(value), old(calls), listeners, newValue, value, calls)
      ensures listeners == old(listeners)
    {
      if newValue != value {
        var oldValue := value;
        value := newValue;
        var i := 0;
        while i < listeners
          invariant 0 <= i <= listeners && value == newValue && listeners == old(listeners)
          invariant calls == old(calls) + Round(i, newValue, oldValue, newValue)
        {
          calls := calls + [Call(i, value, oldValue, newValue)];
          i := i + 1;
        }
      }
    }

    /** addChangeListener: the new listener is called after all earlier ones. */
    method AddChangeListener() returns (id: nat)
      modifies this
      ensures id == old(listeners) && listeners == old(listeners) + 1
      ensures value == old(value) && calls == old(calls)
    {
      id := listeners;
      listeners := listeners + 1;
    }

    /** operator=(T) is `set`. */
    method Assign(newValue: T)
      modifies this
      ensures SetEffect(old(value), old(calls), listeners, newValue, value, calls)
      ensures listeners == old(listeners)
    {
      Set(newValue);
    }
  }

  /** operator+(T) on a uint8 property: the sum as a uint8. */
  function Plus(p: Property<Byte>, other: Byte): (r: Byte)
    reads p
    ensures p.value + other < 256 ==> r == p.value + other
    ensures p.value + other >= 256 ==> r == p.value + other - 256
  {
    U8(p.value + other)
  }

  /** operator-(T) on a uint8 property: the difference as a uint8. */
  function Minus(p: Property<Byte>, other: Byte): (r: Byte)
    reads p
    ensures p.value >= other ==> r == p.value - other
    ensures p.value < other ==> r == p.value - other + 256
  {
    U8(p.value - other)
  }

  /** operator+=: `set(value + x)`, truncated to uint8. */
  method AddAssign(p: Property<Byte>, x: Byte)
    modifies p
    ensures SetEffect(old(p.value), old(p.calls), p.listeners, U8(old(p.value) + x), p.value, p.calls)
    ensures p.listeners == old(p.listeners)
  {
    p.Assign(U8(p.value + x));
  }

  /** operator-=: `set(value - x)`, truncated to uint8. */
  method SubAssign(p: Property<Byte>, x: Byte)
    modifies p
    ensures SetEffect(old(p.value), old(p.calls), p.listeners, U8(old(p.value) - x), p.value, p.calls)
    ensures p.listeners == old(p.listeners)
  {
    p.Assign(U8(p.value - x));
  }

  /** operator*=: `set(value * x)`, truncated to uint8. */
  method MulAssign(p: Property<Byte>, x: Byte)
    modifies p
    ensures SetEffect(old(p.value), old(p.calls), p.listeners, U8(old(p.value) * x), p.value, p.calls)
    ensures p.listeners == old(p.listeners)
  {
    p.Assign(U8(p.value * x));
  }

  /** operator/=: `set(value / x)`; division by zero is undefined in C++. */
  method DivAssign(p: Property<Byte>, x: Byte)
    requires x != 0
    modifies p
    ensures SetEffect(old(p.value), old(p.calls), p.listeners, old(p.value) / x, p.value, p.calls)
    ensures p.listeners == old(p.listeners)
  {
    p.Assign(p.value / x);
  }

  /** operator++: `+= 1`, so 255 wraps to 0. */
  method Increment(p: Property<Byte>)
    modifies p
    ensures SetEffect(old(p.value), old(p.calls), p.listeners, U8(old(p.value) + 1), p.value, p.calls)
    ensures p.listeners == old(p.listeners)
  {
    AddAssign(p, 1);
  }

  /** operator--: `-= 1`, so 0 wraps to 255. */
  method Decrement(p: Property<Byte>)
    modifies p
    ensures SetEffect(old(p.value), old(p.calls), p.listeners, U8(old(p.value) - 1), p.value, p.calls)
    ensures p.listeners == old(p.listeners)
  {
    SubAssign(p, 1);
  }
}
