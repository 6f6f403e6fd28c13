/** The earlier change-notifying value (lib/ACr2v6/src/ACr2v6/Property.hpp),
    instantiated with the uint8_t its comment names. Unlike the newer
    Property, `set` calls the listeners while the OLD value is still stored
    and stores the new value afterwards. */
module AcProperty {
  import opened Common

  /** One listener call: the listener, the value stored while it ran, and
      the (old, new) pair it was given. */
  datatype Call = Call(listener: nat, stored: Byte, oldValue: Byte, newValue: Byte)

  /** The calls one change makes: listeners 0 .. count-1 in turn, each
      seeing `oldValue` stored. */
  function Round(count: nat, oldValue: Byte, newValue: Byte): (r: seq<Call>)
    ensures |r| == count
    ensures forall k :: 0 <= k < count ==> r[k] == Call(k, oldValue, oldValue, newValue)
  {
    if count == 0 then [] else Round(count - 1, oldValue, newValue) + [Call(count - 1, oldValue, oldValue, newValue)]
  }

  class Property {
    var val: Byte
    var listeners: nat
    var calls: seq<Call>

    /** Property(T initialValue). */
    constructor (initialValue: Byte)
      ensures val == initialValue && listeners == 0 && calls == []
    {
      val := initialValue;
      listeners := 0;
      calls := [];
    }

    /** Property() = default: `val{}` is 0. */
    constructor Default()
      ensures Get() == 0 && listeners == 0 && calls == []
    {
      val := 0;
      listeners := 0;
      calls := [];
    }

    function Get(): (v: Byte)
      reads this
      ensures v == val
    {
      val
    }

    /** set: nothing happens for an equal value; otherwise every listener
        is called with (old, new) before the new value is stored. */
    method Set(value: Byte)
      modifies this
      ensures value == old(val) ==> val == old(val) && calls == old(calls)
      ensures value != old(val) ==> val == value && calls == old(calls) + Round(listeners, old(val), value)
      ensures listeners == old(listeners)
    {
      if val != value {
        var i := 0;
        while i < listeners
          invariant 0 <= i <= listeners && val == old(val) && listeners == old(listeners)
          invariant calls == old(calls) + Round(i, val, value)
        {
          calls := calls + [Call(i, val, val, value)];
          i := i + 1;
        }
        val := value;
      }
    }

    /** addListener: appended, so it is called after all earlier ones. */
    method AddListener() returns (id: nat)
      modifies this
      ensures id == old(listeners) && listeners == old(listeners) + 1
      ensures val == old(val) && calls == old(calls)
    {
      id := listeners;
      listeners := listeners + 1;
    }
  }
}
