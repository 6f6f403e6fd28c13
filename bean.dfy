/** Settings that persist themselves (lib/AlarmClock/src/Bean.hpp): a bean
    caches one value and writes it through to the ESP32 Preferences store
    under its key. */
module Beans {

  /** The ESP32 Preferences namespace, as a map from key to stored value. The
      store keeps one value type per map (putUChar, putBool, putString). */
  class Preferences<T> {
    var store: map<string, T>

    constructor ()
      ensures store == map[]
    {
      store := map[];
    }

    predicate IsKey(key: string)
      reads this
    {
      key in store
    }

    /** putUChar/putBool/putString, which the bean asserts to succeed. */
    method Put(key: string, v: T)
      modifies this
      ensures store == old(store)[key := v]
    {
      store := store[key := v];
    }

    method Remove(key: string)
      modifies this
      ensures store == old(store) - {key}
    {
      store := store - {key};
    }
  }

  /** Bean<T>: the cached `value`, the key `name` and the store it persists to. */
  class Bean<T(==)> {
    const name: string
    const preferences: Preferences<T>
    var value: T

    /** The cache starts at the type's default (`T value{}`); the store is not touched. */
    constructor (name: string, preferences: Preferences<T>, default: T)
      ensures this.name == name && this.preferences == preferences && value == default
    {
      this.name := name;
      this.preferences := preferences;
      value := default;
    }

    /** The cache and the store agree on this bean's key. */
    predicate Synced()
      reads this, preferences
    {
      name in preferences.store && preferences.store[name] == value
    }

    /** get: the cached value; the frame shows the store is not read. */
    function Get(): (v: T)
      reads this
      ensures v == value
    {
      value
    }

    /** set: caches the value and writes it through, even when it is unchanged. */
    method Set(val: T)
      modifies this, preferences
      ensures value == val && preferences.store == old(preferences.store)[name := val]
      ensures Synced()
    {
      value := val;
      preferences.Put(name, value);
    }

    /** load: takes the stored value if the key exists, otherwise stores the cached one. */
    method Load()
      modifies this, preferences
      ensures name in old(preferences.store) ==>
        value == old(preferences.store)[name] && preferences.store == old(preferences.store)
      ensures name !in old(preferences.store) ==>
        value == old(value) && preferences.store == old(preferences.store)[name := value]
      ensures Synced()
    {
      if preferences.IsKey(name) {
        value := preferences.store[name];
      } else {
        preferences.Put(name, value);
      }
    }

    /** reset: removes the key from the store; the cached value stays. */
    method Reset()
      modifies preferences
      ensures preferences.store == old(preferences.store) - {name}
      ensures !Synced() && value == old(value)
    {
      preferences.Remove(name);
    }

    /** operator= of Uint8Bean, BoolBean and StringBean is `set`. */
    method Assign(val: T)
      modifies this, preferences
      ensures value == val && preferences.store == old(preferences.store)[name := val]
      ensures Synced()
    {
      Set(val);
    }
  }
}
