/**
 * The settings store that the permissions service is built over: a key/value
 * map of named defaults, read with `GetDefault` and written with `SetDefault`.
 */
module Settings {
  import opened Wrappers

  /** The value saved under `key`, or `None` (the store's `null`) when nothing is saved. */
  function Lookup(defaults: map<string, string>, key: string): Option<string>
  {
    if key in defaults then Some(defaults[key]) else None
  }

  class SettingsStore {
    var defaults: map<string, string>

    /** A store with nothing saved, so every lookup answers `None`. */
    constructor ()
      ensures defaults == map[]
    {
      defaults := map[];
    }

    method GetDefault(key: string) returns (v: Option<string>)
      ensures v.Some? <==> key in defaults
      ensures v.Some? ==> v.value == defaults[key]
    {
      v := Lookup(defaults, key);
    }

    /** Saves `value` under `key`; every other key keeps its value. */
    method SetDefault(key: string, value: string)
      modifies this
      ensures defaults == old(defaults)[key := value]
    {
      defaults := defaults[key := value];
    }
  }
}
