/** db/global-settings.js: a key-value table with an upsert. A stored value may be
    null, which `getSetting` reports like a missing key. */
module GlobalSettings {
  import opened Common
  import opened JsText

  class SettingsStore {
    var values: map<string, Option<string>>

    constructor ()
      ensures values == map[]
    {
      values := map[];
    }

    /** `setSetting(key, value)`: inserts the key or overwrites its value, and gives
        back the value it was handed. */
    method SetSetting(key: string, value: Option<string>) returns (r: Option<string>)
      modifies this
      ensures values == old(values)[key := value]
      ensures r == value
    {
      values := values[key := value];
      r := value;
    }
  }

  /** `getSetting(key)`: the stored value, or null for a missing key or a falsy value. */
  function GetSetting(values: map<string, Option<string>>, key: string): (r: Option<string>)
    ensures r.Some? <==> key in values && Truthy(values[key])
    ensures r.Some? ==> r == values[key]
  {
    if key in values && Truthy(values[key]) then values[key] else None
  }

  /** After a set with a truthy value, a get of that key gives the value, and every
      other key reads as before. */
  lemma SetThenGet(values: map<string, Option<string>>, key: string, value: Option<string>, other: string)
    requires Truthy(value) && other != key
    ensures GetSetting(values[key := value], key) == value
    ensures GetSetting(values[key := value], other) == GetSetting(values, other)
  {
  }
}
