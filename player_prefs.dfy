/**
  Unity's per-user preference store (`PlayerPrefs`), as a value: a map from key
  to a typed entry. Only the two reads the plugin makes are modelled.
 */
module PlayerPrefs {

  datatype PrefValue = IntPref(i: int) | StringPref(s: string)

  datatype Store = Store(entries: map<string, PrefValue>)
  {
    /** `PlayerPrefs.GetString(key)`: the stored string, or "" when there is none. */
    function GetString(key: string): (r: string)
      ensures key in entries && entries[key].StringPref? ==> r == entries[key].s
      ensures r != "" ==> key in entries && entries[key] == StringPref(r)
    {
      if key in entries && entries[key].StringPref? then entries[key].s else ""
    }

    /** `PlayerPrefs.GetInt(key, fallback)`: the stored integer, or `fallback` when there is none. */
    function GetInt(key: string, fallback: int): (r: int)
      ensures key in entries && entries[key].IntPref? ==> r == entries[key].i
      ensures key !in entries ==> r == fallback
    {
      if key in entries && entries[key].IntPref? then entries[key].i else fallback
    }
  }
}
