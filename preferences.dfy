/** An Android SharedPreferences file: a map from key to a typed value.
    A value stored under another type is read as missing (Android would
    throw ClassCastException; the app never stores one). */
module SharedPrefs {
  import opened Common

  datatype Pref = BoolPref(b: bool) | StringPref(s: string) | LongPref(l: Long)

  type Prefs = map<string, Pref>

  function GetBoolean(prefs: Prefs, key: string, default: bool): bool
  {
    if key in prefs && prefs[key].BoolPref? then prefs[key].b else default
  }

  /** `getString(key, default)`; the default may be null, hence `Option`. */
  function GetString(prefs: Prefs, key: string, default: Option<string>): Option<string>
  {
    if key in prefs && prefs[key].StringPref? then Some(prefs[key].s) else default
  }

  function GetLong(prefs: Prefs, key: string, default: Long): Long
  {
    if key in prefs && prefs[key].LongPref? then prefs[key].l else default
  }
}
