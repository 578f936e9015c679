/**
 * The two pieces of platform state the theme logic touches: the "ThemePrefs"
 * preference store, which survives restarts, and the process-wide default
 * night mode of the compatibility delegate.
 */
module Theme {

  /** The delegate's default night mode; nothing has set it before the screen starts. */
  datatype NightMode = ModeNightUnspecified | ModeNightYes | ModeNightNo

  /** The one key the screen keeps in its preference store. */
  const DarkModeKey: string := "isDarkMode"

  /** `applyTheme`: the night mode a dark or light choice selects. */
  function ModeFor(isDarkMode: bool): (m: NightMode)
    ensures m != ModeNightUnspecified
    ensures m == ModeNightYes <==> isDarkMode
  {
    if isDarkMode then ModeNightYes else ModeNightNo
  }

  /** A boolean read from the store, with the caller's default for a missing key. */
  function ReadFlag(entries: map<string, bool>, key: string, default: bool): (b: bool)
  {
    if key in entries then entries[key] else default
  }

  /** The store after `edit().putBoolean(key, value).apply()`, taken as immediate. */
  function WriteFlag(entries: map<string, bool>, key: string, value: bool): (e: map<string, bool>)
    ensures key in e && e.Keys == entries.Keys + {key}
  {
    entries[key := value]
  }

  /** A write is seen by every later read of its key, whatever the default, and by no other key. */
  lemma ReadAfterWrite(entries: map<string, bool>, key: string, value: bool, other: string, default: bool)
    ensures ReadFlag(WriteFlag(entries, key, value), key, default) == value
    ensures other != key ==> ReadFlag(WriteFlag(entries, key, value), other, default) == ReadFlag(entries, other, default)
  {
  }

  /** Writing the value a key already reads as (under the default used) changes no read of that key. */
  lemma RewriteIsInvisible(entries: map<string, bool>, key: string, default: bool)
    ensures ReadFlag(WriteFlag(entries, key, ReadFlag(entries, key, default)), key, default) == ReadFlag(entries, key, default)
    ensures key in entries ==> WriteFlag(entries, key, ReadFlag(entries, key, default)) == entries
  {
  }

  /** A key-value store of booleans, such as the one `getSharedPreferences` returns. */
  class PreferenceStore {
    var entries: map<string, bool>

    constructor (entries: map<string, bool>)
      ensures this.entries == entries
    {
      this.entries := entries;
    }

    /** `getBoolean(key, default)`: the stored value, or the default when the key was never written. */
    method GetBoolean(key: string, default: bool) returns (b: bool)
      ensures b == ReadFlag(entries, key, default)
    {
      if key in entries {
        b := entries[key];
      } else {
        b := default;
      }
    }

    /** `edit().putBoolean(key, value).apply()`, with the write taking effect at once. */
    method PutBoolean(key: string, value: bool)
      modifies this
      ensures entries == WriteFlag(old(entries), key, value)
    {
      entries := entries[key := value];
    }
  }

  /** The process-wide setting `AppCompatDelegate.setDefaultNightMode` writes. */
  class NightModeSetting {
    var mode: NightMode

    constructor ()
      ensures mode == ModeNightUnspecified
    {
      mode := ModeNightUnspecified;
    }
  }
}
