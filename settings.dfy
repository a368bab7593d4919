/** The settings store: a key/value dictionary backed by a JSON file, with
    built-in defaults as a fallback. The file is abstract: it is absent,
    unreadable or holds a parsed object, and the store is either writable or
    every write to it fails. */
module Settings {
  import opened Strings

  /** A JavaScript value as a setting holds it. `Undefined` is a key that
      was assigned `undefined`; JSON cannot write it. */
  datatype Value = Undefined | JNull | JBool(b: bool) | JNum(n: real) | JStr(s: string)

  type Dict = map<string, Value>

  /** What `settings.json` holds as far as loading is concerned. */
  datatype SettingsFile =
    | Absent                // fs.existsSync is false
    | Unreadable            // the read or JSON.parse throws
    | Stored(content: Dict) // a parsed JSON object

  datatype Store = Store(file: SettingsFile, writable: bool)

  /** `defaultSettings`; `documentsDir` is `app.getPath('documents')`. */
  function DefaultSettings(documentsDir: string): (d: Dict)
    ensures d.Keys == {"audioQuality", "saveLocation", "autoSave", "maxRecordingTimeMinutes", "theme"}
    ensures forall k | k in d :: d[k] != Undefined
    ensures d["audioQuality"] == JStr("medium") && d["autoSave"] == JBool(true)
    ensures d["maxRecordingTimeMinutes"] == JNum(30.0) && d["theme"] == JStr("light")
    ensures d["saveLocation"] == JStr(Join(documentsDir, "AudioJournal"))
  {
    map["audioQuality" := JStr("medium"),
        "saveLocation" := JStr(Join(documentsDir, "AudioJournal")),
        "autoSave" := JBool(true),
        "maxRecordingTimeMinutes" := JNum(30.0),
        "theme" := JStr("light")]
  }

  /** getSetting: the stored value unless it is undefined, else the default. */
  function Lookup(settings: Dict, defaults: Dict, key: string): Value {
    if key in settings && settings[key] != Undefined then settings[key]
    else if key in defaults then defaults[key]
    else Undefined
  }

  /** `{ ...a, ...b }`: the keys of `b` take its values, every other key of
      `a` keeps its own. */
  function Merge(a: Dict, b: Dict): (r: Dict)
    ensures r.Keys == a.Keys + b.Keys
    ensures forall k | k in b :: r[k] == b[k]
    ensures forall k | k in a && k !in b :: r[k] == a[k]
  {
    a + b
  }

  /** What `JSON.parse(JSON.stringify(settings))` gives back: keys holding
      `undefined` are dropped, every other entry is kept. */
  function Serialize(settings: Dict): (r: Dict)
    ensures r.Keys == set k | k in settings && settings[k] != Undefined
    ensures forall k | k in r :: r[k] == settings[k] && r[k] != Undefined
  {
    map k | k in settings && settings[k] != Undefined :: settings[k]
  }

  /** saveSettings: writes the serialized settings and answers true, or
      answers false when the write fails; it never throws. */
  function SaveOn(store: Store, settings: Dict): (bool, Store) {
    if store.writable then (true, store.(file := Stored(Serialize(settings))))
    else (false, store)
  }

  /** loadSettings: the file's content when it parses, otherwise a copy of
      the defaults, which are also written when there was no file. */
  function LoadOn(store: Store, defaults: Dict): (Dict, Store) {
    match store.file
    case Stored(content) => (content, store)
    case Unreadable => (defaults, store)
    case Absent => (defaults, SaveOn(store, defaults).1)
  }

  /** Saving then loading preserves every getSetting answer. */
  lemma SaveThenLoad(store: Store, settings: Dict, defaults: Dict, key: string)
    requires store.writable
    ensures var (ok, saved) := SaveOn(store, settings);
      var (loaded, after) := LoadOn(saved, defaults);
      && ok && after == saved
      && loaded == Serialize(settings)
      && Lookup(loaded, defaults, key) == Lookup(settings, defaults, key)
  {
  }

  /** The three loading cases, and that a failed save reverts nothing. */
  lemma LoadCases(store: Store, defaults: Dict)
    ensures store.file.Stored? ==> LoadOn(store, defaults) == (store.file.content, store)
    ensures store.file.Unreadable? ==> LoadOn(store, defaults) == (defaults, store)
    ensures store.file.Absent? ==> LoadOn(store, defaults).0 == defaults
    ensures store.file.Absent? && store.writable ==> LoadOn(store, defaults).1.file == Stored(Serialize(defaults))
    ensures !store.writable ==> LoadOn(store, defaults).1 == store
  {
  }

  /** updateSetting changes the answer for that key only. */
  lemma UpdateOneKey(settings: Dict, defaults: Dict, key: string, value: Value, other: string)
    ensures Lookup(settings[key := value], defaults, key) ==
      if value != Undefined then value else Lookup(map[], defaults, key)
    ensures other != key ==> Lookup(settings[key := value], defaults, other) == Lookup(settings, defaults, other)
  {
  }

  /** updateSettings: keys it names answer from the new settings, all
      others as before. */
  lemma MergeLookup(a: Dict, b: Dict, defaults: Dict, key: string)
    ensures key in b ==> Lookup(Merge(a, b), defaults, key) == Lookup(b, defaults, key)
    ensures key !in b ==> Lookup(Merge(a, b), defaults, key) == Lookup(a, defaults, key)
  {
  }

  /** After resetToDefaults every key answers its default. */
  lemma ResetLookup(documentsDir: string, key: string)
    ensures var d := DefaultSettings(documentsDir);
      Lookup(d, d, key) == if key in d then d[key] else Undefined
  {
  }

  /** A key the defaults name never answers undefined, whatever the
      settings hold: getSetting falls back to the default value. */
  lemma DefaultsAlwaysAnswer(settings: Dict, documentsDir: string, key: string)
    requires key in DefaultSettings(documentsDir)
    ensures Lookup(settings, DefaultSettings(documentsDir), key) != Undefined
    ensures key !in settings ==> Lookup(settings, DefaultSettings(documentsDir), key) == DefaultSettings(documentsDir)[key]
  {
  }

  class SettingsManager {
    /** `path.join(app.getPath('userData'), 'settings.json')`. */
    const settingsPath: string
    const defaultSettings: Dict
    var settings: Dict
    var store: Store

    /** Sets the defaults and loads. */
    constructor (userData: string, documentsDir: string, initial: Store)
      ensures settingsPath == Join(userData, "settings.json")
      ensures defaultSettings == DefaultSettings(documentsDir)
      ensures (settings, store) == LoadOn(initial, DefaultSettings(documentsDir))
    {
      settingsPath := Join(userData, "settings.json");
      defaultSettings := DefaultSettings(documentsDir);
      settings := map[];
      store := initial;
      new;
      var _ := LoadSettings();
    }

    method LoadSettings() returns (r: Dict)
      modifies this
      ensures (settings, store) == LoadOn(old(store), defaultSettings)
      ensures r == settings
    {
      match store.file {
        case Stored(content) =>
          settings := content;
        case Unreadable =>
          settings := defaultSettings;
        case Absent =>
          settings := defaultSettings;
          var _ := SaveSettings();
      }
      r := settings;
    }

    method SaveSettings() returns (ok: bool)
      modifies this
      ensures settings == old(settings)
      ensures (ok, store) == SaveOn(old(store), settings)
    {
      if !store.writable {
        return false;
      }
      store := store.(file := Stored(Serialize(settings)));
      ok := true;
    }

    function GetSetting(key: string): (v: Value)
      reads this
      ensures key in settings && settings[key] != Undefined ==> v == settings[key]
      ensures !(key in settings && settings[key] != Undefined) ==>
        v == (if key in defaultSettings then defaultSettings[key] else Undefined)
      ensures key in defaultSettings && defaultSettings[key] != Undefined ==> v != Undefined
    {
      Lookup(settings, defaultSettings, key)
    }

    method UpdateSetting(key: string, value: Value) returns (ok: bool)
      modifies this
      ensures settings == old(settings)[key := value]
      ensures (ok, store) == SaveOn(old(store), settings)
    {
      settings := settings[key := value];
      ok := SaveSettings();
    }

    method UpdateSettings(newSettings: Dict) returns (ok: bool)
      modifies this
      ensures settings == Merge(old(settings), newSettings)
      ensures (ok, store) == SaveOn(old(store), settings)
    {
      settings := Merge(settings, newSettings);
      ok := SaveSettings();
    }

    method ResetToDefaults() returns (ok: bool)
      modifies this
      ensures settings == defaultSettings
      ensures (ok, store) == SaveOn(old(store), settings)
    {
      settings := defaultSettings;
      ok := SaveSettings();
    }
  }
}
