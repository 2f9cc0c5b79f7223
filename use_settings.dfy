// The settings hook (src/hooks/useSettings.ts): defaults, the merge of saved
// or updated fields over them, and the copy written to local storage.
//
// `JSON.parse` is a parameter: it maps the stored text to the fields it
// holds, or to `None` when the text does not parse. `JSON.stringify` is left
// out: the persisted copy is kept as the settings value that was serialised.

module SettingsHook {
  import opened Types

  datatype Theme = Light | Dark

  datatype Settings = Settings(
    apiUrl: string,
    outputDirectory: string,
    theme: Theme,
    autoDownload: bool,
    maxHistory: int)

  const DefaultSettings := Settings("http://localhost:8000", "", Dark, false, 100)

  /** `Partial<Settings>`: `Some` for each key the object carries. */
  datatype SettingsPatch = SettingsPatch(
    apiUrl: Option<string>,
    outputDirectory: Option<string>,
    theme: Option<Theme>,
    autoDownload: Option<bool>,
    maxHistory: Option<int>)

  const EmptyPatch := SettingsPatch(None, None, None, None, None)

  /** The patch that carries every key of `s`, as a whole serialised `Settings` object does. */
  function Full(s: Settings): SettingsPatch {
    SettingsPatch(Some(s.apiUrl), Some(s.outputDirectory), Some(s.theme), Some(s.autoDownload), Some(s.maxHistory))
  }

  /** `{ ...s, ...p }`. */
  function Merge(s: Settings, p: SettingsPatch): Settings {
    Settings(
      Pick(p.apiUrl, s.apiUrl),
      Pick(p.outputDirectory, s.outputDirectory),
      Pick(p.theme, s.theme),
      Pick(p.autoDownload, s.autoDownload),
      Pick(p.maxHistory, s.maxHistory))
  }

  /** `{ ...p, ...q }` on two patches: a key of `q` wins, a key only `p` has is kept. */
  function Combine(p: SettingsPatch, q: SettingsPatch): SettingsPatch {
    SettingsPatch(
      if q.apiUrl.Some? then q.apiUrl else p.apiUrl,
      if q.outputDirectory.Some? then q.outputDirectory else p.outputDirectory,
      if q.theme.Some? then q.theme else p.theme,
      if q.autoDownload.Some? then q.autoDownload else p.autoDownload,
      if q.maxHistory.Some? then q.maxHistory else p.maxHistory)
  }

  /** The patch names exactly the fields in which `Merge(s, p)` may differ from `s`. */
  lemma MergeChangesOnlyNamedFields(s: Settings, p: SettingsPatch)
    ensures p.apiUrl.None? ==> Merge(s, p).apiUrl == s.apiUrl
    ensures p.outputDirectory.None? ==> Merge(s, p).outputDirectory == s.outputDirectory
    ensures p.theme.None? ==> Merge(s, p).theme == s.theme
    ensures p.autoDownload.None? ==> Merge(s, p).autoDownload == s.autoDownload
    ensures p.maxHistory.None? ==> Merge(s, p).maxHistory == s.maxHistory
    ensures p == EmptyPatch ==> Merge(s, p) == s
    ensures Full(Merge(s, p)) == Combine(Full(s), p)
  {
  }

  /** Applying the same update twice is applying it once. */
  lemma MergeIdempotent(s: Settings, p: SettingsPatch)
    ensures Merge(Merge(s, p), p) == Merge(s, p)
  {
  }

  /** Two updates in a row are one update with their keys combined, the later winning. */
  lemma MergeSequence(s: Settings, p: SettingsPatch, q: SettingsPatch)
    ensures Merge(Merge(s, p), q) == Merge(s, Combine(p, q))
  {
  }

  /** A whole settings object overrides everything: the earlier value does not matter. */
  lemma MergeFull(s: Settings, t: Settings)
    ensures Merge(s, Full(t)) == t
  {
  }

  /**
   * The settings the mount effect leaves: the saved fields over the
   * defaults when local storage holds non-empty text that parses, and
   * `current` (the defaults the state started with) otherwise.
   */
  function Loaded(saved: Option<string>, parse: string -> Option<SettingsPatch>, current: Settings): Settings {
    if Truthy(saved) && parse(saved.value).Some? then Merge(DefaultSettings, parse(saved.value).value)
    else current
  }

  /**
   * Loading starts from the defaults, not from the current settings: each
   * key the stored object lacks keeps its default, and an object naming no
   * key yields the defaults.
   */
  lemma LoadedOverridesDefaults(saved: Option<string>, parse: string -> Option<SettingsPatch>, current: Settings)
    requires Truthy(saved) && parse(saved.value).Some?
    ensures var p := parse(saved.value).value;
      var r := Loaded(saved, parse, current);
      (p.apiUrl.None? ==> r.apiUrl == "http://localhost:8000") &&
      (p.outputDirectory.None? ==> r.outputDirectory == "") &&
      (p.theme.None? ==> r.theme == Dark) &&
      (p.autoDownload.None? ==> r.autoDownload == false) &&
      (p.maxHistory.None? ==> r.maxHistory == 100) &&
      Full(r) == Combine(Full(DefaultSettings), p)
    ensures parse(saved.value).value == EmptyPatch ==> Loaded(saved, parse, current) == DefaultSettings
  {
  }

  /** Nothing stored, empty text, or text that does not parse: the settings stay as they are. */
  lemma LoadedFallsBack(saved: Option<string>, parse: string -> Option<SettingsPatch>, current: Settings)
    requires !Truthy(saved) || parse(saved.value).None?
    ensures Loaded(saved, parse, current) == current
  {
  }

  /**
   * What was persisted comes back: when the parser reads a stored object as
   * all of its keys, loading it yields exactly the settings that were saved.
   */
  lemma PersistedRoundTrip(stored: string, s: Settings, parse: string -> Option<SettingsPatch>, current: Settings)
    requires stored != "" && parse(stored) == Some(Full(s))
    ensures Loaded(Some(stored), parse, current) == s
  {
    MergeFull(DefaultSettings, s);
  }

  /** The hook's state: the current settings and the copy last written to local storage. */
  class SettingsStore {
    var settings: Settings
    var persisted: Option<Settings>

    /** `useState(DEFAULT_SETTINGS)`, then the mount effect reading `saved`. */
    constructor(saved: Option<string>, parse: string -> Option<SettingsPatch>, persisted: Option<Settings>)
      ensures settings == Loaded(saved, parse, DefaultSettings)
      ensures this.persisted == persisted
    {
      settings := DefaultSettings;
      this.persisted := persisted;
      new;
      if Truthy(saved) {
        var parsed := parse(saved.value);
        if parsed.Some? {
          settings := Merge(DefaultSettings, parsed.value);
        }
      }
    }

    /** `updateSettings`: the merged settings become the state and are written to storage. */
    method UpdateSettings(updates: SettingsPatch)
      modifies this
      ensures settings == Merge(old(settings), updates)
      ensures persisted == Some(settings)
    {
      var newSettings := Merge(settings, updates);
      settings := newSettings;
      persisted := Some(newSettings);
    }
  }

  /** An update of the theme alone leaves the other four fields and persists the result. */
  method UpdateThemeScenario(saved: Option<string>, parse: string -> Option<SettingsPatch>)
  {
    var store := new SettingsStore(saved, parse, None);
    var before := store.settings;
    store.UpdateSettings(SettingsPatch(None, None, Some(Light), None, None));
    assert store.settings.theme == Light;
    assert store.settings.apiUrl == before.apiUrl && store.settings.maxHistory == before.maxHistory;
    assert store.persisted == Some(store.settings);
    store.UpdateSettings(SettingsPatch(None, None, Some(Light), None, None));
    assert store.settings == Merge(before, SettingsPatch(None, None, Some(Light), None, None));
  }
}
