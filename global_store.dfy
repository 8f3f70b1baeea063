/** The global preference store (src/stores/globalStore.ts): theme, language
    and user preferences, with one setter per field, a partial merge for the
    preferences, and the projection that is persisted. */
module GlobalStore {

  import opened Types
  import Browser

  const AutoSaveConfigKey: string := "autoSaveConfig"
  const ShowAdvancedOptionsKey: string := "showAdvancedOptions"
  const PreferenceKeys: set<string> := {AutoSaveConfigKey, ShowAdvancedOptionsKey}

  const InitialPreferences: UserPreferences := UserPreferences(true, false)

  /** A `Partial<UserPreferences>`: the fields it names, each with its new value. */
  type PartialPreferences = m: map<string, bool> | m.Keys <= PreferenceKeys

  /** The preferences record as a JavaScript object: field name to value. */
  function Fields(p: UserPreferences): (m: map<string, bool>)
    ensures m.Keys == PreferenceKeys
  {
    map[AutoSaveConfigKey := p.autoSaveConfig, ShowAdvancedOptionsKey := p.showAdvancedOptions]
  }

  /** The record an object with both fields stands for. */
  function FromFields(m: map<string, bool>): (p: UserPreferences)
    requires PreferenceKeys <= m.Keys
    ensures Fields(p) == map k | k in PreferenceKeys :: m[k]
  {
    UserPreferences(m[AutoSaveConfigKey], m[ShowAdvancedOptionsKey])
  }

  /** `{ ...preferences, ...partial }`: the fields `partial` names take its
      values, every other field keeps the old one. */
  function MergePreferences(p: UserPreferences, partial: PartialPreferences): (r: UserPreferences)
    ensures r.autoSaveConfig == if AutoSaveConfigKey in partial then partial[AutoSaveConfigKey] else p.autoSaveConfig
    ensures r.showAdvancedOptions == if ShowAdvancedOptionsKey in partial then partial[ShowAdvancedOptionsKey] else p.showAdvancedOptions
  {
    FromFields(Fields(p) + partial)
  }

  /** Merging nothing changes nothing. */
  lemma MergeEmpty(p: UserPreferences)
    ensures MergePreferences(p, map[]) == p
  {
  }

  /** Applying the same partial update twice is the same as applying it once. */
  lemma MergeIdempotent(p: UserPreferences, partial: PartialPreferences)
    ensures MergePreferences(MergePreferences(p, partial), partial) == MergePreferences(p, partial)
  {
  }

  /** Two updates in a row are one update with the later values winning. */
  lemma MergeSequence(p: UserPreferences, a: PartialPreferences, b: PartialPreferences)
    ensures MergePreferences(MergePreferences(p, a), b) == MergePreferences(p, a + b)
  {
  }

  /** A partial naming every field replaces the record outright. */
  lemma MergeFull(p: UserPreferences, q: UserPreferences)
    ensures MergePreferences(p, Fields(q)) == q
  {
  }

  /** What `partialize` keeps: the three data fields and none of the setters. */
  datatype PersistedState = PersistedState(theme: Theme, language: Language, preferences: UserPreferences)

  class Store {
    var theme: Theme
    var language: Language
    var preferences: UserPreferences
    /** `document.documentElement`, or `null` where `document` is undefined. */
    var root: Browser.DocumentElement?

    /** The initial state: light theme, Chinese, auto-save on, advanced options hidden. */
    constructor (root: Browser.DocumentElement?)
      ensures theme == Light && language == Zh && preferences == InitialPreferences
      ensures this.root == root
    {
      theme := Light;
      language := Zh;
      preferences := InitialPreferences;
      this.root := root;
    }

    /** `partialize`: the snapshot written to storage under `cors-validator-global`. */
    function Partialize(): (s: PersistedState)
      reads this
      ensures s.theme == theme && s.language == language && s.preferences == preferences
    {
      PersistedState(theme, language, preferences)
    }

    /** Changes the theme only, and sets the root element's class to `theme-<theme>`. */
    method SetTheme(t: Theme)
      modifies this, root
      ensures theme == t && language == old(language) && preferences == old(preferences)
      ensures root == old(root)
      ensures root != null ==>
                root.className == "theme-" + ThemeKey(t) && root.lang == old(root.lang) && root.style == old(root.style)
    {
      theme := t;
      if root != null {
        root.className := "theme-" + ThemeKey(t);
      }
    }

    /** Changes the language only, and sets the root element's `lang`. */
    method SetLanguage(l: Language)
      modifies this, root
      ensures language == l && theme == old(theme) && preferences == old(preferences)
      ensures root == old(root)
      ensures root != null ==>
                root.lang == HtmlLang(l) && root.className == old(root.className) && root.style == old(root.style)
    {
      language := l;
      if root != null {
        root.lang := HtmlLang(l);
      }
    }

    /** Merges a partial record into the preferences; theme and language stay. */
    method UpdatePreferences(partial: PartialPreferences)
      modifies this
      ensures preferences == MergePreferences(old(preferences), partial)
      ensures theme == old(theme) && language == old(language) && root == old(root)
    {
      preferences := MergePreferences(preferences, partial);
    }

    /** Rehydration: the persisted snapshot is merged back over the state, so
        a store rehydrated from `Partialize()` holds the same data again. */
    method Rehydrate(saved: PersistedState)
      modifies this
      ensures Partialize() == saved && root == old(root)
    {
      theme, language, preferences := saved.theme, saved.language, saved.preferences;
    }
  }
}
