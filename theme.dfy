/** The theme provider (src/app/theme-context.tsx): the table of theme
    configurations, the load effect, the apply effect that writes the colours
    onto the root element, `setTheme` and `availableThemes`. */
module ThemeContext {

  import opened Types
  import Browser

  const ThemeStorageKey: string := "cors-validator-theme"

  /** The colour names of the `ThemeConfig` interface, in declaration order. */
  const ColorKeys: seq<string> :=
    ["primary", "secondary", "background", "surface", "text", "textSecondary",
     "border", "success", "error", "warning"]

  /** A `ThemeConfig`; `colors` lists the entries in the order `Object.entries` yields them. */
  datatype ThemeConfig = ThemeConfig(name: string, displayName: string, colors: seq<(string, string)>)

  const LightConfig: ThemeConfig := ThemeConfig("light", "浅色主题", [
      ("primary", "#3b82f6"),
      ("secondary", "#64748b"),
      ("background", "#ffffff"),
      ("surface", "#f8fafc"),
      ("text", "#1e293b"),
      ("textSecondary", "#64748b"),
      ("border", "#e2e8f0"),
      ("success", "#10b981"),
      ("error", "#ef4444"),
      ("warning", "#f59e0b")])

  const DarkConfig: ThemeConfig := ThemeConfig("dark", "深色主题", [
      ("primary", "#60a5fa"),
      ("secondary", "#94a3b8"),
      ("background", "#0f172a"),
      ("surface", "#1e293b"),
      ("text", "#f1f5f9"),
      ("textSecondary", "#94a3b8"),
      ("border", "#334155"),
      ("success", "#34d399"),
      ("error", "#f87171"),
      ("warning", "#fbbf24")])

  const BlueConfig: ThemeConfig := ThemeConfig("blue", "蓝色主题", [
      ("primary", "#1e40af"),
      ("secondary", "#3730a3"),
      ("background", "#eff6ff"),
      ("surface", "#dbeafe"),
      ("text", "#1e3a8a"),
      ("textSecondary", "#3730a3"),
      ("border", "#93c5fd"),
      ("success", "#059669"),
      ("error", "#dc2626"),
      ("warning", "#d97706")])

  /** `themeConfigs[theme]`. */
  function Config(t: Theme): ThemeConfig
  {
    match t
    case Light => LightConfig
    case Dark => DarkConfig
    case Blue => BlueConfig
  }

  /** No colour name appears twice. */
  predicate DistinctKeys(colors: seq<(string, string)>)
  {
    forall i, j :: 0 <= i < j < |colors| ==> colors[i].0 != colors[j].0
  }

  /** No colour name of the interface is listed twice. */
  lemma ColorKeysDistinct()
    ensures forall i, j :: 0 <= i < j < |ColorKeys| ==> ColorKeys[i] != ColorKeys[j]
  {
    forall i, j | 0 <= i < j < |ColorKeys|
      ensures ColorKeys[i] != ColorKeys[j]
    {
      if |ColorKeys[i]| == |ColorKeys[j]| {
        assert ColorKeys[i][0] != ColorKeys[j][0] || ColorKeys[i][2] != ColorKeys[j][2];
      }
    }
  }

  /** Every configuration is filed under its own name and lists exactly the
      interface's colour names, in order, each once. */
  lemma ConfigShape(t: Theme)
    ensures Config(t).name == ThemeKey(t)
    ensures |Config(t).colors| == |ColorKeys|
    ensures forall i :: 0 <= i < |ColorKeys| ==> Config(t).colors[i].0 == ColorKeys[i]
    ensures DistinctKeys(Config(t).colors)
  {
    ColorKeysDistinct();
    match t
    case Light =>
      assert forall i :: 0 <= i < 10 ==> LightConfig.colors[i].0 == ColorKeys[i];
    case Dark =>
      assert forall i :: 0 <= i < 10 ==> DarkConfig.colors[i].0 == ColorKeys[i];
    case Blue =>
      assert forall i :: 0 <= i < 10 ==> BlueConfig.colors[i].0 == ColorKeys[i];
  }

  /** `availableThemes`: the keys of `themeConfigs`, in declaration order. */
  function AvailableThemes(): (r: seq<Theme>)
    ensures |r| == 3 && ThemeKey(r[0]) == "light" && ThemeKey(r[1]) == "dark" && ThemeKey(r[2]) == "blue"
    ensures Light in r && Dark in r && Blue in r
    ensures forall i, j :: 0 <= i < j < |r| ==> r[i] != r[j]
  {
    [Light, Dark, Blue]
  }

  /** The theme after the load effect: a saved value that names a configuration
      is adopted, anything else (nothing saved, `""`, an unknown name) leaves
      the current theme. */
  function LoadedTheme(current: Theme, saved: Option<string>): (r: Theme)
    ensures saved.Some? && saved.value in {"light", "dark", "blue"} ==> ThemeKey(r) == saved.value
    ensures !(saved.Some? && saved.value in {"light", "dark", "blue"}) ==> r == current
  {
    if saved.Some? && saved.value != "" && ThemeFromKey(saved.value).Some? then ThemeFromKey(saved.value).value
    else current
  }

  /** A stored theme is the one the next load adopts, whatever the current theme. */
  lemma StoredThemeIsReloaded(current: Theme, t: Theme)
    ensures LoadedTheme(current, Some(ThemeKey(t))) == t
  {
    ThemeKeyRoundTrip(t);
  }

  /** The CSS custom property of a colour name. */
  function ColorProperty(key: string): string
  {
    "--color-" + key
  }

  /** Different colour names give different properties. */
  lemma ColorPropertyDistinct(a: string, b: string)
    requires a != b
    ensures ColorProperty(a) != ColorProperty(b)
  {
    assert ColorProperty(a)[8..] == a;
    assert ColorProperty(b)[8..] == b;
  }

  /** The style after `setProperty` for each colour entry in turn. */
  function ApplyColors(style: map<string, string>, colors: seq<(string, string)>): map<string, string>
  {
    if colors == [] then style
    else
      var last := colors[|colors| - 1];
      ApplyColors(style, colors[..|colors| - 1])[ColorProperty(last.0) := last.1]
  }

  /** Applying distinct colour entries sets each entry's property to its value,
      keeps every other property, and adds nothing else. */
  lemma {:induction false} ApplyColorsSpec(style: map<string, string>, colors: seq<(string, string)>)
    requires DistinctKeys(colors)
    ensures var r := ApplyColors(style, colors);
      forall i :: 0 <= i < |colors| ==> ColorProperty(colors[i].0) in r && r[ColorProperty(colors[i].0)] == colors[i].1
    ensures var r := ApplyColors(style, colors);
      forall p :: p in style && (forall i :: 0 <= i < |colors| ==> p != ColorProperty(colors[i].0)) ==>
        p in r && r[p] == style[p]
    ensures var r := ApplyColors(style, colors);
      forall p :: p in r ==> p in style || exists i :: 0 <= i < |colors| && p == ColorProperty(colors[i].0)
  {
    if colors != [] {
      var n := |colors| - 1;
      var init := colors[..n];
      assert DistinctKeys(init);
      ApplyColorsSpec(style, init);
      forall i | 0 <= i < n
        ensures ColorProperty(init[i].0) != ColorProperty(colors[n].0)
      {
        ColorPropertyDistinct(init[i].0, colors[n].0);
      }
    }
  }

  /** The provider's state cell, with the storage and root element it uses. */
  class ThemeProvider {
    var theme: Theme
    const storage: Browser.Storage
    const root: Browser.DocumentElement

    /** Before the load effect runs the theme is light. */
    constructor (storage: Browser.Storage, root: Browser.DocumentElement)
      ensures theme == Light && this.storage == storage && this.root == root
    {
      theme := Light;
      this.storage := storage;
      this.root := root;
    }

    /** The load effect. */
    method LoadSavedTheme()
      modifies this
      ensures theme == LoadedTheme(old(theme), old(storage.GetItem(ThemeStorageKey)))
    {
      var saved := storage.GetItem(ThemeStorageKey);
      theme := LoadedTheme(theme, saved);
    }

    /** The apply effect: one `--color-<name>` property per colour of the
      current theme, then the root class. Other properties and `lang` are kept. */
    method ApplyTheme()
      modifies root
      ensures root.style == ApplyColors(old(root.style), Config(theme).colors)
      ensures forall i :: 0 <= i < |ColorKeys| ==>
        ColorProperty(ColorKeys[i]) in root.style && root.style[ColorProperty(ColorKeys[i])] == Config(theme).colors[i].1
      ensures forall p :: p in old(root.style) && (forall i :: 0 <= i < |ColorKeys| ==> p != ColorProperty(ColorKeys[i])) ==>
        p in root.style && root.style[p] == old(root.style)[p]
      ensures root.className == "theme-" + ThemeKey(theme) && root.lang == old(root.lang)
    {
      var colors := Config(theme).colors;
      var i := 0;
      while i < |colors|
        invariant 0 <= i <= |colors|
        invariant root.style == ApplyColors(old(root.style), colors[..i])
        invariant root.lang == old(root.lang)
      {
        root.SetProperty(ColorProperty(colors[i].0), colors[i].1);
        assert colors[..i + 1][..i] == colors[..i];
        i := i + 1;
      }
      assert colors[..i] == colors;
      ConfigShape(theme);
      ApplyColorsSpec(old(root.style), colors);
      root.className := "theme-" + ThemeKey(theme);
    }

    /** `setTheme`: update the cell and store the choice. */
    method SetTheme(t: Theme)
      modifies this, storage
      ensures theme == t
      ensures storage.items == old(storage.items)[ThemeStorageKey := ThemeKey(t)]
    {
      theme := t;
      storage.SetItem(ThemeStorageKey, ThemeKey(t));
    }

    /** `themeConfig` in the context value. */
    function CurrentConfig(): (c: ThemeConfig)
      reads this
      ensures c == Config(theme)
      ensures c.name == ThemeKey(theme) && |c.colors| == |ColorKeys|
    {
      ConfigShape(theme);
      Config(theme)
    }
  }
}
