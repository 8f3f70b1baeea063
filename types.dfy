/** Shared value types of the application (src/types/state.ts) and a few
    general-purpose helpers on strings used by several modules. */
module Types {

  datatype Option<+T> = None | Some(value: T)

  /** A value, or the message of the error raised instead. */
  datatype Result<+T> = Ok(value: T) | Err(message: string)

  /** A byte of file content. */
  newtype byte = x: int | 0 <= x < 256

  /** The colour themes `'light' | 'dark' | 'blue'`. */
  datatype Theme = Light | Dark | Blue

  /** The interface languages `'zh' | 'en'`. */
  datatype Language = Zh | En

  /** The seven members of `HttpMethod`. */
  datatype HttpMethod = GET | POST | PUT | DELETE | PATCH | HEAD | OPTIONS

  datatype UserPreferences = UserPreferences(autoSaveConfig: bool, showAdvancedOptions: bool)

  /** The string literal that names a theme in the source. */
  function ThemeKey(t: Theme): string
  {
    match t
    case Light => "light"
    case Dark => "dark"
    case Blue => "blue"
  }

  /** The string literal that names a language in the source. */
  function LanguageKey(l: Language): string
  {
    match l
    case Zh => "zh"
    case En => "en"
  }

  /** The `lang` attribute the root element gets for a language:
      `zh-CN` for Chinese and `en-US` for anything else. */
  function HtmlLang(l: Language): (r: string)
    ensures |r| == 5 && r[..2] == LanguageKey(l) && r[2] == '-'
    ensures r[3..] == (if l == Zh then "CN" else "US")
  {
    if l == Zh then "zh-CN" else "en-US"
  }

  /** Reads a theme back from its string name, as a lookup in a table keyed by name. */
  function ThemeFromKey(s: string): (r: Option<Theme>)
    ensures r.Some? <==> s in {"light", "dark", "blue"}
    ensures r.Some? ==> ThemeKey(r.value) == s
  {
    if s == "light" then Some(Light)
    else if s == "dark" then Some(Dark)
    else if s == "blue" then Some(Blue)
    else None
  }

  /** Reads a language back from its string name. */
  function LanguageFromKey(s: string): (r: Option<Language>)
    ensures r.Some? <==> s in {"zh", "en"}
    ensures r.Some? ==> LanguageKey(r.value) == s
  {
    if s == "zh" then Some(Zh)
    else if s == "en" then Some(En)
    else None
  }

  lemma ThemeKeyRoundTrip(t: Theme)
    ensures ThemeFromKey(ThemeKey(t)) == Some(t)
  {
  }

  lemma LanguageKeyRoundTrip(l: Language)
    ensures LanguageFromKey(LanguageKey(l)) == Some(l)
  {
  }

  /** `s` occurs in `t` at position `i`. */
  predicate OccursAt(s: string, t: string, i: int)
  {
    0 <= i && i + |s| <= |t| && t[i..i + |s|] == s
  }

  /** `String.prototype.includes`. */
  predicate Contains(t: string, s: string)
  {
    exists i :: 0 <= i <= |t| - |s| && OccursAt(s, t, i)
  }

  /** Decimal digits of a natural number, most significant first, without leading zeros. */
  function NatToDecimal(n: nat): (r: string)
    ensures |r| > 0
    ensures forall i :: 0 <= i < |r| ==> '0' <= r[i] <= '9'
    ensures r[0] == '0' ==> n == 0
    decreases n
  {
    if n < 10 then [DigitChar(n)] else NatToDecimal(n / 10) + [DigitChar(n % 10)]
  }

  function DigitChar(d: nat): (c: char)
    requires d < 10
    ensures '0' <= c <= '9'
  {
    (48 + d) as char
  }

  /** Reads back a non-empty run of decimal digits. */
  function DecimalValue(s: string): (n: nat)
    requires forall i :: 0 <= i < |s| ==> '0' <= s[i] <= '9'
    decreases |s|
  {
    if s == [] then 0 else 10 * DecimalValue(s[..|s| - 1]) + (s[|s| - 1] as int - 48)
  }

  lemma {:induction false} DecimalRoundTrip(n: nat)
    ensures DecimalValue(NatToDecimal(n)) == n
    decreases n
  {
    if n >= 10 {
      var s := NatToDecimal(n);
      assert s[..|s| - 1] == NatToDecimal(n / 10);
      DecimalRoundTrip(n / 10);
    }
  }

  /** Decimal rendering of an integer as JavaScript's `String(n)` gives it. */
  function IntToDecimal(n: int): (r: string)
    ensures |r| > 0
    ensures n >= 0 ==> r == NatToDecimal(n)
    ensures n < 0 ==> r == "-" + NatToDecimal(-n)
  {
    if n < 0 then "-" + NatToDecimal(-n) else NatToDecimal(n)
  }
}
