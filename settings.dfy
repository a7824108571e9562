/**
 * The two enumerated settings of the store (AppContext.tsx lines 8, 28-36,
 * 48, 70, 91): the interface language and the colour theme, the tags they are
 * stored under, how a stored tag is read back, and what each derives.
 */
module Settings {
  import opened Wrappers

  datatype Language = En | Ar

  datatype Theme = Light | Dark

  /** The tag a language is stored and published under (`lang` attribute). */
  function LanguageTag(l: Language): string
  {
    match l
    case En => "en"
    case Ar => "ar"
  }

  function ThemeTag(t: Theme): string
  {
    match t
    case Light => "light"
    case Dark => "dark"
  }

  /**
   * Start-up language: the stored tag when it is exactly one of the two
   * tags, English otherwise (missing key or any other text).
   */
  function LanguageFromStorage(saved: Option<string>): (r: Language)
    ensures forall l :: saved == Some(LanguageTag(l)) ==> r == l
    ensures saved == Some(LanguageTag(r)) || r == En
  {
    if saved == Some("en") then En
    else if saved == Some("ar") then Ar
    else En
  }

  /**
   * Start-up theme: the stored tag when it is exactly one of the two tags,
   * light otherwise.
   */
  function ThemeFromStorage(saved: Option<string>): (r: Theme)
    ensures forall t :: saved == Some(ThemeTag(t)) ==> r == t
    ensures saved == Some(ThemeTag(r)) || r == Light
  {
    if saved == Some("light") then Light
    else if saved == Some("dark") then Dark
    else Light
  }

  /** `toggleTheme`'s update: light becomes dark and dark becomes light. */
  function Flipped(t: Theme): (r: Theme)
    ensures r != t
  {
    if t == Light then Dark else Light
  }

  /** The header's language button: English becomes Arabic and back. */
  function Toggled(l: Language): (r: Language)
    ensures r != l
  {
    if l == En then Ar else En
  }

  /** `isRTL`: Arabic is read right to left, English left to right. */
  function IsRtl(l: Language): bool
  {
    l == Ar
  }

  /** The document's `dir` attribute for a language. */
  function DirOf(l: Language): (r: string)
    ensures r == "rtl" || r == "ltr"
    ensures r == "rtl" <==> IsRtl(l)
  {
    if l == Ar then "rtl" else "ltr"
  }

  lemma FlippedTwice(t: Theme)
    ensures Flipped(Flipped(t)) == t
  {
  }

  lemma ToggledTwice(l: Language)
    ensures Toggled(Toggled(l)) == l
  {
  }
}
