/**
 * The gazette's dark/light theme decision: the mode chosen on first render
 * from the saved preference and the system colour scheme, the value written
 * back to storage, and the toggle.
 */
module Theme {
  import opened Wrappers

  /** JavaScript's `!savedTheme` for a storage read: no entry, or an empty one. */
  predicate NothingSaved(saved: Option<string>) {
    saved == None || saved == Some("")
  }

  /**
   * The mode after mount: dark when the saved value is 'dark', or when nothing
   * is saved and the system prefers a dark scheme; otherwise the initial light
   * mode: any other saved value, 'light' included, keeps the light mode whatever
   * the system prefers, and with nothing saved the mode follows the system.
   */
  function InitialDark(saved: Option<string>, systemPrefersDark: bool): (dark: bool)
    ensures saved == Some("dark") ==> dark
    ensures NothingSaved(saved) ==> dark == systemPrefersDark
    ensures !NothingSaved(saved) && saved != Some("dark") ==> !dark
  {
    saved == Some("dark") || (NothingSaved(saved) && systemPrefersDark)
  }

  /** The value stored under the theme key whenever the mode changes. */
  function StoredValue(dark: bool): (v: string)
    ensures v == "dark" || v == "light"
    ensures v == "dark" <==> dark
  {
    if dark then "dark" else "light"
  }

  function Toggle(dark: bool): (r: bool)
    ensures r != dark
  {
    !dark
  }

  /** What is stored is what the next visit restores, whatever the system prefers. */
  lemma StoredValueRestores(dark: bool, systemPrefersDark: bool)
    ensures InitialDark(Some(StoredValue(dark)), systemPrefersDark) == dark
  {
  }

  /** Toggling twice restores the mode and the stored value. */
  lemma ToggleTwice(dark: bool)
    ensures Toggle(Toggle(dark)) == dark
    ensures StoredValue(Toggle(Toggle(dark))) == StoredValue(dark)
  {
  }
}
