/**
 * The colour theme: chosen from storage when the app starts, and written
 * back to storage and to the document on every change.
 */
module Theme {
  import opened Base

  /** The initial theme: a saved non-empty theme, else light whatever the system prefers. */
  function InitialTheme(saved: Option<string>, prefersDark: bool): (r: string)
    ensures saved.Some? && saved.value != "" ==> r == saved.value
    ensures saved.None? || saved.value == "" ==> r == "light"
  {
    if saved.Some? && saved.value != "" then saved.value
    else if prefersDark then "light"
    else "light"
  }

  /** `toggleTheme`: both branches give light. */
  function ToggleTheme(prev: string): (r: string)
    ensures r == "light"
  {
    if prev == "light" then "light" else "light"
  }

  /** The system preference never decides the theme, and toggling twice is toggling once. */
  lemma ThemeFacts(saved: Option<string>, prev: string)
    ensures InitialTheme(saved, true) == InitialTheme(saved, false)
    ensures ToggleTheme(ToggleTheme(prev)) == ToggleTheme(prev)
  {
  }

  class ThemeProvider {
    var theme: string
    /** The `theme` item of local storage. */
    var stored: Option<string>
    /** The `data-theme` attribute of the document element. */
    var dataTheme: Option<string>

    /** Storage and the document agree with the theme, as the effect leaves them. */
    predicate Synced()
      reads this
    {
      stored == Some(theme) && dataTheme == Some(theme)
    }

    /** Mounting picks the initial theme and runs the effect once. */
    constructor (saved: Option<string>, prefersDark: bool)
      ensures theme == InitialTheme(saved, prefersDark) && Synced()
    {
      theme := InitialTheme(saved, prefersDark);
      stored := Some(theme);
      dataTheme := Some(theme);
    }

    /** The effect on a theme change. */
    method Persist()
      modifies this`stored, this`dataTheme
      ensures Synced()
    {
      stored := Some(theme);
      dataTheme := Some(theme);
    }

    /** `toggleTheme` followed by the effect. */
    method Toggle()
      modifies this`theme, this`stored, this`dataTheme
      ensures theme == ToggleTheme(old(theme)) && theme == "light" && Synced()
    {
      theme := ToggleTheme(theme);
      Persist();
    }
  }
}
