/** The theme hook of src/theme/colorScheme.ts. The theme is kept as the
    text it is stored as: a stored value is used without being checked, so
    it need not be "light" or "dark". Storage is a map from key to text. */
module Theme {
  import opened Wrappers

  const ThemeKey := "theme"

  /** The theme the load effect picks: a stored non-empty text as it is,
      else "dark" exactly when the system scheme is dark. */
  function LoadedTheme(stored: Option<string>, system: Option<string>): (theme: string)
    ensures stored.Some? && stored.value != "" ==> theme == stored.value
    ensures (stored.None? || stored.value == "") ==> (theme == "dark" <==> system == Some("dark"))
    ensures (stored.None? || stored.value == "") ==> (theme == "light" || theme == "dark")
  {
    if stored.Some? && stored.value != "" then stored.value
    else if system == Some("dark") then "dark" else "light"
  }

  /** `toggleTheme`'s choice: light becomes dark, anything else light. */
  function Toggled(theme: string): (r: string)
    ensures r == "dark" <==> theme == "light"
    ensures r != "dark" ==> r == "light"
  {
    if theme == "light" then "dark" else "light"
  }

  /** Toggling twice restores light and dark; any other stored text ends up
      dark. */
  lemma ToggleTwice(theme: string)
    ensures theme == "light" || theme == "dark" ==> Toggled(Toggled(theme)) == theme
    ensures theme != "light" && theme != "dark" ==> Toggled(Toggled(theme)) == "dark"
  {
  }

  class ThemeState {
    var theme: string
    var isReady: bool
    var storage: map<string, string>
    var systemTheme: Option<string>

    /** Before the load effect: light, not ready. */
    constructor (stored: map<string, string>, system: Option<string>)
      ensures theme == "light" && !isReady
      ensures storage == stored && systemTheme == system
    {
      theme, isReady := "light", false;
      storage, systemTheme := stored, system;
    }

    /** What `AsyncStorage.getItem('theme')` returns. */
    function StoredTheme(): (r: Option<string>)
      reads this
      ensures r.Some? <==> ThemeKey in storage
      ensures r.Some? ==> r.value == storage[ThemeKey]
    {
      if ThemeKey in storage then Some(storage[ThemeKey]) else None
    }

    /** `loadStoredTheme`: ready afterwards, whichever branch is taken. */
    method LoadStoredTheme()
      modifies this`theme, this`isReady
      ensures theme == LoadedTheme(StoredTheme(), systemTheme)
      ensures isReady
    {
      var stored := StoredTheme();
      if stored.Some? && stored.value != "" {
        theme := stored.value;
      } else {
        theme := if systemTheme == Some("dark") then "dark" else "light";
      }
      isReady := true;
    }

    /** The system scheme changes: the load effect, which depends on it,
        runs again with the new value. */
    method SystemThemeChanged(system: Option<string>)
      modifies this`systemTheme, this`theme, this`isReady
      ensures systemTheme == system
      ensures theme == LoadedTheme(StoredTheme(), system)
      ensures isReady
    {
      systemTheme := system;
      LoadStoredTheme();
    }

    /** `toggleTheme`: the new theme is set and persisted. */
    method ToggleTheme()
      modifies this`theme, this`storage
      ensures theme == Toggled(old(theme))
      ensures storage == old(storage)[ThemeKey := theme]
    {
      var newTheme := if theme == "light" then "dark" else "light";
      theme := newTheme;
      storage := storage[ThemeKey := newTheme];
    }
  }
}
