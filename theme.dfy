/**
 * The appearance setting: three themes cycled by a toggle, stored by raw
 * value under its own key of the shared store.
 */
module Theme {
  import opened Wrappers
  import opened Store
  import Defaults

  datatype ColorScheme = LightScheme | DarkScheme

  datatype AppTheme = System | Light | Dark
  {
    function RawValue(): string {
      match this
      case System => "system"
      case Light => "light"
      case Dark => "dark"
    }

    function DisplayName(): string {
      match this
      case System => "System"
      case Light => "Light"
      case Dark => "Dark"
    }

    function SystemImage(): string {
      match this
      case System => "circle.lefthalf.filled"
      case Light => "sun.max.fill"
      case Dark => "moon.fill"
    }

    /** No forced scheme for `System`: the app follows the OS. */
    function ColorScheme(): Option<ColorScheme> {
      match this
      case System => None
      case Light => Some(LightScheme)
      case Dark => Some(DarkScheme)
    }

    /** The theme `toggleTheme` moves to. */
    function Next(): AppTheme {
      match this
      case System => Light
      case Light => Dark
      case Dark => System
    }
  }

  /** `AppTheme(rawValue:)`. */
  function ParseTheme(raw: string): Option<AppTheme> {
    if raw == "system" then Some(System)
    else if raw == "light" then Some(Light)
    else if raw == "dark" then Some(Dark)
    else None
  }

  const ThemeKey: string := "SprintBellTheme"

  /** The theme a new manager ends up with: the stored one if it parses, `System` otherwise. */
  function StoredTheme(m: Entries): AppTheme {
    match StringFor(m, ThemeKey)
    case Some(raw) => ParseTheme(raw).GetOr(System)
    case None => System
  }

  // ---------------------------------------------------------------------------
  // Properties

  /** A raw value parses back to its theme, and only raw values parse. */
  lemma ParseThemeIff(raw: string, t: AppTheme)
    ensures ParseTheme(raw) == Some(t) <==> raw == t.RawValue()
  {
  }

  /** Toggling visits all three themes and returns after three steps. */
  lemma ToggleCycle(t: AppTheme)
    ensures t.Next() != t && t.Next().Next() != t
    ensures t.Next().Next().Next() == t
  {
  }

  /** `colorScheme` is nil exactly for `System`. */
  lemma ColorSchemeNoneIff(t: AppTheme)
    ensures t.ColorScheme().None? <==> t == System
  {
  }

  /** A stored theme is what a new manager reads back. */
  lemma StoredAfterSave(m: Entries, t: AppTheme)
    ensures StoredTheme(m[ThemeKey := StringValue(t.RawValue())]) == t
  {
    ParseThemeIff(t.RawValue(), t);
  }

  /** The theme key is not one of the timer-settings keys, so resetting them keeps the theme. */
  lemma ThemeSurvivesReset(m: Entries)
    ensures ThemeKey !in Defaults.KeySet(Defaults.AllKeys)
    ensures StoredTheme(m - Defaults.KeySet(Defaults.AllKeys)) == StoredTheme(m)
  {
  }

  // ---------------------------------------------------------------------------
  // The manager

  class ThemeManager {
    var currentTheme: AppTheme
    const defaults: UserDefaults

    /** `init`: starts at `System` and loads the stored theme. */
    constructor (defaults: UserDefaults)
      ensures this.defaults == defaults
      ensures currentTheme == StoredTheme(defaults.entries)
    {
      this.defaults := defaults;
      currentTheme := System;
      new;
      LoadTheme();
    }

    /** `setTheme`: adopts the theme and stores its raw value, leaving every other key alone. */
    method SetTheme(theme: AppTheme)
      modifies this, defaults
      ensures currentTheme == theme
      ensures defaults.entries == old(defaults.entries)[ThemeKey := StringValue(theme.RawValue())]
    {
      currentTheme := theme;
      SaveTheme();
    }

    /** `toggleTheme`: moves to the next theme of the cycle and stores it. */
    method ToggleTheme()
      modifies this, defaults
      ensures currentTheme == old(currentTheme).Next()
      ensures defaults.entries == old(defaults.entries)[ThemeKey := StringValue(currentTheme.RawValue())]
    {
      match currentTheme
      case System => SetTheme(Light);
      case Light => SetTheme(Dark);
      case Dark => SetTheme(System);
    }

    method SaveTheme()
      modifies defaults
      ensures defaults.entries == old(defaults.entries)[ThemeKey := StringValue(currentTheme.RawValue())]
    {
      defaults.Set(ThemeKey, StringValue(currentTheme.RawValue()));
    }

    /** `loadTheme`: adopts the stored theme when there is a string that parses; otherwise keeps the current one. */
    method LoadTheme()
      modifies this
      ensures currentTheme ==
        match StringFor(defaults.entries, ThemeKey)
        case Some(raw) => ParseTheme(raw).GetOr(old(currentTheme))
        case None => old(currentTheme)
    {
      var stored := StringFor(defaults.entries, ThemeKey);
      if stored.Some? {
        var theme := ParseTheme(stored.value);
        if theme.Some? {
          currentTheme := theme.value;
        }
      }
    }
  }
}
