/**
 * js/theme.js: the light/dark theme, remembered in storage, following the
 * system colour-scheme preference until the user toggles it by hand.
 */
module Theme {
  import opened Utils

  const ThemeKey := "freelanceos_theme"
  const ManualKey := "freelanceos_theme_manual"

  /** The theme toggleTheme switches to: 'light' becomes 'dark', anything else becomes 'light'. */
  function Toggled(theme: string): (r: string)
    ensures r == "dark" <==> theme == "light"
    ensures r == "dark" || r == "light"
  {
    if theme == "light" then "dark" else "light"
  }

  /** Toggling twice returns to the starting theme whenever that was 'light' or 'dark'. */
  lemma ToggleTwice(theme: string)
    requires theme == "light" || theme == "dark"
    ensures Toggled(Toggled(theme)) == theme
  {
  }

  /** The theme the system preference selects. */
  function SystemTheme(prefersDark: bool): string {
    if prefersDark then "dark" else "light"
  }

  /** The saved theme is truthy: stored, parsed, and not the empty string. */
  predicate HasSavedTheme(themes: map<string, Item<string>>) {
    Load(themes, ThemeKey, "") != ""
  }

  class ThemeManager {
    var currentTheme: string
    var themes: map<string, Item<string>>
    var manual: map<string, Item<bool>>

    /** new ThemeManager(): starts at 'light', then loadTheme. `prefersDark` is the
        answer of the prefers-color-scheme media query (false when matchMedia is missing). */
    constructor (themes: map<string, Item<string>>, manual: map<string, Item<bool>>, prefersDark: bool)
      ensures this.manual == manual
      ensures HasSavedTheme(themes) && Load(manual, ManualKey, false) ==> currentTheme == Load(themes, ThemeKey, "")
      ensures !(HasSavedTheme(themes) && Load(manual, ManualKey, false)) ==> currentTheme == SystemTheme(prefersDark)
      ensures this.themes == themes[ThemeKey := Parsed(currentTheme)]
    {
      currentTheme := "light";
      this.themes := themes;
      this.manual := manual;
      new;
      LoadTheme(prefersDark);
    }

    /** loadTheme: the saved theme only when one is saved and the manual flag is set, else the system's. */
    method LoadTheme(prefersDark: bool)
      modifies this`currentTheme, this`themes
      ensures HasSavedTheme(old(themes)) && Load(manual, ManualKey, false) ==>
                currentTheme == Load(old(themes), ThemeKey, "")
      ensures !(HasSavedTheme(old(themes)) && Load(manual, ManualKey, false)) ==>
                currentTheme == SystemTheme(prefersDark)
      ensures themes == old(themes)[ThemeKey := Parsed(currentTheme)]
    {
      var saved := Load(themes, ThemeKey, "");
      if saved != "" && Load(manual, ManualKey, false) {
        SetTheme(saved);
      } else {
        SetSystemTheme(prefersDark);
      }
    }

    /** setSystemTheme. */
    method SetSystemTheme(prefersDark: bool)
      modifies this`currentTheme, this`themes
      ensures currentTheme == SystemTheme(prefersDark)
      ensures themes == old(themes)[ThemeKey := Parsed(currentTheme)]
    {
      if prefersDark {
        SetTheme("dark");
      } else {
        SetTheme("light");
      }
    }

    /** setTheme: the current theme and the stored theme both become `theme`. */
    method SetTheme(theme: string)
      modifies this`currentTheme, this`themes
      ensures currentTheme == theme
      ensures themes == old(themes)[ThemeKey := Parsed(theme)]
      ensures Load(themes, ThemeKey, "") == theme
    {
      currentTheme := theme;
      themes := themes[ThemeKey := Parsed(theme)];
    }

    /** toggleTheme: switch theme and record that the user chose it by hand. */
    method ToggleTheme()
      modifies this
      ensures currentTheme == Toggled(old(currentTheme))
      ensures themes == old(themes)[ThemeKey := Parsed(currentTheme)]
      ensures manual == old(manual)[ManualKey := Parsed(true)]
      ensures Load(manual, ManualKey, false)
    {
      SetTheme(Toggled(currentTheme));
      manual := manual[ManualKey := Parsed(true)];
    }

    /** The prefers-color-scheme change listener: applied only while no manual choice is stored. */
    method OnSystemChange(matchesDark: bool)
      modifies this`currentTheme, this`themes
      ensures !Load(manual, ManualKey, false) ==>
                currentTheme == SystemTheme(matchesDark) && themes == old(themes)[ThemeKey := Parsed(currentTheme)]
      ensures Load(manual, ManualKey, false) ==> currentTheme == old(currentTheme) && themes == old(themes)
    {
      if !Load(manual, ManualKey, false) {
        SetTheme(if matchesDark then "dark" else "light");
      }
    }

    /** isDarkMode. */
    method IsDarkMode() returns (r: bool)
      ensures r <==> currentTheme == "dark"
    {
      r := currentTheme == "dark";
    }
  }

  /** Once the user has toggled, later system changes leave the theme alone. */
  method ManualChoiceSticks(t: ThemeManager, matchesDark: bool)
    modifies t
    ensures t.currentTheme == Toggled(old(t.currentTheme))
  {
    t.ToggleTheme();
    t.OnSystemChange(matchesDark);
  }
}
