/**
 * The theme provider (src/context/ThemeContext.tsx): the theme the user chose
 * (light, dark, or follow the system), the scheme the page is actually drawn
 * in, and the rules that keep the two in step with the system preference.
 * The system preference (`prefers-color-scheme: dark`) is an input.
 */
module Theme {
  import opened Wrappers

  datatype Theme = Light | Dark | System

  /** `'light' | 'dark'`: a resolved theme is never `System`. */
  type Scheme = t: Theme | t != System witness Light

  /** The string a theme is stored as. */
  function Name(t: Theme): string
  {
    match t
    case Light => "light"
    case Dark => "dark"
    case System => "system"
  }

  /** Reads a stored string back as a theme, if it is the name of one. */
  function ParseTheme(s: string): (r: Option<Theme>)
    ensures r.Some? ==> Name(r.value) == s
    ensures r.None? ==> forall t: Theme :: Name(t) != s
  {
    if s == "light" then Some(Light)
    else if s == "dark" then Some(Dark)
    else if s == "system" then Some(System)
    else None
  }

  lemma ParseName(t: Theme)
    ensures ParseTheme(Name(t)) == Some(t)
  {
  }

  /** `toggleTheme`: light, then dark, then system, then light again. */
  function Toggle(t: Theme): (r: Theme)
    ensures r != t
    ensures t == Light ==> r == Dark
    ensures t == Dark ==> r == System
    ensures t == System ==> r == Light
  {
    match t
    case Light => Dark
    case Dark => System
    case System => Light
  }

  /** Toggling is a cycle of length exactly three through all three themes. */
  lemma ToggleCycle(t: Theme, u: Theme)
    ensures Toggle(Toggle(Toggle(t))) == t
    ensures Toggle(Toggle(t)) != t
    ensures u == t || u == Toggle(t) || u == Toggle(Toggle(t))
  {
  }

  /** `getSystemTheme`. */
  function SystemScheme(prefersDark: bool): (s: Scheme)
    ensures s == Dark <==> prefersDark
  {
    if prefersDark then Dark else Light
  }

  /** `updateResolvedTheme`: a chosen scheme is used as it is; `System` follows the preference. */
  function Resolve(t: Theme, prefersDark: bool): (r: Scheme)
    ensures t != System ==> r == t
    ensures t == System ==> r == SystemScheme(prefersDark)
  {
    if t == System then SystemScheme(prefersDark) else t
  }

  /** The preference matters only to the system theme. */
  lemma ResolveDependsOnPreferenceOnlyForSystem(t: Theme, a: bool, b: bool)
    ensures Resolve(t, a) != Resolve(t, b) <==> t == System && a != b
  {
  }

  /** The `change` listener on the media query: only the system theme follows the new preference. */
  function AfterPreferenceChange(theme: Theme, current: Scheme, prefersDark: bool): (r: Scheme)
    ensures theme != System ==> r == current
    ensures theme == System ==> r == SystemScheme(prefersDark)
  {
    if theme == System then SystemScheme(prefersDark) else current
  }

  /** The listener keeps a resolved theme that was up to date up to date. */
  lemma PreferenceChangeKeepsResolution(theme: Theme, before: bool, after: bool)
    ensures AfterPreferenceChange(theme, Resolve(theme, before), after) == Resolve(theme, after)
  {
  }

  /**
   * The initial theme: the stored value when it names a theme, `System`
   * otherwise. The code takes any non-empty stored string as it is; see
   * `InitialThemeAsWritten` for what that does with an unknown one.
   */
  function InitialTheme(stored: Option<string>): (t: Theme)
    ensures !Truthy(stored) ==> t == System
    ensures Truthy(stored) && ParseTheme(stored.value).Some? ==> t == ParseTheme(stored.value).value
    ensures Truthy(stored) && ParseTheme(stored.value).None? ==> t == System
  {
    if Truthy(stored) then ParseTheme(stored.value).GetOr(System) else System
  }

  /** `localStorage.getItem('theme') as Theme || 'system'`, as the code has it: a string, unchecked. */
  function InitialThemeAsWritten(stored: Option<string>): (t: string)
    ensures Truthy(stored) ==> t == stored.value
    ensures !Truthy(stored) ==> t == "system"
  {
    if Truthy(stored) then stored.value else "system"
  }

  /** `updateResolvedTheme` on the string the code holds. */
  function ResolveAsWritten(current: string, prefersDark: bool): (r: string)
    ensures current != "system" ==> r == current
  {
    if current == "system" then Name(SystemScheme(prefersDark)) else current
  }

  /** A stale or foreign stored value becomes the resolved theme, which is then neither light nor dark. */
  lemma UnknownStoredThemeLeaks()
    ensures var r := ResolveAsWritten(InitialThemeAsWritten(Some("blue")), false);
      r == "blue" && r != Name(Light) && r != Name(Dark)
  {
  }

  /** On every stored value the code handles as intended, the corrected reading agrees with it. */
  lemma InitialThemeAgreesWithCode(stored: Option<string>, prefersDark: bool)
    requires !Truthy(stored) || ParseTheme(stored.value).Some?
    ensures Name(InitialTheme(stored)) == InitialThemeAsWritten(stored)
    ensures Name(Resolve(InitialTheme(stored), prefersDark)) == ResolveAsWritten(InitialThemeAsWritten(stored), prefersDark)
  {
  }

  /** The provider's state: two signals, the stored theme and the `dark` class on the document. */
  class ThemeProvider {
    var theme: Theme
    var resolvedTheme: Scheme
    /** `localStorage.getItem('theme')`. */
    var savedTheme: Option<string>
    /** Whether `document.documentElement` carries the `dark` class. */
    var darkClass: bool

    /**
     * The two signals as created, before mounting: the initial theme, and
     * `'light'`. The theme is read as `InitialTheme`, the corrected reading; the
     * code keeps an unknown stored string unchecked (`InitialThemeAsWritten`).
     */
    constructor (stored: Option<string>, darkClass: bool)
      ensures theme == InitialTheme(stored) && resolvedTheme == Light
      ensures savedTheme == stored && this.darkClass == darkClass
    {
      theme := InitialTheme(stored);
      resolvedTheme := Light;
      savedTheme := stored;
      this.darkClass := darkClass;
    }

    /** `updateResolvedTheme(current)`. */
    method UpdateResolvedTheme(current: Theme, prefersDark: bool)
      modifies this`resolvedTheme
      ensures resolvedTheme == Resolve(current, prefersDark)
    {
      if current == System {
        resolvedTheme := SystemScheme(prefersDark);
      } else {
        resolvedTheme := current;
      }
    }

    /** `onMount`: resolve the current theme (the listener it installs is `OnPreferenceChange`). */
    method Mount(prefersDark: bool)
      modifies this`resolvedTheme
      ensures resolvedTheme == Resolve(theme, prefersDark)
    {
      UpdateResolvedTheme(theme, prefersDark);
    }

    /** The media-query listener; `matchesDark` is `e.matches`. */
    method OnPreferenceChange(matchesDark: bool)
      modifies this`resolvedTheme
      ensures resolvedTheme == AfterPreferenceChange(theme, old(resolvedTheme), matchesDark)
    {
      if theme == System {
        resolvedTheme := if matchesDark then Dark else Light;
      }
    }

    /** The effect that runs whenever the theme changes: store it, resolve it, set the document class. */
    method RunEffect(prefersDark: bool)
      modifies this`savedTheme, this`resolvedTheme, this`darkClass
      ensures savedTheme == Some(Name(theme))
      ensures resolvedTheme == Resolve(theme, prefersDark)
      ensures darkClass <==> resolvedTheme == Dark
    {
      savedTheme := Some(Name(theme));
      UpdateResolvedTheme(theme, prefersDark);
      if resolvedTheme == Dark {
        darkClass := true;
      } else {
        darkClass := false;
      }
    }

    /** `toggleTheme`. */
    method ToggleTheme()
      modifies this`theme
      ensures theme == Toggle(old(theme))
    {
      if theme == Light {
        theme := Dark;
      } else if theme == Dark {
        theme := System;
      } else {
        theme := Light;
      }
    }
  }
}
