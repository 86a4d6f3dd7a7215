/**
 * The colour theme: read once from storage ("dark" or "light", anything else
 * meaning light), toggled by the header's switch, written to the document
 * root's class list (exactly one of "dark" and "light") and persisted after
 * every change. Nothing is rendered before the theme is known.
 */
module Themes {
  import opened Wrappers

  datatype Theme = Light | Dark

  const STORAGE_KEY := "theme"

  function ThemeName(t: Theme): string {
    match t
    case Light => "light"
    case Dark => "dark"
  }

  /** The stored value under the key, as `localStorage.getItem` returns it. */
  function Saved(storage: map<string, string>): Option<string> {
    if STORAGE_KEY in storage then Some(storage[STORAGE_KEY]) else None
  }

  /** The first theme: the saved one if it is "dark" or "light", otherwise light. */
  function InitialTheme(saved: Option<string>): (t: Theme)
    ensures saved == Some("dark") || saved == Some("light") ==> saved == Some(ThemeName(t))
    ensures t == Dark ==> saved == Some("dark")
  {
    if saved == Some("dark") then Dark else Light
  }

  /** `toggleTheme`: "dark" becomes "light", anything else (no theme yet included) "dark". */
  function Toggled(prev: Option<Theme>): (t: Theme)
    ensures prev != Some(t)
    ensures prev.None? ==> t == Dark
  {
    if prev == Some(Dark) then Light else Dark
  }

  /** `applyTheme(t)` on the root's class list. */
  function ApplyTheme(classes: set<string>, t: Theme): set<string> {
    match t
    case Dark => (classes + {"dark"}) - {"light"}
    case Light => (classes - {"dark"}) + {"light"}
  }

  /** A saved "light" is kept, and every other value starts the site in light mode. */
  lemma InitialThemeCases(saved: Option<string>)
    ensures saved == Some("light") ==> InitialTheme(saved) == Light
    ensures saved != Some("dark") && saved != Some("light") ==> InitialTheme(saved) == Light
    ensures (saved == Some("dark") || saved == Some("light")) ==> ThemeName(InitialTheme(saved)) == saved.value
  {
  }

  /** Toggling changes the theme, and toggling twice gives it back. */
  lemma ToggleTwice(t: Theme)
    ensures Toggled(Some(t)) != t
    ensures Toggled(Some(Toggled(Some(t)))) == t
  {
  }

  /**
   * After `applyTheme(t)` the class list holds exactly one of the two theme
   * classes, the one named by `t`; every other class is as before. Applying
   * twice is applying once, and only the last theme applied matters.
   */
  lemma ApplyThemeSetsOneClass(classes: set<string>, t: Theme, u: Theme, c: string)
    ensures ThemeName(t) in ApplyTheme(classes, t)
    ensures ThemeName(Toggled(Some(t))) !in ApplyTheme(classes, t)
    ensures c != "dark" && c != "light" ==> (c in ApplyTheme(classes, t) <==> c in classes)
    ensures ApplyTheme(ApplyTheme(classes, u), t) == ApplyTheme(classes, t)
  {
  }

  /** What is stored for a theme is read back as that theme on the next visit. */
  lemma PersistedThemeIsRestored(storage: map<string, string>, t: Theme)
    ensures InitialTheme(Saved(storage[STORAGE_KEY := ThemeName(t)])) == t
  {
  }

  class ThemeProvider {
    /** `undefined` until the mount effect has read storage. */
    var theme: Option<Theme>
    /** `document.documentElement.classList` */
    var classes: set<string>
    /** `localStorage` */
    var storage: map<string, string>

    /** Whether the children are rendered. */
    predicate Renders()
      reads this
    {
      theme.Some?
    }

    /** The document shows the current theme and storage holds it. */
    predicate InSync()
      reads this
    {
      theme.Some?
      && ThemeName(theme.value) in classes && ThemeName(Toggled(theme)) !in classes
      && Saved(storage) == Some(ThemeName(theme.value))
    }

    constructor (classes: set<string>, storage: map<string, string>)
      ensures theme.None? && !Renders() && this.classes == classes && this.storage == storage
    {
      theme := None;
      this.classes, this.storage := classes, storage;
    }

    /** The mount effect: the initial theme from storage, set and applied; storage is not written yet. */
    method Mount()
      modifies this
      ensures theme == Some(InitialTheme(Saved(old(storage)))) && Renders()
      ensures classes == ApplyTheme(old(classes), theme.value) && storage == old(storage)
    {
      var saved := Saved(storage);
      var initial := if saved == Some("dark") || saved == Some("light") then
        (if saved.value == "dark" then Dark else Light) else Light;
      theme := Some(initial);
      classes := ApplyTheme(classes, initial);
    }

    /** The effect on `[theme]`: nothing while there is no theme, otherwise apply and persist it. */
    method ThemeChanged()
      modifies this
      ensures theme == old(theme)
      ensures old(theme).None? ==> classes == old(classes) && storage == old(storage)
      ensures old(theme).Some? ==> (classes == ApplyTheme(old(classes), theme.value)
        && storage == old(storage)[STORAGE_KEY := ThemeName(theme.value)] && InSync())
    {
      if theme.None? {
        return;
      }
      classes := ApplyTheme(classes, theme.value);
      storage := storage[STORAGE_KEY := ThemeName(theme.value)];
    }

    /** `toggleTheme()` */
    method Toggle()
      modifies this
      ensures theme == Some(Toggled(old(theme))) && classes == old(classes) && storage == old(storage)
    {
      theme := Some(if theme == Some(Dark) then Light else Dark);
    }
  }
}
