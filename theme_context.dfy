// The theme context: the colour mode, how it is chosen at start-up, how it
// is toggled, and what every mode change writes to storage and to the root
// element's classes. The browser's storage, the system preference and the
// document are parameters and fields of the provider.
module ThemeContext {
  import opened Wrappers

  datatype Mode = Light | Dark

  const StorageKey: string := "theme-preference"

  function Name(m: Mode): (s: string)
    ensures s == "light" || s == "dark"
  {
    match m
    case Light => "light"
    case Dark => "dark"
  }

  /**
   * The `useState` initialiser: dark without a window; a stored "light" or
   * "dark" as it is; otherwise dark, whichever scheme the system prefers.
   */
  function InitialMode(hasWindow: bool, stored: Option<string>, systemPrefersDark: bool): (m: Mode)
    ensures !hasWindow ==> m == Dark
    ensures hasWindow && stored == Some("light") ==> m == Light
    ensures hasWindow && stored != Some("light") ==> m == Dark
  {
    if !hasWindow then Dark
    else if stored == Some("light") then Light
    else if stored == Some("dark") then Dark
    else if systemPrefersDark then Dark else Dark
  }

  /** `prevMode === 'light' ? 'dark' : 'light'`. */
  function Flip(m: Mode): (r: Mode)
    ensures r != m
  {
    if m == Light then Dark else Light
  }

  /** `!stored`: the system-change handler acts only when nothing (or an empty string) is stored. */
  predicate NoPreference(stored: Option<string>)
  {
    stored.None? || stored == Some("")
  }

  /** The root's classes after `classList.remove('light', 'dark'); classList.add(mode)`. */
  function WithModeClass(classes: set<string>, m: Mode): (r: set<string>)
    ensures Name(m) in r && Name(Flip(m)) !in r
    ensures forall c :: c != "light" && c != "dark" ==> (c in r <==> c in classes)
  {
    classes - {"light", "dark"} + {Name(m)}
  }

  lemma FlipTwice(m: Mode)
    ensures Flip(Flip(m)) == m
  {
  }

  /** A stored "dark" and a stored "light" are read back as the modes that wrote them. */
  lemma StoredModeRoundTrip(m: Mode, systemPrefersDark: bool)
    ensures InitialMode(true, Some(Name(m)), systemPrefersDark) == m
  {
  }

  /** The system preference never decides the start-up mode. */
  lemma SystemPreferenceIgnoredAtStart(stored: Option<string>)
    ensures InitialMode(true, stored, true) == InitialMode(true, stored, false)
  {
  }

  /** `ThemeProvider` in a browser: the mode, the stored preference and the root element's classes. */
  class ThemeProvider {
    var mode: Mode
    var stored: Option<string>
    var classes: set<string>

    /** What the mode effect leaves behind: the mode persisted and exactly one mode class set. */
    predicate Valid()
      reads this
    {
      stored == Some(Name(mode)) && Name(mode) in classes && Name(Flip(mode)) !in classes
    }

    /** Mount: the initial mode, then the mode effect persists it and sets its class. */
    constructor (stored: Option<string>, systemPrefersDark: bool, classes: set<string>)
      ensures mode == InitialMode(true, stored, systemPrefersDark)
      ensures this.stored == Some(Name(mode))
      ensures this.classes == WithModeClass(classes, mode)
      ensures Valid()
    {
      mode := InitialMode(true, stored, systemPrefersDark);
      this.stored := stored;
      this.classes := classes;
      new;
      ApplyMode();
    }

    /** The `[mode]` effect: store the mode and swap the mode class. */
    method ApplyMode()
      modifies this
      ensures mode == old(mode)
      ensures stored == Some(Name(mode))
      ensures classes == WithModeClass(old(classes), mode)
      ensures Valid()
    {
      stored := Some(Name(mode));
      classes := classes - {"light", "dark"} + {Name(mode)};
    }

    /** `toggleTheme`, followed by the effect the new mode triggers. */
    method ToggleTheme()
      modifies this
      ensures mode == Flip(old(mode))
      ensures stored == Some(Name(mode))
      ensures classes == WithModeClass(old(classes), mode)
      ensures Valid()
    {
      mode := Flip(mode);
      ApplyMode();
    }

    /** The `prefers-color-scheme` change handler: follows the system only without a stored preference. */
    method SystemThemeChanged(matchesDark: bool)
      modifies this
      ensures !NoPreference(old(stored)) ==> mode == old(mode) && stored == old(stored) && classes == old(classes)
      ensures NoPreference(old(stored)) ==> mode == (if matchesDark then Dark else Light)
      ensures NoPreference(old(stored)) ==> stored == Some(Name(mode)) && classes == WithModeClass(old(classes), mode)
    {
      if NoPreference(stored) {
        mode := if matchesDark then Dark else Light;
        ApplyMode();
      }
    }

    /**
     * Because the effect persists the start-up mode, a mounted provider
     * always has a stored preference, so the system-change handler never
     * changes the mode.
     */
    lemma SystemChangeNeverApplies()
      requires Valid()
      ensures !NoPreference(stored)
    {
    }
  }
}
