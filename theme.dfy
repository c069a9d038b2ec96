/**
 * The app theme (src/context/ThemeContext.tsx): light before anything is
 * loaded, then the stored choice or else the system's scheme, flipped by
 * `toggleTheme`, which also stores the new mode. The stored value under
 * `APP_THEME` is a field here; the colour palettes are not modelled.
 */
module ThemeContext {
  import opened Wrappers

  /** The `mode` of the theme in use. */
  datatype Mode = Light | Dark

  /** The `mode` string of each palette, the value that is stored. */
  function ModeName(mode: Mode): (r: string)
    ensures r == "light" <==> mode == Light
    ensures r == "dark" <==> mode == Dark
  {
    match mode
    case Light => "light"
    case Dark => "dark"
  }

  /** `prev.mode === 'light' ? darkTheme : lightTheme`. */
  function Toggled(mode: Mode): Mode {
    if ModeName(mode) == "light" then Dark else Light
  }

  /** Toggling changes the mode, and toggling twice restores it. */
  lemma ToggleInvolutive(mode: Mode)
    ensures Toggled(mode) != mode
    ensures Toggled(Toggled(mode)) == mode
  {
  }

  /**
   * The load effect: a stored "dark" or "light" wins; anything else, or
   * nothing, defers to the system scheme (`None` when it reports none).
   */
  function InitialMode(stored: Option<string>, systemScheme: Option<string>): (r: Mode)
    ensures stored == Some("dark") ==> r == Dark
    ensures stored == Some("light") ==> r == Light
    ensures stored != Some("dark") && stored != Some("light") ==> (r == Dark <==> systemScheme == Some("dark"))
  {
    if stored == Some("dark") then Dark
    else if stored == Some("light") then Light
    else if systemScheme == Some("dark") then Dark
    else Light
  }

  /** What `toggleTheme` stores is read back as the same mode, whatever the system scheme. */
  lemma StoredModeRoundTrip(mode: Mode, systemScheme: Option<string>)
    ensures InitialMode(Some(ModeName(mode)), systemScheme) == mode
  {
  }

  /** The provider's `theme` state, with the stored `APP_THEME` value it reads and writes. */
  class ThemeProvider {
    var mode: Mode
    var stored: Option<string>

    /** Before loading, the theme is light. */
    constructor (stored: Option<string>)
      ensures mode == Light && this.stored == stored
    {
      mode := Light;
      this.stored := stored;
    }

    /** The load effect, given what `Appearance.getColorScheme()` reports. */
    method Load(systemScheme: Option<string>)
      modifies this`mode
      ensures mode == InitialMode(stored, systemScheme)
    {
      if stored == Some("dark") {
        mode := Dark;
      } else if stored == Some("light") {
        mode := Light;
      } else {
        mode := if systemScheme == Some("dark") then Dark else Light;
      }
    }

    /** `toggleTheme`: the mode flips and the new mode's name is stored. */
    method ToggleTheme()
      modifies this
      ensures mode == Toggled(old(mode)) && mode != old(mode)
      ensures stored == Some(ModeName(mode))
    {
      var next := if ModeName(mode) == "light" then Dark else Light;
      stored := Some(ModeName(next));
      mode := next;
    }
  }
}
