/** The light/dark theme: its initial mode, the stored preference, the toggle and the derived theme. */
module ThemeContext {
  import opened Wrappers

  const ThemePreferenceKey := "@theme_preference"

  /** How a mode is written to storage. */
  function Encode(isDark: bool): (s: string)
    ensures s == "dark" || s == "light"
  {
    if isDark then "dark" else "light"
  }

  /** How a stored preference is read back: dark exactly for "dark", light for anything else. */
  function Decode(s: string): (isDark: bool)
    ensures isDark <==> s == "dark"
  {
    s == "dark"
  }

  /** Reading back what was written gives the same mode. */
  lemma DecodeEncode(isDark: bool)
    ensures Decode(Encode(isDark)) == isDark
  {
  }

  datatype Palette = LightPalette | DarkPalette

  /** The parts of the theme record that depend on the mode. */
  datatype Theme = Theme(base: Palette, colors: Palette, dark: bool)

  function ThemeOf(isDark: bool): (t: Theme)
    ensures t.dark == isDark
    ensures t.base == DarkPalette <==> isDark
    ensures t.colors == DarkPalette <==> isDark
  {
    var p := if isDark then DarkPalette else LightPalette;
    Theme(p, p, isDark)
  }

  /** The provider's state, with the device's key-value storage as a map. */
  class ThemeProvider {
    var isDarkMode: bool
    var storage: map<string, string>

    function CurrentTheme(): (t: Theme)
      reads this
      ensures t == ThemeOf(isDarkMode)
    {
      ThemeOf(isDarkMode)
    }

    /** The initial mode follows the system colour scheme, which may be unknown. */
    constructor (systemColorScheme: Option<string>, stored: map<string, string>)
      ensures isDarkMode <==> systemColorScheme == Some("dark")
      ensures storage == stored
    {
      isDarkMode := systemColorScheme == Some("dark");
      storage := stored;
    }

    /** The mount effect; `readFails` stands for a storage read that throws, which is caught. */
    method LoadPreference(readFails: bool)
      modifies this
      ensures storage == old(storage)
      ensures !readFails && ThemePreferenceKey in storage ==> isDarkMode == Decode(storage[ThemePreferenceKey])
      ensures readFails || ThemePreferenceKey !in storage ==> isDarkMode == old(isDarkMode)
    {
      if !readFails && ThemePreferenceKey in storage {
        isDarkMode := Decode(storage[ThemePreferenceKey]);
      }
    }

    /**
     * `toggleTheme`: the mode flips before the write, so it flips even when
     * the write fails (`writeFails`); a successful write stores the new mode.
     */
    method ToggleTheme(writeFails: bool)
      modifies this
      ensures isDarkMode == !old(isDarkMode)
      ensures !writeFails ==> storage == old(storage)[ThemePreferenceKey := Encode(isDarkMode)]
      ensures writeFails ==> storage == old(storage)
    {
      var newMode := !isDarkMode;
      isDarkMode := newMode;
      if !writeFails {
        storage := storage[ThemePreferenceKey := Encode(newMode)];
      }
    }
  }

  /** A toggle whose write succeeds is restored by the next launch's load, whatever the system scheme. */
  method ToggleThenRelaunch(systemColorScheme: Option<string>, stored: map<string, string>) returns (before: bool, after: bool)
    ensures after == !before
  {
    var p := new ThemeProvider(systemColorScheme, stored);
    p.LoadPreference(false);
    before := p.isDarkMode;
    p.ToggleTheme(false);
    var q := new ThemeProvider(systemColorScheme, p.storage);
    q.LoadPreference(false);
    after := q.isDarkMode;
  }
}
