/**
 * ThemeModeJsonConverter: reads and writes the WPF ThemeMode setting as a JSON string. Reading is
 * case-sensitive and falls back to System for anything it does not know, including null.
 */
module ThemeModeJsonConverter {
  import opened Common

  /** System.Windows.ThemeMode; its Value is the name. */
  datatype ThemeMode = Light | Dark | System | None

  /** ThemeMode.Value. */
  function Value(mode: ThemeMode): string
  {
    match mode
    case Light => "Light"
    case Dark => "Dark"
    case System => "System"
    case None => "None"
  }

  /** Read: the mode with exactly that name; otherwise, or for a null string, System. */
  function Read(value: Option<string>): (r: ThemeMode)
    ensures value.Some? && ThemeModeNamed(value.value).Some? ==> r == ThemeModeNamed(value.value).value
    ensures (value.None? || ThemeModeNamed(value.value).None?) ==> r == System
  {
    match value
    case None => System
    case Some(s) =>
      if s == "Light" then Light
      else if s == "Dark" then Dark
      else if s == "System" then System
      else if s == "None" then ThemeMode.None
      else System
  }

  /** The mode whose Value is the string, if there is one. */
  function ThemeModeNamed(s: string): (r: Option<ThemeMode>)
    ensures r.Some? ==> Value(r.value) == s
    ensures r.None? ==> forall m: ThemeMode :: Value(m) != s
  {
    if s == Value(Light) then Some(Light)
    else if s == Value(Dark) then Some(Dark)
    else if s == Value(System) then Some(System)
    else if s == Value(ThemeMode.None) then Some(ThemeMode.None)
    else Option.None
  }

  /** Write: the mode's Value as a JSON string. */
  function Write(mode: ThemeMode): (r: string)
    ensures ThemeModeNamed(r) == Some(mode)
  {
    Value(mode)
  }

  /** Writing then reading gives every mode back. */
  lemma WriteThenRead(mode: ThemeMode)
    ensures Read(Some(Write(mode))) == mode
  {
  }

  /** The match is case-sensitive: lower-case names are not recognised. */
  lemma ReadIsCaseSensitive()
    ensures Read(Some("light")) == System && Read(Some("dark")) == System && Read(Some("none")) == System
  {
    assert ThemeModeNamed("light").None? by { assert "light"[0] != "Light"[0]; }
  }
}
