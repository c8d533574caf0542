/** The colour theme: the current theme text, whether the document carries
    the `dark` class, and the value saved in the browser. */
module Theme {
  import opened Prelude

  /** The initial theme: the saved text when it is non-empty (it is used as
      it is, whatever it says), otherwise the operating system's preference. */
  function InitialTheme(saved: Option<string>, prefersDark: bool): (t: string)
    ensures saved.Some? && saved.value != [] ==> t == saved.value
    ensures (saved.None? || saved.value == []) ==> (t == "dark" <==> prefersDark)
    ensures (saved.None? || saved.value == []) ==> (t == "dark" || t == "light")
  {
    if saved.Some? && saved.value != [] then saved.value
    else if prefersDark then "dark" else "light"
  }

  /** `prevTheme === 'dark' ? 'light' : 'dark'`. */
  function Toggled(t: string): (r: string)
    ensures r == "dark" || r == "light"
    ensures r == "light" <==> t == "dark"
  {
    if t == "dark" then "light" else "dark"
  }

  /** Toggling twice returns to `light` or `dark`; any other saved text
      becomes `dark` on the first toggle and `light` on the second. */
  lemma ToggleTwice(t: string)
    ensures t == "dark" || t == "light" ==> Toggled(Toggled(t)) == t
    ensures t != "dark" && t != "light" ==> Toggled(Toggled(t)) == "light"
  {
  }

  /** The theme state after the effect has run: the class matches the
      theme and the theme is saved. */
  class ThemeState {
    var theme: string
    var darkClass: bool
    var saved: Option<string>

    predicate Valid()
      reads this
    {
      (darkClass <==> theme == "dark") && saved == Some(theme)
    }

    constructor (saved: Option<string>, prefersDark: bool)
      ensures theme == InitialTheme(saved, prefersDark)
      ensures Valid()
    {
      var initial := InitialTheme(saved, prefersDark);
      theme := initial;
      darkClass := initial == "dark";
      this.saved := Some(initial);
    }

    /** `toggleTheme`, followed by the effect that sets the class and saves. */
    method ToggleTheme()
      modifies this
      ensures theme == Toggled(old(theme))
      ensures Valid()
    {
      theme := Toggled(theme);
      darkClass := theme == "dark";
      saved := Some(theme);
    }
  }
}
