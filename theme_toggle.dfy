/** The light/dark theme switch. The stored preference is read once, as a parameter. */
module ThemeToggle {
  import opened Js

  const Light := "light"
  const Dark := "dark"

  /** `localStorage.getItem("theme") || "light"` */
  function InitialTheme(stored: Option<string>): (t: string)
    ensures Truthy(stored) ==> t == stored.value
    ensures !Truthy(stored) ==> t == Light
  {
    OrDefault(stored, Light)
  }

  /** `theme === "light" ? "dark" : "light"` */
  function Toggled(theme: string): (t: string)
    ensures t == Light || t == Dark
    ensures theme == Light <==> t == Dark
  {
    if theme == Light then Dark else Light
  }

  /** Two toggles restore a light or dark theme. */
  lemma ToggleTwice(theme: string)
    requires theme == Light || theme == Dark
    ensures Toggled(Toggled(theme)) == theme
  {
  }

  /** An unknown stored theme is replaced by light at the first toggle. */
  lemma UnknownThemeBecomesLight(theme: string)
    requires theme != Light && theme != Dark
    ensures Toggled(theme) == Light
  {
  }

  class ThemeSwitch {
    var theme: string

    constructor (stored: Option<string>)
      ensures theme == InitialTheme(stored)
    {
      theme := OrDefault(stored, Light);
    }

    /** The checkbox shows dark when checked. */
    function Checked(): (b: bool)
      reads this
      ensures b <==> theme == Dark
    {
      theme == Dark
    }

    /** `toggleTheme` */
    method Toggle()
      modifies this
      ensures theme == Toggled(old(theme))
      ensures theme == Light || theme == Dark
    {
      theme := if theme == Light then Dark else Light;
    }
  }
}
