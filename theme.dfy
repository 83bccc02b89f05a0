/** The theme button of components/core/ThemeToggle.tsx: a three-way cycle through the
    light, dark and system themes, and the tooltip announcing the next one. */
module Theme {

  const Light: string := "light"
  const Dark: string := "dark"
  const System: string := "system"

  /** `toggleTheme`: light goes to dark, dark to system, and anything else to light. */
  function NextTheme(theme: string): (next: string)
    ensures theme == Light ==> next == Dark
    ensures theme == Dark ==> next == System
    ensures theme != Light && theme != Dark ==> next == Light
  {
    if theme == Light then Dark
    else if theme == Dark then System
    else Light
  }

  /** The words the tooltip uses for each theme it can switch to. */
  function ModeName(theme: string): string {
    if theme == Dark then "dark mode"
    else if theme == System then "system theme"
    else "light mode"
  }

  /** `getTitle`. */
  function Title(theme: string): (title: string)
    ensures title == "Switch to " + ModeName(NextTheme(theme))
  {
    if theme == Light then "Switch to dark mode"
    else if theme == Dark then "Switch to system theme"
    else "Switch to light mode"
  }

  /** A toggle always lands on one of the three themes. */
  lemma NextThemeIsKnown(theme: string)
    ensures NextTheme(theme) in {Light, Dark, System}
  {
  }

  /** Three toggles from any of the three themes come back to it. */
  lemma ThreeTogglesCycle(theme: string)
    requires theme in {Light, Dark, System}
    ensures NextTheme(NextTheme(NextTheme(theme))) == theme
  {
  }

  /** Any other value (the provider's default before a choice, say) joins the cycle at light
      after one toggle and stays in it. */
  lemma UnknownThemeJoinsCycle(theme: string)
    requires theme !in {Light, Dark, System}
    ensures NextTheme(theme) == Light
    ensures NextTheme(NextTheme(NextTheme(NextTheme(theme)))) == Light
  {
  }

  /** The theme the provider holds, as the button sees it. */
  class ThemeToggle {
    var theme: string

    constructor (initial: string)
      ensures theme == initial
    {
      theme := initial;
    }

    /** A click: `setTheme(next)`. */
    method Toggle()
      modifies this
      ensures theme == NextTheme(old(theme))
      ensures old(Title(theme)) == "Switch to " + ModeName(theme)
    {
      theme := NextTheme(theme);
    }
  }
}
