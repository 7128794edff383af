/**
 * The theme switch (src/components/theme/theme-toggle.tsx): the icon shown
 * follows the resolved theme, and a click asks the theme library for the
 * other one.
 */
module ThemeToggle {
  import opened Wrappers

  /** The theme the button shows: the system's when the preference is
      `'system'`, the preference itself otherwise (both may be undefined). */
  function Resolve(theme: Option<string>, systemTheme: Option<string>): (r: Option<string>)
    ensures theme == Some("system") ==> r == systemTheme
    ensures theme != Some("system") ==> r == theme
  {
    if theme == Some("system") then systemTheme else theme
  }

  /** The theme a click requests: dark from light, light from anything
      else, including dark and undefined. */
  function Requested(selected: Option<string>): (t: string)
    ensures t == "dark" <==> selected == Some("light")
    ensures t == "light" <==> selected != Some("light")
  {
    if selected == Some("light") then "dark" else "light"
  }

  /** The sun icon shows exactly for a resolved light theme. */
  predicate ShowsSun(selected: Option<string>) {
    selected == Some("light")
  }

  /** Two clicks from a resolved light or dark theme come back to it, and no
      click ever asks for `'system'`: setting a concrete theme leaves the
      system preference behind. */
  lemma ToggleTwice(theme: Option<string>, systemTheme: Option<string>)
    requires Resolve(theme, systemTheme) in {Some("light"), Some("dark")}
    ensures var first := Requested(Resolve(theme, systemTheme));
            var second := Requested(Resolve(Some(first), systemTheme));
            Some(second) == Resolve(theme, systemTheme) && first != "system" && second != "system"
  {
  }

  /** The icon alternates with each click. */
  lemma IconAlternates(theme: Option<string>, systemTheme: Option<string>)
    ensures var after := Resolve(Some(Requested(Resolve(theme, systemTheme))), systemTheme);
            ShowsSun(after) <==> !ShowsSun(Resolve(theme, systemTheme))
  {
  }

  /** The component's `selectedTheme` state. */
  class ThemeToggle {
    var selectedTheme: Option<string>

    /** First render: nothing resolved yet. */
    constructor ()
      ensures selectedTheme == None
    {
      selectedTheme := None;
    }

    /** The effect run when `theme` or `systemTheme` changes. */
    method SyncSelectedTheme(theme: Option<string>, systemTheme: Option<string>)
      modifies this
      ensures selectedTheme == Resolve(theme, systemTheme)
    {
      if theme == Some("system") {
        selectedTheme := systemTheme;
      } else {
        selectedTheme := theme;
      }
    }

    /** `toggleTheme`: the value passed to `setTheme`. */
    method ToggleTheme() returns (requested: string)
      ensures requested == Requested(selectedTheme)
      ensures requested == "dark" || requested == "light"
    {
      if selectedTheme == Some("light") {
        requested := "dark";
      } else {
        requested := "light";
      }
    }

    /** Which icon the button renders. */
    method Icon() returns (sun: bool)
      ensures sun <==> ShowsSun(selectedTheme)
    {
      sun := selectedTheme == Some("light");
    }
  }
}
