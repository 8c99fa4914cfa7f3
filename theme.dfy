/** The theme provider: the stored choice, its resolution against the system preference,
    and the one theme class it keeps on the root element. */
module Theme {
  import opened Wrappers
  import opened Js
  import Browser

  const Light := "light"
  const Dark := "dark"
  const System := "system"

  /** The choices the theme menu offers. */
  predicate IsChoice(theme: string) {
    theme == Light || theme == Dark || theme == System
  }

  /** A name the root's class list accepts: non-empty and free of whitespace. */
  predicate IsClassToken(s: string) {
    s != "" && forall i :: 0 <= i < |s| ==> s[i] != ' ' && s[i] != '\t' && s[i] != '\n' && s[i] != '\r' && s[i] != '\U{000C}'
  }

  /** The saved choice, or "system" when none (or an empty one) is saved. */
  function SavedTheme(storage: map<string, string>): (r: string)
    ensures Browser.ThemeKey in storage && storage[Browser.ThemeKey] != "" ==> r == storage[Browser.ThemeKey]
    ensures !(Browser.ThemeKey in storage && storage[Browser.ThemeKey] != "") ==> r == System
  {
    Or(if Browser.ThemeKey in storage then Some(storage[Browser.ThemeKey]) else None, System)
  }

  /** The theme to apply: the system preference for "system", the choice itself otherwise. */
  function Resolve(theme: string, prefersDark: bool): (r: string)
    ensures theme == System ==> r == (if prefersDark then Dark else Light)
    ensures theme != System ==> r == theme
    ensures IsChoice(theme) ==> r == Light || r == Dark
  {
    if theme == System then (if prefersDark then Dark else Light) else theme
  }

  /** The root's classes after removing "light" and "dark" and adding `applied`. */
  function WithThemeClass(classes: set<string>, applied: string): (r: set<string>)
    ensures applied in r
    ensures forall c :: c != Light && c != Dark ==> (c in r <==> c in classes || c == applied)
    ensures forall c :: (c == Light || c == Dark) && c != applied ==> c !in r
  {
    classes - {Light, Dark} + {applied}
  }

  /** For any menu choice, exactly one of "light" and "dark" is on the root afterwards, and
      it is the resolved one. */
  lemma OneThemeClass(classes: set<string>, theme: string, prefersDark: bool)
    requires IsChoice(theme)
    ensures var r := WithThemeClass(classes, Resolve(theme, prefersDark));
      (Light in r) != (Dark in r) && Resolve(theme, prefersDark) in r
  {
  }

  class ThemeProvider {
    const window: Browser.Window
    var theme: string
    var mounted: bool

    constructor (window: Browser.Window)
      ensures this.window == window && theme == System && !mounted
    {
      this.window := window;
      theme := System;
      mounted := false;
    }

    /** `applyTheme`. */
    method ApplyTheme(newTheme: string)
      requires IsClassToken(Resolve(newTheme, window.prefersDark))
      modifies window`rootClasses
      ensures window.rootClasses == WithThemeClass(old(window.rootClasses), Resolve(newTheme, window.prefersDark))
    {
      var systemTheme := if window.prefersDark then Dark else Light;
      var themeToApply := if newTheme == System then systemTheme else newTheme;
      window.rootClasses := window.rootClasses - {Light, Dark};
      window.rootClasses := window.rootClasses + {themeToApply};
    }

    /** The mount effect: mark mounted, then take and apply the saved choice. */
    method Mount()
      requires IsClassToken(Resolve(SavedTheme(window.storage), window.prefersDark))
      modifies this`mounted, this`theme, window`rootClasses
      ensures mounted && theme == SavedTheme(window.storage)
      ensures window.rootClasses == WithThemeClass(old(window.rootClasses), Resolve(theme, window.prefersDark))
    {
      mounted := true;
      var saved := Or(window.GetItem(Browser.ThemeKey), System);
      theme := saved;
      ApplyTheme(saved);
    }

    /** `toggleTheme`: set the choice, save it, apply it. */
    method ToggleTheme(newTheme: string)
      requires IsClassToken(Resolve(newTheme, window.prefersDark))
      modifies this`theme, window`storage, window`rootClasses
      ensures theme == newTheme
      ensures window.storage == old(window.storage)[Browser.ThemeKey := newTheme]
      ensures window.rootClasses == WithThemeClass(old(window.rootClasses), Resolve(newTheme, window.prefersDark))
    {
      theme := newTheme;
      window.SetItem(Browser.ThemeKey, newTheme);
      ApplyTheme(newTheme);
    }

    /** A change of the colour-scheme preference: the listener exists only while the choice
        is "system", and then re-applies the class the new preference gives. */
    method SystemPreferenceChanged(matches: bool)
      modifies window`prefersDark, window`rootClasses
      ensures window.prefersDark == matches
      ensures theme == System ==> window.rootClasses == WithThemeClass(old(window.rootClasses), if matches then Dark else Light)
      ensures theme != System ==> window.rootClasses == old(window.rootClasses)
    {
      window.prefersDark := matches;
      if theme == System {
        window.rootClasses := window.rootClasses - {Light, Dark};
        window.rootClasses := window.rootClasses + {if matches then Dark else Light};
      }
    }

    /** The context value children receive: nothing until mounted, then the current choice. */
    function Provided(): (r: Option<string>)
      reads this
      ensures r.Some? <==> mounted
      ensures r.Some? ==> r.value == theme
    {
      if mounted then Some(theme) else None
    }
  }

  /** Choosing a theme and reloading the page brings the same choice back. */
  method ToggleThenReload(window: Browser.Window, choice: string) returns (reloaded: string)
    requires IsChoice(choice)
    modifies window
    ensures reloaded == choice
    ensures (Light in window.rootClasses) != (Dark in window.rootClasses)
  {
    var provider := new ThemeProvider(window);
    provider.ToggleTheme(choice);
    var next := new ThemeProvider(window);
    next.Mount();
    reloaded := next.theme;
  }
}
