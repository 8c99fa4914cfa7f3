/** The browser globals the dashboard reads and writes. */
module Browser {
  import opened Wrappers

  /** Storage keys of the session and of the theme preference. */
  const TokenKey := "token"
  const UserKey := "user"
  const ThemeKey := "theme"

  /** `window`: its `localStorage`, the address last navigated to, the class list of
      `document.documentElement`, and whether the colour-scheme query
      `(prefers-color-scheme: dark)` currently matches. Every component holds the same object. */
  class Window {
    var storage: map<string, string>
    var location: string
    var rootClasses: set<string>
    var prefersDark: bool

    constructor (storage: map<string, string>, location: string, rootClasses: set<string>, prefersDark: bool)
      ensures this.storage == storage && this.location == location
      ensures this.rootClasses == rootClasses && this.prefersDark == prefersDark
    {
      this.storage := storage;
      this.location := location;
      this.rootClasses := rootClasses;
      this.prefersDark := prefersDark;
    }

    /** `localStorage.getItem(key)`: None plays the part of `null`. */
    function GetItem(key: string): (r: Option<string>)
      reads this
      ensures r.Some? <==> key in storage
      ensures r.Some? ==> r.value == storage[key]
    {
      if key in storage then Some(storage[key]) else None
    }

    /** `localStorage.setItem(key, value)`. */
    method SetItem(key: string, value: string)
      modifies this`storage
      ensures storage == old(storage)[key := value]
    {
      storage := storage[key := value];
    }

    /** `localStorage.removeItem(key)`. */
    method RemoveItem(key: string)
      modifies this`storage
      ensures storage == old(storage) - {key}
    {
      storage := storage - {key};
    }
  }
}
