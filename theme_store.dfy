/** The `theme` store: the dark/light flag, its persisted value under `helios-theme`, and
    the matching class on the document root. The browser's storage and the root's class
    list are modelled as a string map and a set of class names. */
module Theme {

  import opened Wrappers

  const StorageKey: string := "helios-theme"

  /** `dark ? 'dark' : 'light'`. */
  function ThemeName(dark: bool): (name: string)
    ensures name == "dark" <==> dark
    ensures name == "light" <==> !dark
  {
    if dark then "dark" else "light"
  }

  /** What `init` makes of the stored value: a non-empty value means dark exactly when it
      is `"dark"`; an absent or empty one means dark. */
  function InitialDark(stored: Option<string>): (dark: bool)
    ensures Truthy(stored) ==> (dark <==> stored.value == "dark")
    ensures !Truthy(stored) ==> dark
  {
    if Truthy(stored) then stored.value == "dark" else true
  }

  /** The class set after `applyTheme`: add the theme's class, remove the other one. */
  function Applied(classes: set<string>, dark: bool): (r: set<string>)
    ensures ("dark" in r <==> dark) && ("light" in r <==> !dark)
    ensures r - {"dark", "light"} == classes - {"dark", "light"}
  {
    if dark then classes + {"dark"} - {"light"} else classes + {"light"} - {"dark"}
  }

  /** Applying a theme over an applied theme is applying the last one. */
  lemma AppliedLastWins(classes: set<string>, first: bool, second: bool)
    ensures Applied(Applied(classes, first), second) == Applied(classes, second)
  {
  }

  /** Everything the three operations read or write: the flag, the storage and the root's
      classes. */
  datatype State = State(isDark: bool, items: map<string, string>, classes: set<string>)

  function Stored(s: State): Option<string> {
    if StorageKey in s.items then Some(s.items[StorageKey]) else None
  }

  /** The storage says the flag and the root carries exactly the flag's class. */
  predicate Consistent(s: State) {
    && Stored(s) == Some(ThemeName(s.isDark))
    && s.classes == Applied(s.classes, s.isDark)
  }

  /** `init`. */
  function Initialised(s: State): (r: State)
    ensures r.isDark == InitialDark(Stored(s)) && r.items == s.items
    ensures r.classes == Applied(s.classes, r.isDark)
  {
    var dark := InitialDark(Stored(s));
    State(dark, s.items, Applied(s.classes, dark))
  }

  /** `setTheme(dark)`. */
  function WithTheme(s: State, dark: bool): (r: State)
    ensures r.isDark == dark && r.items == s.items[StorageKey := ThemeName(dark)]
    ensures r.classes == Applied(s.classes, dark)
  {
    State(dark, s.items[StorageKey := ThemeName(dark)], Applied(s.classes, dark))
  }

  /** `toggle`. */
  function Toggled(s: State): (r: State)
    ensures r == WithTheme(s, !s.isDark)
  {
    var dark := !s.isDark;
    State(dark, s.items[StorageKey := ThemeName(dark)], Applied(s.classes, dark))
  }

  /** After `toggle` or `setTheme` the stored value is `"dark"` exactly when the flag is
      set, and the root carries that flag's class and not the other. */
  lemma SettingMakesConsistent(s: State, dark: bool)
    ensures Consistent(WithTheme(s, dark)) && Consistent(Toggled(s))
    ensures Stored(WithTheme(s, dark)) == Some("dark") <==> dark
  {
    AppliedLastWins(s.classes, dark, dark);
    AppliedLastWins(s.classes, !s.isDark, !s.isDark);
  }

  /** `setTheme(b)` twice is `setTheme(b)` once. */
  lemma SetThemeIdempotent(s: State, dark: bool)
    ensures WithTheme(WithTheme(s, dark), dark) == WithTheme(s, dark)
  {
    AppliedLastWins(s.classes, dark, dark);
    assert WithTheme(s, dark).items[StorageKey := ThemeName(dark)] == WithTheme(s, dark).items;
  }

  /** Two toggles give back the flag, and from a consistent state the whole state. */
  lemma ToggleTwice(s: State)
    ensures Toggled(Toggled(s)).isDark == s.isDark
    ensures Toggled(Toggled(s)) == WithTheme(s, s.isDark)
    ensures Consistent(s) ==> Toggled(Toggled(s)) == s
  {
    AppliedLastWins(s.classes, !s.isDark, s.isDark);
    assert s.items[StorageKey := ThemeName(!s.isDark)][StorageKey := ThemeName(s.isDark)]
        == s.items[StorageKey := ThemeName(s.isDark)];
    if Consistent(s) {
      assert s.items[StorageKey := ThemeName(s.isDark)] == s.items;
    }
  }

  /** `localStorage`, one string per key. */
  class Storage {
    var items: map<string, string>

    constructor (items: map<string, string>)
      ensures this.items == items
    {
      this.items := items;
    }

    method SetItem(key: string, value: string)
      modifies this
      ensures items == old(items)[key := value]
    {
      items := items[key := value];
    }
  }

  /** `document.documentElement.classList`. */
  class ClassList {
    var classes: set<string>

    constructor (classes: set<string>)
      ensures this.classes == classes
    {
      this.classes := classes;
    }

    method Add(name: string)
      modifies this
      ensures classes == old(classes) + {name}
    {
      classes := classes + {name};
    }

    method Remove(name: string)
      modifies this
      ensures classes == old(classes) - {name}
    {
      classes := classes - {name};
    }
  }

  class Store {
    var isDark: bool
    const storage: Storage
    const root: ClassList

    constructor (storage: Storage, root: ClassList)
      ensures isDark && this.storage == storage && this.root == root
    {
      isDark := true;
      this.storage := storage;
      this.root := root;
    }

    function Current(): State
      reads this, storage, root
    {
      State(isDark, storage.items, root.classes)
    }

    /** `applyTheme`. */
    method ApplyTheme()
      modifies root
      ensures root.classes == Applied(old(root.classes), isDark)
    {
      if isDark {
        root.Add("dark");
        root.Remove("light");
      } else {
        root.Add("light");
        root.Remove("dark");
      }
    }

    /** `init`. */
    method Init()
      modifies this, root
      ensures Current() == Initialised(old(Current()))
    {
      var stored := if StorageKey in storage.items then Some(storage.items[StorageKey]) else None;
      if Truthy(stored) {
        isDark := stored.value == "dark";
      } else {
        isDark := true;
      }
      ApplyTheme();
    }

    /** `toggle`. */
    method Toggle()
      modifies this, storage, root
      ensures Current() == Toggled(old(Current()))
    {
      isDark := !isDark;
      storage.SetItem(StorageKey, if isDark then "dark" else "light");
      ApplyTheme();
    }

    /** `setTheme`. */
    method SetTheme(dark: bool)
      modifies this, storage, root
      ensures Current() == WithTheme(old(Current()), dark)
    {
      isDark := dark;
      storage.SetItem(StorageKey, if dark then "dark" else "light");
      ApplyTheme();
    }
  }
}
