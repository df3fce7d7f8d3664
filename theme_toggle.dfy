/**
 * The two-state theme button: dark or light, persisted under "theme" and
 * applied as the `dark` class of the document element.
 */
module ThemeToggle {
  import opened Wrappers

  const StorageKey: string := "theme"

  /** The value persisted for a state: "dark" or "light". */
  function Persisted(dark: bool): string
  {
    if dark then "dark" else "light"
  }

  /** The button's state, the document's `dark` class and what storage holds under the key. */
  datatype ToggleState = ToggleState(dark: bool, darkClass: bool, stored: Option<string>)

  /** The class and the stored value agree with the state. */
  predicate Consistent(s: ToggleState)
  {
    s.darkClass == s.dark && s.stored == Some(Persisted(s.dark))
  }

  /** The mount effect: a stored "dark", and only that exact string, switches to dark. */
  function Mounted(s: ToggleState): (t: ToggleState)
    ensures t.stored == s.stored
    ensures s.stored == Some("dark") ==> t.dark && t.darkClass
    ensures s.stored != Some("dark") ==> t == s
  {
    if s.stored == Some("dark") then ToggleState(true, true, s.stored) else s
  }

  /** A click: the state flips, and the class and storage follow it. */
  function Toggled(s: ToggleState): (t: ToggleState)
    ensures t.dark == !s.dark
    ensures Consistent(t)
  {
    var nextDark := !s.dark;
    ToggleState(nextDark, nextDark, Some(Persisted(nextDark)))
  }

  /** Two clicks restore the state, and a consistent page entirely. */
  lemma ToggleTwice(s: ToggleState)
    ensures Toggled(Toggled(s)).dark == s.dark
    ensures Consistent(s) ==> Toggled(Toggled(s)) == s
  {
  }

  /**
   * After mounting on a fresh page (state light, no class), the state is dark
   * exactly when "dark" is stored, and the class agrees with the state.
   */
  lemma MountedAgreesWithStorage(s: ToggleState)
    requires !s.dark && !s.darkClass
    ensures Mounted(s).dark <==> s.stored == Some("dark")
    ensures Mounted(s).darkClass == Mounted(s).dark
    ensures s.stored == Some(Persisted(false)) || s.stored == Some(Persisted(true)) ==> Consistent(Mounted(s))
  {
  }

  /** The button's text. */
  function Label(dark: bool): (l: string)
    ensures l == "Light Mode" <==> dark
    ensures l == "Dark Mode" <==> !dark
  {
    if dark then "Light Mode" else "Dark Mode"
  }

  /** The text names the mode a click switches to. */
  lemma LabelNamesNextMode(s: ToggleState)
    ensures Label(s.dark) == (if Toggled(s).dark then "Dark" else "Light") + " Mode"
  {
  }

  /** The button together with the document's class and `localStorage`. */
  class ThemeToggler {
    var dark: bool
    var darkClass: bool
    var storage: map<string, string>

    function State(): ToggleState
      reads this
    {
      ToggleState(dark, darkClass, Lookup(storage, StorageKey))
    }

    /** The first render: `useState(false)`. */
    constructor(storage: map<string, string>, darkClass: bool)
      ensures !dark && this.darkClass == darkClass && this.storage == storage
    {
      dark := false;
      this.darkClass := darkClass;
      this.storage := storage;
    }

    method Mount()
      modifies this
      ensures State() == Mounted(old(State()))
      ensures storage == old(storage)
    {
      var stored := Lookup(storage, StorageKey);
      if stored == Some("dark") {
        dark := true;
        darkClass := true;
      }
    }

    /** `toggleTheme()` */
    method Toggle()
      modifies this
      ensures State() == Toggled(old(State()))
      ensures storage == old(storage)[StorageKey := Persisted(dark)]
    {
      var nextDark := !dark;
      dark := nextDark;
      if nextDark {
        darkClass := true;
        storage := storage[StorageKey := "dark"];
      } else {
        darkClass := false;
        storage := storage[StorageKey := "light"];
      }
    }
  }
}
