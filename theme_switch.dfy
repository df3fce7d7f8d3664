/**
 * The three-way theme control: automatic (follow the system preference),
 * light or dark, persisted under "themeMode" and applied as the `dark` class
 * of the document element once the control has mounted.
 */
module ThemeSwitch {
  import opened Wrappers

  const StorageKey: string := "themeMode"

  /**
   * The `ThemeMode` values. The stored value is cast without a check, so at
   * run time a mode can be any string; the model keeps it a string.
   */
  predicate IsThemeMode(m: string)
  {
    m == "auto" || m == "light" || m == "dark"
  }

  /** `next(current)`: auto, light, dark, and back to auto; anything else goes to auto. */
  function Next(current: string): (n: string)
    ensures current == "auto" ==> n == "light"
    ensures current == "light" ==> n == "dark"
    ensures current == "dark" ==> n == "auto"
    ensures IsThemeMode(n)
    ensures n != current
    ensures !IsThemeMode(current) ==> n == "auto"
  {
    if current == "auto" then "light"
    else if current == "light" then "dark"
    else "auto"
  }

  /** From any mode, three presses come back to it, passing through the other two. */
  lemma NextCycle(m: string)
    requires IsThemeMode(m)
    ensures Next(Next(Next(m))) == m
    ensures {m, Next(m), Next(Next(m))} == {"auto", "light", "dark"}
  {
  }

  /** `getInitial()`: "auto" without a window, else the stored mode, and "auto" when nothing is stored. */
  function GetInitial(hasWindow: bool, stored: Option<string>): (m: string)
    ensures !hasWindow || stored.None? ==> m == "auto"
    ensures hasWindow && stored.Some? ==> m == stored.value
  {
    if !hasWindow then "auto"
    else if stored.Some? then stored.value
    else "auto"
  }

  /** Whether the document carries the `dark` class for `mode` and the system preference. */
  function DarkClass(mode: string, systemDark: bool): (dark: bool)
    ensures dark <==> mode == "dark" || (mode == "auto" && systemDark)
  {
    if mode == "auto" then systemDark else mode == "dark"
  }

  /** Only the automatic mode follows the system preference. */
  lemma OnlyAutoFollowsSystem(mode: string)
    ensures DarkClass(mode, true) != DarkClass(mode, false) <==> mode == "auto"
  {
  }

  /** One segment of the wide control: the mode it selects and its `aria-pressed` flag. */
  datatype ModeButton = ModeButton(mode: string, pressed: bool)

  const OptionModes: seq<string> := ["auto", "light", "dark"]

  function Options(mode: string): (buttons: seq<ModeButton>)
    ensures |buttons| == |OptionModes|
    ensures forall i :: 0 <= i < |buttons| ==>
              buttons[i].mode == OptionModes[i] && (buttons[i].pressed <==> OptionModes[i] == mode)
  {
    seq(|OptionModes|, i requires 0 <= i < |OptionModes| => ModeButton(OptionModes[i], OptionModes[i] == mode))
  }

  function PressedCount(buttons: seq<ModeButton>): nat
  {
    if buttons == [] then 0
    else PressedCount(buttons[..|buttons| - 1]) + (if buttons[|buttons| - 1].pressed then 1 else 0)
  }

  /** Exactly one segment is pressed for a valid mode, and none for any other string. */
  lemma {:induction false} ExactlyOnePressed(mode: string)
    ensures PressedCount(Options(mode)) == if IsThemeMode(mode) then 1 else 0
  {
    var b := Options(mode);
    assert b[..2][..1] == b[..1] && b[..1][..0] == [] && b[..|b| - 1] == b[..2];
    assert PressedCount(b) == PressedCount(b[..2]) + (if b[2].pressed then 1 else 0);
    assert PressedCount(b[..2]) == PressedCount(b[..1]) + (if b[1].pressed then 1 else 0);
    assert PressedCount(b[..1]) == if b[0].pressed then 1 else 0;
    assert b[0].pressed <==> mode == "auto";
    assert b[1].pressed <==> mode == "light";
    assert b[2].pressed <==> mode == "dark";
  }

  /**
   * The control together with the parts of the page it drives: the document
   * element's `dark` class, `localStorage` and the system colour preference.
   */
  class ThemeSwitcher {
    var mode: string
    var mounted: bool
    var darkClass: bool
    var storage: map<string, string>
    var systemDark: bool

    /** Once mounted, the class reflects the mode and the mode is persisted. */
    predicate Synced()
      reads this
    {
      mounted ==> darkClass == DarkClass(mode, systemDark) && Lookup(storage, StorageKey) == Some(mode)
    }

    /** The first render: mode "auto", not mounted, nothing applied yet. */
    constructor(storage: map<string, string>, darkClass: bool, systemDark: bool)
      ensures mode == "auto" && !mounted
      ensures this.storage == storage && this.darkClass == darkClass && this.systemDark == systemDark
      ensures Synced()
    {
      mode := "auto";
      mounted := false;
      this.darkClass := darkClass;
      this.storage := storage;
      this.systemDark := systemDark;
    }

    /** The class and storage effects, run after a render in which `mounted` or `mode` changed. */
    method ApplyEffects()
      requires mounted
      modifies this
      ensures mode == old(mode) && mounted && systemDark == old(systemDark)
      ensures darkClass == DarkClass(mode, systemDark)
      ensures storage == old(storage)[StorageKey := mode]
      ensures Synced()
    {
      if mode == "auto" {
        darkClass := systemDark;
      } else {
        darkClass := mode == "dark";
      }
      storage := storage[StorageKey := mode];
    }

    /** The mount effect: mounted, the initial mode read from storage, then the effects. */
    method Mount()
      requires !mounted
      modifies this
      ensures mounted && systemDark == old(systemDark)
      ensures mode == GetInitial(true, Lookup(old(storage), StorageKey))
      ensures darkClass == DarkClass(mode, systemDark)
      ensures storage == old(storage)[StorageKey := mode]
      ensures Synced()
    {
      mounted := true;
      mode := GetInitial(true, Lookup(storage, StorageKey));
      ApplyEffects();
    }

    /**
     * A click on a segment: `setMode(val)`. Selecting the current mode does
     * not re-render, so the effects do not run again; the page is already in
     * step with that mode.
     */
    method Select(val: string)
      requires mounted && Synced()
      modifies this
      ensures mode == val && mounted && systemDark == old(systemDark)
      ensures darkClass == DarkClass(val, systemDark)
      ensures storage == old(storage)[StorageKey := val]
      ensures Synced()
    {
      if val != mode {
        mode := val;
        ApplyEffects();
      }
    }

    /** A click on the narrow button: `setMode(next(mode))`. */
    method Cycle()
      requires mounted && Synced()
      modifies this
      ensures mode == Next(old(mode)) && mounted && systemDark == old(systemDark)
      ensures darkClass == DarkClass(mode, systemDark)
      ensures storage == old(storage)[StorageKey := mode]
      ensures Synced()
    {
      Select(Next(mode));
    }

    /**
     * A change of the system preference. Only while mounted in the automatic
     * mode is a listener attached, and it copies the new preference to the class.
     */
    method SystemPreferenceChanged(matches: bool)
      modifies this
      ensures systemDark == matches
      ensures mode == old(mode) && mounted == old(mounted) && storage == old(storage)
      ensures darkClass == if mounted && mode == "auto" then matches else old(darkClass)
      ensures old(Synced()) ==> Synced()
    {
      systemDark := matches;
      if mounted && mode == "auto" {
        darkClass := matches;
      }
    }
  }
}
