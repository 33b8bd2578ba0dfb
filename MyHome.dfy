/**
 * The MyHome theme (src/themes/MyHome/index.ts): its two colour palettes, applyMyHomeTheme,
 * which writes a palette onto the document root and marks the root with exactly one of the
 * classes 'light' and 'dark', and initMyHomeTheme, which renders the mode kept in localStorage
 * and registers a handler that follows the operating system's colour scheme while that mode is
 * 'auto'.
 */
module MyHome {
  import opened Wrappers
  import Dom

  const LIGHT := "light"
  const DARK := "dark"
  const AUTO := "auto"

  /** The seven CSS variables a palette sets, in source order. */
  const PaletteVars: seq<string> :=
    ["--bg-color", "--text-color", "--text-muted", "--border-color", "--card-bg", "--card-border", "--shadow"]

  /** MyHomeTheme.colors.light */
  const LightColors: seq<(string, string)> :=
    [("--bg-color", "#ffffff"),
     ("--text-color", "#222222"),
     ("--text-muted", "#666666"),
     ("--border-color", "#e5e5e5"),
     ("--card-bg", "#ffffff"),
     ("--card-border", "rgba(0,0,0,0.10)"),
     ("--shadow", "inset 0 1px 0 rgba(255,255,255,0.8), inset 0 -2px 4px rgba(0,0,0,0.06)")]

  /** MyHomeTheme.colors.dark */
  const DarkColors: seq<(string, string)> :=
    [("--bg-color", "#0f0f0f"),
     ("--text-color", "#e5e5e5"),
     ("--text-muted", "#888888"),
     ("--border-color", "#333333"),
     ("--card-bg", "#1a1a1a"),
     ("--card-border", "rgba(255,255,255,0.08)"),
     ("--shadow", "inset 0 1px 0 rgba(255,255,255,0.05), inset 0 -2px 4px rgba(0,0,0,0.4)")]

  /** The TypeError thrown when a key at which the palette table holds nothing reaches Object.entries. */
  datatype ThemeError = UndefinedPalette(themeMode: string)

  /** A mode that has a palette of its own: the two modes the root can be rendered in. */
  predicate IsRendered(themeMode: string)
  {
    themeMode == LIGHT || themeMode == DARK
  }

  /** The rendered mode that is not themeMode. */
  function Other(themeMode: string): string
  {
    if themeMode == LIGHT then DARK else LIGHT
  }

  /**
   * The members every object literal inherits from Object.prototype. Indexing the palette table
   * with one of these names yields that inherited member (a function, or Object.prototype itself
   * for '__proto__'), which has no own enumerable entries.
   */
  const ObjectPrototypeKeys: set<string> :=
    {"constructor", "hasOwnProperty", "isPrototypeOf", "propertyIsEnumerable", "toLocaleString",
     "toString", "valueOf", "__proto__", "__defineGetter__", "__defineSetter__",
     "__lookupGetter__", "__lookupSetter__"}

  /** A name the palette table inherits rather than defines. */
  predicate Inherited(key: string)
  {
    key in ObjectPrototypeKeys
  }

  /** A key at which the palette table holds a value: a rendered mode or an inherited name. */
  predicate HasColors(themeMode: string)
  {
    IsRendered(themeMode) || Inherited(themeMode)
  }

  /**
   * `Object.entries(MyHomeTheme.colors[themeMode])`: a palette for 'light' and 'dark', no entries
   * for an inherited name, and undefined (None) for any other key.
   */
  function Colors(themeMode: string): (r: Option<seq<(string, string)>>)
    ensures r.Some? <==> HasColors(themeMode)
    ensures r.Some? && r.value != [] <==> IsRendered(themeMode)
  {
    if themeMode == LIGHT then Some(LightColors)
    else if themeMode == DARK then Some(DarkColors)
    else if Inherited(themeMode) then Some([])
    else None
  }

  /** The entries written for a key that has a value. */
  function Palette(themeMode: string): seq<(string, string)>
    requires HasColors(themeMode)
  {
    Colors(themeMode).value
  }

  /** The root once applyMyHomeTheme(themeMode) has run on it. */
  function Applied(s: Dom.RootState, themeMode: string): (r: Dom.RootState)
    requires HasColors(themeMode)
    ensures r.style.Keys == s.style.Keys + Dom.Names(Palette(themeMode))
    ensures themeMode in r.classes && r.classes * {LIGHT, DARK} <= {themeMode}
  {
    Dom.RootState(Dom.SetAll(s.style, Palette(themeMode)), s.classes - {LIGHT, DARK} + {themeMode})
  }

  /** The root shows themeMode: every palette variable holds that palette's value, and of the two
      theme classes the root has exactly themeMode's. */
  ghost predicate Shows(s: Dom.RootState, themeMode: string)
    requires IsRendered(themeMode)
  {
    && (forall i :: 0 <= i < |Palette(themeMode)| ==>
          Palette(themeMode)[i].0 in s.style && s.style[Palette(themeMode)[i].0] == Palette(themeMode)[i].1)
    && themeMode in s.classes
    && Other(themeMode) !in s.classes
  }

  /** Both palettes set the same seven variables, in the same order, each once. */
  lemma PalettesShareVars()
    ensures |LightColors| == |DarkColors| == |PaletteVars| == 7
    ensures forall i :: 0 <= i < 7 ==> LightColors[i].0 == PaletteVars[i] && DarkColors[i].0 == PaletteVars[i]
    ensures Dom.DistinctNames(LightColors) && Dom.DistinctNames(DarkColors)
    ensures Dom.Names(LightColors) == Dom.Names(DarkColors)
  {
    LightVars();
    DarkVars();
    DistinctVars();
    assert Dom.Names(LightColors) == Dom.Names(DarkColors) by {
      forall k | k in Dom.Names(LightColors) ensures k in Dom.Names(DarkColors) {
        var i :| 0 <= i < 7 && LightColors[i].0 == k;
        assert DarkColors[i].0 == k;
      }
      forall k | k in Dom.Names(DarkColors) ensures k in Dom.Names(LightColors) {
        var i :| 0 <= i < 7 && DarkColors[i].0 == k;
        assert LightColors[i].0 == k;
      }
    }
  }

  lemma LightVars()
    ensures |LightColors| == 7 && forall i :: 0 <= i < 7 ==> LightColors[i].0 == PaletteVars[i]
  {
  }

  lemma DarkVars()
    ensures |DarkColors| == 7 && forall i :: 0 <= i < 7 ==> DarkColors[i].0 == PaletteVars[i]
  {
  }

  /** No palette variable name repeats. */
  lemma DistinctVars()
    ensures forall i, j :: 0 <= i < j < |PaletteVars| ==> PaletteVars[i] != PaletteVars[j]
  {
    var v := PaletteVars;
    assert |v[0]| == 10 && |v[1]| == 12 && |v[2]| == 12 && |v[3]| == 14 && |v[4]| == 9 && |v[5]| == 13 && |v[6]| == 8;
    assert v[1][7] != v[2][7];
  }

  /** applyMyHomeTheme's effect: the root shows the mode; other variables and classes are kept. */
  lemma AppliedShows(s: Dom.RootState, themeMode: string)
    requires IsRendered(themeMode)
    ensures Shows(Applied(s, themeMode), themeMode)
    ensures forall k :: k in s.style && k !in Dom.Names(Palette(themeMode)) ==> Applied(s, themeMode).style[k] == s.style[k]
    ensures Applied(s, themeMode).classes - {LIGHT, DARK} == s.classes - {LIGHT, DARK}
  {
    PaletteDistinct(themeMode);
    Dom.SetAllDistinct(s.style, Palette(themeMode));
  }

  /** A palette writes each of its variables once. */
  lemma PaletteDistinct(themeMode: string)
    requires IsRendered(themeMode)
    ensures Dom.DistinctNames(Palette(themeMode))
  {
    LightVars();
    DarkVars();
    DistinctVars();
  }

  /** Applying b after a leaves the root as applying b alone; in particular applying twice is applying once. */
  lemma ApplyLastWins(s: Dom.RootState, a: string, b: string)
    requires IsRendered(a) && IsRendered(b)
    ensures Applied(Applied(s, a), b) == Applied(s, b)
  {
    PaletteNames(a, b);
    Dom.SetAllOverwrite(s.style, Palette(a), Palette(b));
    ClassSwap(s.classes, a, b);
  }

  /**
   * Applying an inherited name writes no variable; it removes both theme classes and adds the
   * name itself as a class, so the root shows neither mode.
   */
  lemma AppliedInherited(s: Dom.RootState, key: string)
    requires Inherited(key)
    ensures Applied(s, key).style == s.style
    ensures Applied(s, key).classes == s.classes - {LIGHT, DARK} + {key}
    ensures LIGHT !in Applied(s, key).classes && DARK !in Applied(s, key).classes
  {
    assert Palette(key) == [];
  }

  /** Replacing the theme class twice leaves the second one. */
  lemma ClassSwap(classes: set<string>, a: string, b: string)
    requires IsRendered(a)
    ensures classes - {LIGHT, DARK} + {a} - {LIGHT, DARK} + {b} == classes - {LIGHT, DARK} + {b}
  {
  }

  /** Any two palettes write the same variables. */
  lemma PaletteNames(a: string, b: string)
    requires IsRendered(a) && IsRendered(b)
    ensures Dom.Names(Palette(a)) == Dom.Names(Palette(b))
  {
    PalettesShareVars();
  }

  /**
   * applyMyHomeTheme(themeMode = 'light'): for 'light', 'dark' or an inherited name the root
   * afterwards is Applied(root, themeMode); any other key has no value in the palette table and
   * throws before writing anything.
   */
  method ApplyMyHomeTheme(root: Dom.Root, themeMode: string := LIGHT) returns (r: Outcome<ThemeError>)
    modifies root
    ensures r.Pass? <==> HasColors(themeMode)
    ensures r.Pass? ==> root.State() == Applied(old(root.State()), themeMode)
    ensures r.Fail? ==> r.error == UndefinedPalette(themeMode) && root.State() == old(root.State())
  {
    var colors := Colors(themeMode);
    if colors.None? {
      return Fail(UndefinedPalette(themeMode));
    }
    var entries := colors.value;
    var i := 0;
    while i < |entries|
      invariant 0 <= i <= |entries|
      invariant root.style == Dom.SetAll(old(root.style), entries[..i])
      invariant root.classes == old(root.classes)
    {
      root.SetProperty(entries[i].0, entries[i].1);
      Dom.SetAllSnoc(old(root.style), entries, i);
      i := i + 1;
    }
    assert entries[..i] == entries;
    root.RemoveClasses({LIGHT, DARK});
    root.AddClass(themeMode);
    r := Pass;
  }

  /** `localStorage.getItem('theme-mode') || 'auto'`: a missing or empty entry reads as 'auto'. */
  function SavedTheme(stored: Option<string>): (r: string)
    ensures r != ""
    ensures stored.Some? && stored.value != "" ==> r == stored.value
    ensures stored.None? || stored.value == "" ==> r == AUTO
  {
    if stored.None? || stored.value == "" then AUTO else stored.value
  }

  /** A stored entry initMyHomeTheme renders without throwing: 'auto' (or none), or a key with a value. */
  predicate Renderable(stored: Option<string>)
  {
    SavedTheme(stored) == AUTO || HasColors(SavedTheme(stored))
  }

  /**
   * The key initMyHomeTheme applies for a stored entry: 'auto' resolves against the operating
   * system's preference, and any other key is applied as it is; None when that key has no value
   * in the palette table and the call throws.
   */
  function StoredRendering(stored: Option<string>, prefersDark: bool): (r: Option<string>)
    ensures r.Some? <==> Renderable(stored)
    ensures r.Some? ==> HasColors(r.value)
    ensures SavedTheme(stored) == AUTO ==> r == Some(if prefersDark then DARK else LIGHT)
    ensures SavedTheme(stored) != AUTO && r.Some? ==> r.value == SavedTheme(stored)
  {
    var savedTheme := SavedTheme(stored);
    if savedTheme == AUTO then Some(if prefersDark then DARK else LIGHT)
    else if HasColors(savedTheme) then Some(savedTheme)
    else None
  }

  /**
   * initMyHomeTheme: renders the stored mode, then registers a new change handler and returns
   * the number of that handler (the cleanup function removes it). A stored value that is neither
   * empty nor 'auto', 'light' or 'dark' throws before anything is written or registered.
   */
  method InitMyHomeTheme(root: Dom.Root, win: Dom.Window) returns (r: Result<nat, ThemeError>)
    requires win.Valid()
    modifies root, win
    ensures win.Valid()
    ensures win.storedMode == old(win.storedMode) && win.prefersDark == old(win.prefersDark)
    ensures r.Success? <==> StoredRendering(win.storedMode, win.prefersDark).Some?
    ensures r.Success? ==>
              && root.State() == Applied(old(root.State()), StoredRendering(win.storedMode, win.prefersDark).value)
              && r.value !in old(win.listeners)
              && win.listeners == old(win.listeners) + {r.value}
    ensures r.Failure? ==> r.error == UndefinedPalette(SavedTheme(win.storedMode))
    ensures r.Failure? ==> root.State() == old(root.State()) && win.listeners == old(win.listeners)
  {
    var savedTheme := if win.storedMode.None? || win.storedMode.value == "" then AUTO else win.storedMode.value;
    if savedTheme == AUTO {
      var isDark := win.prefersDark;
      var _ := ApplyMyHomeTheme(root, if isDark then DARK else LIGHT);
    } else {
      var applied := ApplyMyHomeTheme(root, savedTheme);
      if applied.Fail? {
        return Failure(applied.error);
      }
    }
    var id := win.AddChangeListener();
    r := Success(id);
  }

  /**
   * handleSystemThemeChange: re-reads the stored mode when the event arrives and re-renders
   * from the current preference only if that mode is 'auto' (or missing); a pinned mode is left alone.
   */
  method HandleSystemThemeChange(root: Dom.Root, win: Dom.Window)
    modifies root
    ensures SavedTheme(win.storedMode) == AUTO
            ==> root.State() == Applied(old(root.State()), if win.prefersDark then DARK else LIGHT)
    ensures SavedTheme(win.storedMode) != AUTO ==> root.State() == old(root.State())
  {
    var currentTheme := if win.storedMode.None? || win.storedMode.value == "" then AUTO else win.storedMode.value;
    if currentTheme == AUTO {
      var _ := ApplyMyHomeTheme(root, if win.prefersDark then DARK else LIGHT);
    }
  }

  /**
   * The operating system's colour scheme becomes dark or light. Only when the query's value
   * flips does the browser fire 'change', running every registered change handler once. Whatever
   * their number, the root ends up as after one run, since all of them are
   * handleSystemThemeChange and applying is idempotent.
   */
  method SystemThemeChange(root: Dom.Root, win: Dom.Window, dark: bool)
    requires win.Valid()
    modifies root, win
    ensures win.Valid()
    ensures win.prefersDark == dark
    ensures win.storedMode == old(win.storedMode) && win.listeners == old(win.listeners)
    ensures dark != old(win.prefersDark) && win.listeners != {} && SavedTheme(win.storedMode) == AUTO
            ==> root.State() == Applied(old(root.State()), if dark then DARK else LIGHT)
    ensures dark == old(win.prefersDark) || win.listeners == {} || SavedTheme(win.storedMode) != AUTO
            ==> root.State() == old(root.State())
  {
    if dark == win.prefersDark {
      return;
    }
    win.SetPrefersDark(dark);
    var target := if dark then DARK else LIGHT;
    var pending := win.listeners;
    var ran := false;
    while pending != {}
      invariant win.Valid() && win.prefersDark == dark
      invariant win.storedMode == old(win.storedMode) && win.listeners == old(win.listeners)
      invariant ran <==> pending != win.listeners
      invariant pending <= win.listeners
      invariant !ran ==> root.State() == old(root.State())
      invariant ran && SavedTheme(win.storedMode) == AUTO ==> root.State() == Applied(old(root.State()), target)
      invariant SavedTheme(win.storedMode) != AUTO ==> root.State() == old(root.State())
      decreases pending
    {
      var id :| id in pending;
      ghost var before := root.State();
      HandleSystemThemeChange(root, win);
      if ran && SavedTheme(win.storedMode) == AUTO {
        ApplyLastWins(old(root.State()), target, target);
      }
      pending := pending - {id};
      ran := true;
    }
  }

  /** The function initMyHomeTheme returns: removes exactly the handler it registered. */
  method Cleanup(win: Dom.Window, id: nat)
    requires win.Valid()
    modifies win
    ensures win.Valid()
    ensures win.listeners == old(win.listeners) - {id}
    ensures win.storedMode == old(win.storedMode) && win.prefersDark == old(win.prefersDark)
  {
    win.RemoveChangeListener(id);
  }
}
