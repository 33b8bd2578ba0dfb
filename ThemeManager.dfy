/**
 * The theme manager (src/themes/ThemeManager.ts): a registry of themes, of which MyHome is the
 * only one, and an object that keeps the current theme, the current mode ('light', 'dark' or
 * 'auto', persisted in localStorage) and the cleanup handle of the theme's change handler.
 */
module ThemeManager {
  import opened Wrappers
  import Dom
  import MyHome

  /** ThemeMode: the persisted preference, distinct from the rendered 'light' or 'dark'. */
  datatype ThemeMode = Light | Dark | Auto

  /** The string a mode is stored and compared as. */
  function ModeName(m: ThemeMode): string
  {
    match m
    case Light => MyHome.LIGHT
    case Dark => MyHome.DARK
    case Auto => MyHome.AUTO
  }

  /** `['light', 'dark', 'auto'].includes(s)` */
  predicate IsModeName(s: string)
  {
    s == MyHome.LIGHT || s == MyHome.DARK || s == MyHome.AUTO
  }

  /** The mode a stored string names, if it names one. */
  function ParseMode(s: string): (r: Option<ThemeMode>)
    ensures r.Some? <==> IsModeName(s)
    ensures r.Some? ==> ModeName(r.value) == s
  {
    if s == MyHome.LIGHT then Some(Light)
    else if s == MyHome.DARK then Some(Dark)
    else if s == MyHome.AUTO then Some(Auto)
    else None
  }

  /** Every mode is stored as a string that reads back as that mode. */
  lemma ModeNameRoundTrip(m: ThemeMode)
    ensures IsModeName(ModeName(m)) && ParseMode(ModeName(m)) == Some(m)
  {
  }

  /** No mode name is a member Object.prototype gives the palette table. */
  lemma ModeNameNotInherited(m: ThemeMode)
    ensures !MyHome.Inherited(ModeName(m))
  {
    assert |ModeName(m)| <= 5;
  }

  /**
   * getModeFromStorage: the stored value when it is one of 'light', 'dark' and 'auto';
   * 'auto' when the entry is missing, empty or anything else.
   */
  function GetModeFromStorage(saved: Option<string>): (m: ThemeMode)
    ensures saved.Some? && IsModeName(saved.value) <==> saved == Some(ModeName(m))
    ensures !(saved.Some? && IsModeName(saved.value)) ==> m == Auto
  {
    if saved.Some? && saved.value != "" && IsModeName(saved.value) then ParseMode(saved.value).value else Auto
  }

  /** The rendered mode for a mode: 'auto' follows the operating system, the others are themselves. */
  function RenderedFor(mode: ThemeMode, prefersDark: bool): (r: string)
    ensures MyHome.IsRendered(r)
    ensures mode == Auto ==> (r == MyHome.DARK <==> prefersDark)
    ensures mode != Auto ==> r == ModeName(mode)
  {
    if mode == Auto then (if prefersDark then MyHome.DARK else MyHome.LIGHT) else ModeName(mode)
  }

  /** A stored entry the theme's own initialisation can render: missing, empty or a mode name. */
  predicate StoredValid(stored: Option<string>)
  {
    stored.None? || stored.value == "" || IsModeName(stored.value)
  }

  /** Storage holds a name the palette table inherits from Object.prototype. */
  predicate InheritedStored(stored: Option<string>)
  {
    stored.Some? && MyHome.Inherited(stored.value)
  }

  /**
   * The manager's reading of storage and initMyHomeTheme's reading. For the valid entries they
   * agree. An inherited name is read as 'auto' by the manager, while initMyHomeTheme applies it
   * as it is and its handler never sees 'auto'. Any other entry makes initMyHomeTheme throw.
   */
  lemma StoredReadingsAgree(stored: Option<string>, prefersDark: bool)
    ensures MyHome.Renderable(stored) <==> StoredValid(stored) || InheritedStored(stored)
    ensures StoredValid(stored) ==>
              MyHome.StoredRendering(stored, prefersDark) == Some(RenderedFor(GetModeFromStorage(stored), prefersDark))
    ensures StoredValid(stored) ==> (MyHome.SavedTheme(stored) == MyHome.AUTO <==> GetModeFromStorage(stored) == Auto)
    ensures !StoredValid(stored) ==> GetModeFromStorage(stored) == Auto && MyHome.SavedTheme(stored) != MyHome.AUTO
    ensures InheritedStored(stored) ==> MyHome.StoredRendering(stored, prefersDark) == Some(stored.value)
  {
    if stored.Some? && stored.value != "" && IsModeName(stored.value) {
      assert MyHome.SavedTheme(stored) == stored.value;
    }
  }

  /**
   * The rendering step of applyCurrentTheme: in 'auto' mode the theme is applied with 'dark' or
   * 'light' as the operating system prefers, in any other mode with the mode itself.
   */
  method RenderMode(root: Dom.Root, mode: ThemeMode, isDark: bool)
    modifies root
    ensures root.State() == MyHome.Applied(old(root.State()), RenderedFor(mode, isDark))
  {
    if mode == Auto {
      var _ := MyHome.ApplyMyHomeTheme(root, if isDark then MyHome.DARK else MyHome.LIGHT);
    } else {
      var _ := MyHome.ApplyMyHomeTheme(root, ModeName(mode));
    }
  }

  /** A registered theme's descriptive fields. */
  datatype ThemeInfo = ThemeInfo(name: string, displayName: string, version: string, description: string)

  const MY_HOME := "MyHome"

  /** The themes registry: MyHome, whose apply and init are MyHome.ApplyMyHomeTheme and MyHome.InitMyHomeTheme. */
  const Themes: map<string, ThemeInfo> :=
    map[MY_HOME := ThemeInfo(MY_HOME, "我的主页", "1.0.0", "简洁现代的个人主页主题")]

  class ThemeManager {
    var currentTheme: string
    var currentMode: ThemeMode
    var cleanup: Option<nat>
    /** document.documentElement and window, which the source reaches as globals. */
    const root: Dom.Root
    const win: Dom.Window

    /**
     * The manager's invariant: the theme is registered, the mode is the one storage holds, at
     * most one change handler is registered and it is the one the cleanup handle removes, and a
     * handler is only registered while storage holds a value the theme's init accepts.
     */
    ghost predicate Valid()
      reads this, win
    {
      && win.Valid()
      && currentTheme in Themes
      && currentMode == GetModeFromStorage(win.storedMode)
      && (win.listeners == {} || (cleanup.Some? && win.listeners == {cleanup.value}))
      && (win.listeners != {} ==> MyHome.Renderable(win.storedMode))
    }

    /** A new manager: the default theme and the stored mode; nothing rendered or registered yet. */
    constructor (root: Dom.Root, win: Dom.Window)
      requires win.Valid() && win.listeners == {}
      ensures Valid()
      ensures this.root == root && this.win == win
      ensures currentTheme == MY_HOME && currentMode == GetModeFromStorage(win.storedMode) && cleanup == None
    {
      this.root := root;
      this.win := win;
      currentTheme := GetDefaultTheme();
      currentMode := GetModeFromStorage(win.storedMode);
      cleanup := None;
    }

    /** getDefaultTheme: MyHome, which is registered. */
    static function GetDefaultTheme(): (t: string)
      ensures t in Themes && t == MY_HOME
    {
      MY_HOME
    }

    /** getCurrentTheme: always a registered theme. */
    function GetCurrentTheme(): (t: string)
      reads this, win
      ensures Valid() ==> t in Themes
    {
      currentTheme
    }

    /** getCurrentMode: always the mode storage holds. */
    function GetCurrentMode(): (m: ThemeMode)
      reads this, win
      ensures Valid() ==> m == GetModeFromStorage(win.storedMode)
    {
      currentMode
    }

    /** getAvailableThemes: Object.values(themes). */
    static function GetAvailableThemes(): (ts: seq<ThemeInfo>)
      ensures forall t :: t in ts <==> t in Themes.Values
    {
      assert Themes.Values == {Themes[MY_HOME]};
      [Themes[MY_HOME]]
    }

    /** getThemeInfo: the registry entry of a name, which describes the theme of that name. */
    static function GetThemeInfo(themeName: string): (r: Option<ThemeInfo>)
      ensures r.Some? <==> themeName in Themes
      ensures r.Some? ==> r.value == Themes[themeName] && r.value.name == themeName
    {
      if themeName in Themes then Some(Themes[themeName]) else None
    }

    /**
     * applyCurrentTheme: removes the previous change handler, renders the mode (resolving 'auto'
     * against the operating system), then runs the theme's init, which renders the stored entry
     * again and registers a new handler. For an inherited name that second rendering drops the
     * theme class; for any other entry the theme cannot render, init throws and the previous
     * handle stays in place although its handler is gone.
     */
    method ApplyCurrentTheme() returns (r: Outcome<MyHome.ThemeError>)
      requires Valid()
      modifies this, root, win
      ensures Valid()
      ensures currentTheme == old(currentTheme) && currentMode == old(currentMode)
      ensures win.storedMode == old(win.storedMode) && win.prefersDark == old(win.prefersDark)
      ensures !InheritedStored(win.storedMode)
              ==> root.State() == MyHome.Applied(old(root.State()), RenderedFor(currentMode, win.prefersDark))
      ensures InheritedStored(win.storedMode)
              ==> root.State() == MyHome.Applied(MyHome.Applied(old(root.State()), RenderedFor(currentMode, win.prefersDark)),
                                                 win.storedMode.value)
      ensures r.Pass? <==> MyHome.Renderable(win.storedMode)
      ensures StoredValid(win.storedMode) ==> r.Pass?
      ensures r.Pass? ==> cleanup.Some? && win.listeners == {cleanup.value}
      ensures r.Fail? ==> r.error == MyHome.UndefinedPalette(MyHome.SavedTheme(win.storedMode))
      ensures r.Fail? ==> win.listeners == {} && cleanup == old(cleanup)
    {
      if currentTheme !in Themes {
        return Pass;
      }
      ReleaseHandler();
      ghost var rendered := RenderedFor(currentMode, win.prefersDark);
      ghost var start := root.State();
      RenderMode(root, currentMode, win.prefersDark);
      StoredReadingsAgree(win.storedMode, win.prefersDark);
      r := RunThemeInit();
      if r.Pass? && !InheritedStored(win.storedMode) {
        MyHome.ApplyLastWins(start, rendered, rendered);
      }
    }

    /**
     * `this.cleanup = theme.init()`, with no handler registered: on success the theme's init has
     * rendered the stored entry and the handle removes the one handler it registered; when init
     * throws, nothing is rendered or registered and the handle is left as it was.
     */
    method RunThemeInit() returns (r: Outcome<MyHome.ThemeError>)
      requires win.Valid() && win.listeners == {}
      requires currentTheme in Themes && currentMode == GetModeFromStorage(win.storedMode)
      modifies this, root, win
      ensures Valid()
      ensures currentTheme == old(currentTheme) && currentMode == old(currentMode)
      ensures win.storedMode == old(win.storedMode) && win.prefersDark == old(win.prefersDark)
      ensures r.Pass? <==> MyHome.Renderable(win.storedMode)
      ensures r.Pass? ==> root.State() == MyHome.Applied(old(root.State()),
                                                          MyHome.StoredRendering(win.storedMode, win.prefersDark).value)
      ensures r.Pass? ==> cleanup.Some? && win.listeners == {cleanup.value}
      ensures r.Fail? ==> r.error == MyHome.UndefinedPalette(MyHome.SavedTheme(win.storedMode))
      ensures r.Fail? ==> root.State() == old(root.State()) && win.listeners == {} && cleanup == old(cleanup)
    {
      var init := MyHome.InitMyHomeTheme(root, win);
      if init.Failure? {
        return Fail(init.error);
      }
      cleanup := Some(init.value);
      r := Pass;
    }

    /** `if (this.cleanup) this.cleanup()`: the registered change handler, if any, is removed. */
    method ReleaseHandler()
      requires Valid()
      modifies win
      ensures win.Valid() && win.listeners == {}
      ensures win.storedMode == old(win.storedMode) && win.prefersDark == old(win.prefersDark)
    {
      if cleanup.Some? {
        MyHome.Cleanup(win, cleanup.value);
      }
    }

    /** init: renders the current mode and registers the theme's change handler. */
    method Init() returns (r: Outcome<MyHome.ThemeError>)
      requires Valid()
      modifies this, root, win
      ensures Valid()
      ensures currentTheme == old(currentTheme) && currentMode == old(currentMode)
      ensures win.storedMode == old(win.storedMode) && win.prefersDark == old(win.prefersDark)
      ensures !InheritedStored(win.storedMode)
              ==> root.State() == MyHome.Applied(old(root.State()), RenderedFor(currentMode, win.prefersDark))
      ensures InheritedStored(win.storedMode)
              ==> root.State() == MyHome.Applied(MyHome.Applied(old(root.State()), RenderedFor(currentMode, win.prefersDark)),
                                                 win.storedMode.value)
      ensures r.Pass? <==> MyHome.Renderable(win.storedMode)
      ensures StoredValid(win.storedMode) ==> r.Pass?
      ensures r.Pass? ==> cleanup.Some? && win.listeners == {cleanup.value}
      ensures r.Fail? ==> r.error == MyHome.UndefinedPalette(MyHome.SavedTheme(win.storedMode))
      ensures r.Fail? ==> win.listeners == {}
    {
      r := ApplyCurrentTheme();
    }

    /** switchTheme: an unregistered name changes nothing; a registered one becomes current and is applied. */
    method SwitchTheme(themeName: string) returns (r: Outcome<MyHome.ThemeError>)
      requires Valid()
      modifies this, root, win
      ensures Valid()
      ensures themeName !in Themes ==> r.Pass? && unchanged(this, root, win)
      ensures themeName in Themes ==>
                && currentTheme == themeName && currentMode == old(currentMode)
                && win.storedMode == old(win.storedMode) && win.prefersDark == old(win.prefersDark)
                && (!InheritedStored(win.storedMode)
                    ==> root.State() == MyHome.Applied(old(root.State()), RenderedFor(currentMode, win.prefersDark)))
                && (InheritedStored(win.storedMode)
                    ==> root.State() == MyHome.Applied(MyHome.Applied(old(root.State()), RenderedFor(currentMode, win.prefersDark)),
                                                       win.storedMode.value))
                && (r.Pass? <==> MyHome.Renderable(win.storedMode))
                && (r.Pass? ==> cleanup.Some? && win.listeners == {cleanup.value})
                && (r.Fail? ==> r.error == MyHome.UndefinedPalette(MyHome.SavedTheme(win.storedMode)) && win.listeners == {})
    {
      if themeName !in Themes {
        return Pass;
      }
      currentTheme := themeName;
      r := ApplyCurrentTheme();
    }

    /**
     * switchMode: stores the mode, makes it current and applies it. This always succeeds, since
     * storage now holds a mode name, and leaves exactly one handler registered.
     */
    method SwitchMode(mode: ThemeMode)
      requires Valid()
      modifies this, root, win
      ensures Valid()
      ensures currentMode == mode && GetCurrentMode() == mode && win.storedMode == Some(ModeName(mode))
      ensures currentTheme == old(currentTheme) && win.prefersDark == old(win.prefersDark)
      ensures root.State() == MyHome.Applied(old(root.State()), RenderedFor(mode, win.prefersDark))
      ensures cleanup.Some? && win.listeners == {cleanup.value}
    {
      currentMode := mode;
      win.SetItem(ModeName(mode));
      ModeNameRoundTrip(mode);
      ModeNameNotInherited(mode);
      var _ := ApplyCurrentTheme();
    }

    /** destroy: removes the registered handler, if any, and drops the handle; a second call does nothing. */
    method Destroy()
      requires Valid()
      modifies this, win
      ensures Valid()
      ensures cleanup == None && win.listeners == {}
      ensures currentTheme == old(currentTheme) && currentMode == old(currentMode)
      ensures win.storedMode == old(win.storedMode) && win.prefersDark == old(win.prefersDark)
      ensures old(cleanup).None? ==> unchanged(this, win)
    {
      if cleanup.Some? {
        MyHome.Cleanup(win, cleanup.value);
        cleanup := None;
      }
    }
  }

  /**
   * The operating system's colour scheme becomes dark or light while a manager is in place. The
   * mode never changes. When the preference flips and the handler is registered, 'auto'
   * re-renders from the new preference; a pinned mode leaves the root as it is, and so does
   * 'auto' read from an inherited name, which the handler does not take for 'auto'.
   */
  method OnSystemThemeChange(tm: ThemeManager, dark: bool)
    requires tm.Valid()
    modifies tm.root, tm.win
    ensures tm.Valid()
    ensures tm.win.prefersDark == dark && tm.win.listeners == old(tm.win.listeners)
    ensures tm.win.storedMode == old(tm.win.storedMode)
    ensures dark != old(tm.win.prefersDark) && tm.win.listeners != {} && tm.currentMode == Auto
            && !InheritedStored(tm.win.storedMode)
            ==> tm.root.State() == MyHome.Applied(old(tm.root.State()), RenderedFor(Auto, dark))
    ensures dark == old(tm.win.prefersDark) || tm.win.listeners == {} || tm.currentMode != Auto
            || InheritedStored(tm.win.storedMode)
            ==> tm.root.State() == old(tm.root.State())
  {
    StoredReadingsAgree(tm.win.storedMode, dark);
    MyHome.SystemThemeChange(tm.root, tm.win, dark);
  }
}
