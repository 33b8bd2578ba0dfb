/**
 * Runs of the theme manager from the page's start, as a caller sees them: each builds the
 * browser state, drives the manager, and states what the root shows afterwards.
 */
module Scenarios {
  import opened Wrappers
  import Dom
  import MyHome
  import TM = ThemeManager

  /** Nothing stored and a system that prefers dark: init renders the dark palette and class 'dark', not 'light'. */
  method FirstVisitOnDarkSystem() returns (rendered: Dom.RootState)
    ensures MyHome.Shows(rendered, MyHome.DARK)
  {
    var root := new Dom.Root(map[], {});
    var win := new Dom.Window(None, true);
    var tm := new TM.ThemeManager(root, win);
    ghost var before := root.State();
    var _ := tm.Init();
    rendered := root.State();
    MyHome.AppliedShows(before, MyHome.DARK);
  }

  /** After switchMode('light'), the system turning dark leaves the root exactly as it was. */
  method PinnedLightIgnoresSystem() returns (before: Dom.RootState, after: Dom.RootState)
    ensures after == before
    ensures MyHome.Shows(after, MyHome.LIGHT)
  {
    var root := new Dom.Root(map[], {});
    var win := new Dom.Window(None, false);
    var tm := new TM.ThemeManager(root, win);
    var _ := tm.Init();
    ghost var start := root.State();
    tm.SwitchMode(TM.Light);
    before := root.State();
    TM.OnSystemThemeChange(tm, true);
    after := root.State();
    MyHome.AppliedShows(start, MyHome.LIGHT);
  }

  /** After switchMode('auto') on a light system, the system turning dark re-renders dark with no further call. */
  method AutoFollowsSystem() returns (after: Dom.RootState)
    ensures MyHome.Shows(after, MyHome.DARK)
  {
    var root := new Dom.Root(map[], {});
    var win := new Dom.Window(Some(MyHome.LIGHT), false);
    var tm := new TM.ThemeManager(root, win);
    var _ := tm.Init();
    tm.SwitchMode(TM.Auto);
    TM.ModeNameNotInherited(TM.Auto);
    assert tm.currentMode == TM.Auto && win.listeners != {} && !win.prefersDark;
    assert !TM.InheritedStored(win.storedMode);
    ghost var before := root.State();
    TM.OnSystemThemeChange(tm, true);
    after := root.State();
    assert after == MyHome.Applied(before, MyHome.DARK);
    MyHome.AppliedShows(before, MyHome.DARK);
  }

  /** destroy called twice: no handler is left registered and the handle is gone. */
  method DestroyTwice() returns (listeners: set<nat>, handle: Option<nat>)
    ensures listeners == {} && handle == None
  {
    var root := new Dom.Root(map[], {});
    var win := new Dom.Window(None, false);
    var tm := new TM.ThemeManager(root, win);
    var _ := tm.Init();
    tm.Destroy();
    tm.Destroy();
    listeners, handle := win.listeners, tm.cleanup;
  }

  /** With nothing stored ('auto'), after destroy the page no longer follows the system: the root stays light when it turns dark. */
  method DestroyStopsFollowing() returns (before: Dom.RootState, after: Dom.RootState)
    ensures after == before && MyHome.Shows(after, MyHome.LIGHT)
  {
    var root := new Dom.Root(map[], {});
    var win := new Dom.Window(None, false);
    var tm := new TM.ThemeManager(root, win);
    ghost var start := root.State();
    var _ := tm.Init();
    tm.Destroy();
    before := root.State();
    TM.OnSystemThemeChange(tm, true);
    after := root.State();
    MyHome.AppliedShows(start, MyHome.LIGHT);
  }

  /**
   * A stored value outside 'light', 'dark' and 'auto': the manager reads it as 'auto', but the
   * theme's init re-reads it, finds no palette for it and throws, leaving no handler registered.
   */
  method CorruptStoredMode() returns (mode: TM.ThemeMode, r: Outcome<MyHome.ThemeError>, listeners: set<nat>)
    ensures mode == TM.Auto
    ensures r == Fail(MyHome.UndefinedPalette("blue"))
    ensures listeners == {}
  {
    var root := new Dom.Root(map[], {});
    var win := new Dom.Window(Some("blue"), false);
    var tm := new TM.ThemeManager(root, win);
    mode := tm.GetCurrentMode();
    r := tm.Init();
    listeners := win.listeners;
  }

  /**
   * A stored 'constructor', a name the palette table inherits: the manager reads it as 'auto' and
   * renders light, then the theme's init applies 'constructor' itself, which writes no variable,
   * drops the class 'light' and registers its handler. The system turning dark then changes
   * nothing, since the handler does not read 'constructor' as 'auto'.
   */
  method InheritedStoredMode() returns (mode: TM.ThemeMode, r: Outcome<MyHome.ThemeError>,
                                        started: Dom.RootState, after: Dom.RootState, listeners: set<nat>)
    ensures mode == TM.Auto && r.Pass? && |listeners| == 1
    ensures MyHome.LIGHT !in started.classes && MyHome.DARK !in started.classes && "constructor" in started.classes
    ensures after == started
  {
    var root := new Dom.Root(map[], {});
    var win := new Dom.Window(Some("constructor"), false);
    assert TM.InheritedStored(win.storedMode) && !TM.StoredValid(win.storedMode);
    var tm := new TM.ThemeManager(root, win);
    mode := tm.GetCurrentMode();
    ghost var before := root.State();
    r := tm.Init();
    started := root.State();
    assert started == MyHome.Applied(MyHome.Applied(before, MyHome.LIGHT), "constructor");
    MyHome.AppliedInherited(MyHome.Applied(before, MyHome.LIGHT), "constructor");
    assert tm.currentMode == TM.Auto && TM.InheritedStored(win.storedMode);
    TM.OnSystemThemeChange(tm, true);
    after := root.State();
    listeners := win.listeners;
  }

  /** applyMyHomeTheme() with no argument renders the light palette and class 'light'. */
  method DefaultApplyIsLight() returns (rendered: Dom.RootState)
    ensures MyHome.Shows(rendered, MyHome.LIGHT)
  {
    var root := new Dom.Root(map[], {});
    ghost var before := root.State();
    var _ := MyHome.ApplyMyHomeTheme(root);
    rendered := root.State();
    MyHome.AppliedShows(before, MyHome.LIGHT);
  }
}
