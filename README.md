# Personal homepage: font variables and the MyHome theme manager

This project models the start-up logic of a configuration-driven personal homepage in Dafny.
That logic turns the site's font settings into CSS custom properties on the document root, and
it renders and persists a light/dark/auto colour mode.

- **Fonts** (`src/main.ts`): `initFontConfig` writes eight properties.
  - `--global-font` is the configured global font verbatim, or the system font stack when it is empty.
  - Each of the seven slots is `"<name>", var(--global-font)` when its name is set.
    A name counts as set when it is non-empty and not all white space after `String.prototype.trim`.
    Otherwise the slot is `var(--global-font)`.
  - `--footer-links-font` alone falls back on the footer-copyright name before the global font.
- **MyHome theme** (`src/themes/MyHome/index.ts`):
  - There are two seven-variable palettes.
  - `applyMyHomeTheme` writes a mode's palette, removes the classes `light` and `dark`, and adds the mode as a class.
  - `initMyHomeTheme` renders the mode stored under `theme-mode` in localStorage.
    It registers a handler that re-renders from the operating system's preference while the stored mode is `auto`.
    It returns the cleanup that removes that handler.
- **Theme manager** (`src/themes/ThemeManager.ts`):
  - a registry holding the one theme, MyHome;
  - an object that keeps the current theme, the current mode and the cleanup handle;
  - it offers `switchTheme`, `switchMode`, `init`, `destroy` and the getters.

Modelling choices:

- The document root is a class `Dom.Root`. Its style is a `map` and its class list is a `set`.
- localStorage's `theme-mode` entry, the `(prefers-color-scheme: dark)` query and its change listeners are a class `Dom.Window`.
  Each listener is identified by a fresh number.
- Each imperative operation is a method proved against a pure function of the old state:
  - `Fonts.ResolveFonts` for the fonts;
  - `MyHome.Applied` for a palette;
  - `ThemeManager.RenderedFor` for a mode.
- The properties the source promises are lemmas about those functions.
- An independent reference is stated and shown to agree with `initFontConfig`'s branches.
  That reference is a per-slot fallback cascade, "the first set candidate, else the global font".

### What the code does

- `--footer-copyright-font` never borrows the footer-links name.
  Only links borrows from copyright (`Fonts.CopyrightNeverBorrows`).
- No font files are loaded, and there is no load failure or asynchronous join.
  `initFontConfig` only writes variables.
- `initMyHomeTheme` registers its change handler in every mode, not only in `auto`.
  The handler itself re-reads storage and does nothing unless the mode is `auto`.
- A stored mode outside `light`/`dark`/`auto` is not silently treated as `auto` everywhere.
  - The manager reads it as `auto`.
  - The theme's own init re-reads it and calls `applyMyHomeTheme` with it.
  - What happens next depends on whether the palette table, a plain object, holds anything at that key.
  - For most values it holds nothing. `Object.entries(undefined)` then throws a TypeError, before any write and before the handler is registered.
    The model gives this error path as `Fail(UndefinedPalette(value))` (`Scenarios.CorruptStoredMode`).
    The exception propagates out of `themeManager.init()` at `src/main.ts:72`.
    The rest of `src/main.ts`, including mounting the app, then never runs, so the page does not render.
  - The table does hold something at the twelve names it inherits from `Object.prototype`, such as `constructor` or `toString`.
    Those values have no enumerable entries, so no variable is written.
    The root loses its `light`/`dark` class and gets the name as a class instead, and the handler is registered.
    That handler never reads the stored name as `auto`, so the page stops following the system although the manager's mode is `auto`.
    The model keeps these names (`MyHome.ObjectPrototypeKeys`, `Scenarios.InheritedStoredMode`).

## Model

| member | source | states |
|---|---|---|
| JsString.TrimStart | src/main.ts:34 | the leading-white-space removal half of `trim`: a suffix of the input, all removed characters white space, result empty or starting with a non-space |
| JsString.TrimEnd | src/main.ts:34 | the trailing half of `trim`: a prefix, all removed characters white space, result empty or ending with a non-space |
| JsString.Trim | src/main.ts:34 | `value.trim()` is never longer than its input; its exact value is stated by the three lemmas below |
| JsString.TrimIsSlice | src/main.ts:34 | `value.trim()` is the slice of the input that starts after its leading white space and is followed only by white space |
| JsString.TrimEmptyIffBlank | src/main.ts:34 | `value.trim()` is empty exactly when the input is all white space |
| JsString.TrimEndsNonSpace | src/main.ts:34 | a non-empty `value.trim()` neither starts nor ends with white space |
| Fonts.IsSet | src/main.ts:34 | the test `value && value.trim() !== ''` of each slot: an unset value is empty or all white space |
| Fonts.SetIffNotBlank | src/main.ts:34 | the test `value && value.trim() !== ''` holds exactly when the value has a character that is not white space |
| Fonts.GlobalFont | src/main.ts:19 | `SITE_CONFIG.GLOBAL_FONT \|\| <system stack>` is never empty, and is either the configured font or the system stack |
| Fonts.SlotValue | src/main.ts:34-38 | the value written for a slot whose only fallback is the global font is never empty; its two branches are stated by `Fonts.OwnSlotRule` |
| Fonts.LinksValue | src/main.ts:52-65 | `--footer-links-font` is what the loop would write for its own name when that is set, and otherwise what is written for the copyright name |
| Fonts.ResolveFonts | src/main.ts:15-66 | the properties `initFontConfig` leaves set, exactly the eight font properties; the values are stated by the lemmas below |
| Fonts.InitFontConfig | src/main.ts:15-66 | afterwards the root's style is its old style overridden by exactly the eight resolved font properties; its classes are unchanged |
| Fonts.PlainVarNames | src/main.ts:23-33 | the template `--${key}-font` over the five loop keys gives the five slot property names |
| Fonts.GlobalFontVerbatim | src/main.ts:19-20 | `--global-font` is GLOBAL_FONT verbatim, untrimmed, when non-empty, else the system font stack |
| Fonts.OwnSlotValue | src/main.ts:23-49 | each slot other than footer-links is written from its own configured value |
| Fonts.OwnSlotRule | src/main.ts:32-49 | each slot other than footer-links is `"<name>", var(--global-font)` with the untrimmed name when it is not blank; when blank it is `var(--global-font)` |
| Fonts.CopyrightNeverBorrows | src/main.ts:43-49 | `--footer-copyright-font` is the same whatever FOOTER_LINKS_FONT holds; it is the global font when its own name is blank |
| Fonts.SocialNeverBorrows | src/main.ts:28-40 | `--footer-social-font` is the same whatever the links and copyright names hold; it is the global font when its own name is blank |
| Fonts.LinksCascade | src/main.ts:52-65 | `--footer-links-font` is its own name if set, else the copyright name if set, else the global font; with its own name blank it equals `--footer-copyright-font` |
| Fonts.LinksCascadeValue | src/main.ts:52-65 | the two-candidate cascade for footer-links equals the nested-if value the source computes |
| Fonts.LinksFollowCascade | src/main.ts:52-65 | the written footer-links property is the cascade's choice over [links, copyright] |
| Fonts.FirstSet | src/main.ts:52-65 | the cascade's choice: None exactly when no candidate is set, else a set candidate preceded only by unset ones |
| Fonts.ResolveFollowsCascade | src/main.ts:23-65 | every slot property the code writes equals the independent cascade's choice for that slot |
| Fonts.ResolveFontsAt | src/main.ts:19-65 | the value of each of the eight properties, per the source's branch for it |
| Fonts.FontVarsDistinct | src/main.ts:20-63 | the eight property names are pairwise distinct, so no write overrides another |
| Fonts.ResolveFontsKeys | src/main.ts:15-66 | initFontConfig writes exactly the eight font properties and no others |
| Fonts.ResolveFontsNonEmpty | src/main.ts:19-65 | every one of the eight properties is set to a non-empty value, whatever the configuration |
| Fonts.SiteFontsResolve | src/config.ts:48-72 | with the shipped configuration: the system stack globally; "brand" for intro-title, copyright, social and (borrowed) links; the global font for the header |
| MyHome.Colors | src/themes/MyHome/index.ts:126-127 | `Object.entries(MyHomeTheme.colors[themeMode])` is defined exactly for 'light', 'dark' and the names inherited from `Object.prototype`, and has entries exactly for 'light' and 'dark' |
| MyHome.PalettesShareVars | src/themes/MyHome/index.ts:10-29 | both palettes set the same seven variables, in the same order, each once |
| MyHome.PaletteDistinct | src/themes/MyHome/index.ts:11-28 | a palette writes no variable twice |
| MyHome.Applied | src/themes/MyHome/index.ts:126-133 | applying a key adds the palette's names to the style and no others, and of the two theme classes leaves at most the key's own; the key is then a class |
| MyHome.AppliedShows | src/themes/MyHome/index.ts:126-133 | after applying a mode, every palette variable holds that mode's value, the root has the mode's class and not the other one, and all other variables and classes are kept |
| MyHome.AppliedInherited | src/themes/MyHome/index.ts:126-133 | applying an inherited name writes no variable, removes both theme classes and adds the name as a class |
| MyHome.ApplyLastWins | src/themes/MyHome/index.ts:122-134 | applying b after a equals applying b alone; in particular applying twice equals applying once |
| MyHome.ApplyMyHomeTheme | src/themes/MyHome/index.ts:122-134 | succeeds exactly for 'light', 'dark' and the inherited names, and then leaves the root as `Applied(old root, mode)`; any other key fails with the palette error before anything is written |
| MyHome.SavedTheme | src/themes/MyHome/index.ts:139 | `getItem('theme-mode') \|\| 'auto'` is the stored value when it is non-empty, and 'auto' when it is missing or empty |
| MyHome.StoredRendering | src/themes/MyHome/index.ts:139-148 | the key init applies: the OS preference when the saved value is 'auto', otherwise the saved value itself; defined exactly when that key has a value in the palette table |
| MyHome.InitMyHomeTheme | src/themes/MyHome/index.ts:137-164 | on success the root is `Applied` with the stored rendering and exactly one fresh listener is added; when the stored key has no value in the palette table it fails and nothing is written or registered |
| MyHome.HandleSystemThemeChange | src/themes/MyHome/index.ts:152-157 | re-renders from the current preference when storage reads 'auto'; otherwise the root is left exactly as it was |
| MyHome.SystemThemeChange | src/themes/MyHome/index.ts:151-159 | a flip of the OS preference runs every registered handler, and the root ends up as after one run, whatever their number; without a flip no event fires and nothing changes |
| MyHome.Cleanup | src/themes/MyHome/index.ts:161-163 | the returned cleanup removes exactly its own listener and changes nothing else |
| ThemeManager.ParseMode | src/themes/ThemeManager.ts:49 | a string reads as a mode exactly when it is 'light', 'dark' or 'auto', and the mode is stored as that string |
| ThemeManager.ModeNameNotInherited | src/themes/ThemeManager.ts:79 | no stored mode name is a name the palette table inherits |
| ThemeManager.ModeNameRoundTrip | src/themes/ThemeManager.ts:47-53 | every mode written by switchMode reads back as the same mode |
| ThemeManager.GetModeFromStorage | src/themes/ThemeManager.ts:47-53 | the stored value when it is a mode name; 'auto' when missing, empty or anything else |
| ThemeManager.RenderedFor | src/themes/ThemeManager.ts:94-101 | 'auto' renders 'dark' exactly when the system prefers dark; a pinned mode renders as itself |
| ThemeManager.RenderMode | src/themes/ThemeManager.ts:94-101 | the rendering step leaves the root as `Applied(old root, RenderedFor(mode, preference))` |
| ThemeManager.StoredReadingsAgree | src/themes/ThemeManager.ts:94-104 | the theme's init accepts exactly the valid entries and the inherited names; for valid entries it renders what the manager rendered just before; an inherited name is read as 'auto' by the manager but applied as itself by init; an invalid entry is never 'auto' to the handler |
| ThemeManager.ThemeManager.constructor | src/themes/ThemeManager.ts:36-39 | a new manager holds MyHome and the stored mode, and no cleanup handle |
| ThemeManager.ThemeManager.GetDefaultTheme | src/themes/ThemeManager.ts:42-44 | the default theme is MyHome, which is registered |
| ThemeManager.ThemeManager.GetCurrentTheme | src/themes/ThemeManager.ts:56-58 | the current theme is always a registered one |
| ThemeManager.ThemeManager.GetCurrentMode | src/themes/ThemeManager.ts:61-63 | the current mode is always the mode storage holds |
| ThemeManager.ThemeManager.GetAvailableThemes | src/themes/ThemeManager.ts:108-110 | lists exactly the registry's entries |
| ThemeManager.ThemeManager.GetThemeInfo | src/themes/ThemeManager.ts:113-115 | a registry entry exactly for registered names, describing the theme of that name |
| ThemeManager.ThemeManager.ApplyCurrentTheme | src/themes/ThemeManager.ts:84-105 | removes the old handler, renders the mode, then runs the theme's init. It succeeds exactly when init accepts the stored entry, and then one handler is registered, the one the handle removes; otherwise none is. The root shows the mode's rendering, followed by the inherited name's application when storage holds one. The invariant is kept |
| ThemeManager.ThemeManager.RunThemeInit | src/themes/ThemeManager.ts:104 | `this.cleanup = theme.init()`: on success the root is `Applied` with init's rendering and the handle removes the only handler; on failure nothing changes |
| ThemeManager.ThemeManager.ReleaseHandler | src/themes/ThemeManager.ts:89-91 | after `this.cleanup()`, no change handler is registered |
| ThemeManager.ThemeManager.Init | src/themes/ThemeManager.ts:118-120 | init is applyCurrentTheme: the root shows the current mode's rendering (followed by an inherited name's application), and it succeeds exactly when the theme's init accepts the stored entry |
| ThemeManager.ThemeManager.SwitchTheme | src/themes/ThemeManager.ts:66-74 | an unregistered name changes nothing; a registered one becomes current and is applied as by applyCurrentTheme: on success exactly one handler is registered, the one the handle removes; on failure none is, and the error is the palette error for the stored entry |
| ThemeManager.ThemeManager.SwitchMode | src/themes/ThemeManager.ts:77-81 | the mode is stored and becomes current; the root shows its rendering; it always succeeds and leaves exactly one handler registered |
| ThemeManager.ThemeManager.Destroy | src/themes/ThemeManager.ts:123-128 | no handler stays registered and the handle is dropped; with no handle it changes nothing, so a second call is harmless |
| ThemeManager.OnSystemThemeChange | src/themes/MyHome/index.ts:151-159 | with a manager in place an OS change never changes the mode or storage. On a flip, while the handler is registered, 'auto' re-renders from the new preference. A pinned mode, an inherited name read as 'auto', no flip, or no registered handler (after destroy or a failed init) leaves the root as it is |
| Scenarios.FirstVisitOnDarkSystem | src/main.ts:72 | with nothing stored on a dark system, init shows the dark palette and class 'dark' |
| Scenarios.PinnedLightIgnoresSystem | src/themes/ThemeManager.ts:77-81 | after switchMode('light') the system turning dark leaves the root unchanged and light |
| Scenarios.AutoFollowsSystem | src/themes/MyHome/index.ts:152-157 | after switchMode('auto') the system turning dark re-renders dark |
| Scenarios.DestroyTwice | src/themes/ThemeManager.ts:123-128 | destroy twice leaves no handler and no handle |
| Scenarios.DestroyStopsFollowing | src/themes/ThemeManager.ts:123-128 | after init and destroy with nothing stored, the system turning dark leaves the root unchanged and light |
| Scenarios.CorruptStoredMode | src/themes/MyHome/index.ts:147 | a stored 'blue' reads as 'auto' in the manager, but init fails with the palette error and registers nothing |
| Scenarios.InheritedStoredMode | src/themes/MyHome/index.ts:126-133 | a stored 'constructor' is read as 'auto' and init succeeds, but the root has neither theme class and the system turning dark changes nothing |
| Scenarios.DefaultApplyIsLight | src/themes/MyHome/index.ts:122 | applyMyHomeTheme() with its default argument shows the light palette |
| Dom.SetAllOverwrite | src/themes/MyHome/index.ts:127-129 | writing the same names twice leaves what the second list of writes leaves |
| Dom.SetAllDistinct | src/themes/MyHome/index.ts:127-129 | when no name repeats, each written name holds its entry's value |

## Left out

- The page title, the context-menu, selection and developer-tools blockers in `src/main.ts`, and `createApp`: page wiring outside the font and theme logic.
- `src/config.ts` beyond its font fields (`Fonts.SiteFonts`), and `src/IconMap.ts`: static data and icon imports.
- The theme's layout, animation and typography tables and all stylesheets: data no operation reads.
- Browser services are abstract.
  - localStorage is one optional string.
  - `matchMedia` is one boolean.
  - Listeners are fresh numbers.
  - The browser's event dispatch is `MyHome.SystemThemeChange`.
  - Exceptions from storage access (for example, storage disabled) are not modelled.
- Strings are sequences of code points, not UTF-16 code units.
  White space is the ECMAScript WhiteSpace and LineTerminator set.
- Only the `themes` registry value used by the manager is modelled.
  The `Theme` interface's `apply`/`init` fields are fixed to MyHome's two functions.
- ThemeManager.ThemeManager.ApplyCurrentTheme: when the theme's init throws, the model returns `Fail` instead of propagating an exception.
  The old handle is kept, as in the source, but its handler is already removed.
  The exception would also stop the rest of `src/main.ts` after line 72; the page start-up after that point is not modelled.
- ThemeManager.ThemeManager.ApplyCurrentTheme: the `if (!theme) return;` guard is kept, but the manager's invariant makes it unreachable.
- Style writes are recorded as passed to `setProperty`.
  The CSS engine parses a custom-property value and drops one it cannot parse, for example a font name containing `;`.
  The model assumes the trusted configuration always parses, so `Fonts.ResolveFontsNonEmpty` is about the values written, not about a failed parse.
- Storage is written only by this manager's `switchMode`: one tab and one manager.
  Writes by other tabs or scripts, which the handler's re-read at event time would see, are not modelled.
  So the invariant that the current mode is the stored one holds only under this assumption.
- ThemeManager.ThemeManager.SwitchTheme: names inherited from `Object.prototype` pass the guard `themes[themeName]` in JavaScript, and the call is not a no-op.
  - The source first makes the name the current theme (`src/themes/ThemeManager.ts:72`).
    Then `applyCurrentTheme` removes the old change handler (`:89-91`) without clearing the handle, and throws.
  - For `__proto__`, `themes[name]` is `Object.prototype`, which has no `apply`, so the call at `:97`/`:100` throws.
  - For `__defineGetter__` and `__defineSetter__`, the call through `apply` passes no function as the accessor, so it throws a TypeError at `:97`/`:100`.
  - For the other nine names, `apply` runs the inherited method harmlessly, and the call `theme.init()` at `:104` throws because `init` is undefined.
  - The model treats all twelve names as unregistered, so `switchTheme` changes nothing, since the type `ThemeName` admits only 'MyHome'.
    `GetThemeInfo` likewise returns nothing for them.
- The exported singleton `themeManager` is the object the scenarios build; module-level singletons are not modelled.
