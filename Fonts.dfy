/**
 * initFontConfig (src/main.ts): turns the font fields of the site configuration into the eight
 * CSS custom properties the stylesheets use. The global font is the configured name, kept
 * verbatim, or the system font stack; each of the seven slots is either the quoted slot name
 * followed by var(--global-font), or var(--global-font) alone; footer-links falls back on the
 * footer-copyright name before the global font.
 */
module Fonts {
  import opened Wrappers
  import JsString
  import Dom

  /** The font fields of SITE_CONFIG; "" stands for a field left empty. */
  datatype FontConfig = FontConfig(
    globalFont: string,
    headerFont: string,
    introTitleFont: string,
    introSubtitleFont: string,
    footerSiteFont: string,
    footerLinksFont: string,
    footerCopyrightFont: string,
    footerSocialFont: string)

  const SYSTEM_FONT_STACK := "-apple-system, BlinkMacSystemFont, \"Segoe UI\", Roboto, \"Helvetica Neue\", Arial, sans-serif"
  const GLOBAL_FONT_REF := "var(--global-font)"

  const GLOBAL_VAR := "--global-font"
  const HEADER_VAR := "--header-font"
  const INTRO_TITLE_VAR := "--intro-title-font"
  const INTRO_SUBTITLE_VAR := "--intro-subtitle-font"
  const FOOTER_SITE_VAR := "--footer-site-font"
  const FOOTER_SOCIAL_VAR := "--footer-social-font"
  const FOOTER_COPYRIGHT_VAR := "--footer-copyright-font"
  const FOOTER_LINKS_VAR := "--footer-links-font"

  /** The eight properties initFontConfig writes. */
  const FontVars: set<string> := {GLOBAL_VAR, HEADER_VAR, INTRO_TITLE_VAR, INTRO_SUBTITLE_VAR,
                                  FOOTER_SITE_VAR, FOOTER_SOCIAL_VAR, FOOTER_COPYRIGHT_VAR, FOOTER_LINKS_VAR}

  /** The property name `--${key}-font` of a slot key. */
  function VarName(key: string): string
  {
    "--" + key + "-font"
  }

  /** `"${name}", var(--global-font)`: the name is quoted as it is, not escaped or trimmed. */
  function Quoted(name: string): string
  {
    "\"" + name + "\", var(--global-font)"
  }

  /** `value && value.trim() !== ''`: the slot names a font unless it is empty or all white space. */
  predicate IsSet(value: string)
    ensures !IsSet(value) ==> JsString.IsBlank(value)
  {
    JsString.TrimEmptyIffBlank(value);
    value != "" && JsString.Trim(value) != ""
  }

  /** A slot is set exactly when it holds a character that is not white space. */
  lemma SetIffNotBlank(value: string)
    ensures IsSet(value) <==> !JsString.IsBlank(value)
  {
    JsString.TrimEmptyIffBlank(value);
  }

  /** The value of a slot that falls back on the global font alone. */
  function SlotValue(value: string): (r: string)
    ensures r != ""
  {
    if IsSet(value) then Quoted(value) else GLOBAL_FONT_REF
  }

  /** `SITE_CONFIG.GLOBAL_FONT || <system stack>` */
  function GlobalFont(c: FontConfig): (r: string)
    ensures r != ""
    ensures r == c.globalFont || r == SYSTEM_FONT_STACK
  {
    if c.globalFont != "" then c.globalFont else SYSTEM_FONT_STACK
  }

  /** fontConfigs: the five slots handled by the loop, with their keys, in source order. */
  function PlainSlots(c: FontConfig): seq<(string, string)>
  {
    [("header", c.headerFont), ("intro-title", c.introTitleFont), ("intro-subtitle", c.introSubtitleFont),
     ("footer-site", c.footerSiteFont), ("footer-social", c.footerSocialFont)]
  }

  /** The footer-links value: its own name, else the copyright name, else the global font. */
  function LinksValue(c: FontConfig): (r: string)
    ensures IsSet(c.footerLinksFont) ==> r == SlotValue(c.footerLinksFont)
    ensures !IsSet(c.footerLinksFont) ==> r == SlotValue(c.footerCopyrightFont)
  {
    if IsSet(c.footerLinksFont) then Quoted(c.footerLinksFont)
    else if IsSet(c.footerCopyrightFont) then Quoted(c.footerCopyrightFont)
    else GLOBAL_FONT_REF
  }

  /** The eight properties and their values once initFontConfig has run. */
  function ResolveFonts(c: FontConfig): (r: map<string, string>)
    ensures r.Keys == FontVars
  {
    map[GLOBAL_VAR := GlobalFont(c),
        HEADER_VAR := SlotValue(c.headerFont),
        INTRO_TITLE_VAR := SlotValue(c.introTitleFont),
        INTRO_SUBTITLE_VAR := SlotValue(c.introSubtitleFont),
        FOOTER_SITE_VAR := SlotValue(c.footerSiteFont),
        FOOTER_SOCIAL_VAR := SlotValue(c.footerSocialFont),
        FOOTER_COPYRIGHT_VAR := SlotValue(c.footerCopyrightFont),
        FOOTER_LINKS_VAR := LinksValue(c)]
  }

  /** The (property, value) writes of the loop over the plain slots, in order. */
  function SlotWrites(slots: seq<(string, string)>): (ws: seq<(string, string)>)
    ensures |ws| == |slots|
    ensures forall i :: 0 <= i < |slots| ==> ws[i] == (VarName(slots[i].0), SlotValue(slots[i].1))
  {
    if slots == [] then [] else SlotWrites(slots[..|slots| - 1]) + [(VarName(slots[|slots| - 1].0), SlotValue(slots[|slots| - 1].1))]
  }

  /**
   * initFontConfig on document.documentElement: afterwards the root's style holds exactly the
   * eight resolved font properties on top of what it held before, and its classes are untouched.
   */
  method InitFontConfig(root: Dom.Root, c: FontConfig)
    modifies root
    ensures root.style == old(root.style) + ResolveFonts(c)
    ensures root.classes == old(root.classes)
  {
    var globalFont := if c.globalFont != "" then c.globalFont else SYSTEM_FONT_STACK;
    root.SetProperty(GLOBAL_VAR, globalFont);
    ghost var afterGlobal := root.style;

    var fontConfigs := PlainSlots(c);
    var i := 0;
    assert fontConfigs[..0] == [];
    assert SlotWrites(fontConfigs[..0]) == [];
    assert root.style == Dom.SetAll(afterGlobal, []);
    while i < |fontConfigs|
      invariant 0 <= i <= |fontConfigs|
      invariant root.style == Dom.SetAll(afterGlobal, SlotWrites(fontConfigs[..i]))
      invariant root.classes == old(root.classes)
    {
      var (key, value) := fontConfigs[i];
      var cssVarName := "--" + key + "-font";
      assert cssVarName == VarName(fontConfigs[i].0);
      ghost var before := root.style;
      if value != "" && JsString.Trim(value) != "" {
        var fontValue := "\"" + value + "\", var(--global-font)";
        root.SetProperty(cssVarName, fontValue);
      } else {
        root.SetProperty(cssVarName, "var(--global-font)");
      }
      assert root.style == before[cssVarName := SlotValue(value)];
      LoopStep(afterGlobal, fontConfigs, i);
      assert root.style == Dom.SetAll(afterGlobal, SlotWrites(fontConfigs[..i + 1]));
      i := i + 1;
    }
    assert fontConfigs[..i] == fontConfigs;

    var footerCopyrightFont := c.footerCopyrightFont;
    if footerCopyrightFont != "" && JsString.Trim(footerCopyrightFont) != "" {
      var fontValue := "\"" + footerCopyrightFont + "\", var(--global-font)";
      root.SetProperty(FOOTER_COPYRIGHT_VAR, fontValue);
    } else {
      root.SetProperty(FOOTER_COPYRIGHT_VAR, "var(--global-font)");
    }

    var footerLinksFont := c.footerLinksFont;
    if footerLinksFont != "" && JsString.Trim(footerLinksFont) != "" {
      var fontValue := "\"" + footerLinksFont + "\", var(--global-font)";
      root.SetProperty(FOOTER_LINKS_VAR, fontValue);
    } else {
      if footerCopyrightFont != "" && JsString.Trim(footerCopyrightFont) != "" {
        var fontValue := "\"" + footerCopyrightFont + "\", var(--global-font)";
        root.SetProperty(FOOTER_LINKS_VAR, fontValue);
      } else {
        root.SetProperty(FOOTER_LINKS_VAR, "var(--global-font)");
      }
    }
    PlainWritesResolve(old(root.style), c);
  }

  /** One more pass of the loop over the plain slots adds that slot's write. */
  lemma LoopStep(style: map<string, string>, slots: seq<(string, string)>, i: nat)
    requires i < |slots|
    ensures Dom.SetAll(style, SlotWrites(slots[..i + 1]))
         == Dom.SetAll(style, SlotWrites(slots[..i]))[VarName(slots[i].0) := SlotValue(slots[i].1)]
  {
    assert slots[..i + 1][..i] == slots[..i];
    var ws := SlotWrites(slots[..i + 1]);
    assert ws[..i] == SlotWrites(slots[..i]);
  }

  /** The writes of the global font, the loop, copyright and links add up to ResolveFonts. */
  lemma PlainWritesResolve(style: map<string, string>, c: FontConfig)
    ensures Dom.SetAll(style[GLOBAL_VAR := GlobalFont(c)], SlotWrites(PlainSlots(c)))
              [FOOTER_COPYRIGHT_VAR := SlotValue(c.footerCopyrightFont)]
              [FOOTER_LINKS_VAR := LinksValue(c)]
            == style + ResolveFonts(c)
  {
    var ws := SlotWrites(PlainSlots(c));
    PlainSlotWrites(c);
    SetAllFive(style[GLOBAL_VAR := GlobalFont(c)], ws);
    EightWrites(style, GlobalFont(c), SlotValue(c.headerFont), SlotValue(c.introTitleFont),
                SlotValue(c.introSubtitleFont), SlotValue(c.footerSiteFont), SlotValue(c.footerSocialFont),
                SlotValue(c.footerCopyrightFont), LinksValue(c));
  }

  /** The loop's writes name the five plain slot properties. */
  lemma PlainSlotWrites(c: FontConfig)
    ensures SlotWrites(PlainSlots(c))
         == [(HEADER_VAR, SlotValue(c.headerFont)), (INTRO_TITLE_VAR, SlotValue(c.introTitleFont)),
             (INTRO_SUBTITLE_VAR, SlotValue(c.introSubtitleFont)), (FOOTER_SITE_VAR, SlotValue(c.footerSiteFont)),
             (FOOTER_SOCIAL_VAR, SlotValue(c.footerSocialFont))]
  {
    PlainVarNames();
  }

  /** `--${key}-font` of the loop's five keys are the five plain slot properties. */
  lemma PlainVarNames()
    ensures VarName("header") == HEADER_VAR && VarName("intro-title") == INTRO_TITLE_VAR
    ensures VarName("intro-subtitle") == INTRO_SUBTITLE_VAR && VarName("footer-site") == FOOTER_SITE_VAR
    ensures VarName("footer-social") == FOOTER_SOCIAL_VAR
  {
  }

  /** The eight writes in source order, as one map. */
  lemma EightWrites(style: map<string, string>, g: string, h: string, it: string, isub: string,
                    fs: string, so: string, cr: string, li: string)
    ensures style[GLOBAL_VAR := g][HEADER_VAR := h][INTRO_TITLE_VAR := it][INTRO_SUBTITLE_VAR := isub]
                 [FOOTER_SITE_VAR := fs][FOOTER_SOCIAL_VAR := so][FOOTER_COPYRIGHT_VAR := cr][FOOTER_LINKS_VAR := li]
         == style + map[GLOBAL_VAR := g, HEADER_VAR := h, INTRO_TITLE_VAR := it, INTRO_SUBTITLE_VAR := isub,
                        FOOTER_SITE_VAR := fs, FOOTER_SOCIAL_VAR := so, FOOTER_COPYRIGHT_VAR := cr,
                        FOOTER_LINKS_VAR := li]
  {
  }

  /** Five writes in a row, unfolded. */
  lemma SetAllFive(m: map<string, string>, ws: seq<(string, string)>)
    requires |ws| == 5
    ensures Dom.SetAll(m, ws) == m[ws[0].0 := ws[0].1][ws[1].0 := ws[1].1][ws[2].0 := ws[2].1][ws[3].0 := ws[3].1][ws[4].0 := ws[4].1]
  {
    assert ws[..0] == [] && ws[..5] == ws;
    Dom.SetAllSnoc(m, ws, 0);
    Dom.SetAllSnoc(m, ws, 1);
    Dom.SetAllSnoc(m, ws, 2);
    Dom.SetAllSnoc(m, ws, 3);
    Dom.SetAllSnoc(m, ws, 4);
  }

  // The fallback cascade, stated independently of initFontConfig's code.

  /** The seven font slots besides the global font. */
  datatype Slot = Header | IntroTitle | IntroSubtitle | FooterSite | FooterSocial | FooterCopyright | FooterLinks

  /** The property a slot is written to. */
  function SlotVar(s: Slot): string
  {
    match s
    case Header => HEADER_VAR
    case IntroTitle => INTRO_TITLE_VAR
    case IntroSubtitle => INTRO_SUBTITLE_VAR
    case FooterSite => FOOTER_SITE_VAR
    case FooterSocial => FOOTER_SOCIAL_VAR
    case FooterCopyright => FOOTER_COPYRIGHT_VAR
    case FooterLinks => FOOTER_LINKS_VAR
  }

  /** The configured name of a slot. */
  function Configured(c: FontConfig, s: Slot): string
  {
    match s
    case Header => c.headerFont
    case IntroTitle => c.introTitleFont
    case IntroSubtitle => c.introSubtitleFont
    case FooterSite => c.footerSiteFont
    case FooterSocial => c.footerSocialFont
    case FooterCopyright => c.footerCopyrightFont
    case FooterLinks => c.footerLinksFont
  }

  /** The configured names a slot may take its family from, in order of preference. */
  function Candidates(c: FontConfig, s: Slot): seq<string>
  {
    if s == FooterLinks then [c.footerLinksFont, c.footerCopyrightFont] else [Configured(c, s)]
  }

  /** The position of the first true flag, or the number of flags if none is true. */
  function FirstTrue(flags: seq<bool>): (i: nat)
    ensures i <= |flags|
    ensures forall j :: 0 <= j < i ==> !flags[j]
    ensures i < |flags| ==> flags[i]
  {
    if flags == [] || flags[0] then 0
    else
      var i := FirstTrue(flags[1..]);
      assert forall j :: 0 < j < 1 + i ==> flags[j] == flags[1..][j - 1];
      1 + i
  }

  /** Which names of the list are set. */
  function SetFlags(names: seq<string>): (flags: seq<bool>)
    ensures |flags| == |names| && forall i :: 0 <= i < |names| ==> flags[i] == IsSet(names[i])
  {
    seq(|names|, i requires 0 <= i < |names| => IsSet(names[i]))
  }

  /** The first name of the list that is set, if any. */
  function FirstSet(names: seq<string>): (r: Option<string>)
    ensures r.None? <==> forall i :: 0 <= i < |names| ==> !IsSet(names[i])
    ensures r.Some? ==> exists i :: 0 <= i < |names| && names[i] == r.value && IsSet(r.value)
                                    && forall j :: 0 <= j < i ==> !IsSet(names[j])
  {
    var i := FirstTrue(SetFlags(names));
    if i < |names| then Some(names[i]) else None
  }

  /** A slot's property per the cascade: the first set candidate, quoted, or else the global font. */
  function Cascade(c: FontConfig, s: Slot): string
  {
    match FirstSet(Candidates(c, s))
    case Some(name) => Quoted(name)
    case None => GLOBAL_FONT_REF
  }

  /** Every slot property initFontConfig writes is the one the cascade picks. */
  lemma ResolveFollowsCascade(c: FontConfig, s: Slot)
    ensures SlotVar(s) in ResolveFonts(c) && ResolveFonts(c)[SlotVar(s)] == Cascade(c, s)
  {
    if s == FooterLinks {
      LinksFollowCascade(c);
    } else {
      OneCandidate(Configured(c, s));
      OwnSlotValue(c, s);
    }
  }

  /** The cascade of a slot with a single candidate is that candidate's own value. */
  lemma OneCandidate(name: string)
    ensures (match FirstSet([name]) case Some(n) => Quoted(n) case None => GLOBAL_FONT_REF) == SlotValue(name)
  {
    assert SetFlags([name]) == [IsSet(name)] && [IsSet(name)][1..] == [];
  }

  /** The eight font properties are pairwise distinct names. */
  lemma FontVarsDistinct()
    ensures GLOBAL_VAR != HEADER_VAR && GLOBAL_VAR != INTRO_TITLE_VAR && GLOBAL_VAR != INTRO_SUBTITLE_VAR
            && GLOBAL_VAR != FOOTER_SITE_VAR && GLOBAL_VAR != FOOTER_SOCIAL_VAR
            && GLOBAL_VAR != FOOTER_COPYRIGHT_VAR && GLOBAL_VAR != FOOTER_LINKS_VAR
    ensures HEADER_VAR != INTRO_TITLE_VAR && HEADER_VAR != INTRO_SUBTITLE_VAR && HEADER_VAR != FOOTER_SITE_VAR
            && HEADER_VAR != FOOTER_SOCIAL_VAR && HEADER_VAR != FOOTER_COPYRIGHT_VAR && HEADER_VAR != FOOTER_LINKS_VAR
    ensures INTRO_TITLE_VAR != INTRO_SUBTITLE_VAR && INTRO_TITLE_VAR != FOOTER_SITE_VAR
            && INTRO_TITLE_VAR != FOOTER_SOCIAL_VAR && INTRO_TITLE_VAR != FOOTER_COPYRIGHT_VAR
            && INTRO_TITLE_VAR != FOOTER_LINKS_VAR
    ensures INTRO_SUBTITLE_VAR != FOOTER_SITE_VAR && INTRO_SUBTITLE_VAR != FOOTER_SOCIAL_VAR
            && INTRO_SUBTITLE_VAR != FOOTER_COPYRIGHT_VAR && INTRO_SUBTITLE_VAR != FOOTER_LINKS_VAR
    ensures FOOTER_SITE_VAR != FOOTER_SOCIAL_VAR && FOOTER_SITE_VAR != FOOTER_COPYRIGHT_VAR
            && FOOTER_SITE_VAR != FOOTER_LINKS_VAR
    ensures FOOTER_SOCIAL_VAR != FOOTER_COPYRIGHT_VAR && FOOTER_SOCIAL_VAR != FOOTER_LINKS_VAR
    ensures FOOTER_COPYRIGHT_VAR != FOOTER_LINKS_VAR
  {
    assert GLOBAL_VAR[2] == 'g' && HEADER_VAR[2] == 'h' && INTRO_TITLE_VAR[2] == 'i' && INTRO_SUBTITLE_VAR[2] == 'i';
    assert FOOTER_SITE_VAR[2] == 'f' && FOOTER_SOCIAL_VAR[2] == 'f' && FOOTER_COPYRIGHT_VAR[2] == 'f' && FOOTER_LINKS_VAR[2] == 'f';
    assert INTRO_TITLE_VAR[8] == 't' && INTRO_SUBTITLE_VAR[8] == 's';
    assert FOOTER_SITE_VAR[9] == 's' && FOOTER_SOCIAL_VAR[9] == 's' && FOOTER_COPYRIGHT_VAR[9] == 'c' && FOOTER_LINKS_VAR[9] == 'l';
    assert FOOTER_SITE_VAR[10] == 'i' && FOOTER_SOCIAL_VAR[10] == 'o';
  }

  /** The value ResolveFonts gives each of the eight properties. */
  lemma ResolveFontsAt(c: FontConfig)
    ensures FontVars <= ResolveFonts(c).Keys
    ensures ResolveFonts(c)[GLOBAL_VAR] == GlobalFont(c)
    ensures ResolveFonts(c)[HEADER_VAR] == SlotValue(c.headerFont)
    ensures ResolveFonts(c)[INTRO_TITLE_VAR] == SlotValue(c.introTitleFont)
    ensures ResolveFonts(c)[INTRO_SUBTITLE_VAR] == SlotValue(c.introSubtitleFont)
    ensures ResolveFonts(c)[FOOTER_SITE_VAR] == SlotValue(c.footerSiteFont)
    ensures ResolveFonts(c)[FOOTER_SOCIAL_VAR] == SlotValue(c.footerSocialFont)
    ensures ResolveFonts(c)[FOOTER_COPYRIGHT_VAR] == SlotValue(c.footerCopyrightFont)
    ensures ResolveFonts(c)[FOOTER_LINKS_VAR] == LinksValue(c)
  {
    HeadFontsAt(c);
    FooterFontsAt(c);
  }

  /** The values of the global, header and intro properties. */
  lemma HeadFontsAt(c: FontConfig)
    ensures FontVars <= ResolveFonts(c).Keys
    ensures ResolveFonts(c)[GLOBAL_VAR] == GlobalFont(c)
    ensures ResolveFonts(c)[HEADER_VAR] == SlotValue(c.headerFont)
    ensures ResolveFonts(c)[INTRO_TITLE_VAR] == SlotValue(c.introTitleFont)
    ensures ResolveFonts(c)[INTRO_SUBTITLE_VAR] == SlotValue(c.introSubtitleFont)
  {
    FontVarsDistinct();
  }

  /** The values of the four footer properties. */
  lemma FooterFontsAt(c: FontConfig)
    ensures FontVars <= ResolveFonts(c).Keys
    ensures ResolveFonts(c)[FOOTER_SITE_VAR] == SlotValue(c.footerSiteFont)
    ensures ResolveFonts(c)[FOOTER_SOCIAL_VAR] == SlotValue(c.footerSocialFont)
    ensures ResolveFonts(c)[FOOTER_COPYRIGHT_VAR] == SlotValue(c.footerCopyrightFont)
    ensures ResolveFonts(c)[FOOTER_LINKS_VAR] == LinksValue(c)
  {
    FontVarsDistinct();
  }

  /** The slots other than footer-links are written with their own configured value. */
  lemma OwnSlotValue(c: FontConfig, s: Slot)
    requires s != FooterLinks
    ensures SlotVar(s) in ResolveFonts(c) && ResolveFonts(c)[SlotVar(s)] == SlotValue(Configured(c, s))
  {
    var r := ResolveFonts(c);
    ResolveFontsAt(c);
    match s {
      case Header => assert r[HEADER_VAR] == SlotValue(c.headerFont);
      case IntroTitle => assert r[INTRO_TITLE_VAR] == SlotValue(c.introTitleFont);
      case IntroSubtitle => assert r[INTRO_SUBTITLE_VAR] == SlotValue(c.introSubtitleFont);
      case FooterSite => assert r[FOOTER_SITE_VAR] == SlotValue(c.footerSiteFont);
      case FooterSocial => assert r[FOOTER_SOCIAL_VAR] == SlotValue(c.footerSocialFont);
      case FooterCopyright => assert r[FOOTER_COPYRIGHT_VAR] == SlotValue(c.footerCopyrightFont);
    }
  }

  /** footer-links follows its two-step cascade. */
  lemma LinksFollowCascade(c: FontConfig)
    ensures FOOTER_LINKS_VAR in ResolveFonts(c) && ResolveFonts(c)[FOOTER_LINKS_VAR] == Cascade(c, FooterLinks)
  {
    ResolveFontsAt(c);
    LinksCascadeValue(c);
  }

  /** The footer-links cascade, over its two candidates, is LinksValue. */
  lemma LinksCascadeValue(c: FontConfig)
    ensures Cascade(c, FooterLinks) == LinksValue(c)
  {
    var flags := [IsSet(c.footerLinksFont), IsSet(c.footerCopyrightFont)];
    assert SetFlags(Candidates(c, FooterLinks)) == flags;
    FirstTrueOfTwo(flags[0], flags[1]);
  }

  /** The first of two flags that is true. */
  lemma FirstTrueOfTwo(a: bool, b: bool)
    ensures FirstTrue([a, b]) == if a then 0 else if b then 1 else 2
  {
    assert [a, b][1..] == [b] && [b][1..] == [];
  }

  /** initFontConfig writes exactly the eight font properties and no other. */
  lemma ResolveFontsKeys(c: FontConfig)
    ensures ResolveFonts(c).Keys == FontVars
  {
  }

  /** All eight properties are set, each to a non-empty value, whatever the configuration. */
  lemma ResolveFontsNonEmpty(c: FontConfig)
    ensures ResolveFonts(c)[GLOBAL_VAR] != ""
    ensures forall s: Slot :: ResolveFonts(c)[SlotVar(s)] != ""
  {
    GlobalFontVerbatim(c);
    assert |SYSTEM_FONT_STACK| > 0;
    forall s: Slot
      ensures ResolveFonts(c)[SlotVar(s)] != ""
    {
      ResolveFollowsCascade(c, s);
    }
  }

  /** A slot other than footer-links names its own font, untrimmed, when set, and is the global font otherwise. */
  lemma OwnSlotRule(c: FontConfig, s: Slot)
    requires s != FooterLinks
    ensures !JsString.IsBlank(Configured(c, s))
            ==> ResolveFonts(c)[SlotVar(s)] == "\"" + Configured(c, s) + "\", var(--global-font)"
    ensures JsString.IsBlank(Configured(c, s)) ==> ResolveFonts(c)[SlotVar(s)] == GLOBAL_FONT_REF
  {
    OwnSlotValue(c, s);
    SetIffNotBlank(Configured(c, s));
  }

  /** --global-font is GLOBAL_FONT verbatim (even all white space) unless it is empty. */
  lemma GlobalFontVerbatim(c: FontConfig)
    ensures c.globalFont != "" ==> ResolveFonts(c)[GLOBAL_VAR] == c.globalFont
    ensures c.globalFont == "" ==> ResolveFonts(c)[GLOBAL_VAR] == SYSTEM_FONT_STACK
  {
    ResolveFontsAt(c);
  }

  /** --footer-copyright-font depends on FOOTER_COPYRIGHT_FONT alone; it never borrows the links name. */
  lemma CopyrightNeverBorrows(c: FontConfig, links: string)
    ensures ResolveFonts(c)[FOOTER_COPYRIGHT_VAR] == ResolveFonts(c.(footerLinksFont := links))[FOOTER_COPYRIGHT_VAR]
    ensures JsString.IsBlank(c.footerCopyrightFont) ==> ResolveFonts(c)[FOOTER_COPYRIGHT_VAR] == GLOBAL_FONT_REF
  {
    ResolveFontsAt(c);
    ResolveFontsAt(c.(footerLinksFont := links));
    SetIffNotBlank(c.footerCopyrightFont);
  }

  /** --footer-social-font never borrows from the links or copyright slots. */
  lemma SocialNeverBorrows(c: FontConfig, links: string, copyright: string)
    ensures ResolveFonts(c)[FOOTER_SOCIAL_VAR]
         == ResolveFonts(c.(footerLinksFont := links, footerCopyrightFont := copyright))[FOOTER_SOCIAL_VAR]
    ensures JsString.IsBlank(c.footerSocialFont) ==> ResolveFonts(c)[FOOTER_SOCIAL_VAR] == GLOBAL_FONT_REF
  {
    ResolveFontsAt(c);
    ResolveFontsAt(c.(footerLinksFont := links, footerCopyrightFont := copyright));
    SetIffNotBlank(c.footerSocialFont);
  }

  /** --footer-links-font: its own name if set, else the copyright name if set, else the global font. */
  lemma LinksCascade(c: FontConfig)
    ensures !JsString.IsBlank(c.footerLinksFont) ==> ResolveFonts(c)[FOOTER_LINKS_VAR] == Quoted(c.footerLinksFont)
    ensures JsString.IsBlank(c.footerLinksFont) && !JsString.IsBlank(c.footerCopyrightFont)
            ==> ResolveFonts(c)[FOOTER_LINKS_VAR] == Quoted(c.footerCopyrightFont)
    ensures JsString.IsBlank(c.footerLinksFont) && JsString.IsBlank(c.footerCopyrightFont)
            ==> ResolveFonts(c)[FOOTER_LINKS_VAR] == GLOBAL_FONT_REF
    ensures JsString.IsBlank(c.footerLinksFont)
            ==> ResolveFonts(c)[FOOTER_LINKS_VAR] == ResolveFonts(c)[FOOTER_COPYRIGHT_VAR]
  {
    ResolveFontsAt(c);
    SetIffNotBlank(c.footerLinksFont);
    SetIffNotBlank(c.footerCopyrightFont);
  }

  /** The font fields of the shipped site configuration. */
  const SiteFonts := FontConfig("", "", "brand", "", "", "", "brand", "brand")

  /** With the shipped configuration: system stack globally, "brand" for the title, links, copyright and social. */
  lemma SiteFontsResolve()
    ensures ResolveFonts(SiteFonts)[GLOBAL_VAR] == SYSTEM_FONT_STACK
    ensures ResolveFonts(SiteFonts)[INTRO_TITLE_VAR] == Quoted("brand")
    ensures ResolveFonts(SiteFonts)[FOOTER_LINKS_VAR] == Quoted("brand")
    ensures ResolveFonts(SiteFonts)[FOOTER_COPYRIGHT_VAR] == Quoted("brand")
    ensures ResolveFonts(SiteFonts)[FOOTER_SOCIAL_VAR] == Quoted("brand")
    ensures ResolveFonts(SiteFonts)[HEADER_VAR] == GLOBAL_FONT_REF
  {
    var c := SiteFonts;
    assert !JsString.IsBlank("brand") by { assert !JsString.IsWhiteSpace("brand"[0]); }
    assert JsString.IsBlank("");
    GlobalFontVerbatim(c);
    OwnSlotRule(c, IntroTitle);
    OwnSlotRule(c, Header);
    OwnSlotRule(c, FooterCopyright);
    OwnSlotRule(c, FooterSocial);
    LinksCascade(c);
  }
}
