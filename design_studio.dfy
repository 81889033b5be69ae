/** The design studio: a chosen design that the user edits one axis at a
    time, and the miniature preview derived from it. */
module DesignStudio {
  import opened Wrappers
  import opened Templates
  import opened ResumeRenderer

  /** Every key of the design is present in its registry. */
  predicate Registered(c: DesignConfig) {
    c.layout in LayoutIds(Layouts) && c.theme in Keys(ColorThemes) && c.font in Keys(FontPairings)
  }

  /** The default design uses registered keys. */
  lemma DefaultRegistered()
    ensures Registered(DefaultConfig)
  {
    LayoutOrderSpec();
    ThemeOrderSpec();
    FontOrderSpec();
  }

  class Studio {
    /** The `config` state. */
    var config: DesignConfig

    /** `useState(initialConfig || {modern, slate, inter})` */
    constructor(initialConfig: Option<DesignConfig>)
      ensures initialConfig.Some? ==> config == initialConfig.value
      ensures initialConfig.None? ==> config == DefaultConfig && Registered(config)
    {
      match initialConfig
      case Some(c) => config := c;
      case None => config := DefaultConfig; DefaultRegistered();
    }

    /** The button of the `i`-th layout: `{ ...prev, layout: l.id }`. */
    method SelectLayout(i: nat)
      requires i < |Layouts|
      modifies this
      ensures config == old(config).(layout := Layouts[i].id)
      ensures old(Registered(config)) ==> Registered(config)
    {
      config := config.(layout := Layouts[i].id);
      assert LayoutIds(Layouts)[i] == Layouts[i].id;
    }

    /** The swatch of the `i`-th colour theme: `{ ...prev, theme: key }`. */
    method SelectTheme(i: nat)
      requires i < |ColorThemes|
      modifies this
      ensures config == old(config).(theme := ColorThemes[i].0)
      ensures old(Registered(config)) ==> Registered(config)
    {
      config := config.(theme := ColorThemes[i].0);
      assert Keys(ColorThemes)[i] == ColorThemes[i].0;
    }

    /** The button of the `i`-th font pairing: `{ ...prev, font: key }`. */
    method SelectFont(i: nat)
      requires i < |FontPairings|
      modifies this
      ensures config == old(config).(font := FontPairings[i].0)
      ensures old(Registered(config)) ==> Registered(config)
    {
      config := config.(font := FontPairings[i].0);
      assert Keys(FontPairings)[i] == FontPairings[i].0;
    }

    /** "Use This Design": hands the current design on as it is. */
    method UseThisDesign() returns (chosen: DesignConfig)
      ensures chosen == config
    {
      chosen := config;
    }
  }

  /** The miniature preview. */
  datatype Mockup = Mockup(
    fontFamily: string,
    headerHeight: string,
    headerBackground: string,
    headerColor: string,
    headerBorder: string,
    sidebar: Option<string>,
    barColor: string)

  /** The preview reads `colorThemes[theme]` and `fontPairings[font]` with no
      fallback, so it exists (does not throw) only for registered keys. */
  function Preview(c: DesignConfig): (r: Option<Mockup>)
    ensures r.Some? <==> LookupTheme(c.theme).Some? && LookupFont(c.font).Some?
    ensures r.Some? ==> r.value.headerHeight == (if c.layout == "creative" then "150px" else "80px")
    ensures r.Some? ==> (r.value.sidebar.Some? <==> IsTwoColumn(c.layout))
    ensures r.Some? && c.layout == "modern" ==> r.value.sidebar == Some(LookupTheme(c.theme).value.secondary)
    ensures r.Some? && c.layout == "executive" ==> r.value.sidebar == Some("#f1f5f9")
    ensures r.Some? && c.layout == "minimal" ==>
      r.value.headerBackground == "white" && r.value.headerColor == "black" &&
      r.value.headerBorder == "2px solid " + LookupTheme(c.theme).value.primary
    ensures r.Some? && c.layout != "minimal" ==>
      r.value.headerBackground == LookupTheme(c.theme).value.primary && r.value.headerColor == "white" &&
      r.value.headerBorder == "none"
  {
    match (LookupTheme(c.theme), LookupFont(c.font))
    case (Some(theme), Some(font)) =>
      Some(Mockup(
        StripQuotes(font.body),
        if c.layout == "creative" then "150px" else "80px",
        if c.layout == "minimal" then "white" else theme.primary,
        if c.layout == "minimal" then "black" else "white",
        if c.layout == "minimal" then "2px solid " + theme.primary else "none",
        if c.layout == "modern" then Some(theme.secondary)
        else if c.layout == "executive" then Some("#f1f5f9")
        else None,
        theme.primary))
    case _ => None
  }

  /** A design built only from studio selections always has a preview. */
  lemma RegisteredHasPreview(c: DesignConfig)
    requires Registered(c)
    ensures Preview(c).Some?
  {
  }

  function UpperChar(c: char): char {
    if 'a' <= c <= 'z' then (c as int - 32) as char else c
  }

  /** `key.charAt(0).toUpperCase() + key.slice(1)` */
  function FontLabel(key: string): (r: string)
    ensures |r| == |key|
    ensures key != [] ==> r[1..] == key[1..]
    ensures key != [] && 'a' <= key[0] <= 'z' ==> r[0] as int == key[0] as int - 32
    ensures key != [] && !('a' <= key[0] <= 'z') ==> r == key
  {
    if key == [] then [] else [UpperChar(key[0])] + key[1..]
  }
}
