/** The design-driven renderer: resolves a (possibly legacy or incomplete)
    template to a concrete theme and font, derives the styles, and lays a
    resume or CV out in one or two columns, or a cover letter as a letter. */
module ResumeRenderer {
  import opened Text
  import opened Content
  import opened Wrappers
  import opened Templates

  /** A design: one key from each registry. */
  datatype DesignConfig = DesignConfig(layout: string, theme: string, font: string)

  const DefaultConfig := DesignConfig("modern", "slate", "inter")

  /** The `template` prop: a legacy template name, nothing, or a design. */
  datatype TemplateArg = LegacyName(name: string) | NoTemplate | Design(config: DesignConfig)

  /** `safeTemplate`: legacy names and a missing template fall back to the
      default design. */
  function SafeTemplate(t: TemplateArg): DesignConfig {
    match t
    case LegacyName(_) => DefaultConfig
    case NoTemplate => DefaultConfig
    case Design(c) => c
  }

  /** `colorThemes[theme] || colorThemes.slate` */
  function ActiveTheme(theme: string): Theme {
    match LookupTheme(theme)
    case Some(t) => t
    case None => ColorThemes[0].1
  }

  /** `fontPairings[font] || fontPairings.inter` */
  function ActiveFont(font: string): FontPairing {
    match LookupFont(font)
    case Some(f) => f
    case None => FontPairings[0].1
  }

  /** Resolution is total: a legacy or missing template is the default design,
      a registered key resolves to its own entry and any other key to the
      `slate` theme or the `inter` pairing. */
  lemma ResolutionFallbacks(t: TemplateArg)
    ensures !t.Design? ==> SafeTemplate(t) == DefaultConfig
    ensures t.Design? ==> SafeTemplate(t) == t.config
    ensures LookupTheme(SafeTemplate(t).theme).Some? ==>
      ActiveTheme(SafeTemplate(t).theme) == LookupTheme(SafeTemplate(t).theme).value
    ensures LookupTheme(SafeTemplate(t).theme).None? ==>
      ActiveTheme(SafeTemplate(t).theme) == Theme("#475569", "#94a3b8", "#e2e8f0")
    ensures LookupFont(SafeTemplate(t).font).Some? ==>
      ActiveFont(SafeTemplate(t).font) == LookupFont(SafeTemplate(t).font).value
    ensures LookupFont(SafeTemplate(t).font).None? ==>
      ActiveFont(SafeTemplate(t).font) == FontPairing("\"Inter\", sans-serif", "\"Inter\", sans-serif")
    ensures !t.Design? ==> ActiveTheme(SafeTemplate(t).theme) == Theme("#475569", "#94a3b8", "#e2e8f0")
    ensures !t.Design? ==> ActiveFont(SafeTemplate(t).font) == FontPairing("\"Inter\", sans-serif", "\"Inter\", sans-serif")
  {
    if !t.Design? {
      assert ColorThemes[0].0 == "slate";
      assert ("slate", ColorThemes[0].1) in ColorThemes;
      assert LookupTheme("slate") == Some(ColorThemes[0].1);
      assert FontPairings[0].0 == "inter";
      assert ("inter", FontPairings[0].1) in FontPairings;
      assert LookupFont("inter") == Some(FontPairings[0].1);
    }
  }

  /** `.replace(/"/g, '')` */
  function StripQuotes(s: string): (r: string)
    ensures '"' !in r
    ensures '"' !in s ==> r == s
    ensures |r| == |s| - CountChar(s, '"')
  {
    if s == [] then []
    else (if s[0] == '"' then [] else [s[0]]) + StripQuotes(s[1..])
  }

  /** The layouts that use the two-column structure. */
  predicate IsTwoColumn(layout: string) {
    layout == "modern" || layout == "executive"
  }

  datatype HeaderStyle = HeaderStyle(background: string, color: string, textAlign: string, borderBottom: string)

  datatype Styles = Styles(
    fontFamily: string,
    color: string,
    flexDirection: string,
    header: HeaderStyle,
    sidebarBackground: string,
    sidebarDisplay: string,
    sectionTitleColor: string)

  /** The style table derived from the layout, theme and font. */
  function StylesOf(c: DesignConfig): Styles {
    var theme := ActiveTheme(c.theme);
    var font := ActiveFont(c.font);
    Styles(
      StripQuotes(font.body),
      theme.secondary,
      if c.layout == "modern" || c.layout == "executive" then "row" else "column",
      HeaderStyle(
        if c.layout == "minimal" then "white" else theme.primary,
        if c.layout == "minimal" then theme.primary else "white",
        if c.layout == "creative" then "center" else "left",
        if c.layout == "minimal" then "2px solid " + theme.primary else "none"),
      theme.accent,
      if c.layout == "modern" || c.layout == "executive" then "block" else "none",
      theme.primary)
  }

  /** Row direction and a visible sidebar go together, exactly for the
      two-column layouts; only `minimal` has a light header with a rule under
      it and only `creative` a centred one; the font family is the body font
      without quotes. */
  lemma StylesByLayout(c: DesignConfig)
    ensures StylesOf(c).flexDirection == "row" <==> IsTwoColumn(c.layout)
    ensures StylesOf(c).sidebarDisplay == "block" <==> IsTwoColumn(c.layout)
    ensures c.layout == "minimal" ==>
      StylesOf(c).header == HeaderStyle("white", ActiveTheme(c.theme).primary, "left", "2px solid " + ActiveTheme(c.theme).primary)
    ensures c.layout != "minimal" ==>
      StylesOf(c).header.background == ActiveTheme(c.theme).primary && StylesOf(c).header.color == "white" &&
      StylesOf(c).header.borderBottom == "none"
    ensures StylesOf(c).header.textAlign == "center" <==> c.layout == "creative"
    ensures '"' !in StylesOf(c).fontFamily
  {
  }

  // ---------------------------------------------------------------------
  // Sections
  // ---------------------------------------------------------------------

  /** The rendered form of one section. */
  datatype Block =
    | SummaryBlock(text: string)
    | ExperienceBlock(jobs: seq<Experience>)
    | EducationBlock(schools: seq<Education>)
    | SkillsBlock(chips: seq<string>)
    | PublicationsBlock(papers: seq<Publication>)
    | AwardsBlock(honours: seq<Award>)
  {
    function Id(): string {
      match this
      case SummaryBlock(_) => SummaryId
      case ExperienceBlock(_) => ExperienceId
      case EducationBlock(_) => EducationId
      case SkillsBlock(_) => SkillsId
      case PublicationsBlock(_) => PublicationsId
      case AwardsBlock(_) => AwardsId
    }
  }

  /** `skills.split(',').map(s => s.trim())` */
  function SkillChips(skills: string): (chips: seq<string>)
    ensures |chips| == CountChar(skills, ',') + 1
    ensures forall i :: 0 <= i < |chips| ==> chips[i] == [] || (!IsSpace(chips[i][0]) && !IsSpace(chips[i][|chips[i]| - 1]))
    ensures forall i :: 0 <= i < |chips| ==> ',' !in chips[i]
  {
    var pieces := Split(skills, ',');
    var chips := TrimAll(pieces);
    forall i | 0 <= i < |chips| ensures ',' !in chips[i] {
      TrimKeepsOut(pieces[i], ',');
    }
    chips
  }

  /** Whether a section id has something to show. */
  predicate HasContent(d: Document, id: string) {
    (id == SummaryId && d.personal.summary != "") ||
    (id == ExperienceId && |d.experience| > 0) ||
    (id == EducationId && |d.education| > 0) ||
    (id == SkillsId && d.skills != "") ||
    (id == PublicationsId && |d.publications| > 0) ||
    (id == AwardsId && |d.awards| > 0)
  }

  /** `renderSection(id)`: the block for a known id with content, else nothing. */
  function RenderSection(d: Document, id: string): (r: Option<Block>)
    ensures r.Some? <==> HasContent(d, id)
    ensures r.Some? ==> r.value.Id() == id
  {
    if id == SummaryId then (if d.personal.summary != "" then Some(SummaryBlock(d.personal.summary)) else None)
    else if id == ExperienceId then (if |d.experience| > 0 then Some(ExperienceBlock(d.experience)) else None)
    else if id == EducationId then (if |d.education| > 0 then Some(EducationBlock(d.education)) else None)
    else if id == SkillsId then (if d.skills != "" then Some(SkillsBlock(SkillChips(d.skills))) else None)
    else if id == PublicationsId then (if |d.publications| > 0 then Some(PublicationsBlock(d.publications)) else None)
    else if id == AwardsId then (if |d.awards| > 0 then Some(AwardsBlock(d.awards)) else None)
    else None
  }

  /** The block of one id as a list: empty when it renders as nothing. */
  function Rendered(d: Document, id: string): seq<Block> {
    match RenderSection(d, id)
    case Some(b) => [b]
    case None => []
  }

  /** `order.map(renderSection)`, dropping what renders as nothing. */
  function RenderSections(d: Document, order: seq<string>): seq<Block> {
    if order == [] then []
    else Rendered(d, order[0]) + RenderSections(d, order[1..])
  }

  /** The ids of `order` that have content, in order. */
  function ShownIds(d: Document, order: seq<string>): seq<string> {
    if order == [] then []
    else (if HasContent(d, order[0]) then [order[0]] else []) + ShownIds(d, order[1..])
  }

  function BlockIds(bs: seq<Block>): (r: seq<string>)
    ensures |r| == |bs|
    ensures forall i :: 0 <= i < |bs| ==> r[i] == bs[i].Id()
  {
    if bs == [] then [] else [bs[0].Id()] + BlockIds(bs[1..])
  }

  /** The rendered sections are exactly the ids with content, in the given
      order. */
  lemma {:induction false} RenderSectionsIds(d: Document, order: seq<string>)
    ensures BlockIds(RenderSections(d, order)) == ShownIds(d, order)
  {
    if order != [] {
      RenderSectionsIds(d, order[1..]);
      var head := Rendered(d, order[0]);
      assert BlockIds(head + RenderSections(d, order[1..])) == BlockIds(head) + BlockIds(RenderSections(d, order[1..]));
    }
  }

  /** An id is shown exactly when it is in the order and has content. */
  lemma {:induction false} ShownIdsMembers(d: Document, order: seq<string>, id: string)
    ensures id in ShownIds(d, order) <==> id in order && HasContent(d, id)
  {
    if order != [] {
      ShownIdsMembers(d, order[1..], id);
      assert order == [order[0]] + order[1..];
    }
  }

  /** Rendering a concatenated order renders each part in turn. */
  lemma {:induction false} RenderSectionsAppend(d: Document, a: seq<string>, b: seq<string>)
    ensures RenderSections(d, a + b) == RenderSections(d, a) + RenderSections(d, b)
  {
    if a != [] {
      RenderSectionsAppend(d, a[1..], b);
      var head := Rendered(d, a[0]);
      assert (a + b)[0] == a[0];
      assert (a + b)[1..] == a[1..] + b;
      assert RenderSections(d, a + b) == head + (RenderSections(d, a[1..]) + RenderSections(d, b));
      assert head + (RenderSections(d, a[1..]) + RenderSections(d, b))
          == (head + RenderSections(d, a[1..])) + RenderSections(d, b);
    } else {
      assert a + b == b;
    }
  }

  /** `order` without the `skills` id. */
  function WithoutSkills(order: seq<string>): (r: seq<string>)
    ensures SkillsId !in r
    ensures forall id :: id in r <==> id in order && id != SkillsId
  {
    if order == [] then []
    else (if order[0] == SkillsId then [] else [order[0]]) + WithoutSkills(order[1..])
  }

  // ---------------------------------------------------------------------
  // Pages
  // ---------------------------------------------------------------------

  /** What `data` is: resume or CV content, or a cover letter (`isCoverLetter`). */
  datatype RenderInput = ResumeInput(doc: Document) | LetterInput(letter: Letter)

  datatype Page =
    | TwoColumnPage(styles: Styles, avatar: string, email: string, phone: string,
                    sidebarSkills: Option<seq<string>>, name: string, title: string, main: seq<Block>)
    | OneColumnPage(styles: Styles, name: string, title: string, email: string, phone: string,
                    centred: bool, main: seq<Block>)
    | LetterPage(styles: Styles, name: string, contact: seq<string>, centred: bool,
                 recipient: seq<string>, subject: string, greeting: string, body: string,
                 closing: string, signature: string)

  /** The initials avatar: the first character of the name, or `Me`. */
  function Avatar(fullName: string): (r: string)
    ensures fullName != "" ==> r == [fullName[0]]
    ensures fullName == "" ==> r == "Me"
  {
    if fullName != "" then [fullName[0]] else "Me"
  }

  /** The contact row of the letter header: e-mail and phone, then the
      address only when it is non-empty. */
  function LetterContact(s: Sender): (r: seq<string>)
    ensures |r| == 3 <==> s.address != ""
    ensures |r| >= 2 && r[0] == s.email && r[1] == s.phone
    ensures |r| == 3 ==> r[2] == s.address
  {
    [s.email, s.phone] + (if s.address != "" then [s.address] else [])
  }

  /** `ResumeRenderer`: a letter whenever the input is a cover letter, else
      the resume in the structure its layout asks for. */
  function Render(input: RenderInput, template: TemplateArg, order: seq<string>): Page {
    var config := SafeTemplate(template);
    match input
    case LetterInput(l) => RenderLetter(l, config)
    case ResumeInput(d) => RenderResume(d, config, order)
  }

  /** The cover-letter branch. */
  function RenderLetter(l: Letter, config: DesignConfig): Page {
    LetterPage(StylesOf(config), l.sender.fullName, LetterContact(l.sender), config.layout == "creative",
               [l.recipient.name, l.recipient.title, l.recipient.company, l.recipient.address],
               l.content.subject, l.content.greeting, l.content.body, l.content.closing, l.sender.fullName)
  }

  /** The resume branches. */
  function RenderResume(d: Document, config: DesignConfig, order: seq<string>): Page {
    var styles := StylesOf(config);
    if config.layout == "modern" || config.layout == "executive" then
      TwoColumnPage(styles, Avatar(d.personal.fullName), d.personal.email, d.personal.phone,
                    if d.skills != "" then Some(SkillChips(d.skills)) else None,
                    d.personal.fullName, d.personal.title,
                    RenderSections(d, WithoutSkills(order)))
    else
      OneColumnPage(styles, d.personal.fullName, d.personal.title, d.personal.email, d.personal.phone,
                    config.layout == "creative", RenderSections(d, order))
  }

  /** A letter renders as a letter whatever the layout: the contact row is
      the e-mail and phone, followed by the address exactly when it is
      non-empty, and the signature is the sender's name. */
  lemma LetterLayout(l: Letter, template: TemplateArg, order: seq<string>)
    ensures var p := Render(LetterInput(l), template, order);
      p.LetterPage? && p.contact == LetterContact(l.sender) && p.signature == l.sender.fullName &&
      p.recipient == [l.recipient.name, l.recipient.title, l.recipient.company, l.recipient.address]
  {
  }

  /** A resume takes the two-column branch exactly for `modern` and
      `executive`. There, `skills` never renders in the main column and shows
      in the sidebar exactly when non-empty, while every other shown id is in
      the main column in order; elsewhere every shown id is in the main column
      in order. */
  lemma ResumeLayout(d: Document, template: TemplateArg, order: seq<string>)
    ensures Render(ResumeInput(d), template, order).TwoColumnPage? <==> IsTwoColumn(SafeTemplate(template).layout)
    ensures Render(ResumeInput(d), template, order).TwoColumnPage? ==>
      var p := Render(ResumeInput(d), template, order);
      SkillsId !in BlockIds(p.main) &&
      BlockIds(p.main) == ShownIds(d, WithoutSkills(order)) &&
      (p.sidebarSkills.Some? <==> d.skills != "")
    ensures Render(ResumeInput(d), template, order).OneColumnPage? ==>
      BlockIds(Render(ResumeInput(d), template, order).main) == ShownIds(d, order)
  {
    var p := Render(ResumeInput(d), template, order);
    if p.TwoColumnPage? {
      RenderSectionsIds(d, WithoutSkills(order));
      ShownIdsMembers(d, WithoutSkills(order), SkillsId);
    } else {
      RenderSectionsIds(d, order);
    }
  }
}
