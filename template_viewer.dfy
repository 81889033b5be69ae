/** The section-list template viewer: five fixed designs that place a list of
    typed sections into a main column and, for two of them, a sidebar. */
module TemplateViewer {
  import opened Wrappers

  /** A section item: a bare string, or an object whose absent fields are
      empty. */
  datatype Item =
    | Plain(text: string)
    | Record(position: string, degree: string, duration: string, year: string,
             company: string, institution: string, description: string, name: string)

  /** The fields a template reads from an item; reading one off a bare string
      gives nothing. */
  datatype ItemField = Position | Degree | Duration | Year | Company | Institution | Description | Name

  function Get(i: Item, f: ItemField): string {
    match i
    case Plain(_) => ""
    case Record(position, degree, duration, year, company, institution, description, name) =>
      match f
      case Position => position
      case Degree => degree
      case Duration => duration
      case Year => year
      case Company => company
      case Institution => institution
      case Description => description
      case Name => name
  }

  /** `a || b` on strings. */
  function Or(a: string, b: string): (r: string)
    ensures a != "" ==> r == a
    ensures a == "" ==> r == b
    ensures r == "" <==> a == "" && b == ""
  {
    if a != "" then a else b
  }

  /** A typed section; `items` is `None` when the object has no `items`. */
  datatype Section = Section(id: string, kind: string, title: string, items: Option<seq<Item>>)

  /** What an item renders as: a detail block or a chip. */
  datatype Shown = Detail(heading: string, date: string, organisation: string, description: string) | Chip(caption: string)

  /** The detail block of an experience or education item, with fallbacks. */
  function DetailOf(i: Item): Shown {
    Detail(Or(Get(i, Position), Get(i, Degree)), Or(Get(i, Duration), Get(i, Year)),
           Or(Get(i, Company), Get(i, Institution)), Get(i, Description))
  }

  /** The chip of a skills or list item: a string as is, an object by name. */
  function ChipOf(i: Item): Shown {
    Chip(match i case Plain(t) => t case Record(_, _, _, _, _, _, _, name) => name)
  }

  function Details(items: seq<Item>): (r: seq<Shown>)
    ensures |r| == |items|
    ensures forall k :: 0 <= k < |r| ==> r[k] == DetailOf(items[k])
  {
    if items == [] then [] else [DetailOf(items[0])] + Details(items[1..])
  }

  function Chips(items: seq<Item>): (r: seq<Shown>)
    ensures |r| == |items|
    ensures forall k :: 0 <= k < |r| ==> r[k] == ChipOf(items[k])
  {
    if items == [] then [] else [ChipOf(items[0])] + Chips(items[1..])
  }

  predicate IsDetailed(kind: string) { kind == "experience" || kind == "education" }

  predicate IsChipped(kind: string) { kind == "skills" || kind == "list" }

  /** `renderItems`: nothing for missing or empty items and for any other
      type; otherwise one rendering per item, in order. */
  function RenderItems(s: Section): (r: Option<seq<Shown>>)
    ensures r.Some? <==> s.items.Some? && s.items.value != [] && (IsDetailed(s.kind) || IsChipped(s.kind))
    ensures r.Some? ==> |r.value| == |s.items.value|
    ensures r.Some? && IsDetailed(s.kind) ==>
      forall k :: 0 <= k < |r.value| ==> r.value[k] == DetailOf(s.items.value[k])
    ensures r.Some? && IsChipped(s.kind) ==>
      forall k :: 0 <= k < |r.value| ==> r.value[k] == ChipOf(s.items.value[k])
  {
    match s.items
    case None => None
    case Some(items) =>
      if items == [] then None
      else if IsDetailed(s.kind) then Some(Details(items))
      else if IsChipped(s.kind) then Some(Chips(items))
      else None
  }

  /** The heading, date and organisation of a detail block fall back from the
      experience field to the education field, and are empty only when both
      are. */
  lemma DetailFallbacks(i: Item)
    ensures Get(i, Position) != "" ==> DetailOf(i).heading == Get(i, Position)
    ensures Get(i, Position) == "" ==> DetailOf(i).heading == Get(i, Degree)
    ensures Get(i, Duration) != "" ==> DetailOf(i).date == Get(i, Duration)
    ensures Get(i, Duration) == "" ==> DetailOf(i).date == Get(i, Year)
    ensures Get(i, Company) != "" ==> DetailOf(i).organisation == Get(i, Company)
    ensures Get(i, Company) == "" ==> DetailOf(i).organisation == Get(i, Institution)
    ensures DetailOf(i).heading == "" <==> Get(i, Position) == "" && Get(i, Degree) == ""
  {
  }

  /** What a placed section shows under its title: nothing, its items, or a
      `TypeError` when a template maps over items the section lacks. */
  datatype Body = NoBody | Items(shown: seq<Shown>) | Fails

  datatype Placed = Placed(section: Section, body: Body)

  /** How a region renders its sections. */
  datatype Placement = Standard | ModernSidebar | CreativeSidebar | CreativeMain

  function FromOption(o: Option<seq<Shown>>): Body {
    match o case None => NoBody case Some(v) => Items(v)
  }

  /** The raw experience and education blocks of the Creative design, which
      use no fallbacks. */
  function CreativeExperience(i: Item): Shown {
    Detail(Get(i, Position), Get(i, Duration), Get(i, Company), Get(i, Description))
  }

  function CreativeEducation(i: Item): Shown {
    Detail(Get(i, Degree), Get(i, Year), Get(i, Institution), "")
  }

  function MapShown(items: seq<Item>, f: Item -> Shown): (r: seq<Shown>)
    ensures |r| == |items|
    ensures forall k :: 0 <= k < |r| ==> r[k] == f(items[k])
  {
    if items == [] then [] else [f(items[0])] + MapShown(items[1..], f)
  }

  /** `items.map(f)` where `items` may be missing. */
  function MapItems(s: Section, f: Item -> Shown): Body {
    match s.items case None => Fails case Some(items) => Items(MapShown(items, f))
  }

  function BodyOf(s: Section, how: Placement): Body {
    match how
    case Standard => FromOption(RenderItems(s))
    case ModernSidebar =>
      if IsChipped(s.kind) then MapItems(s, ChipOf) else FromOption(RenderItems(s))
    case CreativeSidebar =>
      if s.kind == "education" then MapItems(s, CreativeEducation) else MapItems(s, ChipOf)
    case CreativeMain =>
      if s.kind == "experience" then MapItems(s, CreativeExperience) else FromOption(RenderItems(s))
  }

  /** In the Modern Clean sidebar, skills and list sections map their items
      to chips directly, so a section without `items` throws; every other
      kind renders as in the standard column. */
  lemma ModernSidebarBody(s: Section)
    ensures IsChipped(s.kind) && s.items.None? ==> BodyOf(s, ModernSidebar) == Fails
    ensures IsChipped(s.kind) && s.items.Some? ==>
      BodyOf(s, ModernSidebar).Items? && |BodyOf(s, ModernSidebar).shown| == |s.items.value| &&
      forall k :: 0 <= k < |s.items.value| ==> BodyOf(s, ModernSidebar).shown[k] == ChipOf(s.items.value[k])
    ensures !IsChipped(s.kind) ==> BodyOf(s, ModernSidebar) == BodyOf(s, Standard)
  {
  }

  /** In the Creative sidebar every section maps its items, education to the
      raw education block and every other kind to chips: a section without
      `items` throws, and an empty list shows an empty body, not none. */
  lemma CreativeSidebarBody(s: Section)
    ensures s.items.None? ==> BodyOf(s, CreativeSidebar) == Fails
    ensures s.items.Some? ==>
      BodyOf(s, CreativeSidebar).Items? && |BodyOf(s, CreativeSidebar).shown| == |s.items.value|
    ensures s.items.Some? && s.kind == "education" ==>
      forall k :: 0 <= k < |s.items.value| ==>
        BodyOf(s, CreativeSidebar).shown[k] == CreativeEducation(s.items.value[k])
    ensures s.items.Some? && s.kind != "education" ==>
      forall k :: 0 <= k < |s.items.value| ==> BodyOf(s, CreativeSidebar).shown[k] == ChipOf(s.items.value[k])
  {
  }

  /** In the Creative main column experience sections map their items to the
      raw experience block, so a section without `items` throws; every other
      kind renders as in the standard column. */
  lemma CreativeMainBody(s: Section)
    ensures s.kind == "experience" && s.items.None? ==> BodyOf(s, CreativeMain) == Fails
    ensures s.kind == "experience" && s.items.Some? ==>
      BodyOf(s, CreativeMain).Items? && |BodyOf(s, CreativeMain).shown| == |s.items.value| &&
      forall k :: 0 <= k < |s.items.value| ==>
        BodyOf(s, CreativeMain).shown[k] == CreativeExperience(s.items.value[k])
    ensures s.kind != "experience" ==> BodyOf(s, CreativeMain) == BodyOf(s, Standard)
  {
  }

  /** The Creative experience block has no fallbacks: an item with a degree
      but no position gets an empty heading there, where the standard block
      shows the degree. */
  lemma CreativeNoFallback(i: Item)
    requires Get(i, Position) == "" && Get(i, Degree) != ""
    ensures CreativeExperience(i).heading == ""
    ensures DetailOf(i).heading == Get(i, Degree) != CreativeExperience(i).heading
  {
    DetailFallbacks(i);
  }

  function PlaceAll(sections: seq<Section>, how: Placement): (r: seq<Placed>)
    ensures |r| == |sections|
    ensures forall k :: 0 <= k < |r| ==> r[k] == Placed(sections[k], BodyOf(sections[k], how))
  {
    if sections == [] then [] else [Placed(sections[0], BodyOf(sections[0], how))] + PlaceAll(sections[1..], how)
  }

  function SectionsOf(ps: seq<Placed>): (r: seq<Section>)
    ensures |r| == |ps|
    ensures forall k :: 0 <= k < |r| ==> r[k] == ps[k].section
  {
    if ps == [] then [] else [ps[0].section] + SectionsOf(ps[1..])
  }

  /** Placing sections keeps exactly those sections in the same order. */
  lemma PlaceAllSections(sections: seq<Section>, how: Placement)
    ensures SectionsOf(PlaceAll(sections, how)) == sections
  {
    var r := SectionsOf(PlaceAll(sections, how));
    assert |r| == |sections|;
    forall k | 0 <= k < |r| ensures r[k] == sections[k] {
    }
  }

  /** `sections.filter(s => (s.type in kinds) == keep)` */
  function Where(sections: seq<Section>, kinds: set<string>, keep: bool): (r: seq<Section>)
    ensures |r| <= |sections|
    ensures forall s :: s in r <==> s in sections && (s.kind in kinds) == keep
  {
    if sections == [] then []
    else (if (sections[0].kind in kinds) == keep then [sections[0]] else []) + Where(sections[1..], kinds, keep)
  }

  /** `s` is a merge of `a` and `b`: both are subsequences of `s` that
      together use each position of `s` exactly once. */
  predicate Interleaves<T(==)>(s: seq<T>, a: seq<T>, b: seq<T>)
    decreases |s|
  {
    if s == [] then a == [] && b == []
    else
      (a != [] && a[0] == s[0] && Interleaves(s[1..], a[1..], b)) ||
      (b != [] && b[0] == s[0] && Interleaves(s[1..], a, b[1..]))
  }

  /** A filter and its complement interleave to the original list: they
      partition it and each keeps its order. */
  lemma {:induction false} WhereInterleaves(sections: seq<Section>, kinds: set<string>)
    ensures Interleaves(sections, Where(sections, kinds, true), Where(sections, kinds, false))
  {
    if sections != [] {
      WhereInterleaves(sections[1..], kinds);
      var a, b := Where(sections, kinds, true), Where(sections, kinds, false);
      if sections[0].kind in kinds {
        assert a == [sections[0]] + Where(sections[1..], kinds, true);
        assert a[1..] == Where(sections[1..], kinds, true);
        assert b == Where(sections[1..], kinds, false);
      } else {
        assert b == [sections[0]] + Where(sections[1..], kinds, false);
        assert b[1..] == Where(sections[1..], kinds, false);
        assert a == Where(sections[1..], kinds, true);
      }
    }
  }

  /** An interleaving loses and duplicates nothing. */
  lemma {:induction false} InterleavesMultiset<T>(s: seq<T>, a: seq<T>, b: seq<T>)
    requires Interleaves(s, a, b)
    ensures |s| == |a| + |b|
    ensures multiset(s) == multiset(a) + multiset(b)
    decreases |s|
  {
    if s != [] {
      assert s == [s[0]] + s[1..];
      if a != [] && a[0] == s[0] && Interleaves(s[1..], a[1..], b) {
        InterleavesMultiset(s[1..], a[1..], b);
        assert a == [a[0]] + a[1..];
      } else {
        InterleavesMultiset(s[1..], a, b[1..]);
        assert b == [b[0]] + b[1..];
      }
    }
  }

  // ---------------------------------------------------------------------
  // Pages
  // ---------------------------------------------------------------------

  datatype Profile = Profile(fullName: string, role: string, email: string, phone: string,
                             linkedin: string, location: string, photo: string)

  datatype ViewerData = ViewerData(personalInfo: Profile, summary: string, sections: seq<Section>)

  datatype ContactField = EmailLine | PhoneLine | LinkedinLine | LocationLine

  function ContactValue(p: Profile, f: ContactField): string {
    match f
    case EmailLine => p.email
    case PhoneLine => p.phone
    case LinkedinLine => p.linkedin
    case LocationLine => p.location
  }

  datatype ContactLine = ContactLine(field: ContactField, value: string)

  /** The contact lines a design lists, each only when its value is present. */
  function Contacts(p: Profile, fields: seq<ContactField>): (r: seq<ContactLine>)
    ensures |r| <= |fields|
    ensures forall line :: line in r ==> line.field in fields && line.value == ContactValue(p, line.field) && line.value != ""
    ensures forall f :: f in fields && ContactValue(p, f) != "" ==> ContactLine(f, ContactValue(p, f)) in r
  {
    if fields == [] then []
    else ContactLines(p, fields[0]) + Contacts(p, fields[1..])
  }

  /** The line for one field: none when its value is empty. */
  function ContactLines(p: Profile, f: ContactField): seq<ContactLine> {
    if ContactValue(p, f) != "" then [ContactLine(f, ContactValue(p, f))] else []
  }

  /** The lines keep the order of the fields: the contacts of two field
      lists one after the other are those of each list in turn. */
  lemma {:induction false} ContactsAppend(p: Profile, a: seq<ContactField>, b: seq<ContactField>)
    ensures Contacts(p, a + b) == Contacts(p, a) + Contacts(p, b)
  {
    if a == [] {
      assert a + b == b;
    } else {
      assert (a + b)[1..] == a[1..] + b;
      ContactsAppend(p, a[1..], b);
      assert ContactLines(p, a[0]) + (Contacts(p, a[1..]) + Contacts(p, b))
        == (ContactLines(p, a[0]) + Contacts(p, a[1..])) + Contacts(p, b);
    }
  }

  datatype Design = ModernClean | Professional | Creative | Executive | Minimal

  /** `renderTemplate`: the design for a `templateId`, whose default is
      `modern`; an unknown id falls back to ModernClean. */
  function SelectDesign(templateId: Option<string>): Design {
    var id := match templateId case None => "modern" case Some(t) => t;
    if id == "modern" then ModernClean
    else if id == "professional" then Professional
    else if id == "creative" then Creative
    else if id == "executive" then Executive
    else if id == "minimal" then Minimal
    else ModernClean
  }

  lemma DesignSelection(templateId: Option<string>)
    ensures SelectDesign(templateId) == Professional <==> templateId == Some("professional")
    ensures SelectDesign(templateId) == Creative <==> templateId == Some("creative")
    ensures SelectDesign(templateId) == Executive <==> templateId == Some("executive")
    ensures SelectDesign(templateId) == Minimal <==> templateId == Some("minimal")
    ensures templateId.None? ==> SelectDesign(templateId) == ModernClean
  {
  }

  /** The contact fields each design lists, in order. */
  function ContactFields(d: Design): seq<ContactField> {
    match d
    case ModernClean => [EmailLine, PhoneLine, LinkedinLine, LocationLine]
    case Professional => [EmailLine, PhoneLine, LinkedinLine]
    case Creative => [EmailLine, PhoneLine, LinkedinLine, LocationLine]
    case Executive => [EmailLine, PhoneLine, LinkedinLine]
    case Minimal => [EmailLine, PhoneLine, LocationLine]
  }

  /** The Creative sidebar's picture: the photo, or the first character of the
      name (empty for an empty name). */
  datatype Picture = Photo(url: string) | Initial(letter: string)

  datatype Page =
    | SplitPage(design: Design, name: string, role: string, contacts: seq<ContactLine>, picture: Picture,
                summary: Option<string>, main: seq<Placed>, sidebar: seq<Placed>)
    | SinglePage(design: Design, name: string, role: string, contacts: seq<ContactLine>, picture: Picture,
                 summary: Option<string>, main: seq<Placed>)

  const CreativeSidebarKinds: set<string> := {"skills", "list", "education"}
  const ModernMainKinds: set<string> := {"experience"}

  function PictureOf(d: Design, p: Profile): Picture {
    if p.photo != "" then Photo(p.photo)
    else if d == Creative then Initial(if p.fullName == "" then "" else [p.fullName[0]])
    else Initial("")
  }

  /** A photo is shown whenever there is one; without it only the Creative
      design shows an initial, the name's first character (none for an
      empty name), and the others show an empty one. */
  lemma PictureRules(d: Design, p: Profile)
    ensures p.photo != "" ==> PictureOf(d, p) == Photo(p.photo)
    ensures p.photo == "" ==> PictureOf(d, p).Initial?
    ensures p.photo == "" && d == Creative && p.fullName != "" ==>
      PictureOf(d, p).Initial? && |PictureOf(d, p).letter| == 1 && PictureOf(d, p).letter == p.fullName[..1]
    ensures p.photo == "" && (d != Creative || p.fullName == "") ==> PictureOf(d, p) == Initial("")
  {
    if p.photo == "" && d == Creative && p.fullName != "" {
      assert [p.fullName[0]] == p.fullName[..1];
    }
  }

  /** `TemplateViewer` */
  function View(data: ViewerData, templateId: Option<string>): Page {
    var d := SelectDesign(templateId);
    var p := data.personalInfo;
    var contacts := Contacts(p, ContactFields(d));
    var summary := if data.summary != "" then Some(data.summary) else None;
    match d
    case ModernClean =>
      SplitPage(d, p.fullName, p.role, contacts, PictureOf(d, p), summary,
                PlaceAll(Where(data.sections, ModernMainKinds, true), Standard),
                PlaceAll(Where(data.sections, ModernMainKinds, false), ModernSidebar))
    case Creative =>
      SplitPage(d, p.fullName, p.role, contacts, PictureOf(d, p), summary,
                PlaceAll(Where(data.sections, CreativeSidebarKinds, false), CreativeMain),
                PlaceAll(Where(data.sections, CreativeSidebarKinds, true), CreativeSidebar))
    case _ =>
      SinglePage(d, p.fullName, p.role, contacts, PictureOf(d, p), summary, PlaceAll(data.sections, Standard))
  }

  /** Splitting `sections` on `kinds` into two placed columns: the first
      holds exactly the sections of those kinds, the second the others, and
      the two interleave to the original order. */
  lemma SplitColumns(sections: seq<Section>, kinds: set<string>, inHow: Placement, outHow: Placement)
    ensures forall s :: s in SectionsOf(PlaceAll(Where(sections, kinds, true), inHow)) ==>
                          s in sections && s.kind in kinds
    ensures forall s :: s in SectionsOf(PlaceAll(Where(sections, kinds, false), outHow)) ==>
                          s in sections && s.kind !in kinds
    ensures Interleaves(sections, SectionsOf(PlaceAll(Where(sections, kinds, true), inHow)),
                        SectionsOf(PlaceAll(Where(sections, kinds, false), outHow)))
  {
    PlaceAllSections(Where(sections, kinds, true), inHow);
    PlaceAllSections(Where(sections, kinds, false), outHow);
    WhereInterleaves(sections, kinds);
  }

  /** ModernClean puts every `experience` section in the main column and every
      other one in the sidebar, each in the order of `data.sections`. */
  lemma ModernCleanRegions(data: ViewerData, templateId: Option<string>)
    requires SelectDesign(templateId) == ModernClean
    ensures View(data, templateId).SplitPage?
    ensures var page := View(data, templateId);
      (forall s :: s in SectionsOf(page.main) ==> s in data.sections && s.kind == "experience") &&
      (forall s :: s in SectionsOf(page.sidebar) ==> s in data.sections && s.kind != "experience") &&
      Interleaves(data.sections, SectionsOf(page.main), SectionsOf(page.sidebar))
  {
    var page := View(data, templateId);
    assert page.main == PlaceAll(Where(data.sections, ModernMainKinds, true), Standard);
    assert page.sidebar == PlaceAll(Where(data.sections, ModernMainKinds, false), ModernSidebar);
    SplitColumns(data.sections, ModernMainKinds, Standard, ModernSidebar);
  }

  /** Creative puts `skills`, `list` and `education` sections in the sidebar
      and every other one in the main column, each in the original order. */
  lemma CreativeRegions(data: ViewerData)
    ensures View(data, Some("creative")).SplitPage?
    ensures var page := View(data, Some("creative"));
      (forall s :: s in SectionsOf(page.sidebar) ==> s in data.sections && s.kind in CreativeSidebarKinds) &&
      (forall s :: s in SectionsOf(page.main) ==> s in data.sections && s.kind !in CreativeSidebarKinds) &&
      Interleaves(data.sections, SectionsOf(page.sidebar), SectionsOf(page.main))
  {
    DesignSelection(Some("creative"));
    var page := View(data, Some("creative"));
    assert page.sidebar == PlaceAll(Where(data.sections, CreativeSidebarKinds, true), CreativeSidebar);
    assert page.main == PlaceAll(Where(data.sections, CreativeSidebarKinds, false), CreativeMain);
    SplitColumns(data.sections, CreativeSidebarKinds, CreativeSidebar, CreativeMain);
  }

  /** Professional, Executive and Minimal render every section in one column,
      in the original order, through `renderItems`. */
  lemma SingleColumnRegions(data: ViewerData, templateId: Option<string>)
    requires SelectDesign(templateId) in {Professional, Executive, Minimal}
    ensures View(data, templateId).SinglePage?
    ensures SectionsOf(View(data, templateId).main) == data.sections
    ensures forall p :: p in View(data, templateId).main ==> p.body == FromOption(RenderItems(p.section))
  {
    PlaceAllSections(data.sections, Standard);
  }

  /** Every design shows the summary exactly when it is present, and a contact
      line exactly when the design lists that field and its value is present. */
  lemma OptionalBlocks(data: ViewerData, templateId: Option<string>, f: ContactField)
    ensures View(data, templateId).summary.Some? <==> data.summary != ""
    ensures View(data, templateId).summary.Some? ==> View(data, templateId).summary.value == data.summary
    ensures ContactLine(f, ContactValue(data.personalInfo, f)) in View(data, templateId).contacts <==>
      f in ContactFields(SelectDesign(templateId)) && ContactValue(data.personalInfo, f) != ""
  {
  }
}
