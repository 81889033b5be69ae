/** The resume editor: the content wizard, the editing step with its
    reorderable section list, the live preview and the exports. */
module BuildResume {
  import opened Text
  import opened Content
  import opened Wrappers
  import opened ResumeRenderer
  import Wizard
  import AtsScorer
  import AiService

  // ---------------------------------------------------------------------
  // Content edits
  // ---------------------------------------------------------------------

  /** The edits `handleChange` receives: `skills`, or one personal field. */
  datatype Change = SkillsChange(value: string) | PersonalChange(field: PersonalField, value: string)

  /** `handleChange(section, field, value)` */
  function ApplyChange(d: Document, c: Change): (r: Document)
    ensures c.SkillsChange? ==> r == d.(skills := c.value)
    ensures c.PersonalChange? ==>
      r.experience == d.experience && r.education == d.education && r.skills == d.skills &&
      r.publications == d.publications && r.awards == d.awards &&
      GetPersonal(r.personal, c.field) == c.value &&
      forall g :: g != c.field ==> GetPersonal(r.personal, g) == GetPersonal(d.personal, g)
  {
    match c
    case SkillsChange(v) => d.(skills := v)
    case PersonalChange(f, v) => d.(personal := SetPersonal(d.personal, f, v))
  }

  /** The wizard's four tabs, in order. */
  const ResumeTabs: seq<string> := ["personal", "experience", "education", "skills"]

  /** The content wizard. */
  class ContentWizard {
    var activeTab: nat
    var data: Document
    /** Set once Next is pressed on the last tab (`onNext`). */
    var finished: bool

    predicate Valid()
      reads this
    {
      activeTab < |ResumeTabs|
    }

    constructor(initial: Document)
      ensures Valid() && activeTab == 0 && data == initial && !finished
    {
      activeTab := 0;
      data := initial;
      finished := false;
    }

    method Next()
      requires Valid()
      modifies this
      ensures Valid() && data == old(data)
      ensures old(activeTab) < |ResumeTabs| - 1 ==> activeTab == old(activeTab) + 1 && finished == old(finished)
      ensures old(activeTab) == |ResumeTabs| - 1 ==> activeTab == old(activeTab) && finished
    {
      match Wizard.Forward(|ResumeTabs|, activeTab)
      case Goto(j) => activeTab := j;
      case Finish => finished := true;
    }

    method Back()
      requires Valid()
      modifies this
      ensures Valid() && data == old(data) && finished == old(finished)
      ensures activeTab == Wizard.Backward(old(activeTab))
    {
      activeTab := Wizard.Backward(activeTab);
    }

    method HandleChange(c: Change)
      modifies this
      ensures data == ApplyChange(old(data), c)
      ensures activeTab == old(activeTab) && finished == old(finished)
    {
      data := ApplyChange(data, c);
    }

    /** "+ Add Position" */
    method AddExperience()
      modifies this
      ensures data == old(data).(experience := old(data).experience + [BlankExperience])
      ensures activeTab == old(activeTab) && finished == old(finished)
    {
      data := data.(experience := data.experience + [BlankExperience]);
    }

    /** "Remove" on the `i`-th position. */
    method RemoveExperience(i: nat)
      requires i < |data.experience|
      modifies this
      ensures data == old(data).(experience := RemoveAt(old(data).experience, i))
      ensures activeTab == old(activeTab) && finished == old(finished)
    {
      data := data.(experience := RemoveAt(data.experience, i));
    }

    /** An input of the `i`-th position. */
    method EditExperience(i: nat, f: ExperienceField, v: string)
      requires i < |data.experience|
      modifies this
      ensures data == old(data).(experience := old(data).experience[i := SetExperience(old(data).experience[i], f, v)])
      ensures activeTab == old(activeTab) && finished == old(finished)
    {
      data := data.(experience := data.experience[i := SetExperience(data.experience[i], f, v)]);
    }

    /** "+ Add Education" */
    method AddEducation()
      modifies this
      ensures data == old(data).(education := old(data).education + [BlankEducation])
      ensures activeTab == old(activeTab) && finished == old(finished)
    {
      data := data.(education := data.education + [BlankEducation]);
    }

    method RemoveEducation(i: nat)
      requires i < |data.education|
      modifies this
      ensures data == old(data).(education := RemoveAt(old(data).education, i))
      ensures activeTab == old(activeTab) && finished == old(finished)
    {
      data := data.(education := RemoveAt(data.education, i));
    }

    method EditEducation(i: nat, f: EducationField, v: string)
      requires i < |data.education|
      modifies this
      ensures data == old(data).(education := old(data).education[i := SetEducation(old(data).education[i], f, v)])
      ensures activeTab == old(activeTab) && finished == old(finished)
    {
      data := data.(education := data.education[i := SetEducation(data.education[i], f, v)]);
    }
  }

  /** Editing one entry changes that entry's field and nothing else in the
      list. */
  lemma EditOneEntry(es: seq<Experience>, i: nat, f: ExperienceField, v: string)
    requires i < |es|
    ensures |es[i := SetExperience(es[i], f, v)]| == |es|
    ensures GetExperience(es[i := SetExperience(es[i], f, v)][i], f) == v
    ensures forall g :: g != f ==> GetExperience(es[i := SetExperience(es[i], f, v)][i], g) == GetExperience(es[i], g)
    ensures forall k :: 0 <= k < |es| && k != i ==> es[i := SetExperience(es[i], f, v)][k] == es[k]
  {
  }

  /** Removing entry `i` and then re-inserting it gives back the list. */
  lemma RemoveThenInsert<T>(s: seq<T>, i: nat)
    requires i < |s|
    ensures Insert(RemoveAt(s, i), i, s[i]) == s
  {
    assert RemoveAt(s, i)[..i] == s[..i];
    assert RemoveAt(s, i)[i..] == s[i + 1..];
  }

  // ---------------------------------------------------------------------
  // Section order
  // ---------------------------------------------------------------------

  /** The editing step's initial section order. */
  const InitialOrder: seq<string> := [SummaryId, ExperienceId, EducationId, SkillsId]

  /** `s` with `x` inserted before position `i`. */
  function Insert<T>(s: seq<T>, i: nat, x: T): (r: seq<T>)
    requires i <= |s|
    ensures |r| == |s| + 1
    ensures r[i] == x
    ensures forall k :: 0 <= k < i ==> r[k] == s[k]
    ensures forall k :: i < k < |r| ==> r[k] == s[k - 1]
  {
    s[..i] + [x] + s[i..]
  }

  /** dnd-kit's `arrayMove`: take the item at `from` out and put it back at
      position `to`. */
  function ArrayMove<T>(s: seq<T>, from: nat, to: nat): (r: seq<T>)
    requires from < |s| && to < |s|
    ensures |r| == |s|
    ensures r[to] == s[from]
  {
    Insert(RemoveAt(s, from), to, s[from])
  }

  /** Moving an item onto its own place changes nothing. */
  lemma ArrayMoveSame<T>(s: seq<T>, i: nat)
    requires i < |s|
    ensures ArrayMove(s, i, i) == s
  {
    RemoveThenInsert(s, i);
  }

  /** A move is a permutation. */
  lemma ArrayMovePermutation<T>(s: seq<T>, from: nat, to: nat)
    requires from < |s| && to < |s|
    ensures multiset(ArrayMove(s, from, to)) == multiset(s)
  {
    var rest := RemoveAt(s, from);
    assert s == s[..from] + [s[from]] + s[from + 1..];
    assert rest == s[..from] + s[from + 1..];
    assert ArrayMove(s, from, to) == rest[..to] + [s[from]] + rest[to..];
    assert rest == rest[..to] + rest[to..];
    calc {
      multiset(ArrayMove(s, from, to));
      multiset(rest[..to]) + multiset([s[from]]) + multiset(rest[to..]);
      multiset(rest) + multiset([s[from]]);
      multiset(s[..from]) + multiset(s[from + 1..]) + multiset([s[from]]);
      multiset(s);
    }
  }

  /** Moving back undoes a move. */
  lemma ArrayMoveRoundTrip<T>(s: seq<T>, from: nat, to: nat)
    requires from < |s| && to < |s|
    ensures ArrayMove(ArrayMove(s, from, to), to, from) == s
  {
    var m := ArrayMove(s, from, to);
    assert RemoveAt(m, to) == RemoveAt(s, from);
    RemoveThenInsert(s, from);
  }

  /** `items.findIndex(item => item.id === x)` for a present id. */
  function FindIndex(s: seq<string>, x: string): (r: nat)
    requires x in s
    ensures r < |s| && s[r] == x
    ensures forall k :: 0 <= k < r ==> s[k] != x
  {
    if s[0] == x then 0 else 1 + FindIndex(s[1..], x)
  }

  predicate Distinct(s: seq<string>) {
    forall i, j :: 0 <= i < j < |s| ==> s[i] != s[j]
  }

  /** A permutation of a duplicate-free list is duplicate-free. */
  lemma PermutationDistinct(s: seq<string>, t: seq<string>)
    requires Distinct(s) && multiset(s) == multiset(t)
    ensures Distinct(t)
  {
    forall i, j | 0 <= i < j < |t| ensures t[i] != t[j] {
      if t[i] == t[j] {
        assert multiset(t)[t[i]] >= 2 by {
          assert t == t[..i] + [t[i]] + t[i + 1..j] + [t[j]] + t[j + 1..];
        }
        DistinctCount(s, t[i]);
        assert false;
      }
    }
  }

  lemma {:induction false} DistinctCount(s: seq<string>, x: string)
    requires Distinct(s)
    ensures multiset(s)[x] <= 1
  {
    if s != [] {
      assert s == [s[0]] + s[1..];
      assert Distinct(s[1..]) by {
        forall i, j | 0 <= i < j < |s[1..]| ensures s[1..][i] != s[1..][j] {
          assert s[1..][i] == s[i + 1] && s[1..][j] == s[j + 1];
        }
      }
      DistinctCount(s[1..], x);
      if s[0] == x {
        assert x !in s[1..] by {
          forall k | 0 <= k < |s[1..]| ensures s[1..][k] != x {
            assert s[1..][k] == s[k + 1];
          }
        }
      }
    }
  }

  // ---------------------------------------------------------------------
  // Preview and exports
  // ---------------------------------------------------------------------

  /** The ids the preview's switch knows; others render nothing. */
  predicate KnownId(id: string) {
    id == SummaryId || id == ExperienceId || id == EducationId || id == SkillsId
  }

  function KnownIds(order: seq<string>): (r: seq<string>)
    ensures forall id :: id in r <==> id in order && KnownId(id)
  {
    if order == [] then []
    else (if KnownId(order[0]) then [order[0]] else []) + KnownIds(order[1..])
  }

  datatype Preview = Preview(borderColor: string, nameColor: string, name: string, title: string,
                             email: string, phone: string, sections: seq<Block>)

  /** The editing step's preview. */
  function PreviewOf(d: Document, template: string, order: seq<string>): Preview {
    Preview(if template == "modern" then "#8b5cf6" else "#333",
            if template == "modern" then "#8b5cf6" else "#000",
            if d.personal.fullName != "" then d.personal.fullName else "Your Name",
            if d.personal.title != "" then d.personal.title else "Your Job Title",
            d.personal.email, d.personal.phone,
            RenderSections(d, KnownIds(order)))
  }

  /** The preview renders, in the order given, exactly the known ids that have
      content, and placeholders stand in for an empty name and title. */
  lemma PreviewSections(d: Document, template: string, order: seq<string>)
    ensures BlockIds(PreviewOf(d, template, order).sections) == ShownIds(d, KnownIds(order))
    ensures forall id :: id in BlockIds(PreviewOf(d, template, order).sections) <==>
      id in order && KnownId(id) && HasContent(d, id)
    ensures PreviewOf(d, template, order).name == "Your Name" <==> d.personal.fullName == "" || d.personal.fullName == "Your Name"
  {
    RenderSectionsIds(d, KnownIds(order));
    forall id ensures id in ShownIds(d, KnownIds(order)) <==> id in order && KnownId(id) && HasContent(d, id) {
      ShownIdsMembers(d, KnownIds(order), id);
    }
  }

  /** `fullName || 'resume'` plus the extension. */
  function FileName(d: Document, extension: string): (r: string)
    ensures d.personal.fullName != "" ==> r == d.personal.fullName + extension
    ensures d.personal.fullName == "" ==> r == "resume" + extension
  {
    (if d.personal.fullName != "" then d.personal.fullName else "resume") + extension
  }

  /** PDF and JPG export: nothing without a preview to capture or when the
      capture fails; otherwise a file with the resume's name. */
  function ExportImage(d: Document, previewPresent: bool, captured: bool, extension: string): (r: Option<string>)
    ensures !previewPresent ==> r.None?
    ensures r.Some? <==> previewPresent && captured
    ensures r.Some? ==> r.value == FileName(d, extension)
  {
    if !previewPresent then None
    else if !captured then None
    else Some(FileName(d, extension))
  }

  function Header(d: Document): string {
    "Name: " + d.personal.fullName + "\nTitle: " + d.personal.title +
    "\nContact: " + d.personal.email + " | " + d.personal.phone + "\n\n"
  }

  function ExperienceEntry(e: Experience): string {
    e.role + " at " + e.company + " (" + e.start + " - " + e.end + ")\n" + e.description + "\n\n"
  }

  function EducationEntry(e: Education): string {
    e.degree + " in " + e.field + " from " + e.school + " (" + e.year + ")\n"
  }

  /** Entries serialised one after the other (`forEach` appending to
      `text`). */
  function Serialise<T>(es: seq<T>, entry: T -> string): string {
    if es == [] then [] else Serialise(es[..|es| - 1], entry) + entry(es[|es| - 1])
  }

  function ExperienceLines(es: seq<Experience>): string {
    Serialise(es, ExperienceEntry)
  }

  function EducationLines(es: seq<Education>): string {
    Serialise(es, EducationEntry)
  }

  function SummaryPart(d: Document): string {
    if d.personal.summary != "" then "SUMMARY\n" + d.personal.summary + "\n\n" else ""
  }

  function ExperiencePart(d: Document): string {
    if |d.experience| > 0 then "EXPERIENCE\n" + ExperienceLines(d.experience) else ""
  }

  function EducationPart(d: Document): string {
    if |d.education| > 0 then "EDUCATION\n" + EducationLines(d.education) + "\n" else ""
  }

  function SkillsPart(d: Document): string {
    if d.skills != "" then "SKILLS\n" + d.skills + "\n" else ""
  }

  /** Each block is present exactly when its content is, opens with its
      heading, and the education block ends with a blank line. */
  lemma Blocks(d: Document)
    ensures SummaryPart(d) == "" <==> d.personal.summary == ""
    ensures SummaryPart(d) != "" ==> |SummaryPart(d)| >= 8 && SummaryPart(d)[..8] == "SUMMARY\n"
    ensures ExperiencePart(d) == "" <==> d.experience == []
    ensures ExperiencePart(d) != "" ==> |ExperiencePart(d)| >= 11 && ExperiencePart(d)[..11] == "EXPERIENCE\n"
    ensures EducationPart(d) == "" <==> d.education == []
    ensures EducationPart(d) != "" ==>
      |EducationPart(d)| >= 12 && EducationPart(d)[..10] == "EDUCATION\n" &&
      EducationPart(d)[|EducationPart(d)| - 2..] == "\n\n"
    ensures SkillsPart(d) == "" <==> d.skills == ""
    ensures SkillsPart(d) != "" ==>
      |SkillsPart(d)| >= 8 && SkillsPart(d)[..7] == "SKILLS\n" && SkillsPart(d)[7..|SkillsPart(d)| - 1] == d.skills
  {
    if |d.education| > 0 {
      var es := d.education;
      var lines := EducationLines(es);
      var last := EducationEntry(es[|es| - 1]);
      assert lines == Serialise(es[..|es| - 1], EducationEntry) + last;
      assert last[|last| - 1] == '\n';
      assert lines[|lines| - 1] == '\n';
    }
  }

  /** The plain-text export: the header, then the summary, experience,
      education and skills blocks, each only when it has content. */
  function ResumeText(d: Document): string {
    Header(d) + SummaryPart(d) + ExperiencePart(d) + EducationPart(d) + SkillsPart(d)
  }

  /** The export always starts with the header, whose first line names the
      person. */
  lemma ResumeTextStartsWithHeader(d: Document)
    ensures |Header(d)| <= |ResumeText(d)|
    ensures ResumeText(d)[..|Header(d)|] == Header(d)
    ensures ResumeText(d)[..6] == "Name: "
  {
    var rest := SummaryPart(d) + ExperiencePart(d) + EducationPart(d) + SkillsPart(d);
    assert ResumeText(d) == Header(d) + rest;
  }

  /** An empty resume exports as the header alone. */
  lemma EmptyResumeText()
    ensures ResumeText(EmptyDocument) == "Name: \nTitle: \nContact:  | \n\n"
  {
  }

  /** Serialising a list of entries serialises its parts in order. */
  lemma {:induction false} SerialiseAppend<T>(a: seq<T>, b: seq<T>, entry: T -> string)
    ensures Serialise(a + b, entry) == Serialise(a, entry) + Serialise(b, entry)
    decreases |b|
  {
    if b == [] {
      assert a + b == a;
    } else {
      var b' := b[..|b| - 1];
      assert (a + b)[..|a + b| - 1] == a + b';
      assert (a + b)[|a + b| - 1] == b[|b| - 1];
      SerialiseAppend(a, b', entry);
    }
  }

  /** Each entry contributes exactly its own serialisation, in list order. */
  lemma {:induction false} SerialiseEntries<T>(es: seq<T>, entry: T -> string, k: nat)
    requires k < |es|
    ensures Serialise(es, entry) == Serialise(es[..k], entry) + entry(es[k]) + Serialise(es[k + 1..], entry)
  {
    assert es == es[..k] + [es[k]] + es[k + 1..];
    SerialiseAppend(es[..k] + [es[k]], es[k + 1..], entry);
    SerialiseAppend(es[..k], [es[k]], entry);
    assert [es[k]][..0] == [];
  }

  /** The last serialised line of every experience entry is its description. */
  lemma ExperienceEntryShape(e: Experience)
    ensures |ExperienceEntry(e)| >= 2 + |e.description|
    ensures ExperienceEntry(e)[|ExperienceEntry(e)| - |e.description| - 2..] == e.description + "\n\n"
  {
  }

  /** The editing step. */
  class Editor {
    var data: Document
    var sectionOrder: seq<string>
    var isOptimizing: bool
    var atsScore: nat
    var recommendations: seq<AtsScorer.Advice>

    predicate Valid()
      reads this
    {
      Distinct(sectionOrder) && multiset(sectionOrder) == multiset(InitialOrder)
    }

    constructor(initial: Document)
      ensures Valid() && data == initial && sectionOrder == InitialOrder && !isOptimizing
      ensures atsScore == 0 && recommendations == []
    {
      data := initial;
      sectionOrder := InitialOrder;
      isOptimizing := false;
      atsScore := 0;
      recommendations := [];
    }

    /** `handleDragEnd`: `active` dropped on `over`. */
    method DragEnd(active: string, over: string)
      requires Valid() && active in sectionOrder && over in sectionOrder
      modifies this
      ensures Valid() && data == old(data) && isOptimizing == old(isOptimizing)
      ensures atsScore == old(atsScore) && recommendations == old(recommendations)
      ensures active == over ==> sectionOrder == old(sectionOrder)
      ensures active != over ==>
        sectionOrder == ArrayMove(old(sectionOrder), FindIndex(old(sectionOrder), active), FindIndex(old(sectionOrder), over))
      ensures sectionOrder[FindIndex(sectionOrder, active)] == active
      ensures active in sectionOrder && FindIndex(sectionOrder, active) == FindIndex(old(sectionOrder), over)
    {
      var order := sectionOrder;
      var next := order;
      if active != over {
        next := ArrayMove(order, FindIndex(order, active), FindIndex(order, over));
      }
      DragResult(order, active, over, next);
      sectionOrder := next;
    }

    method HandleChange(c: Change)
      modifies this
      ensures data == ApplyChange(old(data), c)
      ensures sectionOrder == old(sectionOrder) && isOptimizing == old(isOptimizing)
      ensures atsScore == old(atsScore) && recommendations == old(recommendations)
    {
      data := ApplyChange(data, c);
    }

    /** `handleOptimizeSummary`: `generated` is what the awaited call
        produced, the generated summary of the document, or `None` when the
        call rejected. On success the summary is replaced by it; on a
        rejection the error is caught and the document is kept. Either way
        the busy flag is cleared and nothing else changes. */
    method OptimizeSummary(generated: Option<string>)
      requires generated.Some? ==> generated.value == AiService.GenerateSummary(data)
      modifies this
      ensures !isOptimizing && sectionOrder == old(sectionOrder)
      ensures atsScore == old(atsScore) && recommendations == old(recommendations)
      ensures generated.None? ==> data == old(data)
      ensures generated.Some? ==>
        data == old(data).(personal := old(data).personal.(summary := generated.value))
    {
      isOptimizing := true;
      match generated {
        case Some(optimized) =>
          data := data.(personal := data.personal.(summary := optimized));
        case None =>
      }
      isOptimizing := false;
    }

    /** The effect that recomputes the score and advice after a change;
        `serializedLength` is the length of the serialised data. */
    method Refresh(serializedLength: nat)
      modifies this
      ensures data == old(data) && sectionOrder == old(sectionOrder) && isOptimizing == old(isOptimizing)
      ensures atsScore == AtsScorer.Score(data, serializedLength) && atsScore <= 100
      ensures recommendations == AtsScorer.Recommendations(data)
    {
      atsScore := AtsScorer.CalculateATSScore(data, serializedLength);
      recommendations := AtsScorer.GetATSRecommendations(data);
    }
  }

  /** The order after `active` is dropped on `over`: a duplicate-free
      permutation of the old one with `active` where `over` was. */
  lemma DragResult(order: seq<string>, active: string, over: string, next: seq<string>)
    requires Distinct(order) && active in order && over in order
    requires next == if active == over then order
      else ArrayMove(order, FindIndex(order, active), FindIndex(order, over))
    ensures Distinct(next) && multiset(next) == multiset(order)
    ensures active in next && FindIndex(next, active) == FindIndex(order, over)
  {
    var oldIndex := FindIndex(order, active);
    var newIndex := FindIndex(order, over);
    if active != over {
      ArrayMovePermutation(order, oldIndex, newIndex);
      PermutationDistinct(order, next);
    }
    assert next[newIndex] == active;
    FindDistinct(next, active, newIndex);
  }

  /** In a duplicate-free list, the first index of an item is its only one. */
  lemma FindDistinct(s: seq<string>, x: string, i: nat)
    requires Distinct(s) && i < |s| && s[i] == x
    ensures FindIndex(s, x) == i
  {
  }

  lemma Assoc(a: string, b: string, c: string)
    ensures (a + b) + c == a + (b + c)
  {
  }

  /** A `forEach` that appends each entry's serialisation to `text`. */
  method AppendEntries<T>(text: string, es: seq<T>, entry: T -> string) returns (out: string)
    ensures out == text + Serialise(es, entry)
  {
    out := text;
    for i := 0 to |es|
      invariant out == text + Serialise(es[..i], entry)
    {
      out := out + entry(es[i]);
      assert es[..i + 1][..i] == es[..i];
    }
    assert es[..|es|] == es;
  }

  /** `handleDownloadTXT`: builds the text block by block and names the file. */
  method DownloadText(d: Document) returns (text: string, fileName: string)
    ensures text == ResumeText(d)
    ensures fileName == FileName(d, ".txt")
  {
    text := Header(d);
    text := AppendSummary(text, d);
    text := AppendExperience(text, d);
    text := AppendEducation(text, d);
    text := AppendSkills(text, d);
    fileName := (if d.personal.fullName != "" then d.personal.fullName else "resume") + ".txt";
  }

  /** The summary block of `handleDownloadTXT`. */
  method AppendSummary(text: string, d: Document) returns (out: string)
    ensures out == text + SummaryPart(d)
  {
    out := text;
    if d.personal.summary != "" {
      out := out + "SUMMARY\n" + d.personal.summary + "\n\n";
    }
  }

  /** The skills block of `handleDownloadTXT`. */
  method AppendSkills(text: string, d: Document) returns (out: string)
    ensures out == text + SkillsPart(d)
  {
    out := text;
    if d.skills != "" {
      out := out + "SKILLS\n" + d.skills + "\n";
    }
  }

  /** The experience block of `handleDownloadTXT`. */
  method AppendExperience(text: string, d: Document) returns (out: string)
    ensures out == text + ExperiencePart(d)
  {
    out := text;
    if |d.experience| > 0 {
      out := out + "EXPERIENCE\n";
      out := AppendEntries(out, d.experience, ExperienceEntry);
      Assoc(text, "EXPERIENCE\n", ExperienceLines(d.experience));
    }
  }

  /** The education block of `handleDownloadTXT`. */
  method AppendEducation(text: string, d: Document) returns (out: string)
    ensures out == text + EducationPart(d)
  {
    out := text;
    if |d.education| > 0 {
      out := out + "EDUCATION\n";
      out := AppendEntries(out, d.education, EducationEntry);
      out := out + "\n";
      Assoc(text, "EDUCATION\n", EducationLines(d.education));
      Assoc(text, "EDUCATION\n" + EducationLines(d.education), "\n");
    }
  }


}
