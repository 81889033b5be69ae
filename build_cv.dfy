/** The CV editor: a six-tab content wizard, the fixed-order preview and the
    multi-page PDF export. */
module BuildCV {
  import opened Content
  import opened Wrappers
  import opened ResumeRenderer
  import Wizard
  import BuildResume
  import AtsScorer

  /** The wizard's six tabs, in order. */
  const CvTabs: seq<string> := ["personal", "education", "publications", "experience", "awards", "skills"]

  /** The content wizard. */
  class CvWizard {
    var activeTab: nat
    var data: Document
    /** Set once Next is pressed on the last tab (`onNext`). */
    var finished: bool

    predicate Valid()
      reads this
    {
      activeTab < |CvTabs|
    }

    constructor(initial: Document)
      ensures Valid() && activeTab == 0 && data == initial && !finished
    {
      activeTab := 0;
      data := initial;
      finished := false;
    }

    method Next()
      requires Valid()
      modifies this
      ensures Valid() && data == old(data)
      ensures old(activeTab) < |CvTabs| - 1 ==> activeTab == old(activeTab) + 1 && finished == old(finished)
      ensures old(activeTab) == |CvTabs| - 1 ==> activeTab == old(activeTab) && finished
    {
      match Wizard.Forward(|CvTabs|, activeTab)
      case Goto(j) => activeTab := j;
      case Finish => finished := true;
    }

    /** `handleChange`, and the skills area's own `setData`. */
    method HandleChange(c: BuildResume.Change)
      modifies this
      ensures data == BuildResume.ApplyChange(old(data), c)
      ensures activeTab == old(activeTab) && finished == old(finished)
    {
      data := BuildResume.ApplyChange(data, c);
    }

    method AddEducation()
      modifies this
      ensures data == old(data).(education := old(data).education + [BlankEducation])
      ensures activeTab == old(activeTab) && finished == old(finished)
    {
      data := data.(education := data.education + [BlankEducation]);
    }

    method AddPublication()
      modifies this
      ensures data == old(data).(publications := old(data).publications + [BlankPublication])
      ensures activeTab == old(activeTab) && finished == old(finished)
    {
      data := data.(publications := data.publications + [BlankPublication]);
    }

    method AddExperience()
      modifies this
      ensures data == old(data).(experience := old(data).experience + [BlankExperience])
      ensures activeTab == old(activeTab) && finished == old(finished)
    {
      data := data.(experience := data.experience + [BlankExperience]);
    }

    method AddAward()
      modifies this
      ensures data == old(data).(awards := old(data).awards + [BlankAward])
      ensures activeTab == old(activeTab) && finished == old(finished)
    {
      data := data.(awards := data.awards + [BlankAward]);
    }

    method EditEducation(i: nat, f: EducationField, v: string)
      requires i < |data.education|
      modifies this
      ensures data == old(data).(education := old(data).education[i := SetEducation(old(data).education[i], f, v)])
      ensures activeTab == old(activeTab) && finished == old(finished)
    {
      data := data.(education := data.education[i := SetEducation(data.education[i], f, v)]);
    }

    method EditPublication(i: nat, f: PublicationField, v: string)
      requires i < |data.publications|
      modifies this
      ensures data == old(data).(publications := old(data).publications[i := SetPublication(old(data).publications[i], f, v)])
      ensures activeTab == old(activeTab) && finished == old(finished)
    {
      data := data.(publications := data.publications[i := SetPublication(data.publications[i], f, v)]);
    }

    method EditExperience(i: nat, f: ExperienceField, v: string)
      requires i < |data.experience|
      modifies this
      ensures data == old(data).(experience := old(data).experience[i := SetExperience(old(data).experience[i], f, v)])
      ensures activeTab == old(activeTab) && finished == old(finished)
    {
      data := data.(experience := data.experience[i := SetExperience(data.experience[i], f, v)]);
    }

    method EditAward(i: nat, f: AwardField, v: string)
      requires i < |data.awards|
      modifies this
      ensures data == old(data).(awards := old(data).awards[i := SetAward(old(data).awards[i], f, v)])
      ensures activeTab == old(activeTab) && finished == old(finished)
    {
      data := data.(awards := data.awards[i := SetAward(data.awards[i], f, v)]);
    }
  }

  /** Each add button appends one blank entry to its own list only. */
  lemma AddTouchesOneList(d: Document)
    ensures var r := d.(publications := d.publications + [BlankPublication]);
      |r.publications| == |d.publications| + 1 && r.publications[..|d.publications|] == d.publications &&
      r.publications[|d.publications|] == Publication("", "", "", "") &&
      r.personal == d.personal && r.education == d.education && r.experience == d.experience &&
      r.awards == d.awards && r.skills == d.skills
  {
  }

  // ---------------------------------------------------------------------
  // Preview
  // ---------------------------------------------------------------------

  /** The CV preview's sections in their fixed order. */
  const CvOrder: seq<string> := [SummaryId, EducationId, PublicationsId, ExperienceId, AwardsId, SkillsId]

  /** A CV preview section; skills are shown as the raw text. */
  datatype CvBlock =
    | CvSummary(summary: string)
    | CvEducation(schools: seq<Education>)
    | CvPublications(papers: seq<Publication>)
    | CvExperience(jobs: seq<Experience>)
    | CvAwards(honours: seq<Award>)
    | CvSkills(skills: string)
  {
    function Id(): string {
      match this
      case CvSummary(_) => SummaryId
      case CvEducation(_) => EducationId
      case CvPublications(_) => PublicationsId
      case CvExperience(_) => ExperienceId
      case CvAwards(_) => AwardsId
      case CvSkills(_) => SkillsId
    }
  }

  datatype CvPage = CvPage(fontFamily: string, name: string, title: string, email: string, phone: string,
                           sections: seq<CvBlock>)

  /** The font the CV style selects. */
  function CvFont(template: string): (r: string)
    ensures template == "academic" ==> r == "Times New Roman, serif"
    ensures template != "academic" ==> r == "Arial, sans-serif"
  {
    if template == "academic" then "Times New Roman, serif" else "Arial, sans-serif"
  }

  /** One block of the preview: present only when its content is. */
  function CvSection(d: Document, id: string): (r: Option<CvBlock>)
    ensures r.Some? <==> HasContent(d, id)
    ensures r.Some? ==> r.value.Id() == id
  {
    if id == SummaryId then (if d.personal.summary != "" then Some(CvSummary(d.personal.summary)) else None)
    else if id == EducationId then (if |d.education| > 0 then Some(CvEducation(d.education)) else None)
    else if id == PublicationsId then (if |d.publications| > 0 then Some(CvPublications(d.publications)) else None)
    else if id == ExperienceId then (if |d.experience| > 0 then Some(CvExperience(d.experience)) else None)
    else if id == AwardsId then (if |d.awards| > 0 then Some(CvAwards(d.awards)) else None)
    else if id == SkillsId then (if d.skills != "" then Some(CvSkills(d.skills)) else None)
    else None
  }

  function CvSections(d: Document, order: seq<string>): seq<CvBlock> {
    if order == [] then []
    else (match CvSection(d, order[0]) case Some(b) => [b] case None => []) + CvSections(d, order[1..])
  }

  /** The CV preview: its blocks in the fixed order. */
  function CvPreview(d: Document, template: string): CvPage {
    CvPage(CvFont(template), d.personal.fullName, d.personal.title, d.personal.email, d.personal.phone,
           CvSections(d, CvOrder))
  }

  function CvIds(bs: seq<CvBlock>): (r: seq<string>)
    ensures |r| == |bs|
    ensures forall i :: 0 <= i < |bs| ==> r[i] == bs[i].Id()
  {
    if bs == [] then [] else [bs[0].Id()] + CvIds(bs[1..])
  }

  lemma {:induction false} CvSectionsIds(d: Document, order: seq<string>)
    ensures CvIds(CvSections(d, order)) == ShownIds(d, order)
  {
    if order != [] {
      CvSectionsIds(d, order[1..]);
      var head := match CvSection(d, order[0]) case Some(b) => [b] case None => [];
      assert CvIds(head + CvSections(d, order[1..])) == CvIds(head) + CvIds(CvSections(d, order[1..]));
    }
  }

  /** The preview shows exactly the sections with content, always in the
      order summary, education, publications, experience, awards, skills. */
  lemma CvPreviewOrder(d: Document, template: string)
    ensures CvIds(CvPreview(d, template).sections) == ShownIds(d, CvOrder)
    ensures forall id :: id in CvIds(CvPreview(d, template).sections) <==> id in CvOrder && HasContent(d, id)
  {
    CvSectionsIds(d, CvOrder);
    forall id ensures id in ShownIds(d, CvOrder) <==> id in CvOrder && HasContent(d, id) {
      ShownIdsMembers(d, CvOrder, id);
    }
  }

  // ---------------------------------------------------------------------
  // PDF pagination
  // ---------------------------------------------------------------------

  /** The page count of the export loop as written: one page, then one more
      for as long as the height left is not negative. */
  function PageCountAsWritten(imageHeight: nat, pageHeight: nat): nat
    requires pageHeight > 0
  {
    1 + imageHeight / pageHeight
  }

  /** The page count a slicing export needs: enough pages to cover the image,
      and at least one. */
  function PageCount(imageHeight: nat, pageHeight: nat): nat
    requires pageHeight > 0
  {
    if imageHeight == 0 then 1 else (imageHeight + pageHeight - 1) / pageHeight
  }

  lemma MulStep(k: int, p: int)
    ensures (k + 1) * p == k * p + p
  {
  }

  /** `handleDownloadPDF`'s loop as written: the image offset of every page,
      the first at 0 and the `k`-th added one at `-k` page heights. */
  method PaginateAsWritten(imageHeight: nat, pageHeight: nat) returns (offsets: seq<int>)
    requires pageHeight > 0
    ensures |offsets| == PageCountAsWritten(imageHeight, pageHeight)
    ensures forall k :: 0 <= k < |offsets| ==> offsets[k] == -k * pageHeight
  {
    var heightLeft: int := imageHeight;
    var position := 0;
    offsets := [position];
    heightLeft := heightLeft - pageHeight;
    while heightLeft >= 0
      invariant |offsets| >= 1
      invariant heightLeft == imageHeight - |offsets| * pageHeight
      invariant (|offsets| - 1) * pageHeight <= imageHeight
      invariant forall k :: 0 <= k < |offsets| ==> offsets[k] == -k * pageHeight
      decreases heightLeft + pageHeight
    {
      MulStep(|offsets|, pageHeight);
      position := heightLeft - imageHeight;
      offsets := offsets + [position];
      heightLeft := heightLeft - pageHeight;
    }
    var n := |offsets|;
    MulStep(n - 1, pageHeight);
    assert imageHeight == (n - 1) * pageHeight + (imageHeight - (n - 1) * pageHeight);
    AtsScorer.DivUnique(imageHeight, pageHeight, n - 1, imageHeight - (n - 1) * pageHeight);
  }

  /** The same loop stopping once nothing is left (`heightLeft > 0`). */
  method Paginate(imageHeight: nat, pageHeight: nat) returns (offsets: seq<int>)
    requires pageHeight > 0
    ensures |offsets| == PageCount(imageHeight, pageHeight)
    ensures forall k :: 0 <= k < |offsets| ==> offsets[k] == -k * pageHeight
  {
    var heightLeft: int := imageHeight;
    var position := 0;
    offsets := [position];
    heightLeft := heightLeft - pageHeight;
    while heightLeft > 0
      invariant |offsets| >= 1
      invariant heightLeft == imageHeight - |offsets| * pageHeight
      invariant |offsets| == 1 || (|offsets| - 1) * pageHeight < imageHeight
      invariant forall k :: 0 <= k < |offsets| ==> offsets[k] == -k * pageHeight
      decreases heightLeft
    {
      MulStep(|offsets|, pageHeight);
      position := heightLeft - imageHeight;
      offsets := offsets + [position];
      heightLeft := heightLeft - pageHeight;
    }
    if imageHeight > 0 {
      var n := |offsets|;
      MulStep(n - 1, pageHeight);
      assert n * pageHeight <= imageHeight + pageHeight - 1;
      AtsScorer.DivUnique(imageHeight + pageHeight - 1, pageHeight, n, imageHeight + pageHeight - 1 - n * pageHeight);
    }
  }

  /** Every page of the corrected export shows part of the image, and every
      row of the image lies on some page. */
  lemma PageCountCovers(imageHeight: nat, pageHeight: nat)
    requires pageHeight > 0
    ensures forall k :: 0 <= k < PageCount(imageHeight, pageHeight) && imageHeight > 0 ==> k * pageHeight < imageHeight
    ensures forall y :: 0 <= y < imageHeight ==>
      y / pageHeight < PageCount(imageHeight, pageHeight) &&
      (y / pageHeight) * pageHeight <= y < (y / pageHeight) * pageHeight + pageHeight
  {
    var n := PageCount(imageHeight, pageHeight);
    if imageHeight > 0 {
      var r := (imageHeight + pageHeight - 1) % pageHeight;
      assert n * pageHeight + r == imageHeight + pageHeight - 1;
      forall k | 0 <= k < n ensures k * pageHeight < imageHeight {
        AtsScorer.MulLe(k, n - 1, pageHeight);
        MulStep(n - 1, pageHeight);
      }
      forall y | 0 <= y < imageHeight
        ensures y / pageHeight < n
      {
        if y / pageHeight >= n {
          AtsScorer.MulLe(n, y / pageHeight, pageHeight);
          assert false;
        }
      }
    }
  }

  /** The loop as written adds a page exactly when the image height is a
      whole number of pages. */
  lemma AsWrittenExtraPage(imageHeight: nat, pageHeight: nat)
    requires pageHeight > 0 && imageHeight > 0
    ensures PageCountAsWritten(imageHeight, pageHeight) ==
      PageCount(imageHeight, pageHeight) + (if imageHeight % pageHeight == 0 then 1 else 0)
  {
    var q, r := imageHeight / pageHeight, imageHeight % pageHeight;
    assert imageHeight == q * pageHeight + r;
    if r == 0 {
      AtsScorer.DivUnique(imageHeight + pageHeight - 1, pageHeight, q, pageHeight - 1);
    } else {
      MulStep(q, pageHeight);
      AtsScorer.DivUnique(imageHeight + pageHeight - 1, pageHeight, q + 1, r - 1);
    }
  }

  /** Two A4 pages of image (at 1200 units a page) give three pages, the
      last showing only what lies below the image. */
  lemma AsWrittenBlankPage()
    ensures PageCountAsWritten(2400, 1200) == 3
    ensures PageCount(2400, 1200) == 2
    ensures 2 * 1200 >= 2400
  {
  }

  /** `handleDownloadPDF`: nothing without a preview or when the canvas
      capture rejects (`captured` false); otherwise `my-cv.pdf` with the
      pages the loop adds. */
  method DownloadPdf(previewPresent: bool, captured: bool, imageHeight: nat, pageHeight: nat)
    returns (file: Option<(string, seq<int>)>)
    requires pageHeight > 0
    ensures file.Some? <==> previewPresent && captured
    ensures file.Some? ==>
      file.value.0 == "my-cv.pdf" && |file.value.1| == PageCount(imageHeight, pageHeight)
  {
    if !previewPresent || !captured {
      return None;
    }
    var offsets := Paginate(imageHeight, pageHeight);
    file := Some(("my-cv.pdf", offsets));
  }
}
