/** The content model shared by the resume, CV and cover-letter editors.

    The JavaScript objects differ slightly between pages (a resume experience
    entry has `start`/`end`, a CV entry has `duration`; the renderer reads a
    publication's `publisher` where the CV editor writes `journal`). Each entity
    here carries the union of those fields; a field a page never sets is the
    empty string, which renders as nothing and is falsy, exactly like
    `undefined` in the places the model covers. */
module Content {

  datatype Personal = Personal(fullName: string, title: string, email: string, phone: string, summary: string)

  datatype Experience = Experience(role: string, company: string, start: string, end: string,
                                   duration: string, description: string)

  datatype Education = Education(school: string, degree: string, field: string, year: string)

  datatype Publication = Publication(title: string, journal: string, publisher: string, year: string)

  datatype Award = Award(name: string, date: string, year: string, issuer: string)

  /** A resume or CV. A resume never has publications or awards. */
  datatype Document = Document(
    personal: Personal,
    experience: seq<Experience>,
    education: seq<Education>,
    publications: seq<Publication>,
    awards: seq<Award>,
    skills: string)

  const EmptyPersonal := Personal("", "", "", "", "")

  /** The state a new resume (or CV) starts from. */
  const EmptyDocument := Document(EmptyPersonal, [], [], [], [], "")

  /** Section identifiers used in section orders. */
  const SummaryId := "summary"
  const ExperienceId := "experience"
  const EducationId := "education"
  const SkillsId := "skills"
  const PublicationsId := "publications"
  const AwardsId := "awards"

  /** Blank list entries appended by the "+ Add" buttons. */
  const BlankExperience := Experience("", "", "", "", "", "")
  const BlankEducation := Education("", "", "", "")
  const BlankPublication := Publication("", "", "", "")
  const BlankAward := Award("", "", "", "")

  /** The personal fields a form edits one at a time. */
  datatype PersonalField = FullName | Title | Email | Phone | Summary

  function GetPersonal(p: Personal, f: PersonalField): string {
    match f
    case FullName => p.fullName
    case Title => p.title
    case Email => p.email
    case Phone => p.phone
    case Summary => p.summary
  }

  /** `{ ...personal, [field]: value }` */
  function SetPersonal(p: Personal, f: PersonalField, v: string): (r: Personal)
    ensures GetPersonal(r, f) == v
    ensures forall g :: g != f ==> GetPersonal(r, g) == GetPersonal(p, g)
  {
    match f
    case FullName => p.(fullName := v)
    case Title => p.(title := v)
    case Email => p.(email := v)
    case Phone => p.(phone := v)
    case Summary => p.(summary := v)
  }

  /** The fields of an experience entry a form edits. */
  datatype ExperienceField = Role | Company | Start | End | Duration | Description

  function GetExperience(e: Experience, f: ExperienceField): string {
    match f
    case Role => e.role
    case Company => e.company
    case Start => e.start
    case End => e.end
    case Duration => e.duration
    case Description => e.description
  }

  /** `entry[field] = value` */
  function SetExperience(e: Experience, f: ExperienceField, v: string): (r: Experience)
    ensures GetExperience(r, f) == v
    ensures forall g :: g != f ==> GetExperience(r, g) == GetExperience(e, g)
  {
    match f
    case Role => e.(role := v)
    case Company => e.(company := v)
    case Start => e.(start := v)
    case End => e.(end := v)
    case Duration => e.(duration := v)
    case Description => e.(description := v)
  }

  /** The fields of an education entry a form edits. */
  datatype EducationField = School | Degree | FieldOfStudy | Year

  function GetEducation(e: Education, f: EducationField): string {
    match f
    case School => e.school
    case Degree => e.degree
    case FieldOfStudy => e.field
    case Year => e.year
  }

  function SetEducation(e: Education, f: EducationField, v: string): (r: Education)
    ensures GetEducation(r, f) == v
    ensures forall g :: g != f ==> GetEducation(r, g) == GetEducation(e, g)
  {
    match f
    case School => e.(school := v)
    case Degree => e.(degree := v)
    case FieldOfStudy => e.(field := v)
    case Year => e.(year := v)
  }

  /** The fields of a publication a form edits. */
  datatype PublicationField = PaperTitle | Journal | PublicationYear

  function GetPublication(p: Publication, f: PublicationField): string {
    match f
    case PaperTitle => p.title
    case Journal => p.journal
    case PublicationYear => p.year
  }

  function SetPublication(p: Publication, f: PublicationField, v: string): (r: Publication)
    ensures GetPublication(r, f) == v
    ensures forall g :: g != f ==> GetPublication(r, g) == GetPublication(p, g)
    ensures r.publisher == p.publisher
  {
    match f
    case PaperTitle => p.(title := v)
    case Journal => p.(journal := v)
    case PublicationYear => p.(year := v)
  }

  /** The fields of an award a form edits. */
  datatype AwardField = AwardName | AwardDate

  function GetAward(a: Award, f: AwardField): string {
    match f
    case AwardName => a.name
    case AwardDate => a.date
  }

  function SetAward(a: Award, f: AwardField, v: string): (r: Award)
    ensures GetAward(r, f) == v
    ensures forall g :: g != f ==> GetAward(r, g) == GetAward(a, g)
    ensures r.year == a.year && r.issuer == a.issuer
  {
    match f
    case AwardName => a.(name := v)
    case AwardDate => a.(date := v)
  }

  /** A cover letter: who sends it, to whom, and what it says. */
  datatype Sender = Sender(fullName: string, email: string, phone: string, address: string)
  datatype Recipient = Recipient(name: string, title: string, company: string, address: string)
  datatype LetterContent = LetterContent(subject: string, greeting: string, body: string, closing: string)
  datatype Letter = Letter(sender: Sender, recipient: Recipient, content: LetterContent)

  /** `list.splice(i, 1)` on a copy. */
  function RemoveAt<T>(s: seq<T>, i: nat): (r: seq<T>)
    requires i < |s|
    ensures |r| == |s| - 1
    ensures forall k :: 0 <= k < i ==> r[k] == s[k]
    ensures forall k :: i <= k < |r| ==> r[k] == s[k + 1]
  {
    s[..i] + s[i + 1..]
  }
}

/** An optional value, for lookups that may miss and inputs that may be absent. */
module Wrappers {
  datatype Option<T> = None | Some(value: T)
}
