/** The cover-letter editor: the initial letter, the three-tab wizard, field
    edits and the letter preview. */
module BuildCoverLetter {
  import opened Content
  import opened Wrappers
  import Wizard

  /** The letter every session starts from: all empty but the closing. */
  const InitialLetter: Letter := Letter(
    Sender("", "", "", ""),
    Recipient("", "", "", ""),
    LetterContent("", "", "", "Sincerely,"))

  /** The fields of each part of the letter. */
  datatype SenderField = SenderName | SenderEmail | SenderPhone | SenderAddress
  datatype RecipientField = RecipientName | RecipientTitle | RecipientCompany | RecipientAddress
  datatype ContentField = Subject | Greeting | Body | Closing

  /** A `(section, field)` pair as `handleChange` receives it. */
  datatype Slot = SenderSlot(s: SenderField) | RecipientSlot(r: RecipientField) | ContentSlot(c: ContentField)

  function Get(l: Letter, slot: Slot): string {
    match slot
    case SenderSlot(f) =>
      (match f
       case SenderName => l.sender.fullName
       case SenderEmail => l.sender.email
       case SenderPhone => l.sender.phone
       case SenderAddress => l.sender.address)
    case RecipientSlot(f) =>
      (match f
       case RecipientName => l.recipient.name
       case RecipientTitle => l.recipient.title
       case RecipientCompany => l.recipient.company
       case RecipientAddress => l.recipient.address)
    case ContentSlot(f) =>
      (match f
       case Subject => l.content.subject
       case Greeting => l.content.greeting
       case Body => l.content.body
       case Closing => l.content.closing)
  }

  /** Every field of the initial letter is empty except the closing. */
  lemma InitialLetterFields(slot: Slot)
    ensures Get(InitialLetter, slot) == (if slot == ContentSlot(Closing) then "Sincerely," else "")
  {
  }

  /** `handleChange(section, field, value)`: `{ ...prev, [section]: { ...prev[section], [field]: value } }` */
  function HandleChange(l: Letter, slot: Slot, v: string): (r: Letter)
    ensures Get(r, slot) == v
    ensures forall other :: other != slot ==> Get(r, other) == Get(l, other)
  {
    match slot
    case SenderSlot(f) =>
      l.(sender := match f
        case SenderName => l.sender.(fullName := v)
        case SenderEmail => l.sender.(email := v)
        case SenderPhone => l.sender.(phone := v)
        case SenderAddress => l.sender.(address := v))
    case RecipientSlot(f) =>
      l.(recipient := match f
        case RecipientName => l.recipient.(name := v)
        case RecipientTitle => l.recipient.(title := v)
        case RecipientCompany => l.recipient.(company := v)
        case RecipientAddress => l.recipient.(address := v))
    case ContentSlot(f) =>
      l.(content := match f
        case Subject => l.content.(subject := v)
        case Greeting => l.content.(greeting := v)
        case Body => l.content.(body := v)
        case Closing => l.content.(closing := v))
  }

  /** Changing a field back to what it was restores the letter. */
  lemma HandleChangeUndo(l: Letter, slot: Slot, v: string)
    ensures HandleChange(HandleChange(l, slot, v), slot, Get(l, slot)) == l
  {
  }

  /** The wizard's tabs, in order. */
  const LetterTabs: seq<string> := ["sender", "recipient", "content"]

  class LetterWizard {
    var activeTab: nat
    var data: Letter
    /** Set once Next is pressed on the `content` tab (`onNext`). */
    var finished: bool

    predicate Valid()
      reads this
    {
      activeTab < |LetterTabs|
    }

    constructor()
      ensures Valid() && activeTab == 0 && data == InitialLetter && !finished
    {
      activeTab := 0;
      data := InitialLetter;
      finished := false;
    }

    method Next()
      requires Valid()
      modifies this
      ensures Valid() && data == old(data)
      ensures old(activeTab) < |LetterTabs| - 1 ==> activeTab == old(activeTab) + 1 && finished == old(finished)
      ensures old(activeTab) == |LetterTabs| - 1 ==> activeTab == old(activeTab) && finished
    {
      match Wizard.Forward(|LetterTabs|, activeTab)
      case Goto(j) => activeTab := j;
      case Finish => finished := true;
    }

    /** A field input of the wizard, or the editor's body box. */
    method Change(slot: Slot, v: string)
      modifies this
      ensures data == HandleChange(old(data), slot, v)
      ensures activeTab == old(activeTab) && finished == old(finished)
    {
      data := HandleChange(data, slot, v);
    }
  }

  /** The letter preview. */
  datatype LetterPreview = LetterPreview(
    borderColor: string,
    nameColor: string,
    heading: string,
    contact: string,
    recipient: seq<string>,
    subject: string,
    greeting: string,
    body: string,
    closing: string,
    signature: string)

  function ContactLine(s: Sender): string {
    s.email + " | " + s.phone + (if s.address != "" then " | " + s.address else "")
  }

  function Preview(l: Letter, template: string): LetterPreview {
    LetterPreview(
      if template == "modern" then "#8b5cf6" else "#333",
      if template == "modern" then "#8b5cf6" else "#000",
      if l.sender.fullName != "" then l.sender.fullName else "Your Name",
      ContactLine(l.sender),
      [l.recipient.name, l.recipient.title, l.recipient.company, l.recipient.address],
      "RE: " + l.content.subject,
      l.content.greeting,
      l.content.body,
      l.content.closing,
      l.sender.fullName)
  }

  /** The `modern` style is violet, every other black on grey; an empty name
      shows `Your Name` in the header but nothing under the closing; the
      address joins the contact line only when present. */
  lemma PreviewRules(l: Letter, template: string)
    ensures Preview(l, template).borderColor == "#8b5cf6" <==> template == "modern"
    ensures template != "modern" ==> Preview(l, template).nameColor == "#000" && Preview(l, template).borderColor == "#333"
    ensures l.sender.fullName == "" ==> Preview(l, template).heading == "Your Name" && Preview(l, template).signature == ""
    ensures l.sender.fullName != "" ==> Preview(l, template).heading == Preview(l, template).signature == l.sender.fullName
    ensures l.sender.address == "" ==> Preview(l, template).contact == l.sender.email + " | " + l.sender.phone
    ensures l.sender.address != "" ==>
      Preview(l, template).contact == l.sender.email + " | " + l.sender.phone + " | " + l.sender.address
  {
  }

  /** `handleDownloadPDF`: nothing without a preview; `captured` says
      whether the canvas capture succeeded, and when it rejects nothing is
      saved; otherwise the file is `cover-letter.pdf`. */
  function DownloadPdf(previewPresent: bool, captured: bool): (r: Option<string>)
    ensures r.Some? <==> previewPresent && captured
    ensures r.Some? ==> r.value == "cover-letter.pdf"
  {
    if !previewPresent then None
    else if !captured then None
    else Some("cover-letter.pdf")
  }
}
