# CV and Resume Generator: a verified model of its core

This project models the logic of a React application that builds resumes,
academic CVs and cover letters. Each page and utility of the application's
core is a Dafny module:

- **Content**: the document being edited, with its personal details,
  experience, education, publications, awards and skills, and the
  field-by-field updates the editors apply to it.
- **Text**: the JavaScript string operations the code relies on: `trim` over
  the ECMAScript whitespace set, `split`, `indexOf`, `substring` and ASCII
  `toLowerCase`.
- **AtsScorer**: the ATS score (0 to 100), its category, and the ordered list
  of recommendations.
- **Templates**: the theme, font and layout registries, and the 250 design
  variations generated from them.
- **ResumeRenderer**: how a design is resolved with its fallbacks, the style
  sheet each layout produces, and the one- and two-column page layouts for
  resumes and cover letters.
- **TemplateViewer**: the five viewer templates (Modern Clean, Professional,
  Creative, Executive, Minimal), how they place sections and how they fall
  back between item fields.
- **DesignStudio**: the configurator class that picks a layout, theme and
  font, and the preview mock-up it draws.
- **Wizard**: the tab navigation shared by the three editors.
- **BuildResume**: the resume editor. It covers the content wizard, the
  editing step with drag-and-drop section order, score refresh and summary
  generation, and the PDF, JPG and plain-text exports.
- **BuildCV**: the academic CV editor, its fixed-order preview and its
  multi-page PDF export.
- **BuildCoverLetter**: the cover-letter editor: the initial letter, the
  three-tab wizard, field edits, the preview and the PDF export.
- **ResumeParser**: the heuristics that extract an email address, a phone
  number, a name, skills and a summary from uploaded text. The email and
  phone patterns run on a small backtracking matcher, which is proved sound
  and complete against the language of the pattern.
- **AiService**: the mock text optimiser, which rewrites weak verbs and adds
  a metrics hint, and the mock summary generator.
- **CategoryPage**: the category cards recommended from keywords in the job
  description.

Objects whose fields the pages update in place are classes: `ContentWizard`,
`Editor`, `CvWizard`, `LetterWizard` and `Studio`. Their methods state the
whole new state. The pure utilities are functions, and what they promise is
stated in lemmas. Where the source loops, the model has a method with a
loop proved against a specification function:
`Templates.GenerateAllVariations`,
`BuildCV.Paginate`, `BuildResume.DownloadText`,
`ResumeParser.FindSummaryStart` and `AiService.OptimizeText`.

## Model

| member | source | states |
|---|---|---|
| Text.Lower | src/utils/resumeParser.js:34 | lowercasing keeps the length and maps exactly the letters A-Z to a-z, leaving every other character alone |
| Text.Trim | src/utils/atsScorer.js:8 | the result is empty exactly when the input is all whitespace; otherwise it starts and ends with a non-space |
| Text.TrimBounds | src/utils/atsScorer.js:8 | the trimmed string is a slice of the input with only whitespace cut off either side |
| Text.TrimKeepsOut | src/components/ResumeRenderer.jsx:144-145 | trimming never introduces a character that was not in the input |
| Text.Split | src/components/ResumeRenderer.jsx:144 | splitting yields one more piece than there are separators, and no piece contains the separator |
| Text.JoinSplit | src/components/ResumeRenderer.jsx:144 | joining the pieces of a split with the separator gives back the input |
| Text.TrimAll | src/components/ResumeRenderer.jsx:145 | each piece is trimmed and the number of pieces is kept |
| Text.IndexOf | src/utils/resumeParser.js:34 | the result is the first occurrence at or after `from`, or -1 exactly when there is none |
| Text.ContainsOccurs | client/src/pages/CategoryPage.js:16 | a string contains a pattern exactly when the pattern occurs at some index |
| Text.Substring | src/utils/resumeParser.js:37 | both bounds are clamped to the length, as JavaScript `substring` does for ordered bounds |
| Content.SetPersonal | src/pages/BuildResume.jsx:163-172 | the edited personal field takes the value and every other field keeps its old value |
| Content.SetExperience | src/pages/BuildResume.jsx:258-303 | the edited experience field takes the value and the others are unchanged |
| Content.SetEducation | src/pages/BuildResume.jsx:352-385 | the edited education field takes the value and the others are unchanged |
| Content.SetPublication | src/pages/BuildCV.jsx:173-180 | the edited publication field takes the value and the others are unchanged |
| Content.SetAward | src/pages/BuildCV.jsx:221-225 | the edited award field takes the value and the others are unchanged |
| Content.RemoveAt | src/pages/BuildResume.jsx:244-247 | removing index `i` is a filter on the index: one entry shorter, earlier entries in place, later ones shifted down by one |
| Wizard.Forward | src/pages/BuildResume.jsx:147-154 | Next finishes exactly on the last tab; otherwise it moves to the following tab, which exists |
| Wizard.Backward | src/pages/BuildResume.jsx:156-161 | Back stays on the first tab and otherwise moves one tab back |
| Wizard.BackUndoesNext | src/pages/BuildResume.jsx:147-161 | Back after a Next that moved returns to the tab Next started from |
| Wizard.WalkInOrder | src/pages/BuildResume.jsx:140-154 | pressing Next repeatedly visits every remaining tab in order, once each |
| AtsScorer.CalculateATSScore | src/utils/atsScorer.js:3-65 | the score built branch by branch equals the specified score, which is at most 100 |
| AtsScorer.AccumulateBase | src/utils/atsScorer.js:7-62 | the personal, summary, skills and length branches add up to the specified whole points |
| AtsScorer.AccumulateLists | src/utils/atsScorer.js:18-42 | the experience and education branches, scaled to a common denominator, add up to the specified list points |
| AtsScorer.ScaledTotalAtMost100 | src/utils/atsScorer.js:7-62 | the component maxima add up to at most 100 points |
| AtsScorer.ScaledTotalMonotoneInBase | src/utils/atsScorer.js:7-62 | more whole points never give a smaller total |
| AtsScorer.CompleteExperienceExtremes | src/utils/atsScorer.js:23-26 | the count of complete positions is zero exactly when none is complete, and the list length exactly when all are |
| AtsScorer.CompleteEducationExtremes | src/utils/atsScorer.js:38-41 | the count of complete education entries is zero exactly when none is complete, and the list length exactly when all are |
| AtsScorer.NonBlankExtremes | src/utils/atsScorer.js:45-46 | the skill count is zero exactly when every piece is blank, and the number of pieces exactly when none is |
| AtsScorer.HasMetric | src/utils/atsScorer.js:29-32 | a description has a metric exactly when some digit is followed by `%`, or by a space and an ASCII letter |
| AtsScorer.AnyMetric | src/utils/atsScorer.js:29-32 | the metric bonus applies exactly when some experience description has a metric |
| AtsScorer.SkillCountEmpty | src/utils/atsScorer.js:45-54 | an empty skills string counts no skills, though `split` yields one empty piece |
| AtsScorer.RawScoreAtMost100 | src/utils/atsScorer.js:57-64 | the unrounded score never exceeds 100 and rounding keeps it within 100 |
| AtsScorer.ScoreMonotoneInPersonal | src/utils/atsScorer.js:7-9 | filling in more personal fields never lowers the score |
| AtsScorer.NameOnlyScore | src/utils/atsScorer.js:7-9 | a document with only a non-blank name scores 5 points plus the length points |
| AtsScorer.SkillsOnlyScore | src/utils/atsScorer.js:45-62 | a document with only skills scores exactly the skill points of its skill count plus the length points, for every serialised length |
| AtsScorer.CategoryMonotone | src/utils/atsScorer.js:67-72 | a higher score never gets a lower category |
| AtsScorer.CategoryThresholds | src/utils/atsScorer.js:67-72 | the categories are Excellent from 80, Good from 60, Fair from 40, and otherwise Needs Improvement |
| AtsScorer.GetATSRecommendations | src/utils/atsScorer.js:74-101 | the list built branch by branch equals the specified recommendations |
| AtsScorer.SelectMembers | src/utils/atsScorer.js:77-99 | a candidate is kept exactly when its condition holds |
| AtsScorer.SelectOrdered | src/utils/atsScorer.js:77-99 | the kept candidates stay in candidate order |
| AtsScorer.RecommendationsMembers | src/utils/atsScorer.js:77-99 | each piece of advice is given exactly when its condition holds: short summary, no experience, no education, fewer than five skills, or experience without metrics |
| AtsScorer.RecommendationsOrderedAndBounded | src/utils/atsScorer.js:74-101 | the advice keeps the source's order and holds at most four items |
| AtsScorer.SummaryBoundaryAt50 | src/utils/atsScorer.js:12-16 | at exactly 50 characters the score treats the summary as short (5 points, since 10 needs more than 50), while the advice treats it as long enough (no summary advice, since that needs fewer than 50) |
| Templates.Lookup | src/utils/templates.js:4-24 | a key is found exactly when it is registered, and the value found is the registered one |
| Templates.GenerateAllVariations | src/utils/templates.js:40-55 | the nested loops produce exactly the layout-major, theme, then font enumeration |
| Templates.Combine | src/utils/templates.js:40-55 | the nested loops over any registries produce that enumeration |
| Templates.PushThemes | src/utils/templates.js:43-52 | the theme loop appends, after what is already there, one layout's entries theme by theme |
| Templates.PushFonts | src/utils/templates.js:44-51 | the font loop appends one entry per font for one layout and theme, in font order |
| Templates.LayoutOrderSpec | src/utils/templates.js:28-34 | the layout registry lists its five ids in order |
| Templates.ThemeOrderSpec | src/utils/templates.js:4-15 | the theme registry lists its ten keys in order |
| Templates.FontOrderSpec | src/utils/templates.js:18-24 | the font registry lists its five keys in order |
| Templates.RegistryKeysDistinct | src/utils/templates.js:4-34 | registry keys are distinct, and layout and theme keys contain no dash |
| Templates.IdInjective | src/utils/templates.js:49 | for dash-free layout and theme keys, the id `layout-theme-font` determines all three parts |
| Templates.AllVariationsCount | src/utils/templates.js:40-55 | there are 5 x 10 x 5 = 250 variations |
| Templates.AllVariationsDistinct | src/utils/templates.js:49 | no two variations share an id |
| Templates.AllVariationsOrder | src/utils/templates.js:40-55 | the variation at position 50i + 5j + k combines layout i, theme j and font k |
| Templates.AllVariationsMembers | src/utils/templates.js:40-55 | a variation is generated exactly when it combines registered keys, and its theme and font resolve |
| Templates.ForLayoutsLength | src/utils/templates.js:40-55 | the enumeration over any registries has one entry per layout, theme and font |
| Templates.ForLayoutsAppend | src/utils/templates.js:42-53 | enumerating two lists of layouts one after the other gives the two enumerations in turn |
| Templates.ForLayoutsMembers | src/utils/templates.js:42-53 | an entry is enumerated exactly when it combines one of the layouts, themes and fonts |
| Templates.ForLayoutsDistinct | src/utils/templates.js:49 | with distinct dash-free layout and theme keys and distinct font keys, no two entries share an id |
| Templates.ThemeBlockAt | src/utils/templates.js:43-51 | inside one layout, entry `j * fonts + r` belongs to theme `j` and font `r` |
| Templates.LayoutBlockAt | src/utils/templates.js:42-53 | entry `i * (themes * fonts) + q` is entry `q` of layout `i` |
| Templates.GalleryOrder | src/utils/templates.js:40-55 | over any registries, position `i * (themes * fonts) + j * fonts + k` holds layout i, theme j and font k |
| ResumeRenderer.ResolutionFallbacks | src/components/ResumeRenderer.jsx:6-14 | a missing design falls back to modern/slate/inter; a registered theme or font key resolves to its own entry, and an unknown one falls back to slate or inter |
| ResumeRenderer.StripQuotes | src/components/ResumeRenderer.jsx:18 | the font family loses every double quote and nothing else |
| ResumeRenderer.StylesByLayout | src/components/ResumeRenderer.jsx:16-53 | the page is a row with a visible sidebar exactly for two-column layouts; minimal has no header background; only creative centres the header |
| ResumeRenderer.SkillChips | src/components/ResumeRenderer.jsx:144-146 | one chip per comma-separated piece, trimmed and comma-free |
| ResumeRenderer.RenderSection | src/components/ResumeRenderer.jsx:99-180 | a section renders exactly when it has content, under its own id; unknown ids render nothing |
| ResumeRenderer.RenderSectionsIds | src/components/ResumeRenderer.jsx:271 | the rendered blocks follow the section order, keeping the sections with content |
| ResumeRenderer.ShownIdsMembers | src/components/ResumeRenderer.jsx:271 | an id is shown exactly when it is in the order and has content |
| ResumeRenderer.RenderSectionsAppend | src/components/ResumeRenderer.jsx:271 | rendering a concatenated order renders each part in turn |
| ResumeRenderer.WithoutSkills | src/components/ResumeRenderer.jsx:233-236 | the main column of a two-column page holds every ordered id except skills |
| ResumeRenderer.Avatar | src/components/ResumeRenderer.jsx:204 | the avatar shows the name's first character, or "Me" for an empty name |
| ResumeRenderer.LetterContact | src/components/ResumeRenderer.jsx:61-65 | the contact line is email and phone, plus the address exactly when it is non-empty |
| ResumeRenderer.LetterLayout | src/components/ResumeRenderer.jsx:56-93 | a cover letter always renders as a letter page with the contact line, the four recipient lines and the sender's name as signature |
| ResumeRenderer.ResumeLayout | src/components/ResumeRenderer.jsx:183-274 | a resume is two-column exactly for two-column layouts, with skills only in the sidebar, and otherwise one column in the given order |
| TemplateViewer.Or | client/src/components/TemplateViewer.js:16-23 | `a \|\| b` on strings yields `a` when it is non-empty and `b` otherwise, so it is empty exactly when both are |
| TemplateViewer.RenderItems | client/src/components/TemplateViewer.js:6-46 | items render only when present, non-empty and of a detailed or chip kind; one entry per item |
| TemplateViewer.ModernSidebarBody | client/src/components/TemplateViewer.js:88-99 | in the Modern Clean sidebar, skills and list sections map their items to chips and throw without `items`; other kinds render as in the standard column |
| TemplateViewer.CreativeSidebarBody | client/src/components/TemplateViewer.js:166-190 | in the Creative sidebar, every section maps its items (education to the raw education block, the rest to chips), throws without `items`, and shows an empty body for an empty list |
| TemplateViewer.CreativeMainBody | client/src/components/TemplateViewer.js:203-218 | in the Creative main column, experience sections map their items to the raw experience block and throw without `items`; other kinds render as in the standard column |
| TemplateViewer.CreativeNoFallback | client/src/components/TemplateViewer.js:209-215 | the Creative experience block has no fallbacks: a degree without a position gives an empty heading there, while the standard block shows the degree |
| TemplateViewer.PictureRules | client/src/components/TemplateViewer.js:150-154 | a photo is shown whenever there is one; otherwise only Creative shows an initial, the first character of the name |
| TemplateViewer.DetailFallbacks | client/src/components/TemplateViewer.js:9-32 | heading, date and organisation fall back from position to degree, duration to year, company to institution |
| TemplateViewer.PlaceAllSections | client/src/components/TemplateViewer.js:131 | a single-column template places every section in the original order |
| TemplateViewer.Where | client/src/components/TemplateViewer.js:78 | a section filter keeps exactly the sections whose kind matches the test |
| TemplateViewer.WhereInterleaves | client/src/components/TemplateViewer.js:78-99 | the sidebar and main filters split the sections into two order-preserving halves |
| TemplateViewer.SplitColumns | client/src/components/TemplateViewer.js:78-99 | a two-column split puts exactly the sections of the chosen kinds in one column and the rest in the other, order kept |
| TemplateViewer.InterleavesMultiset | client/src/components/TemplateViewer.js:78-99 | such a split loses and duplicates no section |
| TemplateViewer.Contacts | client/src/components/TemplateViewer.js:58-61 | exactly the non-empty contact fields are shown, with their values |
| TemplateViewer.ContactsAppend | client/src/components/TemplateViewer.js:58-61 | the contact lines follow the order of the field list |
| TemplateViewer.DesignSelection | client/src/components/TemplateViewer.js:303-312 | each template id selects its design, and anything else, including no id, selects Modern Clean |
| TemplateViewer.ModernCleanRegions | client/src/components/TemplateViewer.js:51-105 | Modern Clean puts the experience sections in the main column and every other section in the sidebar, each in the original order |
| TemplateViewer.CreativeRegions | client/src/components/TemplateViewer.js:144-223 | Creative puts the skills, list and education sections in the sidebar and the rest in the main column, each in the original order |
| TemplateViewer.SingleColumnRegions | client/src/components/TemplateViewer.js:108-141 | Professional, Executive and Minimal render every section in order with the shared item renderer |
| TemplateViewer.OptionalBlocks | client/src/components/TemplateViewer.js:72-77 | the summary block appears exactly when the summary is non-empty, and a contact line exactly when its field is |
| DesignStudio.DefaultRegistered | src/components/DesignStudio.jsx:6-10 | the default configuration uses a registered theme and font |
| DesignStudio.Studio.constructor | src/components/DesignStudio.jsx:6-10 | the studio starts from the given configuration, or the registered default |
| DesignStudio.Studio.SelectLayout | src/components/DesignStudio.jsx:27 | choosing a layout changes only the layout and keeps the configuration registered |
| DesignStudio.Studio.SelectTheme | src/components/DesignStudio.jsx:57 | choosing a theme changes only the theme and keeps the configuration registered |
| DesignStudio.Studio.SelectFont | src/components/DesignStudio.jsx:81 | choosing a font changes only the font and keeps the configuration registered |
| DesignStudio.Studio.UseThisDesign | src/components/DesignStudio.jsx:102 | the chosen design is the current configuration |
| DesignStudio.Preview | src/components/DesignStudio.jsx:133-169 | the mock-up exists exactly for a registered theme and font; header height, sidebar and border follow the layout |
| DesignStudio.RegisteredHasPreview | src/components/DesignStudio.jsx:133-169 | every registered configuration has a preview |
| DesignStudio.FontLabel | src/components/DesignStudio.jsx:94 | the font label capitalises the first letter of the key and keeps the rest |
| BuildResume.ApplyChange | src/pages/BuildResume.jsx:163-172 | a skills change replaces the skills, and a personal change sets one personal field and nothing else |
| BuildResume.ContentWizard.constructor | src/pages/BuildResume.jsx:20-25 | the wizard opens on the first tab with the initial document |
| BuildResume.ContentWizard.Next | src/pages/BuildResume.jsx:147-154 | Next moves one tab on, or finishes on the last tab, leaving the document alone |
| BuildResume.ContentWizard.Back | src/pages/BuildResume.jsx:156-161 | Back moves one tab back, stopping at the first |
| BuildResume.ContentWizard.HandleChange | src/pages/BuildResume.jsx:163-172 | the document becomes the edited document and the tab is unchanged |
| BuildResume.ContentWizard.AddExperience | src/pages/BuildResume.jsx:323 | one blank position is appended and nothing else changes |
| BuildResume.ContentWizard.RemoveExperience | src/pages/BuildResume.jsx:244-247 | the position at the index is removed and nothing else changes |
| BuildResume.ContentWizard.EditExperience | src/pages/BuildResume.jsx:258-303 | one field of one position changes |
| BuildResume.ContentWizard.AddEducation | src/pages/BuildResume.jsx:395 | one blank education entry is appended and nothing else changes |
| BuildResume.ContentWizard.RemoveEducation | src/pages/BuildResume.jsx:338-341 | the education entry at the index is removed |
| BuildResume.ContentWizard.EditEducation | src/pages/BuildResume.jsx:352-385 | one field of one education entry changes |
| BuildResume.EditOneEntry | src/pages/BuildResume.jsx:258-303 | an edit changes only the chosen field of the chosen entry, leaving every other field and entry as they were |
| BuildResume.RemoveThenInsert | src/pages/BuildResume.jsx:244-247 | re-inserting the removed entry at its index restores the list |
| BuildResume.Insert | src/pages/BuildResume.jsx:552-562 | inserting puts the item at the index and shifts later items up by one |
| BuildResume.ArrayMove | src/pages/BuildResume.jsx:552-562 | a move keeps the length and lands the moved item at the target index |
| BuildResume.ArrayMoveSame | src/pages/BuildResume.jsx:552-562 | moving an item onto its own place changes nothing |
| BuildResume.ArrayMovePermutation | src/pages/BuildResume.jsx:552-562 | a move is a permutation of the section order |
| BuildResume.ArrayMoveRoundTrip | src/pages/BuildResume.jsx:552-562 | moving back from the target to the source undoes a move |
| BuildResume.FindIndex | src/pages/BuildResume.jsx:556-557 | the index found holds the id, and no earlier index does |
| BuildResume.PermutationDistinct | src/pages/BuildResume.jsx:538-562 | reordering keeps the section ids free of duplicates |
| BuildResume.DistinctCount | src/pages/BuildResume.jsx:538-543 | in a duplicate-free order each id occurs at most once |
| BuildResume.FindDistinct | src/pages/BuildResume.jsx:556-557 | in a duplicate-free order the index found is the id's only position |
| BuildResume.KnownIds | src/pages/BuildResume.jsx:844-902 | the preview switch knows exactly the ordered ids among summary, experience, education and skills |
| BuildResume.PreviewSections | src/pages/BuildResume.jsx:844-902 | the preview renders, in order, exactly the known ordered sections that have content, under "Your Name" when the name is missing |
| BuildResume.FileName | src/pages/BuildResume.jsx:596 | the file is named after the full name, or `resume`, plus the extension |
| BuildResume.ExportImage | src/pages/BuildResume.jsx:586-609 | a PDF or JPG is saved exactly when a preview exists and was captured, under the file name |
| BuildResume.Blocks | src/pages/BuildResume.jsx:611-633 | each text block is present exactly when its content is, and opens with its heading |
| BuildResume.ResumeTextStartsWithHeader | src/pages/BuildResume.jsx:612 | the text export starts with the header, whose first line is `Name: ` |
| BuildResume.EmptyResumeText | src/pages/BuildResume.jsx:611-637 | an empty resume exports as the header alone |
| BuildResume.SerialiseAppend | src/pages/BuildResume.jsx:616-629 | serialising two lists of entries serialises each in turn |
| BuildResume.SerialiseEntries | src/pages/BuildResume.jsx:616-629 | each entry contributes exactly its own text, in list order |
| BuildResume.ExperienceEntryShape | src/pages/BuildResume.jsx:616-621 | every experience entry ends with its description and a blank line |
| BuildResume.Editor.constructor | src/pages/BuildResume.jsx:538-543 | the editor starts with the initial section order, score 0 and no advice |
| BuildResume.Editor.DragEnd | src/pages/BuildResume.jsx:552-562 | dropping an id on itself changes nothing; otherwise the id lands where the target was, by an `arrayMove`, and the order stays a duplicate-free permutation; the document, busy flag, score and advice are unchanged |
| BuildResume.DragResult | src/pages/BuildResume.jsx:552-561 | the order after a drop is a duplicate-free permutation of the old one in which the dragged id sits where the target was |
| BuildResume.Editor.HandleChange | src/pages/BuildResume.jsx:639-647 | an edit in the editing step updates the document as in the wizard and keeps the section order, busy flag, score and advice (the score follows only through `Refresh`) |
| BuildResume.Editor.OptimizeSummary | src/pages/BuildResume.jsx:571-584 | on success the summary is replaced by the generated summary of the document and the rest of the document is kept; when the call rejects the document is kept whole; either way the busy flag is cleared and the order, score and advice are unchanged |
| BuildResume.Editor.Refresh | src/pages/BuildResume.jsx:564-569 | after a change the score and advice are those of the current document, the score is at most 100, and the document, order and busy flag are unchanged |
| BuildResume.AppendEntries | src/pages/BuildResume.jsx:616-629 | the `forEach` appends the serialisation of every entry in order |
| BuildResume.DownloadText | src/pages/BuildResume.jsx:611-637 | the built text is the specified plain-text export, and the file is `<name>.txt` |
| BuildCV.CvWizard.constructor | src/pages/BuildCV.jsx:12-19 | the CV wizard opens on the first tab with the initial document |
| BuildCV.CvWizard.Next | src/pages/BuildCV.jsx:83-90 | Next moves one tab on, or finishes on the last of the six tabs |
| BuildCV.CvWizard.HandleChange | src/pages/BuildCV.jsx:92-97 | a personal or skills edit updates the document as in the resume editor |
| BuildCV.CvWizard.AddEducation | src/pages/BuildCV.jsx:164 | one blank education entry is appended |
| BuildCV.CvWizard.AddPublication | src/pages/BuildCV.jsx:184 | one blank publication is appended |
| BuildCV.CvWizard.AddExperience | src/pages/BuildCV.jsx:212 | one blank position is appended |
| BuildCV.CvWizard.AddAward | src/pages/BuildCV.jsx:229 | one blank award is appended |
| BuildCV.CvWizard.EditEducation | src/pages/BuildCV.jsx:152-160 | one field of one education entry changes |
| BuildCV.CvWizard.EditPublication | src/pages/BuildCV.jsx:173-180 | one field of one publication changes |
| BuildCV.CvWizard.EditExperience | src/pages/BuildCV.jsx:194-207 | one field of one position changes |
| BuildCV.CvWizard.EditAward | src/pages/BuildCV.jsx:221-225 | one field of one award changes |
| BuildCV.AddTouchesOneList | src/pages/BuildCV.jsx:184 | adding a publication lengthens that list by one and leaves every other part of the CV alone |
| BuildCV.CvFont | src/pages/BuildCV.jsx:354 | the academic template is set in Times New Roman and every other in Arial |
| BuildCV.CvSection | src/pages/BuildCV.jsx:357-425 | a CV section renders exactly when it has content, under its own id |
| BuildCV.CvSectionsIds | src/pages/BuildCV.jsx:357-425 | the rendered CV blocks follow the given order, keeping those with content |
| BuildCV.CvPreviewOrder | src/pages/BuildCV.jsx:357-425 | the preview shows summary, education, publications, experience, awards, skills in that order, each exactly when it has content |
| BuildCV.PaginateAsWritten | src/pages/BuildCV.jsx:315-327 | the export loop as written emits 1 + floor(height / page) pages at offsets 0, -page, -2 page, ... |
| BuildCV.AsWrittenExtraPage | src/pages/BuildCV.jsx:315-327 | the loop as written emits one page more than needed exactly when the image height is a whole number of pages |
| BuildCV.Paginate | src/pages/BuildCV.jsx:315-327 | the corrected loop emits ceil(height / page) pages at offsets 0, -page, -2 page, ... |
| BuildCV.PageCountCovers | src/pages/BuildCV.jsx:315-327 | every corrected page starts inside the image and every row of the image falls on some page |
| BuildCV.DownloadPdf | src/pages/BuildCV.jsx:307-330 | a file is saved exactly when the preview exists and the capture succeeds; it is `my-cv.pdf` with the corrected page count |
| BuildCoverLetter.InitialLetterFields | src/pages/BuildCoverLetter.jsx:10-14 | the initial letter is empty except the closing, which is "Sincerely," |
| BuildCoverLetter.HandleChange | src/pages/BuildCoverLetter.jsx:84-89 | the edited field of the chosen part takes the value and every other field of the letter is unchanged |
| BuildCoverLetter.HandleChangeUndo | src/pages/BuildCoverLetter.jsx:84-89 | writing the old value back restores the letter |
| BuildCoverLetter.LetterWizard.constructor | src/pages/BuildCoverLetter.jsx:10-14 | the wizard opens on the sender tab with the initial letter |
| BuildCoverLetter.LetterWizard.Next | src/pages/BuildCoverLetter.jsx:75-82 | Next moves from sender to recipient to content, and finishes on content |
| BuildCoverLetter.LetterWizard.Change | src/pages/BuildCoverLetter.jsx:84-89 | the letter becomes the edited letter and the tab is unchanged |
| BuildCoverLetter.PreviewRules | src/pages/BuildCoverLetter.jsx:270-303 | the modern style is violet, others black on grey; an empty name shows "Your Name" but no signature; the address joins the contact line only when present |
| BuildCoverLetter.DownloadPdf | src/pages/BuildCoverLetter.jsx:230-238 | a file is saved exactly when the preview exists and the capture succeeds, and it is `cover-letter.pdf` |
| ResumeParser.Ones | src/utils/resumeParser.js:20 | each atom of a group becomes one mandatory element, in order |
| ResumeParser.SizeOnes | src/utils/resumeParser.js:20 | unfolding the optional phone prefix makes the pattern smaller, so matching terminates |
| ResumeParser.Run | src/utils/resumeParser.js:13 | a greedy run stays within the cap, takes only characters of its class, and stops before one it could take |
| ResumeParser.MatchSound | src/utils/resumeParser.js:13-24 | whatever the backtracking matcher accepts is in the language of the pattern |
| ResumeParser.GreedySound | src/utils/resumeParser.js:13-24 | a greedy repetition accepts only inputs in the language of the pattern |
| ResumeParser.MatchComplete | src/utils/resumeParser.js:13-24 | if some prefix from a position is in the language, the matcher finds a match there |
| ResumeParser.GreedyComplete | src/utils/resumeParser.js:13-24 | backing off a greedy repetition finds any match with fewer repetitions |
| ResumeParser.RunCovers | src/utils/resumeParser.js:13-24 | any run of class characters within the cap is no longer than the greedy run |
| ResumeParser.FirstMatch | src/utils/resumeParser.js:14-16 | the match found starts at the leftmost position where any match exists |
| ResumeParser.FirstMatchTextSpec | src/utils/resumeParser.js:13-24 | the field is empty when no slice matches; otherwise it is a matching slice and no earlier start matches |
| ResumeParser.FirstNonEmpty | src/utils/resumeParser.js:27-31 | the name is the first non-empty trimmed line, or empty exactly when all lines are blank |
| ResumeParser.NameIsFirstNonBlankLine | src/utils/resumeParser.js:27-31 | the name is a whole trimmed line of the text, and every earlier line is blank |
| ResumeParser.NewlinesToCommas | src/utils/resumeParser.js:39 | every newline becomes `, `, so no newline is left and the length grows by one per newline |
| ResumeParser.NonSpaceAppend | src/utils/resumeParser.js:39 | the non-space characters of a concatenation are those of each part in turn |
| ResumeParser.NonSpaceBlank | src/utils/resumeParser.js:39 | a blank string has no non-space characters |
| ResumeParser.Words | src/utils/resumeParser.js:39 | the words of a text are non-empty and contain no white space, and a text starting with a non-space character has a word |
| ResumeParser.WordsSkipBlank | src/utils/resumeParser.js:39 | leading white space belongs to no word |
| ResumeParser.WordsDropBlank | src/utils/resumeParser.js:39 | trailing white space belongs to no word |
| ResumeParser.WordsTrim | src/utils/resumeParser.js:39 | trimming keeps the words |
| ResumeParser.CollapseSpaces | src/utils/resumeParser.js:39 | whitespace runs collapse to one space, the result is empty only for empty input, starts with a space exactly when the input starts with white space, and keeps the non-space characters in order |
| ResumeParser.CollapseKeepsWords | src/utils/resumeParser.js:39 | collapsing keeps the words: none is joined to another, split or lost |
| ResumeParser.CollapseTrailing | src/utils/resumeParser.js:39 | the collapsed text ends with a space exactly when the input ends with white space |
| ResumeParser.SingleSpacedSlice | src/utils/resumeParser.js:39 | a slice of single-spaced text is single-spaced |
| ResumeParser.TrimNonSpace | src/utils/resumeParser.js:39 | trimming keeps every non-space character |
| ResumeParser.CleanSkillsShape | src/utils/resumeParser.js:39 | cleaned skills have no newline, single spaces, no outer whitespace, and the non-space characters of the chunk |
| ResumeParser.CleanSkillsWords | src/utils/resumeParser.js:39 | cleaned skills have exactly the words of the chunk with newlines turned into `, ` |
| ResumeParser.SkillsLocated | src/utils/resumeParser.js:34-40 | skills are empty when `skills` never occurs; otherwise they come from at most 294 characters after its first occurrence |
| ResumeParser.KeywordEnd | src/utils/resumeParser.js:43-51 | the summary starts after the first keyword, in list order, that occurs anywhere, or at -1 when none does |
| ResumeParser.FirstFound | src/utils/resumeParser.js:43-51 | the chosen keyword occurs, and every keyword tried before it does not |
| ResumeParser.IndexOfFirst | src/utils/resumeParser.js:46 | a match at an index with no earlier match is what `indexOf` returns |
| ResumeParser.KeywordOrderBeatsPosition | src/utils/resumeParser.js:43-51 | the keyword order wins over position: `summary` is preferred even when `profile` comes first |
| ResumeParser.FindSummaryStart | src/utils/resumeParser.js:43-51 | the loop with `break` computes the specified start |
| ResumeParser.SummaryExtraction | src/utils/resumeParser.js:53-56 | the summary runs from the start to the next blank line, or at most 500 characters, and is trimmed |
| ResumeParser.ParseResumeText | src/utils/resumeParser.js:2-59 | each parsed field is its specified heuristic, and the lists stay empty |
| AiService.ReplaceNoMatch | src/utils/aiService.js:27-30 | a replacement with no whole-word match leaves the text unchanged |
| AiService.ReplaceFirstMatch | src/utils/aiService.js:27-30 | the first whole-word, case-insensitive match is replaced and the text before it is kept |
| AiService.ApplyTable | src/utils/aiService.js:27-30 | the loop applies the table's rewrites one after another, each to the result of the ones before |
| AiService.OptimizeText | src/utils/aiService.js:2-38 | blank text is returned unchanged; otherwise the ten rewrites are applied in order, and the suggestion is appended exactly for experience text without a metric |
| AiService.ReplaceAllIdentity | src/utils/aiService.js:28-29 | a text with no whole-word occurrence of the weak phrase is left unchanged by that entry |
| AiService.NatToString | src/utils/aiService.js:51 | the decimal form is non-empty, all digits and has no leading zero |
| AiService.ParseNatToString | src/utils/aiService.js:51 | reading the decimal form back gives the number |
| AiService.YearsPhrase | src/utils/aiService.js:51 | no experience gives `multiple`; otherwise the count followed by `+` |
| AiService.SkillsPhrasePieces | src/utils/aiService.js:50 | no skills gives `various skills`; otherwise the first three trimmed pieces joined by `, ` |
| AiService.GenericIffNoTitle | src/utils/aiService.js:46-53 | the generic summary is returned exactly when the title is empty |
| AiService.SummaryInputs | src/utils/aiService.js:44-53 | the summary depends only on the title, the number of positions and the skills |
| CategoryPage.ContainsAny | client/src/pages/CategoryPage.js:16-18 | an alternation matches exactly when some word occurs as a substring |
| CategoryPage.Recommendation | client/src/pages/CategoryPage.js:16-25 | each badge follows its flag; Corporate is recommended exactly when no flag holds, so some card always is |
| CategoryPage.FlagsIgnoreCase | client/src/pages/CategoryPage.js:16-18 | descriptions equal up to letter case get the same cards |
| CategoryPage.SharedJobId | client/src/pages/CategoryPage.js:20-25 | Technical and Corporate both hand on `job`; the others hand on `creative` and `scholarship` |
| CategoryPage.SelectOutcomes | client/src/pages/CategoryPage.js:10-25 | every card leads to the design step; Technical and Corporate select the same purpose, and the other cards select two further distinct ones |
| CategoryPage.SubstringNotWord | client/src/pages/CategoryPage.js:17 | keywords match inside words: "start" is creative because it contains "art" |

## Left out

- Floating point: `Math.round` is modelled exactly on rationals, rounding half up, and pixel and millimetre sizes are natural numbers.
- Rendering: html2canvas, jsPDF, `saveAs`, `Blob` and the DOM are left out. A capture is a boolean parameter, and an image height is a number parameter.
- The clock is left out: the date on the cover letter and `Date.now()` are not modelled.
- Timing: the mock delays (`setTimeout`) and `async`/`await` are left out, so each operation completes at once.
- `JSON.stringify(data).length` in the score's length rule is a parameter, because the JSON encoder is not part of this model.
- The regular-expression engine: each pattern the core uses is written out as a recogniser. The email and phone patterns run on the model's own small matcher.
- `ResumeParser.FirstMatchTextSpec` proves which slice matches first, not which greedy end the engine reports at that start; `ResumeParser.MatchSound` and `ResumeParser.MatchComplete` bound it.
- `Text.Lower` is ASCII only. This agrees with the non-unicode `i` regex flag, but not with `toLowerCase` on characters outside ASCII, which can change the length of a string.
- Mutation in place: entry edits that mutate an entry object and then copy the list are modelled as value updates. Aliasing between React states is not modelled.
- `BuildResume.Editor.DragEnd` requires both ids to be in the order, because a drop outside any section (`over` null) is not modelled.
- `AiService.OptimizeText` does not model a null or undefined text, only strings.
- The upload merge on the choice step (spreading parsed data into the resume), `pdfParser.js`, the server routes, the context provider and purely presentational components are not part of this model.
- Object key order: JavaScript property enumeration order for the registries is the declared order.
- Prototype keys: `colorThemes[key] || colorThemes.slate` (and the font lookup) would return an inherited member such as `toString` for a key that names one; the model's registries are plain maps, so such a key falls back to the default.
- UTF-16 lengths: JavaScript's `length`, `substring` and `charAt` count UTF-16 code units, while the model counts characters, so text with characters outside the Basic Multilingual Plane is measured differently. This affects `AtsScorer.SummaryPoints` and `AtsScorer.Recommendations` (the 50-character summary rules), `AtsScorer.CompleteExperience` (descriptions over 30 characters), `ResumeParser.SkillsChunk` and `ResumeParser.SummaryText` (the 300- and 500-character windows), `ResumeRenderer.Avatar` and `TemplateViewer.PictureOf` (the first character of a name).
- `AtsScorer.CalculateATSScore` measures the summary and the experience descriptions in characters, not UTF-16 code units.
- `AtsScorer.SummaryBoundaryAt50` measures the summary in characters, not UTF-16 code units.
- `AtsScorer.RecommendationsMembers` measures the summary in characters, not UTF-16 code units.
- `ResumeParser.SkillsLocated` measures the skills window in characters, not UTF-16 code units.
- `ResumeParser.SummaryExtraction` measures the summary window in characters, not UTF-16 code units.
- `ResumeParser.ParseResumeText` measures the skills and summary windows in characters, not UTF-16 code units.
- `ResumeRenderer.Avatar` takes the first character, not the first UTF-16 code unit.
- `BuildResume.Editor.OptimizeSummary` takes the outcome of the awaited `generateSummary` call as a parameter: `None` when it rejects, otherwise the generated summary of the current document (its precondition), because what makes the call reject (a network or runtime failure) is not part of this model.
- `BuildCV.DownloadPdf` saves the corrected page count, ceil(height / page), from `BuildCV.Paginate` rather than the 1 + floor(height / page) pages of the loop as written, which `BuildCV.PaginateAsWritten` models (see Findings).

## Findings

| source | as written | input that shows it | evidently intended | confidence | as-written member | corrected member |
|---|---|---|---|---|---|---|
| src/pages/BuildCV.jsx:315-327 | the loop adds a page while `heightLeft >= 0` after subtracting a page height, so it emits 1 + floor(image / page) pages | an image of exactly two pages (2400 units at 1200 a page) yields 3 pages, the last blank | ceil(image / page) pages, each starting inside the image | not executed | BuildCV.AsWrittenExtraPage | BuildCV.PageCountCovers |
