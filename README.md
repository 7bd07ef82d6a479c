# Résumé builder core, modelled in Dafny

This project models the core of a résumé-builder web application:

- the rule-based "AI" helpers (professional summary, skill suggestions, achievement
  bullet, ATS score);
- the file-backed local database of users and résumés;
- the editor's state transitions;
- the two HTTP routes that list/create résumés and dispatch suggestion requests;
- the two exporters, one rendering a résumé as an HTML document and one writing a
  plain-text pseudo-PDF.

Each file of the application has its own module:

- `AiRules` (lib/aiRules.ts): functions; `calculateAtsScore` is a method that accumulates `score` and `suggestions` step by step, proved equal to a scoring function.
- `LocalDb` (lib/localDb.ts): a class `Store` whose `users`/`resumes` fields the methods reassign, as the source mutates the parsed arrays.
- `ResumeEditor` (components/resume-editor.tsx): functions from the current résumé state to the next state and the résumé queued for autosave.
- `ResumesRoute` (app/api/resumes/route.ts): a class `Collection` over the stored documents, with `Get` and `Post` methods.
- `SuggestionsRoute` (app/api/ai/suggestions/route.ts): one dispatch function.
- `Pdf` (lib/pdf.tsx): the template literal as lists of text fragments, concatenated.
- `PdfExport` (lib/pdf-export.tsx): functions, plus the two `+=` builders as methods proved against reference functions.

Shared modules:

- `Collections` has `Option`, `find`, `filter` and removal by index.
- `Text` has `includes`, `join`, `toLowerCase` and the prefix/suffix/occurrence vocabulary.
- `Utf8` has `Buffer.from(s, "utf-8")` as an encoder with its decoder.
- `ResumeTypes` has the records, and the `Partial<T>` patches merged as object spread merges them.

Random choices, clocks, generated ids, the database connection and the request body
parser are inputs.

## Model

| member | source | states |
|---|---|---|
| `AiRules.FirstSkillOr` | lib/aiRules.ts:9 | `skills[0] \|\| fallback`: the first skill unless there is none or it is empty |
| `AiRules.FirstTwoSkills` | lib/aiRules.ts:10 | `slice(0, 2).join(" and ")`: empty, the one skill, or the first two joined by " and " |
| `AiRules.GenerateSummary` | lib/aiRules.ts:3-14 | each of the three templates opens with its opener, the role, " with ", the years and its lead, and ends with its closing sentence |
| `AiRules.SummarySkillSlot` | lib/aiRules.ts:9-11 | the skill slot holds the first skill, or "development"/"technology" when there is none or it is empty; the second template holds up to two skills joined by " and " and has no fallback |
| `AiRules.SuggestSkills` | lib/aiRules.ts:17-41 | the table's list for a known role, the empty list otherwise |
| `AiRules.SuggestSkillsTable` | lib/aiRules.ts:18-40 | exactly the four listed roles get suggestions: eight for "Software Engineer", seven for the others |
| `AiRules.GenerateBullet` | lib/aiRules.ts:44-62 | the bullet starts with verb, task, ", resulting in " and impact, and ends with " using <tech>." when tech is non-empty, "." otherwise; its length is exactly that of those pieces, so nothing else is in it |
| `AiRules.Descriptions` | lib/aiRules.ts:74-75 | one description per experience entry, in order |
| `AiRules.ExperienceText` | lib/aiRules.ts:74-77 | the descriptions joined by spaces and lower-cased: no upper-case ASCII letter is left; empty without experience; the one description lower-cased for a single entry |
| `AiRules.HasMetrics` | lib/aiRules.ts:95-96 | "improved", "increased", "reduced" or "saved" anywhere is a match; any match needs one of those words or a `%` or `$` sign |
| `AiRules.Checks` | lib/aiRules.ts:72-109 | the four outcomes in check order: some action verb occurs in the lower-cased text; more than five skills; a metric in that text; a non-empty summary |
| `AiRules.AtsReport` | lib/aiRules.ts:65-112 | the score lies in [50, 100]; at most four suggestions, each one of the four pieces of advice |
| `AiRules.IncludesAny` | lib/aiRules.ts:79 | `some(w => text.includes(w))`: true iff some word occurs in the text |
| `AiRules.CalculateAtsScore` | lib/aiRules.ts:65-112 | the step-by-step `+=` and `push` computation returns exactly the scoring function's result |
| `AiRules.EarnedTally` | lib/aiRules.ts:81-106 | the earned bonus is the sum of the bonuses of the passed checks |
| `AiRules.MissedTally` | lib/aiRules.ts:83-108 | one piece of advice per failed check, in check order |
| `AiRules.AtsReportUnfolded` | lib/aiRules.ts:69-111 | score = 50 + 15/10/15/10 for each passed check; suggestions = the failed checks' advice, in order |
| `AiRules.EarnedAtMostSum` | lib/aiRules.ts:81-106 | passed checks earn at most the sum of all bonuses |
| `AiRules.EarnedMonotone` | lib/aiRules.ts:81-106 | passing more checks never earns less |
| `AiRules.AtsScoreBounds` | lib/aiRules.ts:70-111 | the score lies in [50, 100] and is 50 plus the bonuses of the passed checks, so the cap at 100 never changes it |
| `AiRules.AtsSuggestionCount` | lib/aiRules.ts:69-111 | one suggestion per failed check (at most four); no suggestions iff the score is 100 |
| `AiRules.AtsMonotone` | lib/aiRules.ts:70-111 | a résumé passing every check another passes scores at least as much |
| `AiRules.FiveSkillsAreNotEnough` | lib/aiRules.ts:88-92 | the skills check needs more than five: with exactly five, the advice is given and the score is at most 90 |
| `AiRules.EmptyContentScore` | lib/aiRules.ts:65-112 | an empty payload scores 50 and gets all four pieces of advice, in check order |
| `AiRules.WordInDescription` | lib/aiRules.ts:74-77 | a word one description contains, in any letter case, is in the lower-cased joined text |
| `AiRules.VerbInDescription` | lib/aiRules.ts:73-85 | a description containing an action verb, in any letter case, passes the verb check |
| `AiRules.FullMarksExample` | lib/aiRules.ts:65-112 | six skills, a summary and "Led migration, improved throughput by 20%" score 100 with no advice |
| `AiRules.BulletVerbIsActionVerb` | lib/aiRules.ts:49-58 | five of the eight bullet verbs are, lower-cased, on the action-verb list |
| `AiRules.BulletEarnsVerbBonus` | lib/aiRules.ts:59-61 | a generated bullet with one of those five verbs, used as a description, passes the verb check |
| `LocalDb.Store.constructor` | lib/localDb.ts:57-60 | an empty database |
| `LocalDb.Store.Load` | lib/localDb.ts:62-69 | `readDb`: the file's contents, or the empty database when reading or parsing fails |
| `LocalDb.Store.Snapshot` | lib/localDb.ts:71-77 | `writeDb` stores exactly the two arrays |
| `LocalDb.Store.GetUsers` | lib/localDb.ts:81-83 | all users |
| `LocalDb.Store.GetUserByEmail` | lib/localDb.ts:85-87 | the first user with that email; none iff no user has it |
| `LocalDb.Store.GetUserById` | lib/localDb.ts:89-91 | the first user with that id; none iff no user has it |
| `LocalDb.Store.SaveUser` | lib/localDb.ts:93-97 | appends the user, résumés unchanged |
| `LocalDb.Store.UpdateUser` | lib/localDb.ts:99-106 | merges the patch into the first user with that id only; no change when there is none |
| `LocalDb.Store.DeleteUser` | lib/localDb.ts:108-113 | removes that id's users and, cascading, their résumés; every other record keeps its multiplicity |
| `LocalDb.Store.GetResumesByUser` | lib/localDb.ts:116-118 | exactly the user's résumés, each as often as stored, in order |
| `LocalDb.Store.GetResume` | lib/localDb.ts:120-122 | the first résumé with that id; none iff no résumé has it |
| `LocalDb.Store.SaveResume` | lib/localDb.ts:124-128 | appends the résumé, users unchanged |
| `LocalDb.Store.UpdateResume` | lib/localDb.ts:130-137 | merges the patch into the first résumé with that id and stamps `updatedAt` with the current time; no change when there is none |
| `LocalDb.Store.DeleteResume` | lib/localDb.ts:139-143 | removes every résumé with that id, users unchanged |
| `LocalDb.StampedMerge` | lib/localDb.ts:134 | the merge with `updatedAt` overridden: the timestamp always wins over the patch |
| `LocalDb.UpdateCanChangeId` | lib/localDb.ts:134 | a patch that supplies an id renames the résumé |
| `LocalDb.EmptyUpdateOnlyStamps` | lib/localDb.ts:130-137 | an empty patch changes only `updatedAt` |
| `ResumeTypes.MergeResume` | components/resume-editor.tsx:125 | `{ ...r, ...u }`: each supplied field replaces the record's, every other field is kept |
| `ResumeTypes.MergeResumeTwice` | components/resume-editor.tsx:125 | two patches in turn equal their combination, the later one winning |
| `ResumeTypes.MergeResumeIdempotent` | components/resume-editor.tsx:125 | applying the same patch twice is applying it once |
| `ResumeTypes.MergeUser` | lib/localDb.ts:103 | `Object.assign(user, updates)`: each supplied field replaces the user's, every other field is kept |
| `ResumeEditor.UpdateResume` | components/resume-editor.tsx:122-130 | no change without a résumé; otherwise the merged résumé becomes the state and is queued for autosave |
| `ResumeEditor.EducationPut` | components/resume-editor.tsx:184 | `{ ...entry, [field]: value }`: that field reads back the value, the others and the id are kept |
| `ResumeEditor.BlankEducation` | components/resume-editor.tsx:164-171 | the new entry has the fresh id and every field empty |
| `ResumeEditor.AddEducation` | components/resume-editor.tsx:162-179 | appends a blank entry; the rest of the résumé is unchanged; no autosave |
| `ResumeEditor.UpdateEducation` | components/resume-editor.tsx:181-192 | only that field of that entry changes; lengths and the rest of the résumé are kept; no autosave |
| `ResumeEditor.DeleteEducation` | components/resume-editor.tsx:194-203 | removes the entry at that index; the rest is unchanged; no autosave |
| `ResumeEditor.DeleteAddedEducation` | components/resume-editor.tsx:162-203 | deleting the entry just added restores the résumé |
| `ResumeEditor.EducationEditsOverwrite` | components/resume-editor.tsx:181-192 | the last edit of a field wins; writing back its own value changes nothing |
| `ResumeEditor.ExperienceGet` | components/resume-editor.tsx:225 | `current` is a flag and every other field is text |
| `ResumeEditor.ExperiencePut` | components/resume-editor.tsx:228 | that field reads back the value, the others and the id are kept |
| `ResumeEditor.BlankExperience` | components/resume-editor.tsx:207-215 | the new entry has the fresh id, empty texts and `current` false |
| `ResumeEditor.AddExperience` | components/resume-editor.tsx:205-223 | appends a blank entry; the rest is unchanged; no autosave |
| `ResumeEditor.UpdateExperience` | components/resume-editor.tsx:225-236 | only that field of that entry changes; no autosave |
| `ResumeEditor.DeleteExperience` | components/resume-editor.tsx:238-247 | removes the entry at that index; no autosave |
| `ResumeEditor.DeleteAddedExperience` | components/resume-editor.tsx:205-247 | deleting the entry just added restores the résumé |
| `ResumeEditor.ExperienceEditsOverwrite` | components/resume-editor.tsx:225-236 | the last edit wins; writing back a field's own value changes nothing |
| `ResumeEditor.ProjectPut` | components/resume-editor.tsx:269 | that field reads back the value, the others and the id are kept |
| `ResumeEditor.BlankProject` | components/resume-editor.tsx:251-256 | the new project has the fresh id and every field empty |
| `ResumeEditor.AddProject` | components/resume-editor.tsx:249-264 | appends a blank project; the rest is unchanged; no autosave |
| `ResumeEditor.UpdateProject` | components/resume-editor.tsx:266-277 | only that field of that project changes; no autosave |
| `ResumeEditor.DeleteProject` | components/resume-editor.tsx:279-288 | removes the project at that index; no autosave |
| `ResumeEditor.DeleteAddedProject` | components/resume-editor.tsx:249-288 | deleting the project just added restores the résumé |
| `ResumeEditor.ProjectEditsOverwrite` | components/resume-editor.tsx:266-277 | the last edit wins; writing back a field's own value changes nothing |
| `ResumeEditor.AddSkill` | components/resume-editor.tsx:598-604 | appends an empty skill through `updateResume`, so it is queued for autosave |
| `ResumeEditor.EditSkill` | components/resume-editor.tsx:617-626 | only the skill at that index changes; queued for autosave |
| `ResumeEditor.DeleteSkill` | components/resume-editor.tsx:632-639 | removes the skill at that index; queued for autosave |
| `ResumeEditor.DeleteAddedSkill` | components/resume-editor.tsx:598-639 | deleting the skill just added restores the résumé |
| `ResumeEditor.SkillEditsOverwrite` | components/resume-editor.tsx:617-626 | the last edit of a skill wins; writing back its own text changes nothing |
| `ResumeEditor.PersonalPut` | components/resume-editor.tsx:341-344 | that personal field reads back the value, the other four are kept |
| `ResumeEditor.EditPersonalInfo` | components/resume-editor.tsx:337-427 | only that personal field changes; queued for autosave |
| `ResumeEditor.PersonalEditsOverwrite` | components/resume-editor.tsx:337-427 | the last edit of a personal field wins; writing back its own value changes nothing |
| `ResumesRoute.ToApi` | app/api/resumes/route.ts:16-20 | the view's `id` is the document's `_id` |
| `ResumesRoute.ApiRoundTrip` | app/api/resumes/route.ts:16-20 | the `_id`→`id` view loses nothing: it and its inverse undo each other |
| `ResumesRoute.ToApiAll` | app/api/resumes/route.ts:16-20 | one view per document, in order |
| `ResumesRoute.ToApiAllAppend` | app/api/resumes/route.ts:16-20 | the views of two lists in turn are the views of their concatenation |
| `ResumesRoute.TemplateOrDefault` | app/api/resumes/route.ts:38 | `template \|\| "modern"`: an absent or empty template becomes "modern" |
| `ResumesRoute.NewDocument` | app/api/resumes/route.ts:34-55 | the generated id, the body's owner and title, the template or "modern" (never empty), the empty payload and the two clock readings |
| `ResumesRoute.NewResumeAtsBaseline` | app/api/resumes/route.ts:34-55 | a newly created résumé scores the ATS base 50 with all four pieces of advice |
| `ResumesRoute.Collection.constructor` | app/api/resumes/route.ts:13 | the collection holds the given documents |
| `ResumesRoute.Collection.Get` | app/api/resumes/route.ts:4-27 | 400 without a user id; 500 when the database fails; otherwise 200 with exactly that user's documents as views, in stored order |
| `ResumesRoute.Collection.Post` | app/api/resumes/route.ts:29-71 | 500 and no change on failure; otherwise the new document (fresh id, owner, title, template or "modern", empty payload, timestamps) is appended and returned with 201 |
| `ResumesRoute.PostedResumeIsListed` | app/api/resumes/route.ts:14-58 | after a POST, the owner's listing is the old listing followed by the new résumé as POST returned it |
| `ResumesRoute.OthersPostsAreNotListed` | app/api/resumes/route.ts:14-58 | another user's POST leaves a listing unchanged |
| `SuggestionsRoute.Rendered` | lib/aiRules.ts:9-11 | a missing field renders as "undefined" inside a template |
| `SuggestionsRoute.TechOrEmpty` | lib/aiRules.ts:60 | a missing tech is treated like an empty one |
| `SuggestionsRoute.Completes` | app/api/ai/suggestions/route.ts:9-21 | for one of the four kinds, its rule runs to completion iff `data` is present and, for "summary", its skills and, for "ats", its résumé are present; otherwise reading through a missing value throws |
| `SuggestionsRoute.Respond` | app/api/ai/suggestions/route.ts:3-31 | 500 for an unparsable body; 400 "Invalid suggestion type" for any other type; 500 when the chosen rule throws on missing data; otherwise 200 with the rule's result |
| `SuggestionsRoute.SkillsDispatch` | app/api/ai/suggestions/route.ts:13-15 | "skills" answers `suggestSkills(data.role)`, the empty list for a missing role |
| `SuggestionsRoute.AtsDispatch` | app/api/ai/suggestions/route.ts:19-20 | "ats" answers `calculateAtsScore(data.resume)`, a score in [50, 100] |
| `SuggestionsRoute.GeneratorDispatch` | app/api/ai/suggestions/route.ts:10-18 | "summary" and "bullet" pass `data`'s fields to the generators unchanged |
| `SuggestionsRoute.UnknownTypeIgnoresData` | app/api/ai/suggestions/route.ts:22-23 | an unknown type is a 400 even when `data` is missing |
| `SuggestionsRoute.PicksOnlyAffectGenerators` | app/api/ai/suggestions/route.ts:9-24 | the random choices only matter for "summary" and "bullet" |
| `Pdf.When` | lib/pdf.tsx:54-56 | `value ? text : ""` |
| `Pdf.HeadingName` | lib/pdf.tsx:48 | the name, or "Your Name" when it is empty |
| `Pdf.ContactLines` | lib/pdf.tsx:52-58 | the email, phone and location spans sit in that order |
| `Pdf.ContactBlock` | lib/pdf.tsx:50-60 | the contact block is empty iff email, phone and location are all empty |
| `Pdf.ContactShowsFilledFields` | lib/pdf.tsx:54-56 | every filled-in contact field appears as its own span |
| `Pdf.ContactOrder` | lib/pdf.tsx:54-56 | the spans come in the order email, phone, location |
| `Pdf.SummaryBlock` | lib/pdf.tsx:62 | the summary div is empty iff the summary is empty |
| `Pdf.SectionLines` | lib/pdf.tsx:66-86 | a section is its heading, its div and its entries joined with no separator |
| `Pdf.Section` | lib/pdf.tsx:64-88 | a list section is empty iff its list is empty |
| `Pdf.SectionHeading` | lib/pdf.tsx:67 | a non-empty section shows its `<h2>` |
| `Pdf.SectionEntries` | lib/pdf.tsx:69-84 | entries appear in input order |
| `Pdf.SectionEntry` | lib/pdf.tsx:69-84 | text inside an entry is inside its section |
| `Pdf.DateRange` | lib/pdf.tsx:78 | start date, then "Present" for a current position and the end date otherwise |
| `Pdf.ExperienceLines` | lib/pdf.tsx:71-82 | title, subtitle, dates and optional description of one experience entry |
| `Pdf.ExperienceEntry` | lib/pdf.tsx:71-82 | an experience entry shows its position and date range, and its description when non-empty |
| `Pdf.EducationLines` | lib/pdf.tsx:97-107 | "degree in field", school and the start date alone |
| `Pdf.EducationEntry` | lib/pdf.tsx:97-107 | an education entry shows "degree in field" and only the start date |
| `Pdf.LinkBlock` | lib/pdf.tsx:137 | the link line is present iff the link is non-empty, and is then an anchor to the link |
| `Pdf.ProjectLines` | lib/pdf.tsx:133-139 | name, optional description, optional link |
| `Pdf.ProjectEntry` | lib/pdf.tsx:133-139 | a project shows its name, and its description and link when non-empty |
| `Pdf.ExperienceEntries` | lib/pdf.tsx:69-84 | one rendered entry per experience, in order |
| `Pdf.EducationEntries` | lib/pdf.tsx:95-109 | one rendered entry per education, in order |
| `Pdf.SkillTags` | lib/pdf.tsx:120 | one tag per skill, in order |
| `Pdf.ProjectEntries` | lib/pdf.tsx:131-141 | one rendered entry per project, in order |
| `Pdf.Parts` | lib/pdf.tsx:50-145 | contact, summary, experience, education, skills and projects, each empty iff its data is empty |
| `Pdf.HeadLines` | lib/pdf.tsx:4-48 | the document head has the `<h1>` after the title and stylesheet |
| `Pdf.Html` | lib/pdf.tsx:4-148 | the document opens with the doctype and the `<title>` holding the raw name (with no "Your Name" fallback) and ends with the closing body and html tags |
| `Pdf.HeadingShown` | lib/pdf.tsx:48 | the document shows the `<h1>` with the name or "Your Name" |
| `Pdf.PartsInOrder` | lib/pdf.tsx:50-145 | the six parts appear in their fixed order |
| `Pdf.PartShown` | lib/pdf.tsx:50-145 | text in a part is in the document |
| `Pdf.SectionHeadingsShown` | lib/pdf.tsx:64-145 | each non-empty list puts its section heading in the document |
| `Pdf.ExperienceInInputOrder` | lib/pdf.tsx:69-84 | experience entries appear in the document in input order |
| `Pdf.ProjectsInInputOrder` | lib/pdf.tsx:131-141 | project entries appear in the document in input order |
| `Pdf.CurrentPositionShowsPresent` | lib/pdf.tsx:78 | a current position is shown as running to "Present" |
| `Pdf.SkillTagShown` | lib/pdf.tsx:115-124 | every skill is in the document as a tag |
| `Pdf.GeneratePdfFromResume` | lib/pdf.tsx:1-154 | the bytes decode back to the rendered document |
| `Pdf.HtmlToPdfBuffer` | lib/pdf.tsx:156-160 | the bytes decode back to the input unchanged; 1 to 4 bytes per character |
| `Pdf.OnlyRenderedFieldsMatter` | lib/pdf.tsx:2-148 | achievements, ids, title, template and timestamps never affect the document |
| `PdfExport.PdfTextShape` | lib/pdf-export.tsx:68-109 | a document of that shape starts with "%PDF-1.4\n", ends with "%%EOF" and draws its text |
| `PdfExport.GeneratePdfFromHtml` | lib/pdf-export.tsx:1-52 | the bytes decode to the fixed one-page document |
| `PdfExport.FixedPdfShape` | lib/pdf-export.tsx:14-49 | the fixed document starts with the version line, ends with "%%EOF" and draws "Generated Resume" |
| `PdfExport.PdfFromHtmlIgnoresInput` | lib/pdf-export.tsx:1-52 | every input gives the same bytes |
| `PdfExport.Header` | lib/pdf-export.tsx:68-110 | the header starts with "%PDF-1.4\n", ends with "%%EOF" and contains `(name) Tj\n` |
| `PdfExport.HeaderNameRoundTrip` | lib/pdf-export.tsx:90-92 | the name is inserted verbatim and can be read back out of the header |
| `PdfExport.HeaderInjective` | lib/pdf-export.tsx:90-92 | different names give different headers |
| `PdfExport.Section` | lib/pdf-export.tsx:112-114 | a blank line, "title:", a newline, the serialised content and a newline: prefix, suffix and length |
| `PdfExport.FieldLine` | lib/pdf-export.tsx:118-121 | a labelled line for a non-empty value, nothing for an empty one |
| `PdfExport.PersonalInfoText` | lib/pdf-export.tsx:116-123 | the block starts with the "PERSONAL INFO:" heading and is just the heading when every field is empty |
| `PdfExport.PersonalInfoBlock` | lib/pdf-export.tsx:116-123 | the `+=` builder returns the heading followed by the lines of the filled-in fields |
| `PdfExport.PersonalInfoEmpty` | lib/pdf-export.tsx:116-123 | with every field empty the block is just the heading |
| `PdfExport.PersonalInfoShowsField` | lib/pdf-export.tsx:118-121 | the block starts with the heading and contains the line of each filled-in field |
| `PdfExport.PersonalInfoOrder` | lib/pdf-export.tsx:118-121 | the lines come in the order email, phone, location, summary |
| `PdfExport.PersonalInfoIgnoresName` | lib/pdf-export.tsx:116-123 | the name is never part of the block |
| `PdfExport.SimplePdfParts` | lib/pdf-export.tsx:58-63 | header, personal info, then EXPERIENCE, EDUCATION, SKILLS and PROJECTS sections |
| `PdfExport.SimplePdfText` | lib/pdf-export.tsx:54-66 | the text starts with the header and ends with the PROJECTS section |
| `PdfExport.GenerateSimplePdf` | lib/pdf-export.tsx:54-66 | the `+=` builder's bytes decode to the six pieces in order |
| `PdfExport.SimplePdfOrder` | lib/pdf-export.tsx:58-63 | the six pieces appear in their fixed order |
| `PdfExport.SimplePdfAfterEof` | lib/pdf-export.tsx:58-63 | the header, with its "%%EOF", comes first, so all résumé text follows the end-of-file marker |
| `Collections.FirstIndex` | lib/localDb.ts:101 | the first index satisfying the predicate, none iff no element does |
| `Collections.Find` | lib/localDb.ts:86 | `Array.prototype.find`: the first matching element, none iff no element matches |
| `Collections.Filter` | lib/localDb.ts:110-111 | `Array.prototype.filter`: kept elements satisfy the predicate, each with its multiplicity |
| `Collections.FilterConcat` | lib/localDb.ts:110-111 | filtering works piecewise, so kept elements keep their order |
| `Collections.RemoveAt` | components/resume-editor.tsx:201 | `filter((_, i) => i !== index)`: drops that position; any other index drops nothing |
| `Text.IncludesIffOccurs` | lib/aiRules.ts:79 | `includes` holds iff the word occurs at some position |
| `Text.Includes` | lib/aiRules.ts:79 | a prefix is included, and an included string is no longer than the text |
| `Text.Join` | lib/aiRules.ts:76 | `""` for no elements; every element fits within the result |
| `Text.JoinSplit` | lib/aiRules.ts:76 | each element of a `join` sits between the join of the earlier and of the later ones |
| `Text.ToLower` | lib/aiRules.ts:77 | ASCII `toLowerCase`: each character mapped on its own, A-Z lowered, the length kept |
| `Utf8.DecodeEncode` | lib/pdf.tsx:152 | the UTF-8 encoding of any text decodes back to it |
| `Utf8.Encode` | lib/pdf.tsx:152 | `Buffer.from(s, "utf-8")`: between one and four bytes per character |
| `Utf8.Decode` | lib/pdf.tsx:152 | a successful decode yields between one character per byte and one per four bytes |
| `Utf8.EncodeAppend` | lib/pdf.tsx:152 | encoding is piecewise over concatenation |

## Left out

- Reading and writing `data/local.json` (lib/localDb.ts:62-77) is not modelled. The parsed file is the input of `Load`, and `Snapshot` is what gets written.
- JSON parsing and `JSON.stringify` are not modelled. The serialised text of each section in lib/pdf-export.tsx is an input (`PdfExport.Serialiser`).
- The Mongo connection, the `randomUUID` id and the `new Date()` clock readings are inputs. A failing connection, query, insert or body parse is the `available` flag or a `None` body, and always ends in a 500.
- `Math.random` in the generators is the `pick` parameter. Every index the random expression can produce is allowed.
- `yearsExperience` is a number in the source. Here it is the text it renders to, because JavaScript number formatting is not modelled.
- `suggestSkills` on the names of `Object.prototype` members ("constructor", "toString", …) would return a function in the source. The model treats every name outside the table as unknown.
- `Object.assign` and object spread with an explicitly `undefined` value are not modelled. A patch either supplies a value or leaves the field alone.
- `calculateAtsScore` on a payload whose `experience` or `skills` is missing: the source treats a missing list like an empty one, and payloads here always have both lists.
- ResumeEditor.UpdateEducation, UpdateExperience, UpdateProject and EditSkill require an index inside the list. The editor only passes indices of rendered entries. An out-of-range assignment in JavaScript would leave holes in the array, which is not modelled.
- The editor's debounced autosave timer, manual save, loading and toasts (components/resume-editor.tsx:66-120, 132-160) are not modelled. An edit only reports the résumé it queues for saving.
- Strings are sequences of Unicode scalar values. JavaScript strings with unpaired surrogates are not modelled by the UTF-8 encoder.
- Text.ToLower lowers ASCII letters only. JavaScript's `toLowerCase` also lowers other letters (É to é) and can lengthen a string (U+0130 becomes "i" followed by U+0307). This changes no ATS outcome. Every action verb and metric word is lower-case ASCII. Upper-case letters outside ASCII lower to letters outside ASCII, except U+212A (to "k", which no word contains) and U+0130, whose "i" is followed by U+0307, and no word ends in "i". The `%`, `$` and digit tests do not depend on case.
- Whether the pseudo-PDF output is a valid PDF (the stream lengths and cross-reference offsets are fixed literals) is not modelled. Only the text's shape is.
- The stylesheet of lib/pdf.tsx:10-45 is kept verbatim as a constant. The document lemmas hold for any stylesheet.
- mongodb.ts, authentication, utilities, the UI templates and pages are not part of this model.
