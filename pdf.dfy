/** lib/pdf.tsx: `generatePDFFromResume` renders the résumé payload as one HTML
    document, whose UTF-8 bytes are the "PDF"; `htmlToPdfBuffer` is that encoding alone.
    Each piece of markup is a list of fragments whose concatenation is, character for
    character and indentation included, what the template literal produces: optional
    parts are the empty text when their value is empty, the four list sections are
    present exactly when their list is non-empty, and the parts follow a fixed order. */
module Pdf {
  import opened Collections
  import opened Text
  import opened Utf8
  import opened ResumeTypes

  /** The content of the `<style>` element, kept verbatim. */
  const StyleSheet :=
    "\n"
    + "        body { \n"
    + "          font-family: 'Segoe UI', Tahoma, Geneva, Verdana, sans-serif; \n"
    + "          margin: 40px; \n"
    + "          line-height: 1.6;\n"
    + "          color: #333;\n"
    + "        }\n"
    + "        h1 { font-size: 28px; margin: 0 0 5px 0; font-weight: 600; }\n"
    + "        h2 { \n"
    + "          font-size: 14px; \n"
    + "          font-weight: 600; \n"
    + "          border-bottom: 2px solid #2c3e50; \n"
    + "          margin-top: 20px; \n"
    + "          margin-bottom: 12px;\n"
    + "          padding-bottom: 8px;\n"
    + "          color: #2c3e50;\n"
    + "        }\n"
    + "        .contact { font-size: 12px; color: #555; margin-bottom: 15px; }\n"
    + "        .contact span { margin-right: 15px; }\n"
    + "        .section { margin-bottom: 20px; }\n"
    + "        .entry { margin-bottom: 16px; }\n"
    + "        .entry-header { display: flex; justify-content: space-between; align-items: flex-start; }\n"
    + "        .entry-title { font-weight: 600; font-size: 13px; }\n"
    + "        .entry-subtitle { font-size: 12px; color: #666; margin-top: 2px; }\n"
    + "        .entry-dates { font-size: 11px; color: #888; }\n"
    + "        .entry-description { font-size: 12px; margin-top: 6px; line-height: 1.5; }\n"
    + "        .skills { display: flex; flex-wrap: wrap; gap: 8px; }\n"
    + "        .skill-tag { \n"
    + "          background-color: #ecf0f1; \n"
    + "          padding: 4px 10px; \n"
    + "          font-size: 11px; \n"
    + "          border-radius: 3px;\n"
    + "          border: 1px solid #bdc3c7;\n"
    + "        }\n"
    + "        .summary { font-size: 12px; line-height: 1.6; margin-bottom: 15px; }\n"
    + "      "

  // The fixed text between the template's substitutions.
  const DocumentOpen := "\n    <!DOCTYPE html>\n    <html>\n    <head>\n      <meta charset=\"UTF-8\">\n      <title>"
  const TitleClose := "</title>\n      <style>"
  const BodyOpen := "</style>\n    </head>\n    <body>\n      "
  const HeadingGap := "\n      \n      "
  const PartGap := "\n\n      "
  const DocumentClose := "\n    </body>\n    </html>\n  "
  const SectionIndent := "\n        "
  const DivOpen := "\n        <div class=\""
  const DivOpenEnd := "\">\n          "
  const SectionClose := "\n        </div>\n      "
  const HeaderOpen := "\n            <div class=\"entry\">\n              <div class=\"entry-header\">\n                <div>\n                  "
  const SubtitleIndent := "\n                  "
  const DatesIndent := "\n                </div>\n                "
  const HeaderClose := "\n              </div>\n              "
  const EntryClose := "\n            </div>\n          "
  const EducationClose := "\n              </div>\n            </div>\n          "
  const ProjectOpen := "\n            <div class=\"entry\">\n              "
  const ProjectIndent := "\n              "

  /** `value ? text : ""`: an empty value leaves nothing. */
  function When(value: string, text: string): (r: string)
    ensures value == "" ==> r == ""
    ensures value != "" ==> r == text
  {
    if value != "" then text else ""
  }

  /** `name || "Your Name"`. */
  function HeadingName(name: string): (r: string)
    ensures name != "" ==> r == name
    ensures name == "" ==> r == "Your Name"
    ensures r != ""
  {
    if name != "" then name else "Your Name"
  }

  /** Whether an optional part produced any text. */
  lemma ConcatNonEmpty(xs: seq<string>)
    requires |xs| > 0 && xs[0] != ""
    ensures Concat(xs) != ""
  {
    assert |Concat(xs)| >= |xs[0]|;
  }

  // ---------------------------------------------------------------- personal info

  function Span(value: string): string {
    When(value, "<span>" + value + "</span>")
  }

  const ContactOpen := "\n        <div class=\"contact\">\n          "
  const ContactSep := "\n          "
  const ContactClose := "\n        </div>\n      "

  /** The contact block's fragments: the email, phone and location spans at 1, 3 and 5. */
  function ContactLines(p: PersonalInfo): (r: seq<string>)
    ensures |r| == 7 && r[0] != ""
    ensures r[1] == Span(p.email) && r[3] == Span(p.phone) && r[5] == Span(p.location)
  {
    [ContactOpen, Span(p.email), ContactSep, Span(p.phone), ContactSep, Span(p.location), ContactClose]
  }

  /** The contact block: absent exactly when email, phone and location are all empty. */
  function ContactBlock(p: PersonalInfo): (r: string)
    ensures r == "" <==> p.email == "" && p.phone == "" && p.location == ""
  {
    if p.email != "" || p.phone != "" || p.location != "" then
      ConcatNonEmpty(ContactLines(p));
      Concat(ContactLines(p))
    else ""
  }

  /** Each filled-in contact field shows up as its own span. */
  lemma ContactShowsFilledFields(p: PersonalInfo)
    ensures p.email != "" ==> Includes(ContactBlock(p), "<span>" + p.email + "</span>")
    ensures p.phone != "" ==> Includes(ContactBlock(p), "<span>" + p.phone + "</span>")
    ensures p.location != "" ==> Includes(ContactBlock(p), "<span>" + p.location + "</span>")
  {
    var lines := ContactLines(p);
    forall k | k in {1, 3, 5} && lines[k] != ""
      ensures Includes(ContactBlock(p), lines[k])
    {
      IncludesSelf(lines[k]);
      ConcatIncludes(lines, k, lines[k]);
    }
  }

  /** The spans keep the order email, phone, location. */
  lemma ContactOrder(p: PersonalInfo, i: nat, j: nat) returns (a: string, b: string, c: string)
    requires i < j < 3
    requires ContactBlock(p) != ""
    ensures ContactBlock(p) == a + ContactLines(p)[2 * i + 1] + b + ContactLines(p)[2 * j + 1] + c
  {
    a, b, c := ConcatOrdered(ContactLines(p), 2 * i + 1, 2 * j + 1);
  }

  /** `summary ? <div class="summary">…</div> : ""`. */
  function SummaryBlock(summary: string): (r: string)
    ensures r == "" <==> summary == ""
  {
    When(summary, Div("summary", summary))
  }

  // ---------------------------------------------------------------- sections

  function H2(heading: string): string {
    "<h2>" + heading + "</h2>"
  }

  /** A list section's fragments: the `<h2>` at 1 and the entries, joined with no
      separator, at 3. */
  function SectionLines(heading: string, divClass: string, entries: seq<string>): (r: seq<string>)
    ensures |r| == 5 && r[0] != "" && r[1] == H2(heading) && r[3] == Concat(entries)
  {
    [SectionIndent, H2(heading), DivOpen + divClass + DivOpenEnd, Concat(entries), SectionClose]
  }

  /** A list section: nothing for an empty list. */
  function Section(heading: string, divClass: string, entries: seq<string>): (r: string)
    ensures r == "" <==> |entries| == 0
  {
    if |entries| == 0 then ""
    else
      ConcatNonEmpty(SectionLines(heading, divClass, entries));
      Concat(SectionLines(heading, divClass, entries))
  }

  /** A non-empty section shows its heading. */
  lemma SectionHeading(heading: string, divClass: string, entries: seq<string>)
    requires |entries| > 0
    ensures Includes(Section(heading, divClass, entries), H2(heading))
  {
    IncludesSelf(H2(heading));
    ConcatIncludes(SectionLines(heading, divClass, entries), 1, H2(heading));
  }

  /** Every entry of a non-empty section is in it, the earlier ones first. */
  lemma SectionEntries(heading: string, divClass: string, entries: seq<string>, i: nat, j: nat)
    returns (a: string, b: string, c: string)
    requires i < j < |entries|
    ensures Section(heading, divClass, entries) == a + entries[i] + b + entries[j] + c
  {
    var lines := SectionLines(heading, divClass, entries);
    ConcatSplit(lines, 3);
    var a', b', c' := ConcatOrdered(entries, i, j);
    a, b, c := Concat(lines[..3]) + a', b', c' + Concat(lines[4..]);
  }

  lemma SectionEntry(heading: string, divClass: string, entries: seq<string>, k: nat, t: string)
    requires k < |entries| && Includes(entries[k], t)
    ensures Includes(Section(heading, divClass, entries), t)
  {
    ConcatIncludes(entries, k, t);
    ConcatIncludes(SectionLines(heading, divClass, entries), 3, t);
  }

  /** "Present" for a current position, otherwise the end date. */
  function DateRange(e: Experience): (r: string)
    ensures e.current ==> r == e.startDate + " - Present"
    ensures !e.current ==> r == e.startDate + " - " + e.endDate
  {
    e.startDate + " - " + (if e.current then "Present" else e.endDate)
  }

  function Div(cls: string, content: string): string {
    "<div class=\"" + cls + "\">" + content + "</div>"
  }

  /** One experience entry: title at 1, subtitle at 3, dates at 5, optional description at 7. */
  function ExperienceLines(e: Experience): (r: seq<string>)
    ensures |r| == 9
    ensures r[1] == Div("entry-title", e.position) && r[3] == Div("entry-subtitle", e.company)
    ensures r[5] == Div("entry-dates", DateRange(e))
    ensures r[7] == When(e.description, Div("entry-description", e.description))
  {
    [HeaderOpen, Div("entry-title", e.position), SubtitleIndent, Div("entry-subtitle", e.company), DatesIndent,
     Div("entry-dates", DateRange(e)), HeaderClose, When(e.description, Div("entry-description", e.description)), EntryClose]
  }

  function ExperienceEntry(e: Experience): (r: string)
    ensures Includes(r, Div("entry-title", e.position))
    ensures Includes(r, Div("entry-dates", DateRange(e)))
    ensures e.description != "" ==> Includes(r, Div("entry-description", e.description))
  {
    var lines := ExperienceLines(e);
    assert Includes(Concat(lines), lines[1]) && Includes(Concat(lines), lines[5]) &&
           Includes(Concat(lines), lines[7]) by {
      IncludesSelf(lines[1]);
      IncludesSelf(lines[5]);
      IncludesSelf(lines[7]);
      ConcatIncludes(lines, 1, lines[1]);
      ConcatIncludes(lines, 5, lines[5]);
      ConcatIncludes(lines, 7, lines[7]);
    }
    Concat(lines)
  }

  /** One education entry: "degree in field" at 1, school at 3, the start date alone at 5. */
  function EducationLines(e: Education): (r: seq<string>)
    ensures |r| == 7
    ensures r[1] == Div("entry-title", e.degree + " in " + e.field) && r[3] == Div("entry-subtitle", e.school)
    ensures r[5] == Div("entry-dates", e.startDate)
  {
    [HeaderOpen, Div("entry-title", e.degree + " in " + e.field), SubtitleIndent, Div("entry-subtitle", e.school),
     DatesIndent, Div("entry-dates", e.startDate), EducationClose]
  }

  function EducationEntry(e: Education): (r: string)
    ensures Includes(r, Div("entry-title", e.degree + " in " + e.field))
    ensures Includes(r, Div("entry-dates", e.startDate))
  {
    var lines := EducationLines(e);
    assert Includes(Concat(lines), lines[1]) && Includes(Concat(lines), lines[5]) by {
      IncludesSelf(lines[1]);
      IncludesSelf(lines[5]);
      ConcatIncludes(lines, 1, lines[1]);
      ConcatIncludes(lines, 5, lines[5]);
    }
    Concat(lines)
  }

  function SkillTag(skill: string): string {
    "<span class=\"skill-tag\">" + skill + "</span>"
  }

  function Anchor(link: string): string {
    "<a href=\"" + link + "\">" + link + "</a>"
  }

  /** The project link line, present only for a non-empty link. */
  function LinkBlock(link: string): (r: string)
    ensures r == "" <==> link == ""
    ensures link != "" ==> r == Div("entry-description", Anchor(link))
  {
    When(link, Div("entry-description", Anchor(link)))
  }

  /** One project entry: name at 1, optional description at 3, optional link at 5. */
  function ProjectLines(p: Project): (r: seq<string>)
    ensures |r| == 7
    ensures r[1] == Div("entry-title", p.name)
    ensures r[3] == When(p.description, Div("entry-description", p.description))
    ensures r[5] == LinkBlock(p.link)
  {
    [ProjectOpen, Div("entry-title", p.name), ProjectIndent, When(p.description, Div("entry-description", p.description)),
     ProjectIndent, LinkBlock(p.link), EntryClose]
  }

  function ProjectEntry(p: Project): (r: string)
    ensures Includes(r, Div("entry-title", p.name))
    ensures p.description != "" ==> Includes(r, Div("entry-description", p.description))
    ensures p.link != "" ==> Includes(r, Div("entry-description", Anchor(p.link)))
  {
    var lines := ProjectLines(p);
    assert Includes(Concat(lines), lines[1]) && Includes(Concat(lines), lines[3]) &&
           Includes(Concat(lines), lines[5]) by {
      IncludesSelf(lines[1]);
      IncludesSelf(lines[3]);
      IncludesSelf(lines[5]);
      ConcatIncludes(lines, 1, lines[1]);
      ConcatIncludes(lines, 3, lines[3]);
      ConcatIncludes(lines, 5, lines[5]);
    }
    Concat(lines)
  }

  function ExperienceEntries(xs: seq<Experience>): (r: seq<string>)
    ensures |r| == |xs| && forall i :: 0 <= i < |xs| ==> r[i] == ExperienceEntry(xs[i])
  {
    seq(|xs|, i requires 0 <= i < |xs| => ExperienceEntry(xs[i]))
  }

  function EducationEntries(xs: seq<Education>): (r: seq<string>)
    ensures |r| == |xs| && forall i :: 0 <= i < |xs| ==> r[i] == EducationEntry(xs[i])
  {
    seq(|xs|, i requires 0 <= i < |xs| => EducationEntry(xs[i]))
  }

  function SkillTags(xs: seq<string>): (r: seq<string>)
    ensures |r| == |xs| && forall i :: 0 <= i < |xs| ==> r[i] == SkillTag(xs[i])
  {
    seq(|xs|, i requires 0 <= i < |xs| => SkillTag(xs[i]))
  }

  function ProjectEntries(xs: seq<Project>): (r: seq<string>)
    ensures |r| == |xs| && forall i :: 0 <= i < |xs| ==> r[i] == ProjectEntry(xs[i])
  {
    seq(|xs|, i requires 0 <= i < |xs| => ProjectEntry(xs[i]))
  }

  // ---------------------------------------------------------------- the document

  /** The six optional parts of the body, in document order: contact, summary,
      experience, education, skills, projects. */
  function Parts(c: ResumeContent): (r: seq<string>)
    ensures |r| == 6
    ensures r[0] == "" <==> c.personalInfo.email == "" && c.personalInfo.phone == "" && c.personalInfo.location == ""
    ensures r[1] == "" <==> c.personalInfo.summary == ""
    ensures r[2] == "" <==> |c.experience| == 0
    ensures r[3] == "" <==> |c.education| == 0
    ensures r[4] == "" <==> |c.skills| == 0
    ensures r[5] == "" <==> |c.projects| == 0
  {
    [ContactBlock(c.personalInfo),
     SummaryBlock(c.personalInfo.summary),
     Section("Experience", "section", ExperienceEntries(c.experience)),
     Section("Education", "section", EducationEntries(c.education)),
     Section("Skills", "skills", SkillTags(c.skills)),
     Section("Projects", "section", ProjectEntries(c.projects))]
  }

  function H1(name: string): string {
    "<h1>" + HeadingName(name) + "</h1>"
  }

  /** Everything before the contact block: the raw name as title, the stylesheet, and
      the `<h1>` at 5. */
  function HeadLines(style: string, name: string): (r: seq<string>)
    ensures |r| == 7 && r[5] == H1(name)
  {
    [DocumentOpen, name, TitleClose, style, BodyOpen, H1(name), HeadingGap]
  }

  /** The HTML text of `generatePDFFromResume`, for a given stylesheet: the head, the six
      parts separated by blank lines, and the closing tags. It uses only the payload. */
  function Html(style: string, c: ResumeContent): (r: string)
    ensures StartsWith(r, DocumentOpen + c.personalInfo.name + TitleClose)
    ensures EndsWith(r, DocumentClose)
  {
    var lines := HeadLines(style, c.personalInfo.name);
    FramedConcat(lines, Join(Parts(c), PartGap), DocumentClose);
    Concat(lines) + Join(Parts(c), PartGap) + DocumentClose
  }

  /** The `<h1>` shows the name, or "Your Name" for an empty name. */
  lemma HeadingShown(style: string, c: ResumeContent)
    ensures Includes(Html(style, c), H1(c.personalInfo.name))
  {
    var lines := HeadLines(style, c.personalInfo.name);
    IncludesSelf(lines[5]);
    ConcatIncludes(lines, 5, lines[5]);
    IncludesPrefix(Concat(lines), Join(Parts(c), PartGap), lines[5]);
    IncludesPrefix(Concat(lines) + Join(Parts(c), PartGap), DocumentClose, lines[5]);
  }

  /** An earlier part always comes before a later one. */
  lemma PartsInOrder(style: string, c: ResumeContent, i: nat, j: nat) returns (a: string, b: string, d: string)
    requires i < j < 6
    ensures Html(style, c) == a + Parts(c)[i] + b + Parts(c)[j] + d
  {
    var parts := Parts(c);
    var a', b', d' := JoinOrdered(parts, PartGap, i, j);
    Enclose(Concat(HeadLines(style, c.personalInfo.name)), Join(parts, PartGap), DocumentClose,
            a', parts[i], b', parts[j], d');
    a, b, d := Concat(HeadLines(style, c.personalInfo.name)) + a', b', d' + DocumentClose;
  }

  lemma PartShown(style: string, c: ResumeContent, k: nat, t: string)
    requires k < 6 && Includes(Parts(c)[k], t)
    ensures Includes(Html(style, c), t)
  {
    JoinIncludes(Parts(c), PartGap, k, t);
    IncludesWithin(Concat(HeadLines(style, c.personalInfo.name)), Join(Parts(c), PartGap), DocumentClose, t);
  }

  /** A non-empty list puts its section heading in the document. */
  lemma SectionHeadingsShown(style: string, c: ResumeContent)
    ensures |c.experience| > 0 ==> Includes(Html(style, c), H2("Experience"))
    ensures |c.education| > 0 ==> Includes(Html(style, c), H2("Education"))
    ensures |c.skills| > 0 ==> Includes(Html(style, c), H2("Skills"))
    ensures |c.projects| > 0 ==> Includes(Html(style, c), H2("Projects"))
  {
    if |c.experience| > 0 {
      SectionHeading("Experience", "section", ExperienceEntries(c.experience));
      PartShown(style, c, 2, H2("Experience"));
    }
    if |c.education| > 0 {
      SectionHeading("Education", "section", EducationEntries(c.education));
      PartShown(style, c, 3, H2("Education"));
    }
    if |c.skills| > 0 {
      SectionHeading("Skills", "skills", SkillTags(c.skills));
      PartShown(style, c, 4, H2("Skills"));
    }
    if |c.projects| > 0 {
      SectionHeading("Projects", "section", ProjectEntries(c.projects));
      PartShown(style, c, 5, H2("Projects"));
    }
  }

  /** Two ordered pieces of one part stay ordered in the document. */
  lemma PartPiecesInOrder(style: string, c: ResumeContent, k: nat, a': string, u: string, b': string, v: string, d': string)
    returns (a: string, b: string, d: string)
    requires k < 6 && Parts(c)[k] == a' + u + b' + v + d'
    ensures Html(style, c) == a + u + b + v + d
  {
    a, b, d := FramedJoinPieces(Concat(HeadLines(style, c.personalInfo.name)), Parts(c), PartGap, DocumentClose,
                                k, a', u, b', v, d');
  }

  /** Experience entries appear in input order. */
  lemma ExperienceInInputOrder(style: string, c: ResumeContent, i: nat, j: nat)
    returns (a: string, b: string, d: string)
    requires i < j < |c.experience|
    ensures Html(style, c) == a + ExperienceEntry(c.experience[i]) + b + ExperienceEntry(c.experience[j]) + d
  {
    var entries := ExperienceEntries(c.experience);
    var a', b', d' := SectionEntries("Experience", "section", entries, i, j);
    a, b, d := PartPiecesInOrder(style, c, 2, a', entries[i], b', entries[j], d');
  }

  /** Project entries appear in input order. */
  lemma ProjectsInInputOrder(style: string, c: ResumeContent, i: nat, j: nat)
    returns (a: string, b: string, d: string)
    requires i < j < |c.projects|
    ensures Html(style, c) == a + ProjectEntry(c.projects[i]) + b + ProjectEntry(c.projects[j]) + d
  {
    var entries := ProjectEntries(c.projects);
    var a', b', d' := SectionEntries("Projects", "section", entries, i, j);
    a, b, d := PartPiecesInOrder(style, c, 5, a', entries[i], b', entries[j], d');
  }

  /** A current position is shown as running to "Present". */
  lemma CurrentPositionShowsPresent(style: string, c: ResumeContent, k: nat)
    requires k < |c.experience| && c.experience[k].current
    ensures Includes(Html(style, c), Div("entry-dates", c.experience[k].startDate + " - Present"))
  {
    SectionEntry("Experience", "section", ExperienceEntries(c.experience), k,
                 Div("entry-dates", c.experience[k].startDate + " - Present"));
    PartShown(style, c, 2, Div("entry-dates", c.experience[k].startDate + " - Present"));
  }

  /** Every skill is shown as a tag. */
  lemma SkillTagShown(style: string, c: ResumeContent, k: nat)
    requires k < |c.skills|
    ensures Includes(Html(style, c), SkillTag(c.skills[k]))
  {
    IncludesSelf(SkillTag(c.skills[k]));
    SectionEntry("Skills", "skills", SkillTags(c.skills), k, SkillTag(c.skills[k]));
    PartShown(style, c, 4, SkillTag(c.skills[k]));
  }

  /** `generatePDFFromResume`: the document's UTF-8 bytes; decoding gives it back. */
  function GeneratePdfFromResume(resume: Resume): (r: seq<byte>)
    ensures Decode(r) == Some(Html(StyleSheet, resume.data))
  {
    DecodeEncode(Html(StyleSheet, resume.data));
    Encode(Html(StyleSheet, resume.data))
  }

  /** `htmlToPdfBuffer`: the text's UTF-8 bytes, nothing added or changed. */
  function HtmlToPdfBuffer(html: string): (r: seq<byte>)
    ensures Decode(r) == Some(html)
    ensures |html| <= |r| <= 4 * |html|
  {
    DecodeEncode(html);
    Encode(html)
  }

  /** Achievements, ids, title, template and timestamps never reach the document. */
  lemma OnlyRenderedFieldsMatter(r: Resume, s: Resume)
    requires r.data.(achievements := []) == s.data.(achievements := [])
    ensures GeneratePdfFromResume(r) == GeneratePdfFromResume(s)
  {
    assert r.data.personalInfo == s.data.personalInfo;
    assert r.data.experience == s.data.experience && r.data.education == s.data.education;
    assert r.data.skills == s.data.skills && r.data.projects == s.data.projects;
    assert Parts(r.data) == Parts(s.data);
  }
}
