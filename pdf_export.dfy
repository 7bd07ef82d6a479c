/** lib/pdf-export.tsx: two text-only "PDF" generators. `generatePDFFromHTML` returns
    the bytes of one fixed one-page document whatever it is given; `generateSimplePDF`
    writes a header that shows the name, then the personal details and the four lists as
    labelled plain-text blocks. `JSON.stringify` is not modelled: the serialised text of
    each list is a parameter. */
module PdfExport {
  import opened Collections
  import opened Text
  import opened Utf8
  import opened ResumeTypes

  const PdfMagic := "%PDF-1.4\n"
  const EofMarker := "%%EOF"

  /** The content-stream operator that draws `text`: `(text) Tj`. */
  function ShowText(text: string): string {
    "(" + text + ") Tj\n"
  }

  /** The catalog, page tree, page and the start of the content stream of the fixed document. */
  const FixedObjects :=
    "1 0 obj\n"
    + "<< /Type /Catalog /Pages 2 0 R >>\n"
    + "endobj\n"
    + "2 0 obj\n"
    + "<< /Type /Pages /Kids [3 0 R] /Count 1 >>\n"
    + "endobj\n"
    + "3 0 obj\n"
    + "<< /Type /Page /Parent 2 0 R /MediaBox [0 0 612 792] /Contents 4 0 R /Resources << /Font << /F1 5 0 R >> >> >>\n"
    + "endobj\n"
    + "4 0 obj\n"
    + "<< /Length 44 >>\n"
    + "stream\n"
    + "BT\n"
    + "/F1 12 Tf\n"
    + "50 700 Td\n"

  /** The rest of the fixed document up to its end-of-file marker: font, cross-reference table and trailer. */
  const FixedTrailer :=
    "ET\n"
    + "endstream\n"
    + "endobj\n"
    + "5 0 obj\n"
    + "<< /Type /Font /Subtype /Type1 /BaseFont /Helvetica >>\n"
    + "endobj\n"
    + "xref\n"
    + "0 6\n"
    + "0000000000 65535 f\n"
    + "0000000009 00000 n\n"
    + "0000000058 00000 n\n"
    + "0000000115 00000 n\n"
    + "0000000248 00000 n\n"
    + "0000000346 00000 n\n"
    + "trailer\n"
    + "<< /Size 6 /Root 1 0 R >>\n"
    + "startxref\n"
    + "425\n"

  /** The header's binary-marker comment, objects and the start of its content stream. */
  const HeaderObjects :=
    "%\U{00DC}\U{00B6}\n"
    + "1 0 obj\n"
    + "<</Type/Catalog/Pages 2 0 R>>\n"
    + "endobj\n"
    + "2 0 obj\n"
    + "<</Type/Pages/Kids[3 0 R]/Count 1>>\n"
    + "endobj\n"
    + "3 0 obj\n"
    + "<</Type/Page/Parent 2 0 R/Resources<</Font<</F1 4 0 R>>>>/MediaBox[0 0 612 792]/Contents 5 0 R>>\n"
    + "endobj\n"
    + "4 0 obj\n"
    + "<</Type/Font/Subtype/Type1/BaseFont/Helvetica-Bold>>\n"
    + "endobj\n"
    + "5 0 obj\n"
    + "<</Length 500>>\n"
    + "stream\n"
    + "BT\n"
    + "/F1 20 Tf\n"
    + "50 750 Td\n"

  /** The rest of the header up to its end-of-file marker. */
  const HeaderTrailer :=
    "ET\n"
    + "endstream\n"
    + "endobj\n"
    + "xref\n"
    + "0 6\n"
    + "0000000000 65535 f\n"
    + "0000000015 00000 n\n"
    + "0000000068 00000 n\n"
    + "0000000125 00000 n\n"
    + "0000000261 00000 n\n"
    + "0000000333 00000 n\n"
    + "trailer\n"
    + "<</Size 6/Root 1 0 R>>\n"
    + "startxref\n"
    + "882\n"

  /** A document of the shape both generators write: the version line, the objects up to
      the text operator, the text, the trailer and the end-of-file marker. */
  function PdfText(objects: string, text: string, trailer: string): string {
    PdfMagic + objects + ShowText(text) + trailer + EofMarker
  }

  /** Every such document opens with the version line, ends with the end-of-file marker
      and draws its text. */
  lemma PdfTextShape(objects: string, text: string, trailer: string)
    ensures StartsWith(PdfText(objects, text, trailer), PdfMagic)
    ensures EndsWith(PdfText(objects, text, trailer), EofMarker)
    ensures Includes(PdfText(objects, text, trailer), ShowText(text))
  {
    var s := PdfText(objects, text, trailer);
    assert s[..|PdfMagic|] == PdfMagic;
    assert s[|s| - |EofMarker|..] == EofMarker;
    IncludesSelf(ShowText(text));
    IncludesWithin(PdfMagic + objects, ShowText(text), trailer + EofMarker, ShowText(text));
    assert PdfMagic + objects + ShowText(text) + (trailer + EofMarker) == s;
  }

  // ---------------------------------------------------------------- generatePDFFromHTML

  const FixedPdf := PdfText(FixedObjects, "Generated Resume", FixedTrailer)

  /** `generatePDFFromHTML`: the argument is never read; the bytes decode to the fixed
      document, which draws "Generated Resume". */
  function GeneratePdfFromHtml(htmlContent: string): (r: seq<byte>)
    ensures Decode(r) == Some(FixedPdf)
  {
    DecodeEncode(FixedPdf);
    Encode(FixedPdf)
  }

  lemma FixedPdfShape()
    ensures StartsWith(FixedPdf, PdfMagic) && EndsWith(FixedPdf, EofMarker)
    ensures Includes(FixedPdf, ShowText("Generated Resume"))
  {
    PdfTextShape(FixedObjects, "Generated Resume", FixedTrailer);
  }

  /** Whatever HTML is passed in, the same document comes out. */
  lemma PdfFromHtmlIgnoresInput(h: string, h': string)
    ensures GeneratePdfFromHtml(h) == GeneratePdfFromHtml(h')
  {
  }

  // ---------------------------------------------------------------- generatePDFHeader

  /** `generatePDFHeader(name)`: a one-page document that draws the name, unescaped. */
  function Header(name: string): (r: string)
    ensures StartsWith(r, PdfMagic) && EndsWith(r, EofMarker)
    ensures Includes(r, ShowText(name))
  {
    PdfTextShape(HeaderObjects, name, HeaderTrailer);
    PdfText(HeaderObjects, name, HeaderTrailer)
  }

  /** The name a header draws, read back from between the fixed text before and after it. */
  function HeaderName(header: string): Option<string> {
    var before := PdfMagic + HeaderObjects + "(";
    var after := ") Tj\n" + HeaderTrailer + EofMarker;
    if |before| + |after| <= |header| && header[..|before|] == before && header[|header| - |after|..] == after
    then Some(header[|before|..|header| - |after|])
    else None
  }

  /** A document of that shape is the text before the drawn text, the text, and the rest. */
  lemma PdfTextAround(objects: string, text: string, trailer: string)
    ensures PdfText(objects, text, trailer) == (PdfMagic + objects + "(") + text + (") Tj\n" + trailer + EofMarker)
  {
  }

  /** Text placed between two known pieces can be cut back out. */
  lemma CutOut(before: string, text: string, after: string)
    ensures var s := before + text + after;
      s[..|before|] == before && s[|s| - |after|..] == after && s[|before|..|s| - |after|] == text
  {
  }

  /** The name is put in verbatim and can be read back, so different names give
      different headers. */
  lemma HeaderNameRoundTrip(name: string)
    ensures HeaderName(Header(name)) == Some(name)
  {
    PdfTextAround(HeaderObjects, name, HeaderTrailer);
    CutOut(PdfMagic + HeaderObjects + "(", name, ") Tj\n" + HeaderTrailer + EofMarker);
  }

  lemma HeaderInjective(name: string, name': string)
    requires Header(name) == Header(name')
    ensures name == name'
  {
    HeaderNameRoundTrip(name);
    HeaderNameRoundTrip(name');
  }

  // ---------------------------------------------------------------- generatePDFSection

  /** `generatePDFSection(title, content)` with `serialised` the text of
      `JSON.stringify(content, null, 2)`: a blank line, the title and a colon, the
      serialised content, a newline. */
  function Section(title: string, serialised: string): (r: string)
    ensures |r| == |title| + |serialised| + 4
    ensures StartsWith(r, "\n" + title + ":\n")
    ensures EndsWith(r, serialised + "\n")
  {
    var r := "\n" + title + ":\n" + serialised + "\n";
    assert r[..|title| + 3] == "\n" + title + ":\n";
    assert r[|r| - |serialised| - 1..] == serialised + "\n";
    r
  }

  /** `JSON.stringify(·, null, 2)` at the four types the sections serialise. */
  datatype Serialiser = Serialiser(
    experience: seq<Experience> -> string,
    education: seq<Education> -> string,
    skills: seq<string> -> string,
    projects: seq<Project> -> string)

  // ---------------------------------------------------------------- generatePDFPersonalInfo

  const PersonalHeading := "\nPERSONAL INFO:\n"

  /** One labelled line, or nothing for an empty value. */
  function FieldLine(caption: string, value: string): (r: string)
    ensures value == "" ==> r == ""
    ensures value != "" ==> r == caption + value + "\n"
  {
    if value != "" then caption + value + "\n" else ""
  }

  /** The four possible lines, in the order email, phone, location, summary. */
  function FieldLines(info: PersonalInfo): (r: seq<string>)
    ensures |r| == 4
  {
    [FieldLine("Email: ", info.email), FieldLine("Phone: ", info.phone),
     FieldLine("Location: ", info.location), FieldLine("Summary: ", info.summary)]
  }

  /** The personal-info block: the heading, then the lines of the filled-in fields. */
  function PersonalInfoText(info: PersonalInfo): (r: string)
    ensures StartsWith(r, PersonalHeading)
    ensures info.email == "" && info.phone == "" && info.location == "" && info.summary == "" ==> r == PersonalHeading
  {
    var l := FieldLines(info);
    assert l == [l[0], l[1], l[2], l[3]];
    ConcatFour("", l[0], l[1], l[2], l[3]);
    assert (PersonalHeading + Concat(l))[..|PersonalHeading|] == PersonalHeading;
    PersonalHeading + Concat(FieldLines(info))
  }

  /** `generatePDFPersonalInfo`: starts from the heading and appends a labelled line for
      each filled-in field. */
  method PersonalInfoBlock(info: PersonalInfo) returns (result: string)
    ensures result == PersonalInfoText(info)
  {
    result := PersonalHeading;
    if info.email != "" {
      result := result + ("Email: " + info.email + "\n");
    }
    assert result == PersonalHeading + FieldLine("Email: ", info.email);
    if info.phone != "" {
      result := result + ("Phone: " + info.phone + "\n");
    }
    assert result == PersonalHeading + FieldLine("Email: ", info.email) + FieldLine("Phone: ", info.phone);
    if info.location != "" {
      result := result + ("Location: " + info.location + "\n");
    }
    assert result == PersonalHeading + FieldLine("Email: ", info.email) + FieldLine("Phone: ", info.phone)
                     + FieldLine("Location: ", info.location);
    if info.summary != "" {
      result := result + ("Summary: " + info.summary + "\n");
    }
    var lines := FieldLines(info);
    assert result == PersonalHeading + lines[0] + lines[1] + lines[2] + lines[3];
    ConcatFour(PersonalHeading, lines[0], lines[1], lines[2], lines[3]);
  }

  /** With nothing filled in, the block is the heading alone. */
  lemma PersonalInfoEmpty(info: PersonalInfo)
    requires info.email == "" && info.phone == "" && info.location == "" && info.summary == ""
    ensures PersonalInfoText(info) == PersonalHeading
  {
    ConcatFour(PersonalHeading, "", "", "", "");
    assert FieldLines(info) == ["", "", "", ""];
  }

  /** Each filled-in field has its labelled line in the block. */
  lemma PersonalInfoShowsField(info: PersonalInfo, k: nat)
    requires k < 4 && FieldLines(info)[k] != ""
    ensures Includes(PersonalInfoText(info), FieldLines(info)[k])
    ensures StartsWith(PersonalInfoText(info), PersonalHeading)
  {
    var lines := FieldLines(info);
    IncludesSelf(lines[k]);
    ConcatIncludes(lines, k, lines[k]);
    IncludesWithin(PersonalHeading, Concat(lines), "", lines[k]);
    assert PersonalHeading + Concat(lines) + "" == PersonalInfoText(info);
    assert PersonalInfoText(info)[..|PersonalHeading|] == PersonalHeading;
  }

  /** The lines keep the order email, phone, location, summary. */
  lemma PersonalInfoOrder(info: PersonalInfo, i: nat, j: nat) returns (a: string, b: string, c: string)
    requires i < j < 4
    ensures PersonalInfoText(info) == a + FieldLines(info)[i] + b + FieldLines(info)[j] + c
  {
    var a', b', c' := ConcatOrdered(FieldLines(info), i, j);
    Enclose(PersonalHeading, Concat(FieldLines(info)), "", a', FieldLines(info)[i], b', FieldLines(info)[j], c');
    a, b, c := PersonalHeading + a', b', c';
    assert PersonalHeading + Concat(FieldLines(info)) + "" == PersonalInfoText(info);
    assert c' + "" == c';
  }

  /** The name is not part of the block: changing it changes nothing. */
  lemma PersonalInfoIgnoresName(info: PersonalInfo, name: string)
    ensures PersonalInfoText(info.(name := name)) == PersonalInfoText(info)
  {
  }

  // ---------------------------------------------------------------- generateSimplePDF

  /** The six pieces `generateSimplePDF` writes, in order. */
  function SimplePdfParts(data: ResumeContent, json: Serialiser): (r: seq<string>)
    ensures |r| == 6 && r[0] == Header(data.personalInfo.name)
    ensures r[1] == PersonalInfoText(data.personalInfo)
    ensures r[2] == Section("EXPERIENCE", json.experience(data.experience))
    ensures r[3] == Section("EDUCATION", json.education(data.education))
    ensures r[4] == Section("SKILLS", json.skills(data.skills))
    ensures r[5] == Section("PROJECTS", json.projects(data.projects))
  {
    [Header(data.personalInfo.name), PersonalInfoText(data.personalInfo),
     Section("EXPERIENCE", json.experience(data.experience)),
     Section("EDUCATION", json.education(data.education)),
     Section("SKILLS", json.skills(data.skills)),
     Section("PROJECTS", json.projects(data.projects))]
  }

  function SimplePdfText(data: ResumeContent, json: Serialiser): (r: string)
    ensures StartsWith(r, Header(data.personalInfo.name))
    ensures EndsWith(r, Section("PROJECTS", json.projects(data.projects)))
  {
    var p := SimplePdfParts(data, json);
    assert p == [p[0], p[1], p[2], p[3], p[4], p[5]];
    ConcatSixEnds(p[0], p[1], p[2], p[3], p[4], p[5]);
    Concat(p)
  }

  /** `generateSimplePDF`: the pieces appended one after the other, then encoded. */
  method GenerateSimplePdf(resume: Resume, json: Serialiser) returns (r: seq<byte>)
    ensures Decode(r) == Some(SimplePdfText(resume.data, json))
  {
    var data := resume.data;
    var pdfContent := Header(data.personalInfo.name);
    var info := PersonalInfoBlock(data.personalInfo);
    pdfContent := pdfContent + info;
    pdfContent := pdfContent + Section("EXPERIENCE", json.experience(data.experience));
    pdfContent := pdfContent + Section("EDUCATION", json.education(data.education));
    pdfContent := pdfContent + Section("SKILLS", json.skills(data.skills));
    pdfContent := pdfContent + Section("PROJECTS", json.projects(data.projects));
    var parts := SimplePdfParts(data, json);
    ConcatSix(parts[0], parts[1], parts[2], parts[3], parts[4], parts[5]);
    DecodeEncode(pdfContent);
    r := Encode(pdfContent);
  }

  /** The pieces come in the fixed order header, personal info, experience, education,
      skills, projects. */
  lemma SimplePdfOrder(data: ResumeContent, json: Serialiser, i: nat, j: nat) returns (a: string, b: string, c: string)
    requires i < j < 6
    ensures SimplePdfText(data, json) == a + SimplePdfParts(data, json)[i] + b + SimplePdfParts(data, json)[j] + c
  {
    a, b, c := ConcatOrdered(SimplePdfParts(data, json), i, j);
  }

  /** The document opens with the header, whose end-of-file marker comes before all of
      the résumé's text: `rest` is everything after it. */
  lemma SimplePdfAfterEof(data: ResumeContent, json: Serialiser) returns (rest: string)
    ensures SimplePdfText(data, json) == Header(data.personalInfo.name) + rest
    ensures EndsWith(Header(data.personalInfo.name), EofMarker)
    ensures Includes(rest, PersonalHeading)
  {
    var parts := SimplePdfParts(data, json);
    ConcatSplit(parts, 0);
    assert parts[..0] == [];
    rest := Concat(parts[1..]);
    IncludesSelf(PersonalHeading);
    IncludesPrefix(PersonalHeading, Concat(FieldLines(data.personalInfo)), PersonalHeading);
    assert parts[1..][0] == parts[1];
    ConcatIncludes(parts[1..], 0, PersonalHeading);
  }
}
