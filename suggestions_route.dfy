/** app/api/ai/suggestions/route.ts: one POST endpoint that dispatches on `type` to the
    four rules of lib/aiRules.ts. A field missing from `data` is `None`: it renders as
    "undefined" inside a template literal, and reading through it (the skills list of a
    summary, the résumé of an ATS request, or `data` itself) throws, which the route
    answers with a 500. */
module SuggestionsRoute {
  import opened Collections
  import opened ResumeTypes
  import opened AiRules

  /** The fields of `data` the four rules read. `yearsExperience` is the text the number
      renders to. */
  datatype SuggestionData = SuggestionData(
    role: Option<string>,
    yearsExperience: Option<string>,
    skills: Option<seq<string>>,
    task: Option<string>,
    impact: Option<string>,
    tech: Option<string>,
    resume: Option<ResumeContent>)

  /** The parsed body `{ type, data }`. */
  datatype SuggestionRequest = SuggestionRequest(kind: Option<string>, data: Option<SuggestionData>)

  datatype Outcome = Prose(text: string) | SkillList(skills: seq<string>) | Score(report: AtsResult)

  datatype Body = Result(result: Outcome) | Error(message: string)

  datatype Response = Response(status: int, body: Body)

  const InvalidType := Response(400, Error("Invalid suggestion type"))
  const InternalError := Response(500, Error("Internal server error"))

  const Kinds := ["summary", "skills", "bullet", "ats"]

  /** `${value}` of a possibly missing field. */
  function Rendered(o: Option<string>): (r: string)
    ensures o.Some? ==> r == o.value
    ensures o.None? ==> r == "undefined"
  {
    if o.Some? then o.value else "undefined"
  }

  /** `data.tech ? ... : ""`: a missing tech is falsy, like an empty one. */
  function TechOrEmpty(o: Option<string>): (r: string)
    ensures o.Some? ==> r == o.value
    ensures o.None? ==> r == ""
  {
    if o.Some? then o.value else ""
  }

  /** Whether the rule for `kind` runs to completion on `data`. */
  function Completes(kind: string, data: Option<SuggestionData>): (r: bool)
    ensures r ==> data.Some?
    ensures kind == "summary" ==> (r <==> data.Some? && data.value.skills.Some?)
    ensures kind == "ats" ==> (r <==> data.Some? && data.value.resume.Some?)
    ensures kind != "summary" && kind != "ats" ==> (r <==> data.Some?)
  {
    data.Some? &&
    (kind == "summary" ==> data.value.skills.Some?) &&
    (kind == "ats" ==> data.value.resume.Some?)
  }

  /** The response to a request. `body` is `None` when the body does not parse;
      `summaryPick` and `verbPick` are the random template and verb choices. */
  function Respond(body: Option<SuggestionRequest>, summaryPick: nat, verbPick: nat): (r: Response)
    requires summaryPick < 3 && verbPick < 8
    ensures body.None? ==> r == InternalError
    ensures body.Some? && (body.value.kind.None? || body.value.kind.value !in Kinds) ==> r == InvalidType
    ensures body.Some? && body.value.kind.Some? && body.value.kind.value in Kinds ==>
      if Completes(body.value.kind.value, body.value.data) then r.status == 200 && r.body.Result?
      else r == InternalError
    ensures r.status in {200, 400, 500}
    ensures r.status == 200 ==> r.body.Result?
    ensures r.status != 200 ==> r.body.Error?
  {
    match body
    case None => InternalError
    case Some(req) =>
      if req.kind.None? || req.kind.value !in Kinds then InvalidType
      else if !Completes(req.kind.value, req.data) then InternalError
      else
        var data := req.data.value;
        var outcome :=
          if req.kind.value == "summary" then
            Prose(GenerateSummary(Rendered(data.role), Rendered(data.yearsExperience), data.skills.value, summaryPick))
          else if req.kind.value == "skills" then
            SkillList(SuggestSkills(Rendered(data.role)))
          else if req.kind.value == "bullet" then
            Prose(GenerateBullet(Rendered(data.task), Rendered(data.impact), TechOrEmpty(data.tech), verbPick))
          else
            Score(AtsReport(data.resume.value));
        Response(200, Result(outcome))
  }

  /** "skills" answers `suggestSkills(data.role)`; a missing role is looked up as
      "undefined", which is no role, so the list is empty. */
  lemma SkillsDispatch(data: SuggestionData, summaryPick: nat, verbPick: nat)
    requires summaryPick < 3 && verbPick < 8
    ensures var r := Respond(Some(SuggestionRequest(Some("skills"), Some(data))), summaryPick, verbPick);
      r.status == 200 && r.body == Result(SkillList(SuggestSkills(Rendered(data.role))))
    ensures data.role.None? ==>
      Respond(Some(SuggestionRequest(Some("skills"), Some(data))), summaryPick, verbPick).body == Result(SkillList([]))
  {
  }

  /** "ats" answers `calculateAtsScore(data.resume)`, so its score lies in [50, 100]. */
  lemma AtsDispatch(data: SuggestionData, summaryPick: nat, verbPick: nat)
    requires summaryPick < 3 && verbPick < 8
    requires data.resume.Some?
    ensures var r := Respond(Some(SuggestionRequest(Some("ats"), Some(data))), summaryPick, verbPick);
      r.status == 200 && r.body == Result(Score(AtsReport(data.resume.value))) &&
      50 <= r.body.result.report.score <= 100
  {
    AtsScoreBounds(data.resume.value);
  }

  /** "summary" and "bullet" hand `data`'s fields to the generators unchanged, so the
      answer opens with the role and years, or with the verb and task. */
  lemma GeneratorDispatch(data: SuggestionData, summaryPick: nat, verbPick: nat)
    requires summaryPick < 3 && verbPick < 8
    ensures data.skills.Some? ==>
      Respond(Some(SuggestionRequest(Some("summary"), Some(data))), summaryPick, verbPick).body ==
      Result(Prose(GenerateSummary(Rendered(data.role), Rendered(data.yearsExperience), data.skills.value, summaryPick)))
    ensures Respond(Some(SuggestionRequest(Some("bullet"), Some(data))), summaryPick, verbPick).body ==
      Result(Prose(GenerateBullet(Rendered(data.task), Rendered(data.impact), TechOrEmpty(data.tech), verbPick)))
  {
  }

  /** The type is checked before `data` is read: an unknown type is a 400 even with no data. */
  lemma UnknownTypeIgnoresData(kind: string, data: Option<SuggestionData>, summaryPick: nat, verbPick: nat)
    requires summaryPick < 3 && verbPick < 8
    requires kind !in Kinds
    ensures Respond(Some(SuggestionRequest(Some(kind), data)), summaryPick, verbPick) == InvalidType
  {
  }

  /** The random choices only matter for "summary" and "bullet". */
  lemma PicksOnlyAffectGenerators(body: SuggestionRequest, p: nat, q: nat, p': nat, q': nat)
    requires p < 3 && q < 8 && p' < 3 && q' < 8
    requires body.kind != Some("summary") && body.kind != Some("bullet")
    ensures Respond(Some(body), p, q) == Respond(Some(body), p', q')
  {
  }
}
