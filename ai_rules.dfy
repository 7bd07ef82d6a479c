/** lib/aiRules.ts: the rule-based suggestion helpers. The random choice of template
    or verb (`Math.floor(Math.random() * n)`) is the `pick` parameter. */
module AiRules {
  import opened Text
  import opened ResumeTypes

  // ---------------------------------------------------------------- generateSummary

  /** `data.skills[0] || fallback`: an empty first skill is falsy too. */
  function FirstSkillOr(skills: seq<string>, fallback: string): (r: string)
    ensures |skills| > 0 && skills[0] != "" ==> r == skills[0]
    ensures (|skills| == 0 || skills[0] == "") ==> r == fallback
  {
    if |skills| > 0 && skills[0] != "" then skills[0] else fallback
  }

  /** `data.skills.slice(0, 2).join(" and ")`. */
  function FirstTwoSkills(skills: seq<string>): (r: string)
    ensures |skills| == 0 ==> r == ""
    ensures |skills| == 1 ==> r == skills[0]
    ensures |skills| >= 2 ==> r == skills[0] + " and " + skills[1]
  {
    var firstTwo := if |skills| <= 2 then skills else skills[..2];
    assert |skills| >= 2 ==> |firstTwo| == 2 && firstTwo[0] == skills[0] && firstTwo[1..] == [skills[1]] &&
                             Join(firstTwo[1..], " and ") == skills[1];
    Join(firstTwo, " and ")
  }

  const SummaryOpeners := ["Results-driven ", "Passionate ", "Strategic "]
  const SummaryLeads := ["+ years of experience in ", " years of expertise in ", "+ years driving business growth through "]
  const SummaryTails := [
    ". Proven track record of delivering high-quality solutions and leading cross-functional teams.",
    ". Dedicated to creating innovative solutions and optimizing processes.",
    ". Strong communicator with proven ability to manage complex projects."]

  /** One of the three summary templates. `years` is the text `${data.yearsExperience}`
      renders to. */
  function GenerateSummary(role: string, years: string, skills: seq<string>, pick: nat): (r: string)
    requires pick < 3
    ensures StartsWith(r, SummaryOpeners[pick] + role + " with " + years + SummaryLeads[pick])
    ensures EndsWith(r, SummaryTails[pick])
  {
    var focus := if pick == 0 then FirstSkillOr(skills, "development")
                 else if pick == 1 then FirstTwoSkills(skills)
                 else FirstSkillOr(skills, "technology");
    var head := SummaryOpeners[pick] + role + " with " + years + SummaryLeads[pick];
    assert (head + focus + SummaryTails[pick])[..|head|] == head;
    head + focus + SummaryTails[pick]
  }

  /** What fills the skill slot: the first and third templates name the first skill or
      fall back to "development" and "technology"; the second names up to two skills and
      has no fallback, leaving the slot empty. */
  lemma SummarySkillSlot(role: string, years: string, skills: seq<string>, pick: nat)
    requires pick < 3
    ensures var head := SummaryOpeners[pick] + role + " with " + years + SummaryLeads[pick];
      var r := GenerateSummary(role, years, skills, pick);
      && (pick != 1 && |skills| > 0 && skills[0] != "" ==> r == head + skills[0] + SummaryTails[pick])
      && (pick == 0 && (|skills| == 0 || skills[0] == "") ==> r == head + "development" + SummaryTails[0])
      && (pick == 2 && (|skills| == 0 || skills[0] == "") ==> r == head + "technology" + SummaryTails[2])
      && (pick == 1 && |skills| == 0 ==> r == head + SummaryTails[1])
      && (pick == 1 && |skills| == 1 ==> r == head + skills[0] + SummaryTails[1])
      && (pick == 1 && |skills| >= 2 ==> r == head + skills[0] + " and " + skills[1] + SummaryTails[1])
  {
    var head := SummaryOpeners[pick] + role + " with " + years + SummaryLeads[pick];
    var r := GenerateSummary(role, years, skills, pick);
    if pick == 0 {
      assert r == head + FirstSkillOr(skills, "development") + SummaryTails[0];
    } else if pick == 2 {
      assert r == head + FirstSkillOr(skills, "technology") + SummaryTails[2];
    } else {
      var two := FirstTwoSkills(skills);
      assert r == head + two + SummaryTails[1];
      if |skills| >= 2 {
        assert head + two == head + skills[0] + " and " + skills[1];
      }
    }
  }

  // ---------------------------------------------------------------- suggestSkills

  const SkillMap: map<string, seq<string>> := map[
    "Software Engineer" := ["JavaScript", "TypeScript", "React", "Node.js", "SQL", "Git", "REST APIs", "Testing"],
    "Product Manager" := ["Product Strategy", "User Research", "Data Analysis", "Roadmap Planning",
                          "Stakeholder Management", "A/B Testing", "Agile"],
    "Designer" := ["Figma", "UI/UX Design", "Prototyping", "User Research", "Wireframing", "Design Systems",
                   "Accessibility"],
    "Data Analyst" := ["SQL", "Python", "Tableau", "Excel", "Data Visualization", "Statistics", "Power BI"]
  ]

  /** `skillMap[role] || []`: a closed lookup table. */
  function SuggestSkills(role: string): (r: seq<string>)
    ensures role in SkillMap ==> r == SkillMap[role]
    ensures role !in SkillMap ==> r == []
  {
    if role in SkillMap then SkillMap[role] else []
  }

  /** Exactly the four known roles get suggestions, eight for a software engineer and
      seven for each of the others. */
  lemma SuggestSkillsTable(role: string)
    ensures SuggestSkills(role) != [] <==>
      role == "Software Engineer" || role == "Product Manager" || role == "Designer" || role == "Data Analyst"
    ensures role == "Software Engineer" ==> |SuggestSkills(role)| == 8
    ensures role == "Product Manager" || role == "Designer" || role == "Data Analyst" ==> |SuggestSkills(role)| == 7
  {
  }

  // ---------------------------------------------------------------- generateBullet

  const BulletVerbs := ["Spearheaded", "Developed", "Implemented", "Led", "Designed", "Optimized", "Streamlined",
                        "Architected"]

  /** `${verb} ${task}, resulting in ${impact}${tech ? " using " + tech : ""}.`; an
      absent `tech` is the empty text. */
  function GenerateBullet(task: string, impact: string, tech: string, pick: nat): (r: string)
    requires pick < 8
    ensures StartsWith(r, BulletVerbs[pick] + " " + task + ", resulting in " + impact)
    ensures tech != "" ==> EndsWith(r, impact + " using " + tech + ".")
    ensures tech == "" ==> EndsWith(r, impact + ".")
    ensures |r| == |BulletVerbs[pick]| + |task| + |impact| + (if tech != "" then |tech| + 7 else 0) + 17
  {
    var usingTech := if tech != "" then " using " + tech else "";
    var r := BulletVerbs[pick] + " " + task + ", resulting in " + impact + usingTech + ".";
    assert r == (BulletVerbs[pick] + " " + task + ", resulting in ") + (impact + usingTech + ".");
    r
  }

  // ---------------------------------------------------------------- calculateAtsScore

  const ActionVerbs := ["managed", "developed", "led", "designed", "implemented", "improved", "optimized", "created"]
  const MetricWords := ["improved", "increased", "reduced", "saved"]

  const VerbAdvice := "Add action verbs to your experience descriptions"
  const SkillsAdvice := "Add more relevant skills (aim for at least 5-10 keywords)"
  const MetricsAdvice := "Add quantifiable results and metrics to your bullets"
  const SummaryAdvice := "Add a professional summary"

  /** The four checks in the order they run, their bonuses and their advice. */
  const Bonuses: seq<nat> := [15, 10, 15, 10]
  const Advice := [VerbAdvice, SkillsAdvice, MetricsAdvice, SummaryAdvice]

  datatype AtsResult = AtsResult(score: int, suggestions: seq<string>)

  function Descriptions(xs: seq<Experience>): (r: seq<string>)
    ensures |r| == |xs| && forall i :: 0 <= i < |xs| ==> r[i] == xs[i].description
  {
    seq(|xs|, i requires 0 <= i < |xs| => xs[i].description)
  }

  /** `experience.map(e => e.description).join(" ").toLowerCase()`; an absent list joins
      to the same empty text as an empty one. */
  function ExperienceText(c: ResumeContent): (r: string)
    ensures forall i :: 0 <= i < |r| ==> !('A' <= r[i] <= 'Z')
    ensures |c.experience| == 0 ==> r == ""
    ensures |c.experience| == 1 ==> r == ToLower(c.experience[0].description)
  {
    ToLower(Join(Descriptions(c.experience), " "))
  }

  /** `words.some(w => text.includes(w))`. */
  function IncludesAny(text: string, words: seq<string>): (r: bool)
    ensures r <==> exists k :: 0 <= k < |words| && Includes(text, words[k])
  {
    if |words| == 0 then false
    else Includes(text, words[0]) || IncludesAny(text, words[1..])
  }

  predicate IsDigit(c: char) {
    '0' <= c <= '9'
  }

  /** `/\d+%|\$\d+|improved|increased|reduced|saved/i`: a digit right before a `%`, a `$`
      right before a digit, or one of the four words. */
  function HasMetrics(text: string): (b: bool)
    ensures IncludesAny(text, MetricWords) ==> b
    ensures b ==> IncludesAny(text, MetricWords) || exists i :: 0 <= i < |text| && (text[i] == '%' || text[i] == '$')
  {
    (exists i :: 0 <= i < |text| - 1 && IsDigit(text[i]) && text[i + 1] == '%') ||
    (exists i :: 0 <= i < |text| - 1 && text[i] == '$' && IsDigit(text[i + 1])) ||
    IncludesAny(text, MetricWords)
  }

  /** The outcome of each check, in check order. */
  function Checks(c: ResumeContent): (r: seq<bool>)
    ensures |r| == 4
    ensures r[0] <==> exists k :: 0 <= k < |ActionVerbs| && Includes(ExperienceText(c), ActionVerbs[k])
    ensures r[1] <==> |c.skills| > 5
    ensures r[2] <==> HasMetrics(ExperienceText(c))
    ensures r[3] <==> c.personalInfo.summary != ""
  {
    var text := ExperienceText(c);
    [IncludesAny(text, ActionVerbs), |c.skills| > 5, HasMetrics(text), c.personalInfo.summary != ""]
  }

  /** The sum of the bonuses of the passed checks. */
  function Earned(passed: seq<bool>, bonuses: seq<nat>): nat
    requires |passed| == |bonuses|
  {
    if |passed| == 0 then 0
    else (if passed[0] then bonuses[0] else 0) + Earned(passed[1..], bonuses[1..])
  }

  function Sum(xs: seq<nat>): nat {
    if |xs| == 0 then 0 else xs[0] + Sum(xs[1..])
  }

  function CountFailed(passed: seq<bool>): (n: nat)
    ensures n <= |passed|
  {
    if |passed| == 0 then 0 else (if passed[0] then 0 else 1) + CountFailed(passed[1..])
  }

  /** The advice of the failed checks, in check order. */
  function Missed(passed: seq<bool>, advice: seq<string>): (r: seq<string>)
    requires |passed| == |advice|
    ensures |r| == CountFailed(passed)
    ensures forall x | x in r :: x in advice
  {
    if |passed| == 0 then []
    else (if passed[0] then [] else [advice[0]]) + Missed(passed[1..], advice[1..])
  }

  function Min(a: int, b: int): int {
    if a <= b then a else b
  }

  /** The score and advice as a function of the check outcomes. */
  function AtsReport(c: ResumeContent): (r: AtsResult)
    ensures 50 <= r.score <= 100
    ensures |r.suggestions| <= 4 && forall s | s in r.suggestions :: s in Advice
  {
    var passed := Checks(c);
    AtsResult(Min(50 + Earned(passed, Bonuses), 100), Missed(passed, Advice))
  }

  /** `calculateAtsScore` step by step: `score` starts at 50, each check adds its bonus or
      pushes its advice, and the result is capped at 100. */
  method CalculateAtsScore(c: ResumeContent) returns (result: AtsResult)
    ensures result == AtsReport(c)
  {
    var suggestions: seq<string> := [];
    var score := 50;
    var experienceText := ExperienceText(c);
    var hasActionVerbs := IncludesAny(experienceText, ActionVerbs);
    if hasActionVerbs {
      score := score + 15;
    } else {
      suggestions := suggestions + [VerbAdvice];
    }
    // after each check, what it added to the score and the advice
    ghost var s0, a0: seq<string> := suggestions, if hasActionVerbs then [] else [VerbAdvice];
    ghost var b0 := if hasActionVerbs then 15 else 0;
    assert score == 50 + b0 && s0 == a0;
    if |c.skills| > 5 {
      score := score + 10;
    } else {
      suggestions := suggestions + [SkillsAdvice];
    }
    ghost var s1, a1: seq<string> := suggestions, if |c.skills| > 5 then [] else [SkillsAdvice];
    ghost var b1 := if |c.skills| > 5 then 10 else 0;
    assert score == 50 + b0 + b1 && s1 == s0 + a1;
    var hasMetrics := HasMetrics(experienceText);
    if hasMetrics {
      score := score + 15;
    } else {
      suggestions := suggestions + [MetricsAdvice];
    }
    ghost var s2, a2: seq<string> := suggestions, if hasMetrics then [] else [MetricsAdvice];
    ghost var b2 := if hasMetrics then 15 else 0;
    assert score == 50 + b0 + b1 + b2 && s2 == s1 + a2;
    if c.personalInfo.summary != "" {
      score := score + 10;
    } else {
      suggestions := suggestions + [SummaryAdvice];
    }
    ghost var a3: seq<string> := if c.personalInfo.summary != "" then [] else [SummaryAdvice];
    ghost var b3 := if c.personalInfo.summary != "" then 10 else 0;
    assert score == 50 + b0 + b1 + b2 + b3 && suggestions == s2 + a3;
    result := AtsResult(Min(score, 100), suggestions);
    assert Checks(c) == [hasActionVerbs, |c.skills| > 5, hasMetrics, c.personalInfo.summary != ""];
    AtsReportUnfolded(c);
  }

  /** Four check outcomes tallied one by one: the bonuses of the passed checks... */
  lemma EarnedTally(p0: bool, p1: bool, p2: bool, p3: bool, b0: nat, b1: nat, b2: nat, b3: nat)
    ensures Earned([p0, p1, p2, p3], [b0, b1, b2, b3]) ==
      (if p0 then b0 else 0) + (if p1 then b1 else 0) + (if p2 then b2 else 0) + (if p3 then b3 else 0)
  {
    assert [p2, p3][1..] == [p3] && [b2, b3][1..] == [b3];
    assert [p3][1..] == [] && [b3][1..] == [];
    assert Earned([p3], [b3]) == (if p3 then b3 else 0);
    assert Earned([p2, p3], [b2, b3]) == (if p2 then b2 else 0) + Earned([p3], [b3]);
    assert [p1, p2, p3][1..] == [p2, p3] && [b1, b2, b3][1..] == [b2, b3];
    assert Earned([p1, p2, p3], [b1, b2, b3]) == (if p1 then b1 else 0) + Earned([p2, p3], [b2, b3]);
    assert [p0, p1, p2, p3][1..] == [p1, p2, p3] && [b0, b1, b2, b3][1..] == [b1, b2, b3];
  }

  /** ... and the advice of the failed ones, in check order. */
  lemma MissedTally(p0: bool, p1: bool, p2: bool, p3: bool, a0: string, a1: string, a2: string, a3: string)
    ensures Missed([p0, p1, p2, p3], [a0, a1, a2, a3]) ==
      (if p0 then [] else [a0]) + (if p1 then [] else [a1]) + (if p2 then [] else [a2]) + (if p3 then [] else [a3])
  {
    var m0: seq<string> := if p0 then [] else [a0];
    var m1: seq<string> := if p1 then [] else [a1];
    var m2: seq<string> := if p2 then [] else [a2];
    var m3: seq<string> := if p3 then [] else [a3];
    assert [p3][1..] == [] && [a3][1..] == [];
    assert Missed([p3], [a3]) == m3 + [];
    assert [p2, p3][1..] == [p3] && [a2, a3][1..] == [a3];
    assert Missed([p2, p3], [a2, a3]) == m2 + Missed([p3], [a3]);
    assert [p1, p2, p3][1..] == [p2, p3] && [a1, a2, a3][1..] == [a2, a3];
    assert Missed([p1, p2, p3], [a1, a2, a3]) == m1 + Missed([p2, p3], [a2, a3]);
    assert [p0, p1, p2, p3][1..] == [p1, p2, p3] && [a0, a1, a2, a3][1..] == [a1, a2, a3];
    assert Missed([p0, p1, p2, p3], [a0, a1, a2, a3]) == m0 + Missed([p1, p2, p3], [a1, a2, a3]);
    assert m0 + (m1 + (m2 + (m3 + []))) == m0 + m1 + m2 + m3;
  }

  /** The report checked by checked: base 50 plus the bonus of every passed check, and the
      advice of every failed one in check order. */
  lemma AtsReportUnfolded(c: ResumeContent)
    ensures var p := Checks(c);
      AtsReport(c).score == 50 + (if p[0] then 15 else 0) + (if p[1] then 10 else 0)
                               + (if p[2] then 15 else 0) + (if p[3] then 10 else 0)
    ensures var p := Checks(c);
      AtsReport(c).suggestions == (if p[0] then [] else [VerbAdvice]) + (if p[1] then [] else [SkillsAdvice])
                                  + (if p[2] then [] else [MetricsAdvice]) + (if p[3] then [] else [SummaryAdvice])
  {
    var p := Checks(c);
    assert p == [p[0], p[1], p[2], p[3]];
    EarnedTally(p[0], p[1], p[2], p[3], 15, 10, 15, 10);
    MissedTally(p[0], p[1], p[2], p[3], VerbAdvice, SkillsAdvice, MetricsAdvice, SummaryAdvice);
  }

  /** Passed checks never earn more than all bonuses together. */
  lemma {:induction false} EarnedAtMostSum(passed: seq<bool>, bonuses: seq<nat>)
    requires |passed| == |bonuses|
    ensures Earned(passed, bonuses) <= Sum(bonuses)
  {
    if |passed| > 0 {
      EarnedAtMostSum(passed[1..], bonuses[1..]);
    }
  }

  /** Passing more checks never lowers what is earned. */
  lemma {:induction false} EarnedMonotone(p: seq<bool>, q: seq<bool>, bonuses: seq<nat>)
    requires |p| == |q| == |bonuses|
    requires forall i :: 0 <= i < |p| && p[i] ==> q[i]
    ensures Earned(p, bonuses) <= Earned(q, bonuses)
  {
    if |p| > 0 {
      EarnedMonotone(p[1..], q[1..], bonuses[1..]);
    }
  }

  /** The score lies in [50, 100] and the cap at 100 never bites: the bonuses add up to 50. */
  lemma AtsScoreBounds(c: ResumeContent)
    ensures 50 <= AtsReport(c).score <= 100
    ensures AtsReport(c).score == 50 + Earned(Checks(c), Bonuses)
  {
    EarnedAtMostSum(Checks(c), Bonuses);
    assert Sum(Bonuses) == 50;
  }

  /** One suggestion per failed check: between none and four. */
  lemma AtsSuggestionCount(c: ResumeContent)
    ensures |AtsReport(c).suggestions| == CountFailed(Checks(c)) <= 4
    ensures AtsReport(c).suggestions == [] <==> AtsReport(c).score == 100
  {
    AtsReportUnfolded(c);
  }

  /** The score is monotone in the checks: a résumé passing every check the other passes
      scores at least as much. */
  lemma AtsMonotone(c: ResumeContent, d: ResumeContent)
    requires forall i :: 0 <= i < 4 && Checks(c)[i] ==> Checks(d)[i]
    ensures AtsReport(c).score <= AtsReport(d).score
  {
    AtsScoreBounds(c);
    AtsScoreBounds(d);
    EarnedMonotone(Checks(c), Checks(d), Bonuses);
  }

  /** The skills check is strict: five skills are not enough. */
  lemma FiveSkillsAreNotEnough(c: ResumeContent)
    requires |c.skills| == 5
    ensures SkillsAdvice in AtsReport(c).suggestions
    ensures AtsReport(c).score <= 90
  {
    AtsReportUnfolded(c);
  }

  /** A payload with no experience, no skills and no summary scores the base 50 and gets
      all four suggestions, in check order. */
  lemma EmptyContentScore()
    ensures AtsReport(EmptyContent) == AtsResult(50, [VerbAdvice, SkillsAdvice, MetricsAdvice, SummaryAdvice])
  {
    var text := ExperienceText(EmptyContent);
    assert text == "";
    forall k | 0 <= k < |ActionVerbs| ensures !Includes(text, ActionVerbs[k]) {
      assert |ActionVerbs[k]| > 0;
    }
    forall k | 0 <= k < |MetricWords| ensures !Includes(text, MetricWords[k]) {
      assert |MetricWords[k]| > 0;
    }
    AtsReportUnfolded(EmptyContent);
  }

  /** A word that a description mentions, in any letter case, is in the checked text. */
  lemma WordInDescription(c: ResumeContent, k: nat, w: string)
    requires k < |c.experience|
    requires Includes(ToLower(c.experience[k].description), w)
    ensures Includes(ExperienceText(c), w)
  {
    var descs := Descriptions(c.experience);
    var pre, post := JoinSplit(descs, " ", k);
    ToLowerAppend(pre + descs[k], post);
    ToLowerAppend(pre, descs[k]);
    IncludesWithin(ToLower(pre), ToLower(descs[k]), ToLower(post), w);
  }

  /** A description that mentions an action verb, in any letter case, earns the verb bonus. */
  lemma VerbInDescription(c: ResumeContent, k: nat, v: nat)
    requires k < |c.experience| && v < |ActionVerbs|
    requires Includes(ToLower(c.experience[k].description), ActionVerbs[v])
    ensures Checks(c)[0]
  {
    WordInDescription(c, k, ActionVerbs[v]);
  }

  /** The example description contains "led" and "improved" once lower-cased. */
  lemma ExampleDescriptionWords(d: string)
    requires d == "Led" + " migration, " + "improved" + " throughput by 20%"
    ensures Includes(ToLower(d), "led") && Includes(ToLower(d), "improved")
  {
    assert d[0..3] == "Led" by {
      assert d == "Led" + (" migration, " + "improved" + " throughput by 20%");
    }
    assert ToLower("Led") == "led";
    LowerIncludes(d, "led", 0);
    assert d[15..23] == "improved" by {
      assert d == ("Led" + " migration, ") + "improved" + " throughput by 20%";
    }
    assert ToLower("improved") == "improved";
    LowerIncludes(d, "improved", 15);
  }

  /** The worked example: six skills, a summary and the description "Led migration,
      improved throughput by 20%" pass all four checks and score 100 with no advice. */
  lemma FullMarksExample(c: ResumeContent, k: nat)
    requires |c.skills| == 6 && c.personalInfo.summary != ""
    requires k < |c.experience|
    requires c.experience[k].description == "Led" + " migration, " + "improved" + " throughput by 20%"
    ensures AtsReport(c) == AtsResult(100, [])
  {
    ExampleDescriptionWords(c.experience[k].description);
    VerbInDescription(c, k, 2);
    WordInDescription(c, k, "improved");
    assert Includes(ExperienceText(c), MetricWords[0]);
    AtsReportUnfolded(c);
  }

  /** "Developed", "Implemented", "Led", "Designed" and "Optimized" are, lower-cased, on
      the score's list of action verbs. */
  lemma BulletVerbIsActionVerb(pick: nat) returns (v: nat)
    requires 1 <= pick <= 5
    ensures v < |ActionVerbs| && ToLower(BulletVerbs[pick]) == ActionVerbs[v]
  {
    v := match pick case 1 => 1 case 2 => 4 case 3 => 2 case 4 => 3 case _ => 6;
  }

  /** A generated bullet opening with one of those verbs, used as an experience
      description, earns the verb bonus; the other three verbs are not on the list. */
  lemma BulletEarnsVerbBonus(c: ResumeContent, k: nat, task: string, impact: string, tech: string, pick: nat)
    requires 1 <= pick <= 5
    requires k < |c.experience| && c.experience[k].description == GenerateBullet(task, impact, tech, pick)
    ensures Checks(c)[0]
  {
    var b := GenerateBullet(task, impact, tech, pick);
    var verb := BulletVerbs[pick];
    var v := BulletVerbIsActionVerb(pick);
    assert b[0..|verb|] == verb;
    LowerIncludes(b, ActionVerbs[v], 0);
    VerbInDescription(c, k, v);
  }
}
