/**
 * The resume-screening matcher and the chat intent dispatch of the HR assistant's AI routes.
 * Text extraction (PDF parsing, OCR), the resume-parser service, the database and the
 * language-model services are outside the model: the extracted text and the parser's skill
 * list are inputs, and the chat dispatch is modelled up to the intent it selects.
 */
module AiRoutes {
  import opened Wrappers
  import opened JsText

  // ---------------------------------------------------------------------------
  // Role keywords and skill aliases

  /** One entry of the role table: a role name and the skills expected for it. */
  datatype RoleProfile = RoleProfile(name: string, keywords: seq<string>)

  /** The role table, in declaration order (the order `Object.entries` reports it in). */
  const ROLE_KEYWORDS: seq<RoleProfile> := [
    RoleProfile("software engineer", [
      "javascript", "react", "react.js", "node", "node.js", "python", "java",
      "mongodb", "express", "express.js", "api", "docker", "aws", "git", "html", "css"]),
    RoleProfile("mern developer", [
      "react", "react.js", "node", "node.js", "express", "express.js", "mongodb",
      "javascript", "redux", "api", "next.js", "git", "html", "css"]),
    RoleProfile("data analyst", [
      "excel", "sql", "python", "tableau", "power bi", "data visualization",
      "machine learning", "statistics", "analytics", "reporting"]),
    RoleProfile("hr recruiter", [
      "recruitment", "talent acquisition", "screening", "onboarding", "communication",
      "employee engagement", "job description", "sourcing", "interviewing"]),
    RoleProfile("sales executive", [
      "sales", "crm", "lead generation", "communication", "negotiation",
      "pipeline", "target", "b2b", "b2c", "presentation", "marketing"])
  ]

  /** Alternative spellings of a skill and the canonical name they stand for. */
  const SKILL_ALIASES: map<string, string> := map[
    "react.js" := "react",
    "node.js" := "node",
    "express.js" := "express",
    "next.js" := "next",
    "redux toolkit" := "redux",
    "html5" := "html",
    "css3" := "css",
    "aws cloud" := "aws"
  ]

  /** The skills looked for in the resume text besides those the parser reported. */
  const KEYWORD_SET: seq<string> := [
    "react", "react.js", "node", "node.js", "express", "express.js",
    "mongodb", "sql", "python", "java", "javascript", "html", "css",
    "docker", "aws", "api", "git", "typescript", "redux", "next.js"
  ]

  /** Every role has between 1 and 199 keywords, so its percentages are well defined and
      reach 100 only when every keyword is found. */
  lemma RoleKeywordCounts()
    ensures |ROLE_KEYWORDS| == 5
    ensures forall i :: 0 <= i < |ROLE_KEYWORDS| ==> 0 < |ROLE_KEYWORDS[i].keywords| < 200
  {
  }

  /** The canonical name of a skill: its alias target, or the skill itself. No canonical
      name is itself an alias, and only alias spellings change. */
  function NormalizeSkill(skill: string): (r: string)
    ensures r !in SKILL_ALIASES
    ensures skill !in SKILL_ALIASES ==> r == skill
    ensures skill in SKILL_ALIASES ==> r != skill
  {
    if skill in SKILL_ALIASES then SKILL_ALIASES[skill] else skill
  }

  /** Normalising twice is normalising once. */
  lemma NormalizeSkillIdempotent(skill: string)
    ensures NormalizeSkill(NormalizeSkill(skill)) == NormalizeSkill(skill)
  {
  }

  /** `skills.map(normalizeSkill)`. */
  function NormalizeAll(skills: seq<string>): (r: seq<string>)
    ensures |r| == |skills|
    ensures forall i :: 0 <= i < |skills| ==> r[i] == NormalizeSkill(skills[i])
  {
    seq(|skills|, i requires 0 <= i < |skills| => NormalizeSkill(skills[i]))
  }

  /** `skills.map((s) => s.toLowerCase())`. */
  function LowerAll(skills: seq<string>): (r: seq<string>)
    ensures |r| == |skills|
    ensures forall i :: 0 <= i < |skills| ==> r[i] == Lower(skills[i])
  {
    seq(|skills|, i requires 0 <= i < |skills| => Lower(skills[i]))
  }

  // ---------------------------------------------------------------------------
  // Lists without repetitions

  predicate NoDup(xs: seq<string>) {
    forall i, j :: 0 <= i < j < |xs| ==> xs[i] != xs[j]
  }

  /** `[...new Set(xs)]`: the first occurrence of every element, in order. */
  function Dedup(xs: seq<string>): (r: seq<string>)
    ensures NoDup(r)
    ensures forall x :: x in r <==> x in xs
    ensures |r| <= |xs|
  {
    if xs == [] then []
    else
      var init, last := xs[..|xs| - 1], xs[|xs| - 1];
      assert xs == init + [last];
      var d := Dedup(init);
      if last in d then d else d + [last]
  }

  /** A list without repetitions is its own deduplication. */
  lemma {:induction false} DedupOfNoDup(xs: seq<string>)
    requires NoDup(xs)
    ensures Dedup(xs) == xs
  {
    if xs != [] {
      var init, last := xs[..|xs| - 1], xs[|xs| - 1];
      assert xs == init + [last];
      DedupOfNoDup(init);
      assert last !in init by {
        forall i | 0 <= i < |init|
          ensures init[i] != last
        {
          assert init[i] == xs[i];
        }
      }
    }
  }

  // ---------------------------------------------------------------------------
  // Merging the keywords found in the text into the parsed skills

  /** One step of the merge: a keyword is appended when the text contains it and the
      list does not hold it yet. */
  function MergeStep(acc: seq<string>, keyword: string, text: string): seq<string> {
    if Contains(text, keyword) && keyword !in acc then acc + [keyword] else acc
  }

  /** The skill list after merging `keywords`, in order, into `parsed`. */
  function MergedSkills(parsed: seq<string>, keywords: seq<string>, text: string): seq<string> {
    if keywords == [] then parsed
    else MergeStep(MergedSkills(parsed, keywords[..|keywords| - 1], text), keywords[|keywords| - 1], text)
  }

  /** The merge only appends: the parsed list is kept as a prefix, every appended entry is a
      keyword the text contains that the parsed list lacks, appended entries are distinct, no
      keyword the text contains is left out, and a list without repetitions stays so. */
  lemma {:induction false} MergedSkillsProperties(parsed: seq<string>, keywords: seq<string>, text: string)
    ensures var r := MergedSkills(parsed, keywords, text);
      |parsed| <= |r| <= |parsed| + |keywords| && r[..|parsed|] == parsed
    ensures var r := MergedSkills(parsed, keywords, text);
      forall i :: |parsed| <= i < |r| ==> r[i] in keywords && Contains(text, r[i]) && r[i] !in parsed
    ensures var r := MergedSkills(parsed, keywords, text);
      forall i, j :: 0 <= i < j < |r| && |parsed| <= j ==> r[i] != r[j]
    ensures forall k :: k in keywords && Contains(text, k) ==> k in MergedSkills(parsed, keywords, text)
    ensures NoDup(parsed) ==> NoDup(MergedSkills(parsed, keywords, text))
  {
    if keywords != [] {
      var init, last := keywords[..|keywords| - 1], keywords[|keywords| - 1];
      assert keywords == init + [last];
      MergedSkillsProperties(parsed, init, text);
      var acc := MergedSkills(parsed, init, text);
      var r := MergedSkills(parsed, keywords, text);
      assert r == MergeStep(acc, last, text);
      if Contains(text, last) && last !in acc {
        assert r[..|acc|] == acc;
        assert r[..|parsed|] == acc[..|parsed|];
        assert last !in parsed by {
          assert forall t :: 0 <= t < |parsed| ==> parsed[t] == acc[t];
        }
      }
    }
  }

  /** The `forEach` over the keyword set that pushes into the parsed skill list in place. */
  method MergeDetectedKeywords(parsed: seq<string>, text: string) returns (merged: seq<string>)
    ensures merged == MergedSkills(parsed, KEYWORD_SET, text)
  {
    merged := parsed;
    for i := 0 to |KEYWORD_SET|
      invariant merged == MergedSkills(parsed, KEYWORD_SET[..i], text)
    {
      assert KEYWORD_SET[..i + 1][..i] == KEYWORD_SET[..i];
      var keyword := KEYWORD_SET[i];
      if Contains(text, keyword) && keyword !in merged {
        merged := merged + [keyword];
      }
    }
    assert KEYWORD_SET[..|KEYWORD_SET|] == KEYWORD_SET;
  }

  // ---------------------------------------------------------------------------
  // Best-fit role prediction

  /** The score of every role: how many of its keywords the text contains. */
  function RoleScores(text: string): (scores: seq<nat>)
    ensures |scores| == |ROLE_KEYWORDS|
    ensures forall i :: 0 <= i < |scores| ==> scores[i] == CountContained(ROLE_KEYWORDS[i].keywords, text)
  {
    seq(|ROLE_KEYWORDS|, i requires 0 <= i < |ROLE_KEYWORDS| => CountContained(ROLE_KEYWORDS[i].keywords, text))
  }

  /** The index of the first largest entry: what a stable descending sort puts first. */
  function FirstMaxIndex(xs: seq<nat>): (k: nat)
    requires |xs| > 0
    ensures k < |xs|
    ensures forall j :: 0 <= j < |xs| ==> xs[j] <= xs[k]
    ensures forall j :: 0 <= j < k ==> xs[j] < xs[k]
  {
    if |xs| == 1 then 0
    else
      var k := FirstMaxIndex(xs[..|xs| - 1]);
      assert forall j :: 0 <= j < |xs| - 1 ==> xs[j] == xs[..|xs| - 1][j];
      if xs[|xs| - 1] > xs[k] then |xs| - 1 else k
  }

  /** Only one index is both a maximum and ahead of every other maximum, so any stable
      ordering by descending score starts with `FirstMaxIndex`. */
  lemma FirstMaxIndexUnique(xs: seq<nat>, k: nat)
    requires k < |xs|
    requires forall j :: 0 <= j < |xs| ==> xs[j] <= xs[k]
    requires forall j :: 0 <= j < k ==> xs[j] < xs[k]
    ensures k == FirstMaxIndex(xs)
  {
  }

  /** The selection that stands in for the stable descending sort: scan the scores once,
      moving to a later index only on a strictly larger score. */
  method SelectFirstMax(scores: seq<nat>) returns (best: nat)
    requires |scores| > 0
    ensures best == FirstMaxIndex(scores)
  {
    best := 0;
    for j := 1 to |scores|
      invariant best < j && best == FirstMaxIndex(scores[..j])
    {
      assert scores[..j + 1][..j] == scores[..j];
      if scores[j] > scores[best] {
        best := j;
      }
    }
    assert scores[..|scores|] == scores;
  }

  /** `predictBestRole`: count each role's keywords in the text, then take the first role
      with the highest count and the rounded percentage of its keywords found. */
  method PredictBestRole(text: string) returns (bestRole: string, confidence: nat)
    ensures var best := FirstMaxIndex(RoleScores(text));
      bestRole == ROLE_KEYWORDS[best].name &&
      confidence == RoundHalfUp(100 * RoleScores(text)[best], |ROLE_KEYWORDS[best].keywords|)
  {
    RoleKeywordCounts();
    var scores: seq<nat> := [];
    for r := 0 to |ROLE_KEYWORDS|
      invariant scores == RoleScores(text)[..r]
    {
      var score := CountIncluded(ROLE_KEYWORDS[r].keywords, text);
      scores := scores + [score];
    }
    assert scores == RoleScores(text);
    var best := SelectFirstMax(scores);
    bestRole := ROLE_KEYWORDS[best].name;
    confidence := RoundHalfUp(100 * scores[best], |ROLE_KEYWORDS[best].keywords|);
  }

  /** The confidence reported for the best-fit role: the rounded percentage of its keywords found. */
  function BestConfidence(text: string): nat {
    var best := FirstMaxIndex(RoleScores(text));
    RoleKeywordCounts();
    RoundHalfUp(100 * RoleScores(text)[best], |ROLE_KEYWORDS[best].keywords|)
  }

  /** The predicted role has the highest score and every earlier role a lower one; its
      confidence lies in [0, 100] and is 100 exactly when the text contains all its keywords. */
  lemma BestRoleProperties(text: string)
    ensures var scores, best := RoleScores(text), FirstMaxIndex(RoleScores(text));
      (forall j :: 0 <= j < |scores| ==> scores[j] <= scores[best]) &&
      (forall j :: 0 <= j < best ==> scores[j] < scores[best]) &&
      RoundHalfUp(100 * scores[best], |ROLE_KEYWORDS[best].keywords|) <= 100 &&
      (RoundHalfUp(100 * scores[best], |ROLE_KEYWORDS[best].keywords|) == 100 <==>
        forall k :: k in ROLE_KEYWORDS[best].keywords ==> Contains(text, k))
  {
    RoleKeywordCounts();
    var scores, best := RoleScores(text), FirstMaxIndex(RoleScores(text));
    PercentBounds(scores[best], |ROLE_KEYWORDS[best].keywords|);
  }

  // ---------------------------------------------------------------------------
  // ATS scoring

  /** The keywords of a role named exactly `role`, if the table declares it. */
  function RoleKeywordsFor(role: string): (r: Option<seq<string>>)
    ensures r.Some? <==> exists i :: 0 <= i < |ROLE_KEYWORDS| && ROLE_KEYWORDS[i].name == role
    ensures r.Some? ==> 0 < |r.value| < 200
  {
    RoleKeywordCounts();
    if ROLE_KEYWORDS[0].name == role then Some(ROLE_KEYWORDS[0].keywords)
    else if ROLE_KEYWORDS[1].name == role then Some(ROLE_KEYWORDS[1].keywords)
    else if ROLE_KEYWORDS[2].name == role then Some(ROLE_KEYWORDS[2].keywords)
    else if ROLE_KEYWORDS[3].name == role then Some(ROLE_KEYWORDS[3].keywords)
    else if ROLE_KEYWORDS[4].name == role then Some(ROLE_KEYWORDS[4].keywords)
    else None
  }

  /** The expected skills found in the candidate's skills, in expected order, repetitions kept. */
  function Matched(expected: seq<string>, skills: seq<string>): (r: seq<string>)
    ensures forall s :: s in r ==> s in expected && s in skills
    ensures forall s :: s in expected && s in skills ==> s in r
  {
    if expected == [] then []
    else (if expected[0] in skills then [expected[0]] else []) + Matched(expected[1..], skills)
  }

  /** The expected skills the candidate lacks, in expected order, repetitions kept. */
  function Missing(expected: seq<string>, skills: seq<string>): (r: seq<string>)
    ensures forall s :: s in r ==> s in expected && s !in skills
    ensures forall s :: s in expected && s !in skills ==> s in r
  {
    if expected == [] then []
    else (if expected[0] !in skills then [expected[0]] else []) + Missing(expected[1..], skills)
  }

  /** Matched and missing split the expected skills: every entry goes to exactly one side. */
  lemma {:induction false} MatchedMissingPartition(expected: seq<string>, skills: seq<string>)
    ensures |Matched(expected, skills)| + |Missing(expected, skills)| == |expected|
    ensures multiset(Matched(expected, skills)) + multiset(Missing(expected, skills)) == multiset(expected)
  {
    if expected != [] {
      MatchedMissingPartition(expected[1..], skills);
      assert expected == [expected[0]] + expected[1..];
    }
  }

  /** The feedback tier of an ATS score: thresholds 85, 65 and 45, first match wins. */
  function AtsFeedback(score: nat): string {
    if score >= 85 then "\U{2705} Excellent match! Strong alignment with this role."
    else if score >= 65 then "\U{1F7E1} Good match. Candidate has most key skills."
    else if score >= 45 then "\U{26A0}\U{FE0F} Average match. Some key skills missing."
    else "\U{274C} Low match. Candidate needs improvement."
  }

  /** The ATS block's results. */
  datatype Ats = Ats(score: nat, feedback: string, matched: seq<string>, missing: seq<string>)

  /** What the ATS block leaves when it is skipped. */
  const NO_ATS := Ats(0, "", [], [])

  /** The ATS block: without a role, or with a role the table does not declare, nothing is
      computed; otherwise the normalised expected skills are split into matched and missing,
      the score is the rounded percentage matched and the feedback its tier. */
  function AtsFor(role: Option<string>, skills: seq<string>): (a: Ats)
    ensures role.None? || RoleKeywordsFor(role.value).None? ==> a == NO_ATS
    ensures a.score <= 100
    ensures role.Some? && RoleKeywordsFor(role.value).Some? ==>
      var expected := NormalizeAll(RoleKeywordsFor(role.value).value);
      a.matched == Matched(expected, skills) && a.missing == Missing(expected, skills) &&
      a.score == RoundHalfUp(100 * |a.matched|, |expected|) &&
      (a.score == 100 <==> a.missing == []) && a.feedback == AtsFeedback(a.score)
  {
    if role.None? || RoleKeywordsFor(role.value).None? then NO_ATS
    else
      var expected := NormalizeAll(RoleKeywordsFor(role.value).value);
      var matched, missing := Matched(expected, skills), Missing(expected, skills);
      MatchedMissingPartition(expected, skills);
      PercentBounds(|matched|, |expected|);
      var score := RoundHalfUp(100 * |matched|, |expected|);
      Ats(score, AtsFeedback(score), matched, missing)
  }

  // ---------------------------------------------------------------------------
  // The screening response

  /** The role field as the route reads it: lower-cased, with an absent or empty role as none. */
  function SelectedRole(field: Option<string>): (r: Option<string>)
    ensures r.Some? ==> r.value != [] && Lower(r.value) == r.value
    ensures field.Some? && field.value != [] ==> r == Some(Lower(field.value))
    ensures field.None? || field.value == [] ==> r.None?
  {
    if field.None? || Lower(field.value) == [] then None
    else
      LowerIdempotent(field.value);
      Some(Lower(field.value))
  }

  datatype ScreeningResponse =
    | Screening(selectedRole: string, bestFitRole: string, confidence: string, atsScore: nat,
                matchedSkills: seq<string>, missingSkills: seq<string>, feedback: string)
    | Failure(status: nat, error: string)

  /** `/resume-screening`: `hasFile` says whether a resume was uploaded, `roleField` is the
      submitted role, `apiSkills` the skills the parser service returned (empty when it
      failed) and `text` the extracted, lower-cased resume text. */
  method ScreenResume(hasFile: bool, roleField: Option<string>, apiSkills: seq<string>, text: string)
    returns (response: ScreeningResponse)
    ensures !hasFile ==> response == Failure(400, "Resume file is required")
    ensures hasFile ==> response.Screening?
    ensures hasFile ==> var role := SelectedRole(roleField);
      var skills := NormalizeAll(MergedSkills(LowerAll(apiSkills), KEYWORD_SET, text));
      var ats := AtsFor(role, skills);
      response.selectedRole == (if role.Some? then role.value else "Not Provided") &&
      response.bestFitRole == ROLE_KEYWORDS[FirstMaxIndex(RoleScores(text))].name &&
      response.confidence == DecimalString(BestConfidence(text)) + "%" &&
      response.atsScore == ats.score && response.atsScore <= 100 &&
      response.feedback == ats.feedback &&
      response.matchedSkills == Dedup(ats.matched) && response.missingSkills == Dedup(ats.missing)
    ensures hasFile ==> NoDup(response.matchedSkills) && NoDup(response.missingSkills)
    ensures hasFile ==> forall s :: s in response.matchedSkills ==> s !in response.missingSkills
  {
    if !hasFile {
      return Failure(400, "Resume file is required");
    }
    var role := SelectedRole(roleField);
    var parsed := LowerAll(apiSkills);
    var merged := MergeDetectedKeywords(parsed, text);
    var skills := NormalizeAll(merged);
    var bestRole, confidence := PredictBestRole(text);
    var ats := AtsFor(role, skills);
    response := Screening(if role.Some? then role.value else "Not Provided", bestRole,
                          DecimalString(confidence) + "%", ats.score,
                          Dedup(ats.matched), Dedup(ats.missing), ats.feedback);
  }

  // ---------------------------------------------------------------------------
  // Role lookup as written

  /** What `ROLE_KEYWORDS[role]` gives in JavaScript: a declared list, a member the object
      literal inherits from `Object.prototype` (truthy, but not a list), or `undefined`. */
  datatype RoleProperty = OwnKeywords(keywords: seq<string>) | InheritedMember | Undefined

  function RolePropertyAsWritten(role: string): RoleProperty {
    var own := RoleKeywordsFor(role);
    if own.Some? then OwnKeywords(own.value)
    else if role in INHERITED_LOWERCASE_KEYS then InheritedMember
    else Undefined
  }

  /** The ATS block as written either yields its results or throws. */
  datatype AtsOutcome = Computed(ats: Ats) | Throws

  /** As written, `role && ROLE_KEYWORDS[role]` lets an inherited member through and the
      following `.map` throws, so the whole request fails. */
  function AtsAsWritten(role: Option<string>, skills: seq<string>): (outcome: AtsOutcome)
    ensures outcome.Computed? ==> outcome.ats == AtsFor(role, skills)
  {
    if role.None? then Computed(NO_ATS)
    else match RolePropertyAsWritten(role.value)
      case OwnKeywords(_) => Computed(AtsFor(role, skills))
      case InheritedMember => Throws
      case Undefined => Computed(NO_ATS)
  }

  /** The discrepancy: a resume submitted for the role "Constructor" makes the ATS block throw
      (the route answers 500) instead of skipping it as for any other undeclared role, which is
      what the model's `AtsFor` does. */
  lemma ConstructorRoleThrows(skills: seq<string>)
    ensures SelectedRole(Some("Constructor")) == Some("constructor")
    ensures AtsAsWritten(Some("constructor"), skills) == Throws
    ensures AtsFor(Some("constructor"), skills) == NO_ATS
  {
    assert Lower("Constructor") == "constructor";
  }

  // ---------------------------------------------------------------------------
  // Chat intent dispatch

  /** What the chat route does with a message; the replies themselves come from the
      database or a language model. */
  datatype ChatIntent = AttendanceSummary | EmployeeCount | JobDescription | PerformanceSummary | GeneralReply

  /** The `/chat` dispatch: the lower-cased message is tested against the intents in a fixed
      order and the first one that applies wins. */
  function ChatIntentOf(message: string): ChatIntent {
    var m := Lower(message);
    if Contains(m, "leave") || Contains(m, "attendance") then AttendanceSummary
    else if Contains(m, "how many employees") then EmployeeCount
    else if Contains(m, "generate") && Contains(m, "job description") then JobDescription
    else if Contains(m, "performance") then PerformanceSummary
    else GeneralReply
  }

  /** A rule of the dispatch table: it fires when the message contains any, or all, of its words. */
  datatype Trigger = AnyOf(words: seq<string>) | AllOf(words: seq<string>)

  predicate Fires(t: Trigger, m: string) {
    match t
    case AnyOf(ws) => exists i :: 0 <= i < |ws| && Contains(m, ws[i])
    case AllOf(ws) => forall i :: 0 <= i < |ws| ==> Contains(m, ws[i])
  }

  /** The dispatch written as a table, in priority order. */
  const CHAT_RULES: seq<(Trigger, ChatIntent)> := [
    (AnyOf(["leave", "attendance"]), AttendanceSummary),
    (AllOf(["how many employees"]), EmployeeCount),
    (AllOf(["generate", "job description"]), JobDescription),
    (AllOf(["performance"]), PerformanceSummary)
  ]

  /** The intent of the first rule that fires, or the general reply. */
  function FirstMatch(rules: seq<(Trigger, ChatIntent)>, m: string): (intent: ChatIntent)
    ensures intent == GeneralReply || exists i :: 0 <= i < |rules| && rules[i].1 == intent
  {
    if rules == [] then GeneralReply
    else if Fires(rules[0].0, m) then rules[0].1
    else
      var intent := FirstMatch(rules[1..], m);
      assert intent != GeneralReply ==> exists i :: 0 <= i < |rules| && rules[i].1 == intent by {
        if intent != GeneralReply {
          var i :| 0 <= i < |rules[1..]| && rules[1..][i].1 == intent;
          assert rules[i + 1].1 == intent;
        }
      }
      intent
  }

  /** The chain of tests in the route is the first-match reading of the rule table. */
  lemma ChatIntentIsFirstMatch(message: string)
    ensures ChatIntentOf(message) == FirstMatch(CHAT_RULES, Lower(message))
  {
    var m := Lower(message);
    var rules := CHAT_RULES;
    assert Fires(rules[0].0, m) <==> Contains(m, "leave") || Contains(m, "attendance") by {
      var ws := rules[0].0.words;
      assert ws[0] == "leave" && ws[1] == "attendance";
    }
    assert Fires(rules[1].0, m) <==> Contains(m, "how many employees") by {
      assert rules[1].0.words[0] == "how many employees";
    }
    assert Fires(rules[2].0, m) <==> Contains(m, "generate") && Contains(m, "job description") by {
      var ws := rules[2].0.words;
      assert ws[0] == "generate" && ws[1] == "job description";
    }
    assert Fires(rules[3].0, m) <==> Contains(m, "performance") by {
      assert rules[3].0.words[0] == "performance";
    }
    var r1, r2, r3 := rules[1..], rules[2..], rules[3..];
    assert r1[0] == rules[1] && r1[1..] == r2 && r2[0] == rules[2] && r2[1..] == r3;
    assert r3[0] == rules[3] && r3[1..] == [];
    assert FirstMatch(r3, m) == if Fires(rules[3].0, m) then PerformanceSummary else GeneralReply;
    assert FirstMatch(r2, m) == if Fires(rules[2].0, m) then JobDescription else FirstMatch(r3, m);
    assert FirstMatch(r1, m) == if Fires(rules[1].0, m) then EmployeeCount else FirstMatch(r2, m);
  }

  /** The dispatch does not depend on letter case. */
  lemma ChatIntentIgnoresCase(message: string)
    ensures ChatIntentOf(Lower(message)) == ChatIntentOf(message)
  {
    LowerIdempotent(message);
  }

  /** A message about leave or attendance is answered with the attendance summary whatever
      else it asks, and a job description is generated only for a message that mentions
      neither leave, attendance nor the employee count. */
  lemma ChatPriority(message: string)
    ensures Contains(Lower(message), "leave") ==> ChatIntentOf(message) == AttendanceSummary
    ensures ChatIntentOf(message) == JobDescription ==>
      !Contains(Lower(message), "leave") && !Contains(Lower(message), "attendance") &&
      !Contains(Lower(message), "how many employees") &&
      Contains(Lower(message), "generate") && Contains(Lower(message), "job description")
  {
  }
}
