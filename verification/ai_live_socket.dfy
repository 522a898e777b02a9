/**
 * The live interview engine behind the real-time channel: a fixed question bank per role,
 * a keyword-overlap scorer, and a table of interview sessions keyed by connection id that
 * three events change (`start_interview`, `speech_text`, `disconnect`).
 */
module AiLiveSocket {
  import opened Wrappers
  import opened JsText

  const SOFTWARE_ENGINEER_QUESTIONS: seq<string> := [
    "Tell me about your experience with JavaScript frameworks like React or Node.js.",
    "How do you ensure code scalability in large applications?",
    "Describe a project where you solved a difficult technical problem.",
    "How do you test and deploy your code?",
    "What is your approach to working in a team environment?"
  ]

  const DATA_ANALYST_QUESTIONS: seq<string> := [
    "Which tools do you use for data visualization?",
    "How do you handle missing data?",
    "Can you explain a time you used SQL for analysis?",
    "What is your experience with Python or R?",
    "Describe how you present insights to stakeholders."
  ]

  const HR_RECRUITER_QUESTIONS: seq<string> := [
    "How do you source candidates for niche roles?",
    "What tools do you use for tracking applicants?",
    "How do you ensure diversity in hiring?",
    "Describe a time you resolved a hiring challenge.",
    "How do you assess cultural fit?"
  ]

  /** Role name (lower case) to its ordered seed questions. */
  const QUESTION_BANK: map<string, seq<string>> := map[
    "software engineer" := SOFTWARE_ENGINEER_QUESTIONS,
    "data analyst" := DATA_ANALYST_QUESTIONS,
    "hr recruiter" := HR_RECRUITER_QUESTIONS
  ]

  const MAX_PER_ANSWER: nat := 10
  const NO_QUESTIONS_MESSAGE := "No questions found for this role. Please choose a valid one."
  const GENERIC_FOLLOW_UP := "Can you elaborate on that?"
  const SPEECH_ERROR_MESSAGE := "Error processing your response. Please try again."

  /** The questions for a role, looked up by its lower-cased name. */
  function QuestionsFor(role: string): Option<seq<string>> {
    var key := Lower(role);
    if key in QUESTION_BANK then Some(QUESTION_BANK[key]) else None
  }

  /** Looking a role up ignores the case of its letters ("Data Analyst" is "data analyst"). */
  lemma QuestionsForIgnoresCase(role: string)
    ensures QuestionsFor(role) == QuestionsFor(Lower(role))
    ensures QuestionsFor(role).Some? <==> Lower(role) in QUESTION_BANK
  {
    LowerIdempotent(role);
  }

  // ---------------------------------------------------------------------------
  // Scorer

  /** The words longer than four characters, lower-cased, in order (duplicates kept). */
  function LongWordsLowered(words: seq<string>): (ks: seq<string>)
    ensures forall i :: 0 <= i < |ks| ==>
      exists j :: 0 <= j < |words| && |words[j]| > 4 && ks[i] == Lower(words[j])
    ensures ks == [] <==> forall j :: 0 <= j < |words| ==> |words[j]| <= 4
  {
    if words == [] then []
    else
      var rest := LongWordsLowered(words[1..]);
      assert forall i :: 0 <= i < |rest| ==>
        exists j :: 0 <= j < |words| && |words[j]| > 4 && rest[i] == Lower(words[j]) by {
        forall i | 0 <= i < |rest|
          ensures exists j :: 0 <= j < |words| && |words[j]| > 4 && rest[i] == Lower(words[j])
        {
          var j :| 0 <= j < |words[1..]| && |words[1..][j]| > 4 && rest[i] == Lower(words[1..][j]);
          assert words[j + 1] == words[1..][j];
        }
      }
      if |words[0]| > 4 then [Lower(words[0])] + rest else rest
  }

  /** Extracting from two runs of words gives the first run's keywords, then the second's. */
  lemma {:induction false} LongWordsLoweredAppend(a: seq<string>, b: seq<string>)
    ensures LongWordsLowered(a + b) == LongWordsLowered(a) + LongWordsLowered(b)
    decreases |a|
  {
    if a == [] {
      assert a + b == b;
    } else {
      assert (a + b)[1..] == a[1..] + b;
      LongWordsLoweredAppend(a[1..], b);
    }
  }

  /** A single word yields its lower-cased form when it is longer than four characters, and
      nothing otherwise; with `LongWordsLoweredAppend` this fixes every keyword list. */
  lemma LongWordsLoweredSingle(w: string)
    ensures LongWordsLowered([w]) == if |w| > 4 then [Lower(w)] else []
  {
    assert [w][1..] == [];
  }

  /** The keywords of a question: its space-separated words longer than four characters,
      lower-cased, punctuation kept. */
  function Keywords(question: string): seq<string> {
    LongWordsLowered(Split(question, ' '))
  }

  /** Every keyword of a question occurs in the lower-cased question. */
  lemma KeywordsOccurInQuestion(question: string)
    ensures forall k :: k in Keywords(question) ==> Contains(Lower(question), k)
  {
    var words := Split(question, ' ');
    SplitPiecesOccur(question, ' ');
    forall k | k in Keywords(question)
      ensures Contains(Lower(question), k)
    {
      var i :| 0 <= i < |Keywords(question)| && Keywords(question)[i] == k;
      var j :| 0 <= j < |words| && |words[j]| > 4 && k == Lower(words[j]);
      ContainsLower(question, words[j]);
    }
  }

  /** `min(10, round(relevance / 10) + 4)` with `relevance = matches / keywordCount * 100`. */
  function AnswerScore(matches: nat, keywordCount: nat): (score: nat)
    requires 0 < keywordCount && matches <= keywordCount
    ensures 4 <= score <= MAX_PER_ANSWER
  {
    var rounded := RoundHalfUp(10 * matches, keywordCount);
    if rounded + 4 < 10 then rounded + 4 else 10
  }

  /** The score reaches its ceiling exactly when at least 55% of the keywords are found
      (a relevance of 55 already rounds to 6, and 6 + 4 is the cap). */
  lemma AnswerScoreSaturates(matches: nat, keywordCount: nat)
    requires 0 < keywordCount && matches <= keywordCount
    ensures AnswerScore(matches, keywordCount) == 10 <==> 20 * matches >= 11 * keywordCount
    ensures matches == keywordCount ==> AnswerScore(matches, keywordCount) == 10
    ensures matches == 0 ==> AnswerScore(matches, keywordCount) == 4
  {
    var r := RoundHalfUp(10 * matches, keywordCount);
    if r >= 6 {
      MulMonotone(2 * keywordCount, 6, r);
    } else {
      MulMonotone(2 * keywordCount, r + 1, 6);
    }
    if matches == 0 {
      RoundHalfUpExact(0, keywordCount);
    }
  }

  /** More keywords found never lowers the score. */
  lemma AnswerScoreMonotone(m1: nat, m2: nat, keywordCount: nat)
    requires 0 < keywordCount && m1 <= m2 <= keywordCount
    ensures AnswerScore(m1, keywordCount) <= AnswerScore(m2, keywordCount)
  {
    RoundHalfUpMonotone(10 * m1, 10 * m2, keywordCount);
  }

  /** The score of an answer to a question with at least one keyword. */
  function QuestionScore(question: string, answer: string): (score: nat)
    requires Keywords(question) != []
    ensures 4 <= score <= MAX_PER_ANSWER
  {
    AnswerScore(CountContained(Keywords(question), Lower(answer)), |Keywords(question)|)
  }

  /** The keyword scorer of `speech_text`: extract the question's keywords, count those the
      lower-cased answer contains, and turn the count into a score. */
  method ScoreAnswer(question: string, answer: string) returns (score: nat)
    requires Keywords(question) != []
    ensures score == QuestionScore(question, answer)
    ensures 4 <= score <= MAX_PER_ANSWER
  {
    var keywords := Keywords(question);
    var lowerAnswer := Lower(answer);
    var matchCount := CountIncluded(keywords, lowerAnswer);
    score := AnswerScore(matchCount, |keywords|);
  }

  /** An answer that contains every keyword scores 10; one that contains none scores 4. */
  lemma QuestionScoreExtremes(question: string, answer: string)
    requires Keywords(question) != []
    ensures (forall k :: k in Keywords(question) ==> Contains(Lower(answer), k)) ==>
      QuestionScore(question, answer) == 10
    ensures (forall k :: k in Keywords(question) ==> !Contains(Lower(answer), k)) ==>
      QuestionScore(question, answer) == 4
  {
    AnswerScoreSaturates(CountContained(Keywords(question), Lower(answer)), |Keywords(question)|);
  }

  /** Repeating the question back as the answer earns the full 10 points. */
  lemma EchoedQuestionScoresTen(question: string)
    requires Keywords(question) != []
    ensures QuestionScore(question, question) == 10
  {
    KeywordsOccurInQuestion(question);
    QuestionScoreExtremes(question, question);
  }

  /** The first piece of a split is at least as long as the separator-free prefix. */
  lemma {:induction false} SplitHeadCoversPrefix(s: string, sep: char, n: nat)
    requires n <= |s| && forall t :: 0 <= t < n ==> s[t] != sep
    ensures |Split(s, sep)[0]| >= n
  {
    if n > 0 {
      SplitHeadCoversPrefix(s[1..], sep, n - 1);
    }
  }

  /** Five separator-free characters in a row lie inside one piece of length at least five. */
  lemma {:induction false} SplitHasLongPiece(s: string, sep: char, i: nat)
    requires i + 5 <= |s| && forall t :: i <= t < i + 5 ==> s[t] != sep
    ensures exists k :: 0 <= k < |Split(s, sep)| && |Split(s, sep)[k]| > 4
  {
    var r, rest := Split(s, sep), Split(s[1..], sep);
    if i == 0 {
      SplitHeadCoversPrefix(s, sep, 5);
      assert |r[0]| > 4;
    } else {
      SplitHasLongPiece(s[1..], sep, i - 1);
      var k :| 0 <= k < |rest| && |rest[k]| > 4;
      if s[0] == sep {
        assert r[k + 1] == rest[k];
      } else if k == 0 {
        assert |r[0]| > 4;
      } else {
        assert r[k] == rest[k];
      }
    }
  }

  lemma HasKeywordAt(question: string, i: nat, word: string)
    requires i + 5 <= |question| && question[i..i + 5] == word
    requires ' ' !in word && !IsWhitespace(word[0])
    ensures Keywords(question) != [] && !IsBlank(question)
  {
    assert forall t :: i <= t < i + 5 ==> question[t] == question[i..i + 5][t - i];
    SplitHasLongPiece(question, ' ', i);
  }

  /** Five non-blank questions, each with at least one keyword. */
  ghost predicate QuestionsWellFormed(questions: seq<string>) {
    |questions| == 5 &&
    forall i :: 0 <= i < |questions| ==> !IsBlank(questions[i]) && Keywords(questions[i]) != []
  }

  // A five-character word without spaces in each question of the role.
  lemma SoftwareEngineerWitness0() ensures SOFTWARE_ENGINEER_QUESTIONS[0][71..76] == "Node." { }
  lemma SoftwareEngineerWitness1() ensures SOFTWARE_ENGINEER_QUESTIONS[1][44..49] == "appli" { }
  lemma SoftwareEngineerWitness2() ensures SOFTWARE_ENGINEER_QUESTIONS[2][58..63] == "probl" { }
  lemma SoftwareEngineerWitness3() ensures SOFTWARE_ENGINEER_QUESTIONS[3][32..37] == "code?" { }
  lemma SoftwareEngineerWitness4() ensures SOFTWARE_ENGINEER_QUESTIONS[4][43..48] == "envir" { }

  lemma SoftwareEngineerQuestionsWellFormed()
    ensures QuestionsWellFormed(SOFTWARE_ENGINEER_QUESTIONS)
  {
    var qs := SOFTWARE_ENGINEER_QUESTIONS;
    SoftwareEngineerWitness0();
    SoftwareEngineerWitness1();
    SoftwareEngineerWitness2();
    SoftwareEngineerWitness3();
    SoftwareEngineerWitness4();
    forall i | 0 <= i < |qs|
      ensures !IsBlank(qs[i]) && Keywords(qs[i]) != []
    {
      if i == 0 {
        HasKeywordAt(qs[0], 71, "Node.");
      } else if i == 1 {
        HasKeywordAt(qs[1], 44, "appli");
      } else if i == 2 {
        HasKeywordAt(qs[2], 58, "probl");
      } else if i == 3 {
        HasKeywordAt(qs[3], 32, "code?");
      } else {
        HasKeywordAt(qs[4], 43, "envir");
      }
    }
  }

  // A five-character word without spaces in each question of the role.
  lemma DataAnalystWitness0() ensures DATA_ANALYST_QUESTIONS[0][32..37] == "visua" { }
  lemma DataAnalystWitness1() ensures DATA_ANALYST_QUESTIONS[1][26..31] == "data?" { }
  lemma DataAnalystWitness2() ensures DATA_ANALYST_QUESTIONS[2][40..45] == "analy" { }
  lemma DataAnalystWitness3() ensures DATA_ANALYST_QUESTIONS[3][29..34] == "Pytho" { }
  lemma DataAnalystWitness4() ensures DATA_ANALYST_QUESTIONS[4][37..42] == "stake" { }

  lemma DataAnalystQuestionsWellFormed()
    ensures QuestionsWellFormed(DATA_ANALYST_QUESTIONS)
  {
    var qs := DATA_ANALYST_QUESTIONS;
    DataAnalystWitness0();
    DataAnalystWitness1();
    DataAnalystWitness2();
    DataAnalystWitness3();
    DataAnalystWitness4();
    forall i | 0 <= i < |qs|
      ensures !IsBlank(qs[i]) && Keywords(qs[i]) != []
    {
      if i == 0 {
        HasKeywordAt(qs[0], 32, "visua");
      } else if i == 1 {
        HasKeywordAt(qs[1], 26, "data?");
      } else if i == 2 {
        HasKeywordAt(qs[2], 40, "analy");
      } else if i == 3 {
        HasKeywordAt(qs[3], 29, "Pytho");
      } else {
        HasKeywordAt(qs[4], 37, "stake");
      }
    }
  }

  // A five-character word without spaces in each question of the role.
  lemma HrRecruiterWitness0() ensures HR_RECRUITER_QUESTIONS[0][39..44] == "roles" { }
  lemma HrRecruiterWitness1() ensures HR_RECRUITER_QUESTIONS[1][35..40] == "appli" { }
  lemma HrRecruiterWitness2() ensures HR_RECRUITER_QUESTIONS[2][31..36] == "hirin" { }
  lemma HrRecruiterWitness3() ensures HR_RECRUITER_QUESTIONS[3][38..43] == "chall" { }
  lemma HrRecruiterWitness4() ensures HR_RECRUITER_QUESTIONS[4][18..23] == "cultu" { }

  lemma HrRecruiterQuestionsWellFormed()
    ensures QuestionsWellFormed(HR_RECRUITER_QUESTIONS)
  {
    var qs := HR_RECRUITER_QUESTIONS;
    HrRecruiterWitness0();
    HrRecruiterWitness1();
    HrRecruiterWitness2();
    HrRecruiterWitness3();
    HrRecruiterWitness4();
    forall i | 0 <= i < |qs|
      ensures !IsBlank(qs[i]) && Keywords(qs[i]) != []
    {
      if i == 0 {
        HasKeywordAt(qs[0], 39, "roles");
      } else if i == 1 {
        HasKeywordAt(qs[1], 35, "appli");
      } else if i == 2 {
        HasKeywordAt(qs[2], 31, "hirin");
      } else if i == 3 {
        HasKeywordAt(qs[3], 38, "chall");
      } else {
        HasKeywordAt(qs[4], 18, "cultu");
      }
    }
  }

  /** Every role of the bank has five non-blank questions, each with a keyword. */
  ghost predicate BankWellFormed() {
    forall key :: key in QUESTION_BANK ==> QuestionsWellFormed(QUESTION_BANK[key])
  }

  lemma BankIsWellFormed()
    ensures BankWellFormed()
  {
    SoftwareEngineerQuestionsWellFormed();
    DataAnalystQuestionsWellFormed();
    HrRecruiterQuestionsWellFormed();
    assert QUESTION_BANK.Keys == {"software engineer", "data analyst", "hr recruiter"};
  }

  // ---------------------------------------------------------------------------
  // Conclusion and follow-up questions

  datatype Tier = Excellent | Good | Average | NeedsImprovement

  /** The feedback tier of a final percentage: thresholds 85, 70 and 50, first match wins. */
  function InterviewTier(percentage: int): Tier {
    if percentage >= 85 then Excellent
    else if percentage >= 70 then Good
    else if percentage >= 50 then Average
    else NeedsImprovement
  }

  function TierRank(t: Tier): nat {
    match t
    case NeedsImprovement => 0
    case Average => 1
    case Good => 2
    case Excellent => 3
  }

  /** A higher percentage never earns a lower tier. */
  lemma InterviewTierMonotone(p: int, q: int)
    requires p <= q
    ensures TierRank(InterviewTier(p)) <= TierRank(InterviewTier(q))
  {
  }

  function TierFeedback(t: Tier): string {
    match t
    case Excellent => "\U{1F3C6} Excellent candidate with strong communication & technical skills."
    case Good => "\U{1F44D} Good candidate \U{2014} solid understanding but can elaborate more."
    case Average => "\U{26A0}\U{FE0F} Average performance \U{2014} needs improvement in clarity and detail."
    case NeedsImprovement => "\U{274C} Needs improvement \U{2014} revise fundamentals before next interview."
  }

  /** `Math.round(score / (questionCount * 10) * 100)`. */
  function FinalPercentage(score: nat, questionCount: nat): nat
    requires questionCount > 0
  {
    RoundHalfUp(100 * score, MAX_PER_ANSWER * questionCount)
  }

  /** With every answer scoring between 4 and 10 the final percentage lies in [40, 100],
      and it is 100 when every answer scored 10. */
  lemma FinalPercentageBounds(score: nat, questionCount: nat)
    requires questionCount > 0
    requires 4 * questionCount <= score <= 10 * questionCount
    ensures 40 <= FinalPercentage(score, questionCount) <= 100
    ensures score == 10 * questionCount ==> FinalPercentage(score, questionCount) == 100
  {
    var den := 10 * questionCount;
    RoundHalfUpMonotone(40 * den, 100 * score, den);
    RoundHalfUpMonotone(100 * score, 100 * den, den);
    RoundHalfUpExact(40, den);
    RoundHalfUpExact(100, den);
  }

  /** The message that ends an interview. */
  function CompletionMessage(score: nat, questionCount: nat): string
    requires questionCount > 0
  {
    var percentage := FinalPercentage(score, questionCount);
    "Interview completed. Score: " + DecimalString(percentage) + "/100. Feedback: " +
    TierFeedback(InterviewTier(percentage))
  }

  /** The next question: the generator's trimmed reply when it gave a non-blank one,
      else the bank question at `index`, else a generic prompt. */
  function FollowUp(generated: Option<string>, questions: seq<string>, index: nat): string {
    if generated.Some? && Trim(generated.value) != "" then Trim(generated.value)
    else if index < |questions| && questions[index] != "" then questions[index]
    else GENERIC_FOLLOW_UP
  }

  /** Without a usable generator reply the bank question at `index` is asked, so the generic
      prompt is never used while `index` is inside a bank of non-empty questions. */
  lemma FollowUpFallsBackToBank(generated: Option<string>, questions: seq<string>, index: nat)
    requires index < |questions| && questions[index] != ""
    ensures generated.None? ==> FollowUp(generated, questions, index) == questions[index]
    ensures generated.Some? && !IsBlank(generated.value) ==>
      FollowUp(generated, questions, index) == Trim(generated.value)
    ensures generated.Some? && IsBlank(generated.value) ==>
      FollowUp(generated, questions, index) == questions[index]
    ensures FollowUp(generated, questions, index) == questions[index] ||
      (generated.Some? && FollowUp(generated, questions, index) == Trim(generated.value) &&
       !IsBlank(generated.value))
  {
  }

  // ---------------------------------------------------------------------------
  // Sessions

  /** One interview in progress. `role` keeps the spelling the client sent. */
  datatype Session = Session(role: string, currentIndex: nat, score: nat, answers: seq<string>)

  /** A session between events: its role is in the bank, it has not run past the last
      question, it holds one answer per asked question, and its score is 4 to 10 per answer. */
  ghost predicate SessionValid(s: Session) {
    QuestionsFor(s.role).Some? &&
    s.currentIndex < |QuestionsFor(s.role).value| &&
    |s.answers| == s.currentIndex &&
    4 * s.currentIndex <= s.score <= 10 * s.currentIndex
  }

  /** The questions of a valid session's role. */
  function SessionQuestions(s: Session): (questions: seq<string>)
    requires SessionValid(s)
    ensures |questions| == 5 && questions == QuestionsFor(s.role).value
    ensures s.currentIndex < |questions| && Keywords(questions[s.currentIndex]) != []
  {
    BankIsWellFormed();
    var key := Lower(s.role);
    assert QuestionsWellFormed(QUESTION_BANK[key]);
    QuestionsFor(s.role).value
  }

  /** A session after an answer worth `points`: the answer is appended, the points are added
      and the index moves on by one. */
  function Advance(s: Session, text: string, points: nat): (next: Session)
    ensures next.role == s.role && next.currentIndex == s.currentIndex + 1
    ensures next.answers == s.answers + [text] && next.score == s.score + points
  {
    Session(s.role, s.currentIndex + 1, s.score + points, s.answers + [text])
  }

  /** A session after an accepted answer: the answer is scored against the bank question at
      the current index and the session advances by that score. */
  function Answered(s: Session, text: string): (next: Session)
    requires SessionValid(s)
    ensures next == Advance(s, text, QuestionScore(SessionQuestions(s)[s.currentIndex], text))
    ensures |next.answers| == next.currentIndex
    ensures s.score + 4 <= next.score <= s.score + MAX_PER_ANSWER
    ensures next.currentIndex < |SessionQuestions(s)| ==> SessionValid(next)
  {
    var questions := SessionQuestions(s);
    Advance(s, text, QuestionScore(questions[s.currentIndex], text))
  }

  /** The bookkeeping of `speech_text` for one accepted answer: append it, score it against
      the question at the current index, and move the index on. */
  method RecordAnswer(s: Session, text: string) returns (next: Session)
    requires SessionValid(s)
    ensures next == Answered(s, text)
  {
    var questions := SessionQuestions(s);
    var currentQuestion := questions[s.currentIndex];
    var answers := s.answers + [text];
    var score := ScoreAnswer(currentQuestion, text);
    next := Session(s.role, s.currentIndex + 1, s.score + score, answers);
  }

  /** An accepted answer that reaches the end of the bank concludes with a percentage in [40, 100]. */
  lemma ConcludedPercentageBounds(s: Session, text: string)
    requires SessionValid(s) && s.currentIndex + 1 == |SessionQuestions(s)|
    ensures 40 <= FinalPercentage(Answered(s, text).score, |SessionQuestions(s)|) <= 100
  {
    FinalPercentageBounds(Answered(s, text).score, |SessionQuestions(s)|);
  }

  ghost predicate AllSessionsValid(table: map<string, Session>) {
    forall id :: id in table ==> SessionValid(table[id])
  }

  lemma InstallKeepsValid(table: map<string, Session>, id: string, s: Session)
    requires AllSessionsValid(table) && SessionValid(s)
    ensures AllSessionsValid(table[id := s])
  {
  }

  lemma RemoveKeepsValid(table: map<string, Session>, id: string)
    requires AllSessionsValid(table)
    ensures AllSessionsValid(table - {id})
  {
  }

  /** The session table of one server, keyed by connection id. */
  class InterviewServer {
    var sessions: map<string, Session>

    ghost predicate Valid()
      reads this
    {
      AllSessionsValid(sessions)
    }

    constructor ()
      ensures Valid() && sessions == map[]
    {
      sessions := map[];
    }

    /** `disconnect`: forget this connection's session, if any. */
    method Disconnect(id: string)
      requires Valid()
      modifies this
      ensures Valid()
      ensures sessions == old(sessions) - {id}
      ensures id !in sessions
    {
      RemoveKeepsValid(sessions, id);
      sessions := sessions - {id};
    }

    /** `start_interview`: install a fresh session and ask the first question, or refuse an
        unknown role and leave the table alone. */
    method StartInterview(id: string, role: string) returns (reply: string)
      requires Valid()
      modifies this
      ensures Valid()
      ensures QuestionsFor(role).None? ==>
        sessions == old(sessions) && reply == NO_QUESTIONS_MESSAGE
      ensures QuestionsFor(role).Some? ==>
        sessions == old(sessions)[id := Session(role, 0, 0, [])] &&
        reply == QuestionsFor(role).value[0]
    {
      var questions := QuestionsFor(role);
      if questions.None? {
        return NO_QUESTIONS_MESSAGE;
      }
      BankIsWellFormed();
      InstallKeepsValid(sessions, id, Session(role, 0, 0, []));
      sessions := sessions[id := Session(role, 0, 0, [])];
      reply := questions.value[0];
    }

    /** `speech_text`: score a non-blank answer against the bank question at the current
        index, record it, and either conclude (deleting the session) or ask the next question.
        `generated` is what the question generator returned: `None` when it is not configured
        or failed. A blank answer, or one for a connection without a session, is ignored. */
    method SpeechText(id: string, text: string, generated: Option<string>)
      returns (reply: Option<string>)
      requires Valid()
      modifies this
      ensures Valid()
      ensures id !in old(sessions) || IsBlank(text) ==> sessions == old(sessions) && reply == None
      ensures id in old(sessions) && !IsBlank(text) ==>
        var s := old(sessions)[id];
        var next := Answered(s, text);
        if next.currentIndex == |SessionQuestions(s)| then
          sessions == old(sessions) - {id} &&
          reply == Some(CompletionMessage(next.score, |SessionQuestions(s)|))
        else
          sessions == old(sessions)[id := next] &&
          reply == Some(FollowUp(generated, SessionQuestions(s), next.currentIndex))
    {
      if id !in sessions || Trim(text) == "" {
        return None;
      }
      var session := sessions[id];
      var questions := SessionQuestions(session);
      var next := RecordAnswer(session, text);
      if next.currentIndex >= |questions| {
        reply := Some(CompletionMessage(next.score, |questions|));
        RemoveKeepsValid(sessions, id);
        sessions := sessions - {id};
      } else {
        reply := Some(FollowUp(generated, questions, next.currentIndex));
        InstallKeepsValid(sessions, id, next);
        sessions := sessions[id := next];
      }
    }
  }

  /** The session of an interview for `role` after `i` answers that each repeated their question. */
  function EchoSession(role: string, questions: seq<string>, i: nat): (s: Session)
    requires i <= |questions|
    ensures |s.answers| == s.currentIndex
  {
    Session(role, i, 10 * i, questions[..i])
  }

  /** Repeating the current question scores ten and leads to the next echo session. */
  lemma EchoStep(role: string, questions: seq<string>, i: nat)
    requires QuestionsFor(role) == Some(questions) && i < |questions|
    ensures SessionValid(EchoSession(role, questions, i))
    ensures SessionQuestions(EchoSession(role, questions, i)) == questions
    ensures !IsBlank(questions[i])
    ensures Answered(EchoSession(role, questions, i), questions[i]) == EchoSession(role, questions, i + 1)
  {
    BankIsWellFormed();
    assert QuestionsWellFormed(QUESTION_BANK[Lower(role)]);
    var s := EchoSession(role, questions, i);
    EchoedQuestionScoresTen(questions[i]);
    assert Answered(s, questions[i]) == Advance(s, questions[i], 10);
    EchoAdvance(role, questions, i);
  }

  lemma EchoAdvance(role: string, questions: seq<string>, i: nat)
    requires i < |questions|
    ensures Advance(EchoSession(role, questions, i), questions[i], 10) == EchoSession(role, questions, i + 1)
  {
    assert questions[..i] + [questions[i]] == questions[..i + 1];
  }

  /** An interview for any role of the bank in which every answer repeats its question: each
      answer is accepted and leads to the next echo session, and the five answers together
      score 50 points, which is 100 percent and the excellent tier. */
  lemma EchoedInterviewIsExcellent(role: string)
    requires QuestionsFor(role).Some?
    ensures |QuestionsFor(role).value| == 5
    ensures forall i :: 0 <= i < 5 ==>
      var qs := QuestionsFor(role).value;
      SessionValid(EchoSession(role, qs, i)) && !IsBlank(qs[i]) &&
      Answered(EchoSession(role, qs, i), qs[i]) == EchoSession(role, qs, i + 1)
    ensures EchoSession(role, QuestionsFor(role).value, 5).score == 50
    ensures FinalPercentage(50, 5) == 100 && InterviewTier(FinalPercentage(50, 5)) == Excellent
  {
    var qs := QuestionsFor(role).value;
    EchoStep(role, qs, 0);
    forall i | 0 <= i < 5
      ensures SessionValid(EchoSession(role, qs, i)) && !IsBlank(qs[i]) &&
        Answered(EchoSession(role, qs, i), qs[i]) == EchoSession(role, qs, i + 1)
    {
      EchoStep(role, qs, i);
    }
    FinalPercentageBounds(50, 5);
  }

  // ---------------------------------------------------------------------------
  // Role lookup as written

  /** What `QUESTION_BANK[key]` gives in JavaScript: an own entry, a member the object
      literal inherits from `Object.prototype` (truthy, not a list of questions), or
      `undefined`. */
  datatype BankProperty = OwnQuestions(questions: seq<string>) | InheritedMember | Undefined

  function BankPropertyAsWritten(key: string): BankProperty {
    if key in QUESTION_BANK then OwnQuestions(QUESTION_BANK[key])
    else if key in INHERITED_LOWERCASE_KEYS then InheritedMember
    else Undefined
  }

  /** The `if (!questions)` guard of `start_interview` as written: any truthy property passes. */
  predicate StartGuardPassesAsWritten(role: string) {
    BankPropertyAsWritten(Lower(role)) != Undefined
  }

  /** `speech_text` as written on a session whose role names an inherited member: the answer is
      pushed, then splitting the missing question throws and the catch-all replies with an error;
      the index and score stay where they were. */
  function AnswerOnInheritedRoleAsWritten(s: Session, text: string): (result: (Session, string))
    requires BankPropertyAsWritten(Lower(s.role)) == InheritedMember && !IsBlank(text)
    ensures result.0.currentIndex == s.currentIndex && result.0.score == s.score
    ensures |result.0.answers| == |s.answers| + 1
  {
    (s.(answers := s.answers + [text]), SPEECH_ERROR_MESSAGE)
  }

  /** The discrepancy: role "constructor" gets past the guard although the bank has no such role,
      and the first answer then leaves the session with one answer more than its index. The
      model's `QuestionsFor` consults own entries only and refuses it. */
  lemma InheritedRoleBreaksSession()
    ensures StartGuardPassesAsWritten("constructor") && QuestionsFor("constructor").None?
    ensures !IsBlank("I use React") &&
      var (after, reply) := AnswerOnInheritedRoleAsWritten(Session("constructor", 0, 0, []), "I use React");
      |after.answers| == after.currentIndex + 1 && reply == SPEECH_ERROR_MESSAGE
  {
    assert Lower("constructor") == "constructor";
    assert !IsWhitespace("I use React"[0]);
  }
}
