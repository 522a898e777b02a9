# HR Copilot core, modelled in Dafny

This project models three pieces of the HR Copilot application and proves properties of them.

- **The live AI interview** (`ai_live_socket.dfy`, module `AiLiveSocket`). The real-time channel keeps a table of interview sessions keyed by connection id. Three events change that table:
  - `start_interview` looks the role up in a fixed question bank, installs a fresh session and asks the first question.
  - `speech_text` scores a spoken answer by keyword overlap with the current question and records it. It then either concludes the interview with a percentage and a feedback tier, or asks a follow-up question.
  - `disconnect` drops the session.

  The table is a `map` field of the class `InterviewServer`, and the handlers are methods that reassign it. The question generator is an `Option<string>` parameter: `None` means it is not configured or it failed.
- **Resume screening and the chat dispatcher** (`ai_routes.dfy`, module `AiRoutes`).
  - Skill aliases are normalised.
  - The keyword detection loop merges the skills found in the resume text into the parsed skills.
  - The best-fit role is the first role with the highest keyword count, together with its rounded confidence.
  - The ATS block scores the requested role: matched and missing skills, a score and a feedback tier.
  - The `/resume-screening` response is built from these results.
  - The `/chat` route picks its intent from the message text, trying the intents in a fixed priority order.
- **The job-description PDF layout of the HR dashboard** (`jd_pdf_layout.dfy`, module `JdPdfLayout`). The cleaned job description is turned into a list of draw operations:
  - Non-blank lines are joined into paragraphs.
  - Each entry is classified as a heading, bullet, numbered point, inline-bold line or plain paragraph, and drawn with that class's style.
  - A line containing inline bold is split on its `**…**` spans.

  The result is a sequence of `DrawOp` values rather than calls into a PDF library.

`js_text.dfy` (module `JsText`) models the JavaScript string operations these rely on:
- `trim` and the `\s` class;
- `toLowerCase` on ASCII letters;
- `includes`, `startsWith` and `split` on one character;
- decimal printing;
- `Math.round` of a non-negative ratio, as the exact rational `(2·num + den) / (2·den)`.

`wrappers.dfy` holds `Option`.

## Model

| member | source | states |
|---|---|---|
| AiLiveSocket.QuestionsFor | server/src/routes/aiLiveSocket.js:69 | The bank lookup by lower-cased role name; its properties are stated by `QuestionsForIgnoresCase` and `BankIsWellFormed`. |
| AiLiveSocket.Keywords | server/src/routes/aiLiveSocket.js:103-106 | The words of a question longer than four characters, lower-cased, in order and with repeats kept. `LongWordsLoweredAppend` and `LongWordsLoweredSingle` fix the list exactly, and `KeywordsOccurInQuestion` says each keyword occurs in the question. |
| AiLiveSocket.QuestionsForIgnoresCase | server/src/routes/aiLiveSocket.js:69-70 | A role is looked up by its lower-cased name. "Data Analyst" finds the same questions as "data analyst", and a role is found exactly when its lower-cased name is a bank key. |
| AiLiveSocket.BankIsWellFormed | server/src/routes/aiLiveSocket.js:18-40 | Every role of the bank has five non-blank questions. Each question has at least one word longer than four characters, so the keyword list of every bank question is non-empty and the relevance ratio is defined. |
| AiLiveSocket.LongWordsLowered | server/src/routes/aiLiveSocket.js:103-106 | Every keyword is the lower-cased form of a word longer than four characters. The list is empty exactly when no word is that long. |
| AiLiveSocket.LongWordsLoweredAppend | server/src/routes/aiLiveSocket.js:104-106 | The keywords of two runs of words are the first run's keywords followed by the second's, so order and repeats are kept. |
| AiLiveSocket.LongWordsLoweredSingle | server/src/routes/aiLiveSocket.js:104-106 | One word yields its lower-cased form when it is longer than four characters, and nothing otherwise. With `LongWordsLoweredAppend`, every long word yields exactly one keyword, in place. |
| AiLiveSocket.KeywordsOccurInQuestion | server/src/routes/aiLiveSocket.js:103-106 | Every keyword of a question occurs in the lower-cased question. |
| AiLiveSocket.AnswerScore | server/src/routes/aiLiveSocket.js:114-115 | The per-answer score always lies between 4 and 10. |
| AiLiveSocket.AnswerScoreSaturates | server/src/routes/aiLiveSocket.js:114-115 | The score is 10 exactly when at least 55% of the keywords matched (20·matches ≥ 11·keywords). Matching all keywords gives 10 and matching none gives 4. |
| AiLiveSocket.AnswerScoreMonotone | server/src/routes/aiLiveSocket.js:114-115 | More matched keywords never lower the score. |
| AiLiveSocket.QuestionScore | server/src/routes/aiLiveSocket.js:103-115 | Scoring an answer against a question with keywords gives a score between 4 and 10. |
| AiLiveSocket.ScoreAnswer | server/src/routes/aiLiveSocket.js:107-115 | The counting loop over the keywords yields exactly the score `QuestionScore` defines, which lies between 4 and 10. |
| AiLiveSocket.QuestionScoreExtremes | server/src/routes/aiLiveSocket.js:103-115 | An answer that contains every keyword scores 10, whatever its case. One that contains none scores 4. |
| AiLiveSocket.EchoedQuestionScoresTen | server/src/routes/aiLiveSocket.js:103-115 | An answer that repeats its question scores the full 10. |
| AiLiveSocket.InterviewTier | server/src/routes/aiLiveSocket.js:124-136 | The feedback tier: 85 or more is excellent, 70 or more good, 50 or more average, anything lower needs improvement; its ordering is stated by `InterviewTierMonotone`. |
| AiLiveSocket.TierFeedback | server/src/routes/aiLiveSocket.js:125-136 | The feedback sentence of each tier. |
| AiLiveSocket.FinalPercentage | server/src/routes/aiLiveSocket.js:121-123 | `Math.round(score / (questions * 10) * 100)`; its bounds are stated by `FinalPercentageBounds`. |
| AiLiveSocket.CompletionMessage | server/src/routes/aiLiveSocket.js:138-140 | The completion message with the percentage and the tier's feedback. |
| AiLiveSocket.FollowUp | server/src/routes/aiLiveSocket.js:145-179 | The generator's trimmed reply when it is non-blank, else the bank question at the new index, else the generic prompt; stated by `FollowUpFallsBackToBank`. |
| AiLiveSocket.InterviewTierMonotone | server/src/routes/aiLiveSocket.js:124-136 | A higher final percentage never earns a lower feedback tier. |
| AiLiveSocket.FinalPercentageBounds | server/src/routes/aiLiveSocket.js:121-123 | If every answer scored between 4 and 10, the final percentage lies between 40 and 100. It is exactly 100 when every answer scored 10. |
| AiLiveSocket.FollowUpFallsBackToBank | server/src/routes/aiLiveSocket.js:145-179 | A non-blank generator reply is asked, trimmed. With no reply, or a blank one, the next bank question is asked. So the generic prompt is never used inside the bank. |
| AiLiveSocket.SessionQuestions | server/src/routes/aiLiveSocket.js:97-99 | A valid session's role has five bank questions. Its current index points at one of them, and that question has keywords. |
| AiLiveSocket.Advance | server/src/routes/aiLiveSocket.js:100-117 | The bookkeeping step shared by every accepted answer: the role is kept, the index moves on by one, the answer is appended and the points are added. What this preserves (one answer per asked question, validity) is stated by `Answered`. |
| AiLiveSocket.Answered | server/src/routes/aiLiveSocket.js:97-117 | An answer to a valid session is scored against the current bank question, and the result has these properties: one answer per asked question; the score grows by 4 to 10; still valid unless the last question was answered. |
| AiLiveSocket.RecordAnswer | server/src/routes/aiLiveSocket.js:97-117 | The handler's scoring and bookkeeping steps compute `Answered`. |
| AiLiveSocket.ConcludedPercentageBounds | server/src/routes/aiLiveSocket.js:119-123 | When the last question of a valid session is answered, the reported score is between 40 and 100. |
| AiLiveSocket.InstallKeepsValid | server/src/routes/aiLiveSocket.js:77-82 | Installing a valid session keeps every session in the table valid. |
| AiLiveSocket.RemoveKeepsValid | server/src/routes/aiLiveSocket.js:59-62 | Deleting a session keeps every session in the table valid. |
| AiLiveSocket.InterviewServer.constructor | server/src/routes/aiLiveSocket.js:50 | The server starts with an empty session table. |
| AiLiveSocket.InterviewServer.Disconnect | server/src/routes/aiLiveSocket.js:59-62 | Exactly this connection's session is removed. All other sessions are unchanged. |
| AiLiveSocket.InterviewServer.StartInterview | server/src/routes/aiLiveSocket.js:67-86 | An unknown role leaves the table unchanged and gets the refusal message. A known role installs (or replaces) a fresh session for the connection, with index 0, score 0 and no answers, and gets the role's first question. |
| AiLiveSocket.InterviewServer.SpeechText | server/src/routes/aiLiveSocket.js:91-181 | With no session, or a blank answer, nothing changes and nothing is sent. Otherwise the answer is scored and recorded. If it answered the last question, the session is deleted and the completion message carries the percentage and tier. Else the session is updated and the follow-up question is sent. Every session stays valid. |
| AiLiveSocket.EchoStep | server/src/routes/aiLiveSocket.js:91-117 | In an interview where every answer repeats its question, each answer is accepted, scores 10 and leads to the next such session. |
| AiLiveSocket.EchoedInterviewIsExcellent | server/src/routes/aiLiveSocket.js:91-143 | For every role of the bank, five answers that each repeat their question total 50 points, which is 100% and the "Excellent" tier. |
| AiLiveSocket.BankPropertyAsWritten | server/src/routes/aiLiveSocket.js:69 | `QUESTION_BANK[key]` as JavaScript evaluates it. It gives the role's own questions for a bank key. For "constructor" and "__proto__", the only all-lower-case names an object literal inherits from `Object.prototype`, it gives a truthy inherited member. For anything else it gives `undefined`. |
| AiLiveSocket.StartGuardPassesAsWritten | server/src/routes/aiLiveSocket.js:69-70 | The `if (!questions)` guard as written lets a role through whenever its lower-cased name gives an own entry or an inherited member. |
| AiLiveSocket.AnswerOnInheritedRoleAsWritten | server/src/routes/aiLiveSocket.js:97-117 | As written, an answer on a session whose role names an inherited member is pushed before the crash. The index and score stay where they were while the answer list grows by one. |
| AiLiveSocket.InheritedRoleBreaksSession | server/src/routes/aiLiveSocket.js:69-70 | As written, role "constructor" passes the start guard although the bank has no such role (the model's lookup refuses it). Its first answer leaves one answer more than the index, and the reply is the error message. |
| AiRoutes.RoleKeywordCounts | server/src/routes/aiRoutes.js:16-37 | There are five roles, each with between 1 and 199 keywords, so every role percentage is defined. |
| AiRoutes.NormalizeSkill | server/src/routes/aiRoutes.js:51-53 | An alias is replaced by a different canonical name, and the result is never itself an alias. Any other skill is returned unchanged. |
| AiRoutes.NormalizeSkillIdempotent | server/src/routes/aiRoutes.js:40-53 | Normalising twice is the same as normalising once. |
| AiRoutes.NormalizeAll | server/src/routes/aiRoutes.js:163 | Mapping the normaliser keeps the length and normalises each skill in place. |
| AiRoutes.LowerAll | server/src/routes/aiRoutes.js:144 | Lower-casing the parsed skills keeps the length and lower-cases each skill in place. |
| AiRoutes.Dedup | server/src/routes/aiRoutes.js:190-191 | `[...new Set(xs)]` has no duplicates, holds exactly the values of `xs` and is no longer than `xs`. |
| AiRoutes.DedupOfNoDup | server/src/routes/aiRoutes.js:190-191 | De-duplicating a list without duplicates returns it unchanged, order included. |
| AiRoutes.MergeStep | server/src/routes/aiRoutes.js:158-160 | One `forEach` step: a keyword the text contains and the list lacks is pushed; otherwise nothing changes. |
| AiRoutes.MergedSkills | server/src/routes/aiRoutes.js:157-161 | The merge over the keyword set, in order; stated by `MergedSkillsProperties`. |
| AiRoutes.MergedSkillsProperties | server/src/routes/aiRoutes.js:157-161 | The merge keeps the parsed skills as a prefix. It appends only keywords that occur in the text and were not parsed, each once. Every keyword occurring in the text ends up in the result, and a duplicate-free input stays duplicate-free. |
| AiRoutes.MergeDetectedKeywords | server/src/routes/aiRoutes.js:151-161 | The `forEach`/`push` loop computes `MergedSkills` over the fixed keyword set. |
| AiRoutes.RoleScores | server/src/routes/aiRoutes.js:105-112 | There is one score per role, in table order, and each is the number of that role's keywords the text contains. |
| AiRoutes.FirstMaxIndex | server/src/routes/aiRoutes.js:114 | The best index holds a maximum score, and every earlier index scores strictly less. The stable descending sort puts this role first. |
| AiRoutes.FirstMaxIndexUnique | server/src/routes/aiRoutes.js:114 | Any index with those two properties is the one `FirstMaxIndex` returns. |
| AiRoutes.SelectFirstMax | server/src/routes/aiRoutes.js:114 | A scan that replaces the best only on a strictly higher score finds the first maximum. |
| AiRoutes.PredictBestRole | server/src/routes/aiRoutes.js:104-119 | The loop returns the first role with the highest keyword count, and as confidence the rounded percentage of its keywords found. |
| AiRoutes.BestRoleProperties | server/src/routes/aiRoutes.js:104-119 | The predicted role scores at least as high as every role and strictly higher than every earlier role. Its confidence is at most 100, and it is 100 exactly when the text contains every keyword of that role. |
| AiRoutes.BestConfidence | server/src/routes/aiRoutes.js:114-117 | The confidence of the best-fit role: the rounded percentage of its keywords the text contains; bounded and characterised by `BestRoleProperties`. |
| AiRoutes.RoleKeywordsFor | server/src/routes/aiRoutes.js:169 | A role has keywords exactly when the table declares it, and then it has between 1 and 199 of them. |
| AiRoutes.Matched | server/src/routes/aiRoutes.js:171 | The matched skills are exactly the expected skills that were found. |
| AiRoutes.Missing | server/src/routes/aiRoutes.js:172 | The missing skills are exactly the expected skills that were not found. |
| AiRoutes.MatchedMissingPartition | server/src/routes/aiRoutes.js:171-172 | Matched and missing together are a permutation of the expected skills. |
| AiRoutes.AtsFeedback | server/src/routes/aiRoutes.js:175-182 | The ATS feedback sentence: 85 or more excellent, 65 or more good, 45 or more average, else low. |
| AiRoutes.AtsFor | server/src/routes/aiRoutes.js:168-183 | With no role, or a role the table does not declare, the score is 0 with empty lists and empty feedback. Otherwise the lists are the normalised expected skills split into matched and missing, the score is the rounded percentage of expected skills matched, and the feedback is the score's tier. The score is at most 100, and it is 100 exactly when nothing is missing. |
| AiRoutes.SelectedRole | server/src/routes/aiRoutes.js:127 | A non-empty submitted role is used lower-cased. An absent or empty one selects no role. |
| AiRoutes.ScreenResume | server/src/routes/aiRoutes.js:124-193 | Without a file the request fails with status 400 and the required-file message. Otherwise the response holds the selected role (or "Not Provided"), the best-fit role, its confidence printed in decimal followed by `%`, and the ATS result. The merged and normalised skills feed the ATS result. The matched and missing lists have no duplicates and share no skill. |
| AiRoutes.RolePropertyAsWritten | server/src/routes/aiRoutes.js:169 | `ROLE_KEYWORDS[role]` as JavaScript evaluates it. It gives the declared keyword list for a declared role, a truthy inherited member (not a list) for "constructor" and "__proto__", and `undefined` for anything else. |
| AiRoutes.AtsAsWritten | server/src/routes/aiRoutes.js:169-170 | As written, whenever the ATS block does compute, it computes what `AtsFor` does. |
| AiRoutes.ConstructorRoleThrows | server/src/routes/aiRoutes.js:169-170 | As written, role "Constructor" is lower-cased to "constructor", passes the `ROLE_KEYWORDS[role]` test and makes the block throw. The model's `AtsFor` skips the block for it. |
| AiRoutes.ChatIntentOf | server/src/routes/aiRoutes.js:222-340 | The `if`/`else if` chain on the lower-cased message; stated by `ChatIntentIsFirstMatch`, `ChatIntentIgnoresCase` and `ChatPriority`. |
| AiRoutes.FirstMatch | server/src/routes/aiRoutes.js:222-340 | The chosen intent is the general reply or the intent of one of the rules. |
| AiRoutes.ChatIntentIsFirstMatch | server/src/routes/aiRoutes.js:222-340 | The `/chat` dispatch equals the first rule of the priority table that fires on the lower-cased message. The order is attendance or leave, then employee count, then job description, then performance, then the general reply. |
| AiRoutes.ChatIntentIgnoresCase | server/src/routes/aiRoutes.js:222-340 | The intent does not depend on the case of the message's letters. |
| AiRoutes.ChatPriority | server/src/routes/aiRoutes.js:224-238 | A message that mentions "leave" always gets the attendance summary. A message routed to the JD generator mentions both "generate" and "job description" and none of the earlier triggers. |
| JsText.LeadingBlank | client/src/pages/Dashboard/HRDashboard.jsx:241 | The count of leading whitespace characters stops at the first non-whitespace character. |
| JsText.TrailingBlank | client/src/pages/Dashboard/HRDashboard.jsx:241 | The count of trailing whitespace characters stops at the last non-whitespace character. |
| JsText.Trim | client/src/pages/Dashboard/HRDashboard.jsx:241 | `trim` returns a substring that neither starts nor ends with whitespace. It is empty exactly when the input is all whitespace. |
| JsText.TrimRemovesOnlyBlank | client/src/pages/Dashboard/HRDashboard.jsx:241 | The input is whitespace, then the result, then whitespace: `trim` removes nothing else. Since the result is trimmed, no longer middle part has whitespace-only ends. |
| JsText.TrimIdempotent | client/src/pages/Dashboard/HRDashboard.jsx:232-241 | Trimming a trimmed string changes nothing. |
| JsText.Lower | server/src/routes/aiLiveSocket.js:106 | Lower-casing keeps the length and maps each character on its own. |
| JsText.LowerIdempotent | server/src/routes/aiLiveSocket.js:98 | Lower-casing twice is lower-casing once. |
| JsText.CountContained | server/src/routes/aiRoutes.js:107-110 | The count is at most the number of needles. It equals it exactly when every needle occurs, and it is 0 exactly when none does. |
| JsText.CountIncluded | server/src/routes/aiLiveSocket.js:109-112 | The `forEach` counter loop yields `CountContained`. |
| JsText.Contains | server/src/routes/aiRoutes.js:158 | `s.includes(sub)`: `sub` occurs at some index of `s`. |
| JsText.StartsWith | client/src/pages/Dashboard/HRDashboard.jsx:264 | `s.startsWith(p)`: `p` is a prefix of `s`. |
| JsText.EndsWith | client/src/pages/Dashboard/HRDashboard.jsx:264 | `s.endsWith(p)`: `p` is a suffix of `s`. |
| JsText.Split | client/src/pages/Dashboard/HRDashboard.jsx:230 | `split` on one character always yields at least one piece; stated further by `SplitJoin`, `SplitHeadIsPrefix` and `SplitPiecesOccur`. |
| JsText.SplitJoin | client/src/pages/Dashboard/HRDashboard.jsx:230 | Joining the pieces of a split with the separator gives back the string, so `split` loses and invents nothing. |
| JsText.SplitHeadIsPrefix | client/src/pages/Dashboard/HRDashboard.jsx:230 | The first piece of a split is a prefix of the string. |
| JsText.SplitPiecesOccur | client/src/pages/Dashboard/HRDashboard.jsx:230 | Every piece of `split` occurs in the string and holds no separator. |
| JsText.DecimalString | server/src/routes/aiRoutes.js:188 | A number prints as a non-empty string of decimal digits, without a leading zero unless it is 0, whose value read back in base ten is the number. |
| JsText.RoundHalfUp | server/src/routes/aiRoutes.js:173 | `Math.round(num / den)` is the integer within half of the ratio, with halves rounded up. |
| JsText.RoundHalfUpMonotone | server/src/routes/aiRoutes.js:173 | Rounding is monotone in the numerator. |
| JsText.RoundHalfUpExact | server/src/routes/aiLiveSocket.js:121-123 | A whole multiple rounds to itself. |
| JsText.PercentBounds | server/src/routes/aiRoutes.js:173 | The rounded percentage of `part` out of `whole` (with `0 < whole < 200`) is at most 100. It is 100 exactly when `part == whole`. |
| JdPdfLayout.CombineStep | client/src/pages/Dashboard/HRDashboard.jsx:231-236 | One `reduce` step: a blank line pushes an empty entry, another line is appended with a space to an open paragraph or starts a new one. |
| JdPdfLayout.Combined | client/src/pages/Dashboard/HRDashboard.jsx:229-237 | The `reduce` over all lines; stated by `CombinedShape`, `CombinedBreak` and `CombinedRun`. |
| JdPdfLayout.CombinedShape | client/src/pages/Dashboard/HRDashboard.jsx:229-237 | The paragraph fold yields no more entries than lines. Every entry is trimmed, and the empty entries are exactly one per blank line. |
| JdPdfLayout.CombinedBreak | client/src/pages/Dashboard/HRDashboard.jsx:232-235 | A blank line is a hard break: the fold of the lines before it, an empty entry, then the fold of the lines after it. |
| JdPdfLayout.CombinedRun | client/src/pages/Dashboard/HRDashboard.jsx:233-235 | A run of non-blank lines becomes one entry: the trimmed lines joined by single spaces. |
| JdPdfLayout.JoinTrimmedNonEmpty | client/src/pages/Dashboard/HRDashboard.jsx:233-235 | A joined paragraph whose last line is not blank is non-empty. |
| JdPdfLayout.CombineLines | client/src/pages/Dashboard/HRDashboard.jsx:229-237 | The `reduce` over the lines computes the fold `Combined`. |
| JdPdfLayout.IsHeading | client/src/pages/Dashboard/HRDashboard.jsx:248-249 | The six `/^Title/i` tests; stated by `StartsWithTitleWitness`, `HeadingStartsWithLetter` and `ClassifyIgnoresCase`. |
| JdPdfLayout.IsBulletLine | client/src/pages/Dashboard/HRDashboard.jsx:257 | `/^[-*]\s+/`: a `-` or `*` followed by whitespace. |
| JdPdfLayout.IsNumberedLine | client/src/pages/Dashboard/HRDashboard.jsx:259 | `/^\d+\.\s+/`: one or more digits, a dot and whitespace. |
| JdPdfLayout.HasInlineBold | client/src/pages/Dashboard/HRDashboard.jsx:261 | `/\*\*(.*?)\*\*/.test`: some position starts a match; stated by `FirstBold` and `FirstBoldMatch`. |
| JdPdfLayout.HeadingTitlesStartWithLetter | client/src/pages/Dashboard/HRDashboard.jsx:248-249 | Every section title starts with a letter. |
| JdPdfLayout.StartsWithTitleWitness | client/src/pages/Dashboard/HRDashboard.jsx:248-249 | A heading starts, ignoring case, with one of the six section titles. |
| JdPdfLayout.HeadingStartsWithLetter | client/src/pages/Dashboard/HRDashboard.jsx:248-249 | A heading is non-empty and starts with neither whitespace nor `*`. |
| JdPdfLayout.LeadingDigits | client/src/pages/Dashboard/HRDashboard.jsx:259 | The greedy `\d+` run stops at the first non-digit. |
| JdPdfLayout.ClosingStars | client/src/pages/Dashboard/HRDashboard.jsx:261-262 | When the lazy `.*?` finds a closing `**`, it lies at or after the scan start. |
| JdPdfLayout.ClosingStarsIsLazy | client/src/pages/Dashboard/HRDashboard.jsx:261-262 | The closing `**` found is the nearest one, with no line terminator before it. When none is found, every later `**` lies past a line terminator. |
| JdPdfLayout.Classify | client/src/pages/Dashboard/HRDashboard.jsx:240-271 | The tests run in the source's order and the first that matches wins, stated as an if-and-only-if for every kind: blank exactly for the empty entry; heading exactly when a section title starts it; bullet exactly when it is no heading and has the marker; numbered, inline bold and paragraph likewise after all earlier tests fail. A heading never starts with `*`. |
| JdPdfLayout.ClassifyIgnoresCase | client/src/pages/Dashboard/HRDashboard.jsx:248-261 | Classification does not depend on the case of the line's letters. |
| JdPdfLayout.RemoveStars | client/src/pages/Dashboard/HRDashboard.jsx:250 | `replace(/\*\*/g, "")` leaves no `**`, never lengthens the text and keeps a first character that is not `*`. Text without `**` is returned unchanged. |
| JdPdfLayout.RemoveStarsIdempotent | client/src/pages/Dashboard/HRDashboard.jsx:265 | Removing `**` twice is removing it once. |
| JdPdfLayout.TrimKeepsNoDoubleStar | client/src/pages/Dashboard/HRDashboard.jsx:250 | Trimming text free of `**` keeps it free of `**`. |
| JdPdfLayout.FirstBold | client/src/pages/Dashboard/HRDashboard.jsx:261 | The regex test finds the leftmost position where a `**…**` match starts. |
| JdPdfLayout.FirstBoldMatch | client/src/pages/Dashboard/HRDashboard.jsx:262 | The leftmost match spans at least four characters, opens and closes with `**`, and has no match before it. Its closing `**` is the nearest one after the opening, as the lazy `.*?` takes. No match means the line has no inline bold. |
| JdPdfLayout.BoldSplit | client/src/pages/Dashboard/HRDashboard.jsx:262 | `split` with a capturing pattern always yields at least one piece. |
| JdPdfLayout.BoldSplitShape | client/src/pages/Dashboard/HRDashboard.jsx:262-264 | The pieces alternate between plain text and captured matches: every odd-indexed piece starts and ends with `**`, is at least four characters long, and holds neither a `**` nor a line terminator between its markers, as the lazy capture does. |
| JdPdfLayout.BoldSplitUnfold | client/src/pages/Dashboard/HRDashboard.jsx:262 | A leftmost match at `q..e` splits the line into the text before it, the match, then the split of the rest. |
| JdPdfLayout.MatchIsBold | client/src/pages/Dashboard/HRDashboard.jsx:262 | The leftmost match is a bold piece: `**`, no `**` or line terminator, `**`. |
| JdPdfLayout.LazyGap | client/src/pages/Dashboard/HRDashboard.jsx:261-262 | Between the scan start and the closing `**` there is neither a line terminator nor a `**`. |
| JdPdfLayout.BoldSplitConcat | client/src/pages/Dashboard/HRDashboard.jsx:262 | Concatenating the pieces gives back the line, so nothing is lost or duplicated. |
| JdPdfLayout.BoldSplitPlainParts | client/src/pages/Dashboard/HRDashboard.jsx:262 | No plain (even-indexed) piece contains an inline-bold match. |
| JdPdfLayout.AddLine | client/src/pages/Dashboard/HRDashboard.jsx:202-226 | Blank text only advances the cursor (a gap). Any other text is drawn trimmed, after the "• " prefix when it is a bullet, with the style's boldness, indent, colour and size. Whatever is drawn is non-empty and trimmed. |
| JdPdfLayout.StripBulletMarker | client/src/pages/Dashboard/HRDashboard.jsx:257 | Removing the marker drops the `-` or `*` and the whitespace after it, and leaves a non-empty, trimmed rest of the line. |
| JdPdfLayout.SegmentOps | client/src/pages/Dashboard/HRDashboard.jsx:264-266 | A piece starting and ending with `**` draws exactly one operation: a gap if it is blank once the `**` are removed, else the trimmed, `**`-free text in bold black at size 11. Any other piece draws its trimmed text in regular black at size 11 when it is not blank, and nothing when it is. |
| JdPdfLayout.PartsOps | client/src/pages/Dashboard/HRDashboard.jsx:263-267 | The pieces draw at most one line each. Every line drawn is non-empty and trimmed, and bold lines have no `**` left. The order of the pieces is kept, as stated by `PartsOpsAppend`. |
| JdPdfLayout.HeadingOp | client/src/pages/Dashboard/HRDashboard.jsx:248-254 | A heading is drawn once, bold, at size 13 in section blue with no indent. Its text is the line with every `**` removed, then trimmed. |
| JdPdfLayout.BulletOp | client/src/pages/Dashboard/HRDashboard.jsx:257 | A bullet is drawn once, regular, at size 11 in black with indent 5. It is drawn as "• " followed by `StripBulletMarker` of the line: the line without its marker and all the whitespace after it. |
| JdPdfLayout.NumberedOp | client/src/pages/Dashboard/HRDashboard.jsx:259 | A numbered point is drawn once, bold, at size 11 in black with no indent, exactly as written. |
| JdPdfLayout.ParagraphOp | client/src/pages/Dashboard/HRDashboard.jsx:270 | A paragraph is drawn once, regular, at size 11 in black with no indent, exactly as written. |
| JdPdfLayout.InlineBoldOps | client/src/pages/Dashboard/HRDashboard.jsx:261-267 | Every line drawn for an inline-bold entry is non-empty and trimmed, and its bold lines have no `**` left. |
| JdPdfLayout.PartsOpsAppend | client/src/pages/Dashboard/HRDashboard.jsx:263-267 | Drawing two runs of pieces one after the other draws the first run's operations, then the second's. |
| JdPdfLayout.PartsOpsPair | client/src/pages/Dashboard/HRDashboard.jsx:263-267 | Two pieces draw the first piece's operations, then the second's. |
| JdPdfLayout.InlineBoldOpsUnfold | client/src/pages/Dashboard/HRDashboard.jsx:261-267 | Without a match the line draws as one plain piece. With a leftmost match at `q..e` it draws the text before the match, then the match, then the rest of the line. |
| JdPdfLayout.KindOps | client/src/pages/Dashboard/HRDashboard.jsx:242-270 | A blank entry only advances the cursor. Every line drawn for an entry is non-empty and trimmed. |
| JdPdfLayout.RenderEntry | client/src/pages/Dashboard/HRDashboard.jsx:240-271 | An entry that trims to nothing gives a single gap. Every line drawn is non-empty and trimmed. |
| JdPdfLayout.RenderAll | client/src/pages/Dashboard/HRDashboard.jsx:240-271 | Every line drawn for the whole document is non-empty and trimmed. |
| JdPdfLayout.RenderInlineBold | client/src/pages/Dashboard/HRDashboard.jsx:261-267 | The loop over the split pieces draws exactly `InlineBoldOps`. |
| JdPdfLayout.RenderEntries | client/src/pages/Dashboard/HRDashboard.jsx:240-271 | The loop over the combined entries draws exactly `RenderAll`, and every line it draws is non-empty and trimmed. |
| JdPdfLayout.LayoutJobDescription | client/src/pages/Dashboard/HRDashboard.jsx:229-271 | The PDF body of a cleaned description is its lines, folded into paragraphs and then drawn entry by entry. Every line drawn is non-empty and trimmed. |

## Left out

- Transport and I/O are not modelled:
  - the socket server, its CORS setup and the welcome message on connection;
  - Express, multer and file deletion;
  - logging.
  
  Events and requests are method calls, and replies are return values.
- The OpenAI follow-up generator is a parameter. Its prompt, model and error logging are not modelled.
- The chat route's replies are not modelled; only the intent is. They need Mongo counts, Gemini, OpenRouter or Hugging Face. The role extraction for the JD prompt is also left out.
- The resume text and the parser service's skills are parameters. PDF parsing, OCR and the parser service call are not modelled.
- The parser service's failure becomes an empty skill list. The catch-all 500 response is not modelled.
- Floating-point arithmetic is exact rational arithmetic. `Math.round` of a ratio is the rounding of that exact ratio. Where a double falls just beside a half, the model may round the other way.
- `toLowerCase` is modelled on ASCII letters only, so it is exact for ASCII input. Two non-ASCII characters have a lower case that contains ASCII letters: U+212A KELVIN SIGN becomes `k` and U+0130 becomes `i` followed by U+0307. These are not modelled: JavaScript would count an answer that spells a keyword's `k` with the Kelvin sign as containing it, and the model would not. Every other non-ASCII character lower-cases to non-ASCII text, which cannot create or break a match with the ASCII role names, keywords and triggers.
- A `/i` regex test is modelled as a test on the lower-cased line. A regex without the `u` flag folds case through upper-casing and never maps a non-ASCII character to an ASCII one, so this is exact for the ASCII section titles.
- Strings are sequences of Unicode characters rather than UTF-16 code units. Every length the model compares with a constant is one where characters and code units agree:
  - the words of bank questions (`w.length > 4`), which are ASCII;
  - the bullet and numbered prefixes (`IsBulletLine`, `IsNumberedLine`), which are ASCII markers, ASCII digits, and whitespace, all of which lies in the Basic Multilingual Plane;
  - the four `*` of a bold piece (`IsBoldPiece`).

  Between the markers of a bold piece, `.` without the `u` flag matches the two halves of a character outside the Basic Multilingual Plane one by one. Neither half is a line terminator, so the match covers the same text.
- `AiRoutes.NormalizeSkill`: for the skill names "constructor" and "__proto__", `SKILL_ALIASES[skill]` answers with a member every object inherits, so the source returns that function or object instead of the skill. The model returns the skill. Those values can only reach the merged skill list, which is not part of the response, and no expected skill equals them, so the matched and missing lists and the score are the same either way.
- Payloads that are not strings (a missing `role` or `text` field, a non-string message) are not modelled: every role, answer and message is a string.
- Concurrency is not modelled. The `speech_text` handler awaits the generator after it has updated the session, so another event for the same connection could interleave. The model runs each handler to completion.
- `AiLiveSocket.InterviewServer.SpeechText`: the catch block's error reply is not modelled on valid sessions, because the model never throws there. The throwing path is modelled separately in `AnswerOnInheritedRoleAsWritten`.
- `AiRoutes.PredictBestRole`: the `sort(...)[0]` is modelled as the first maximum in table order, which is what a stable sort yields. The "Unknown" fallback is unreachable because the table is never empty, so it is not modelled.
- The JD layout omits:
  - page geometry: the cursor position, page breaks, header and footer;
  - text wrapping by `splitTextToSize` and the font family;
  - the early alert on an empty description (client/src/pages/Dashboard/HRDashboard.jsx:147);
  - saving the file.

  A gap stands for the cursor advance.
- The `cleanJD` regex cleanup chain (client/src/pages/Dashboard/HRDashboard.jsx:150-161) is not modelled. The layout takes the cleaned text as its input.
- `JdPdfLayout.KindOps` and `JdPdfLayout.RenderEntry` state only the blank-gap rule and that every drawn line is non-empty and trimmed. The per-kind styles are stated on `HeadingOp`, `BulletOp`, `NumberedOp`, `ParagraphOp` and `SegmentOps`, which they dispatch to.
- `JdPdfLayout.InlineBoldOps` states only that every drawn line is non-empty and trimmed and that bold lines have no `**`. What it draws for each piece, and in which order, is stated by `InlineBoldOpsUnfold` together with `SegmentOps`.
- `JdPdfLayout.PartsOps` states only bounds and the drawability of what it draws. Its order is stated by `PartsOpsAppend` and `PartsOpsPair`, and each piece's operations by `SegmentOps`.
- `JdPdfLayout.ClosingStars` states only where its result lies. The laziness of the match is stated separately in `ClosingStarsIsLazy`.
- The dashboard's other features are not modelled: employee CRUD, the chat panel UI, charts and the rest of the React rendering.

## Findings

| source | as written | input that shows it | evidently intended | confidence | as-written member | corrected member |
|---|---|---|---|---|---|---|
| server/src/routes/aiLiveSocket.js:69-70 | `QUESTION_BANK[role?.toLowerCase()]` also answers with members that every object literal inherits. The `!questions` guard therefore lets `constructor` and `__proto__` through, and a session is installed for a role without questions. The first answer is pushed (line 100) before `questions[currentIndex].split` throws, so the session keeps one answer more than its index and the client only ever gets the error reply. | `start_interview` with role "constructor", then `speech_text` "I use React" | Only the three declared roles start an interview; any other role gets the refusal message. | high (not executed) | AiLiveSocket.InheritedRoleBreaksSession | AiLiveSocket.InterviewServer.StartInterview |
| server/src/routes/aiRoutes.js:169-170 | `role && ROLE_KEYWORDS[role]` is truthy for an inherited member. `(ROLE_KEYWORDS[role] \|\| []).map` then calls `map` on a function and throws, and the request fails with status 500. | `/resume-screening` with a file and role "Constructor" | A role the table does not declare skips the ATS block, giving score 0, empty lists and empty feedback. | high (not executed) | AiRoutes.ConstructorRoleThrows | AiRoutes.AtsFor |
