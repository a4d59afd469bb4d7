# Resume vibe check: the ATS scorer and the persona feedback generator

This project models the two computations in the "resume glow-up" web app. Everything else in the app is presentation.

- **The ATS scorer** (`simulateATSReview`) is modelled in `ats_simulator.dfy` (module `AtsSimulator`). It lower-cases the resume text. It then splits a fixed 33-entry keyword table into found and missing keywords by plain substring containment. Next it counts four formatting patterns and three readability patterns and turns the counts into sub-scores. It blends the sub-scores into an overall score, adds 0 to 3 suggestions, and cuts both keyword lists to ten entries.
  - The source works by mutation: arrays pushed inside `forEach` and counters incremented. So the model is a method, `SimulateATSReview`, with one loop method per `forEach` pass: `PartitionKeywords`, `CountFormatIssues` and `CheckReadability`.
  - Each loop method is proved against a specification function over a prefix of its table. The whole method is proved equal to the function `ATSReview`.
  - `ats_properties.dfy` (module `AtsProperties`) proves what every review satisfies.
  - `js_builtins.dfy` (module `JsBuiltins`) models the JavaScript built-ins the scorer calls: `toLowerCase`, `includes`, `slice`, `join` and `Math.round`.
- **The persona feedback generator** (`generateFeedback` and its helpers) is modelled in `feedback_generator.dfy` (module `FeedbackGenerator`). It is pure code: a switch over the persona, three if/else pickers that choose a paragraph by score band, and object literals. It is modelled as functions over datatypes.
  - The pre-written paragraphs, headings, titles, summary clauses and tips are tags that name the text meant, for example `Paragraph(Design, Brutal, Mid)`. The wording of the texts is not modelled.
  - `generateScores` is a function of its three `Math.random()` draws.
  - `feedback_properties.dfy` (module `FeedbackProperties`) proves the properties that relate several calls.

The regular expressions are written as predicates on the lower-cased text:
- Special characters, repeated periods, tag-like `<…>`, bracketed `[…]` and five upper-case letters in a row are concrete predicates.
- The phone-number expression, with its `\b` word boundaries and optional separators, is also a concrete predicate.
- The e-mail expression carries the global flag, so its `test` depends on `lastIndex` state left by earlier calls. Its answer is therefore a parameter, `emailTest`, of the scorer.

Facts about the code that the model follows:
- The keyword table has 33 entries.
- On the extractor's sample text 13 of the 33 keywords occur ("degree", for one, does not). This count is not proved.
- The score generator's comment says each score is in 60–100. The code yields 60–99 (`GenerateScores`).

## Model

| member | source | states |
|---|---|---|
| JsBuiltins.ToLowerCase | src/utils/atsSimulator.ts:41 | the lower-cased text has the same length, turns each ASCII capital into its own small letter, keeps every other character, and so contains no ASCII capital |
| JsBuiltins.JoinContainsEach | src/utils/atsSimulator.ts:88 | every element of the list occurs in `join(", ")` of it |
| JsBuiltins.Includes | src/utils/atsSimulator.ts:48 | `includes` is true exactly when the keyword occurs at some index of the text as a contiguous substring |
| JsBuiltins.Slice | src/utils/atsSimulator.ts:105-106 | `slice(0, n)` returns the first min(n, length) entries, in order |
| JsBuiltins.Round | src/utils/atsSimulator.ts:82 | `Math.round(num/den)` is the integer r with r − 1/2 ≤ num/den < r + 1/2 (halves round up) |
| AtsSimulator.PartitionKeywords | src/utils/atsSimulator.ts:44-53 | the keyword loop builds exactly the found and missing lists of the table, in table order |
| AtsSimulator.CountFormatIssues | src/utils/atsSimulator.ts:58-63 | the formatting loop counts exactly the patterns that match the text |
| AtsSimulator.CheckReadability | src/utils/atsSimulator.ts:68-77 | the readability loop sets the flag exactly when some pattern matches and counts the patterns that do not |
| AtsSimulator.SimulateATSReview | src/utils/atsSimulator.ts:39-108 | the scorer returns exactly the review `ATSReview` describes: scores, suggestions and lists |
| AtsProperties.PartitionCovers | src/utils/atsSimulator.ts:47-53 | every table keyword lands in exactly one list: found iff `includes` holds, missing iff it does not; the two lengths add up to the table's |
| AtsProperties.PartitionKeepsOrder | src/utils/atsSimulator.ts:47-53 | both lists are subsequences of the table, so each keeps table order |
| AtsProperties.CommonKeywordsLowerCase | src/utils/atsSimulator.ts:15-22 | every table entry is lower case already, so `keyword.toLowerCase()` is the keyword itself |
| AtsProperties.FoundIffOccurs | src/utils/atsSimulator.ts:47-48 | over a lower-case table a keyword is found iff it is a plain substring of the text, and missing iff it is not |
| AtsProperties.ReviewKeywordPartition | src/utils/atsSimulator.ts:41-53 | for any resume, found and missing split all 33 keywords; found iff a substring of the lower-cased text, no word boundary |
| AtsProperties.ReviewKeywordLists | src/utils/atsSimulator.ts:105-106 | the reported lists are the first min(10, n) entries of the full found and missing lists, both in table order |
| AtsProperties.TeamFoundInTeamwork | src/utils/atsSimulator.ts:48 | "team" counts as found in "Teamwork": containment ignores word boundaries and case |
| AtsSimulator.KeywordScore | src/utils/atsSimulator.ts:55 | min(100, round(100·found/33)) is in [0, 100]; it is 0 iff nothing is found and 100 iff all 33 are |
| AtsProperties.FormatHitsBound | src/utils/atsSimulator.ts:58-63 | at most as many formatting patterns match as the table has |
| AtsSimulator.FormattingScore | src/utils/atsSimulator.ts:65 | with c of the 4 patterns matching, the formatting score is exactly 100 − 25·c (and 0 from c = 4 on) |
| AtsSimulator.ReadabilityScore | src/utils/atsSimulator.ts:79 | in [0, 100]; 100 on a match; without a match 100 iff no pattern is counted as an issue and 0 iff all 3 are |
| AtsSimulator.OverallScore | src/utils/atsSimulator.ts:82 | the rounded 0.5/0.3/0.2 blend lies between the smallest and the largest of the three sub-scores |
| AtsProperties.SpecialCharacterExamples | src/utils/atsSimulator.ts:26 | "a*b", "c++" and "café" contain a special character (`*`, `+`, a non-ASCII letter) |
| AtsProperties.ExemptPunctuationExamples | src/utils/atsSimulator.ts:26 | letters, digits, spaces and `& , % ( / ) : - ;` are not special characters |
| AtsProperties.RepeatedPeriodsExamples | src/utils/atsSimulator.ts:27 | "etc..." has two periods in a row; "a.b.c" does not |
| AtsProperties.TagLikeExamples | src/utils/atsSimulator.ts:28 | "<b>bold" and even the prose "x < y > z" look like a tag; "a > b < c" (no `>` after the `<`) does not |
| AtsProperties.BracketedExamples | src/utils/atsSimulator.ts:29 | "see [1]" has a bracketed part; "] [" does not |
| AtsProperties.UppercaseRunExamples | src/utils/atsSimulator.ts:34 | "the NASDAQ" has five capitals in a row; "ABCD efgh" does not |
| AtsProperties.PhoneNumberExamples | src/utils/atsSimulator.ts:36 | "555-123-4567" inside text, "5551234567" and the mixed "555.1234567" are phone numbers; no match starts right after a digit |
| AtsProperties.ElevenDigitsAreNoPhoneNumber | src/utils/atsSimulator.ts:36 | an eleven-digit run contains no phone number, because of the word boundaries |
| AtsProperties.NoMatchMissesAll | src/utils/atsSimulator.ts:71-77 | when no readability pattern matches, every pattern is counted as an issue |
| AtsProperties.UppercaseNeverMatches | src/utils/atsSimulator.ts:34-41 | the five-capitals pattern never matches, because it is tested on the lower-cased text |
| AtsProperties.ReadabilityMatchUnfold | src/utils/atsSimulator.ts:33-37 | some readability pattern matches iff the capitals, e-mail or phone pattern does |
| AtsProperties.ReviewKeywordScore | src/utils/atsSimulator.ts:55 | a review's keyword score is in [0, 100]; 0 iff no keyword occurs, 100 iff none is missing |
| AtsProperties.ReviewFormattingScore | src/utils/atsSimulator.ts:58-65 | a review's formatting score is 100 − 25·(matching patterns), one of 0, 25, 50, 75, 100 |
| AtsProperties.ReviewReadabilityScore | src/utils/atsSimulator.ts:67-79 | a review's readability score is 100 iff the e-mail or phone pattern matches and 0 otherwise, never anything in between |
| AtsProperties.ReviewOverallScore | src/utils/atsSimulator.ts:82 | the overall score is round(0.5·keyword + 0.3·formatting + 0.2·readability) of the same review's fields, in [0, 100] |
| AtsProperties.ReviewSuggestions | src/utils/atsSimulator.ts:85-97 | one fixed suggestion per sub-score below 70, in the order keyword, formatting, readability (at most 3); the keyword one names the first ≤5 reported missing keywords |
| AtsProperties.KeywordSuggestionNamesExamples | src/utils/atsSimulator.ts:86-88 | the keyword suggestion's text (`SuggestionText`) contains the example keywords joined with ", ", and so each example |
| AtsProperties.NothingFoundInEmptyText | src/utils/atsSimulator.ts:47-53 | in the empty text no non-empty keyword is found and all are missing |
| AtsProperties.NoFormatHitsInEmptyText | src/utils/atsSimulator.ts:25-30 | no formatting pattern matches the empty text |
| AtsProperties.EmptyResume | src/utils/atsSimulator.ts:39-108 | the empty resume scores keyword 0, formatting 100, readability 0, overall 30, with the keyword and contact suggestions, no found and the first ten missing keywords |
| FeedbackGenerator.GenerateFeedback | src/utils/feedbackGenerator.ts:26-40 | the result is the feedback of the selected persona ("brutal", "genz", anything else HR): 3 sections, 5 tips |
| FeedbackGenerator.GenerateHRFeedback | src/utils/feedbackGenerator.ts:44-73 | HR title, summary clause by the band of `overall`, sections content/design/ATS fed by their own scores, the five HR tips |
| FeedbackGenerator.GenerateBrutalFeedback | src/utils/feedbackGenerator.ts:77-106 | the same shape in the brutally honest voice |
| FeedbackGenerator.GenerateGenZFeedback | src/utils/feedbackGenerator.ts:110-139 | the same shape in the Gen-Z voice |
| FeedbackGenerator.ContentFeedback | src/utils/feedbackGenerator.ts:143-170 | the persona's content paragraph for ≥80 iff score ≥ 80, the middle one iff 60 ≤ score < 80, the low one iff score < 60 |
| FeedbackGenerator.DesignFeedback | src/utils/feedbackGenerator.ts:172-199 | the same band selection for the design paragraphs |
| FeedbackGenerator.AtsFeedback | src/utils/feedbackGenerator.ts:201-228 | the same band selection for the ATS paragraphs |
| FeedbackGenerator.ScoreFromDraw | src/utils/feedbackGenerator.ts:234 | floor(40·r) + 60 for a draw r in [0, 1) lies in [60, 99] |
| FeedbackGenerator.GenerateScores | src/utils/feedbackGenerator.ts:232-249 | each sub-score in [60, 99]; overall = floor(0.4c + 0.3d + 0.3a) lies between the smallest and largest sub-score |
| FeedbackProperties.IsFeedbackDetermines | src/utils/feedbackGenerator.ts:49-72 | persona and scores fix title, summary, sections and tips completely |
| FeedbackProperties.FeedbackIgnoresResumeText | src/utils/feedbackGenerator.ts:26-40 | the result does not depend on the resume text |
| FeedbackProperties.UnknownPersonaGetsHR | src/utils/feedbackGenerator.ts:38-39 | a persona outside hr, brutal, genz gives the same result as "hr" |
| FeedbackProperties.SelectionChangesOnlyAtThresholds | src/utils/feedbackGenerator.ts:143-228 | two scores pick the same paragraph iff they are in the same band, so the choice changes only at 60 and 80 |
| FeedbackProperties.TipsIgnoreScores | src/utils/feedbackGenerator.ts:66-72 | the five tips depend on the persona only, not on the scores or the text |
| FeedbackProperties.BrutalScenario | src/utils/feedbackGenerator.ts:77-106 | scores 85/72/55/71 in the brutal voice give the high content text, the middle design text, the low ATS text and the middle summary clause |
| FeedbackProperties.GeneratedScoreExtremes | src/utils/feedbackGenerator.ts:234-241 | both ends of [60, 99] are produced, so the commented upper bound 100 is never reached |

## Left out

- `extractTextFromResume` (src/utils/atsSimulator.ts:111-141) is a timer-driven mock that returns a constant text. It does no computation.
- The e-mail pattern's match is the parameter `emailTest`. Its global flag makes `test` depend on `lastIndex` from earlier calls, so the model does not claim that two reviews of the same text agree.
- ToLowerCase: lowers the ASCII letters only. JavaScript's full Unicode case mapping is not modelled; for example, one character can lower-case to two.
- The textual `issue` descriptions in the two pattern tables are not modelled: the scorer never reads them.
- The 0.5/0.3/0.2 and 0.4/0.3/0.3 weightings are computed in exact rational arithmetic, with `Math.round` rounding halves up. Binary floating point could differ from this at an exact .5 tie in the overall ATS score.
- GenerateScores: its overall score is the floor of the exact weighted sum. `generateScores` floors a binary double, which can come out one lower when the exact sum is an integer. So "between the smallest and the largest sub-score" is a fact of exact arithmetic.
- The wording of the 27 paragraphs, the 9 headings, the 3 titles, the 9 summary clauses and the 15 tips is represented by tags.
- The scorer's suggestions are tags too (`Suggestion`), so a review holds tags rather than strings. `SuggestionText` gives each tag's text verbatim, but no lemma about the whole review unfolds it.
- `Math.random` is replaced by the three draws, passed as parameters.
- The React pages and components (upload, analysis progress, result pages, score and feedback cards) and their small band/colour and MIME-type helpers are presentation.
