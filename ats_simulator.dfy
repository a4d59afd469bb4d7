/** The ATS (applicant tracking system) simulator: scores a resume's text by
    keyword coverage, formatting patterns and readability patterns, and
    derives suggestions and the found / missing keyword lists. */
module AtsSimulator {
  import opened JsBuiltins

  datatype ATSScoreResult = ATSScoreResult(
    overallScore: int,
    keywordScore: int,
    formattingScore: int,
    readabilityScore: int,
    suggestions: seq<Suggestion>,
    keywordsFound: seq<string>,
    keywordsMissing: seq<string>)

  /** The common resume keywords, in the order the scorer visits them. */
  const CommonKeywords: seq<string> := [
    "experience", "skills", "education", "achievements", "results",
    "leadership", "project", "team", "managed", "developed", "created",
    "implemented", "analyzed", "improved", "increased", "reduced", "led",
    "communication", "professional", "responsible", "proficient", "expertise",
    "bachelor", "master", "certified", "training", "degree", "success",
    "accomplished", "solution", "collaborate", "coordinated", "organized"
  ]

  // ---------------------------------------------------------------------------
  // The pattern tables. Each regular expression becomes a predicate on the
  // (already lower-cased) text saying whether the expression matches somewhere.

  datatype FormatPattern = SpecialCharacters | MultiplePeriods | HtmlTag | SquareBrackets

  const FormatIssues: seq<FormatPattern> := [SpecialCharacters, MultiplePeriods, HtmlTag, SquareBrackets]

  datatype ReadabilityPattern = Uppercase | Email | Phone

  const ReadabilityIssues: seq<ReadabilityPattern> := [Uppercase, Email, Phone]

  /** `\w` */
  predicate IsWordChar(c: char) {
    'a' <= c <= 'z' || 'A' <= c <= 'Z' || '0' <= c <= '9' || c == '_'
  }

  /** `\d` */
  predicate IsDigit(c: char) { '0' <= c <= '9' }

  /** `\s`: the white space and line terminators of ECMAScript. */
  predicate IsJsSpace(c: char) {
    var n := c as int;
    n == 0x09 || n == 0x0A || n == 0x0B || n == 0x0C || n == 0x0D || n == 0x20
    || n == 0xA0 || n == 0x1680 || 0x2000 <= n <= 0x200A || n == 0x2028 || n == 0x2029
    || n == 0x202F || n == 0x205F || n == 0x3000 || n == 0xFEFF
  }

  /** `[^\w\s\.\,\-\:\;\(\)\&\%\/\\]` */
  predicate IsSpecialChar(c: char) {
    !IsWordChar(c) && !IsJsSpace(c) && c !in ".,-:;()&%/\\"
  }

  predicate HasSpecialCharacter(s: string) {
    exists i :: 0 <= i < |s| && IsSpecialChar(s[i])
  }

  /** `\.{2,}` */
  predicate HasRepeatedPeriods(s: string) {
    exists i :: 0 <= i < |s| - 1 && s[i] == '.' && s[i + 1] == '.'
  }

  /** `<[^>]*>`: a '<' with a '>' somewhere after it (the first such '>' closes the match). */
  predicate HasTagLike(s: string) {
    exists i, j :: 0 <= i < j < |s| && s[i] == '<' && s[j] == '>'
  }

  /** `\[[^\]]*\]` */
  predicate HasBracketed(s: string) {
    exists i, j :: 0 <= i < j < |s| && s[i] == '[' && s[j] == ']'
  }

  /** `[A-Z]{5,}` */
  predicate HasUppercaseRun(s: string) {
    exists i :: 0 <= i <= |s| - 5 && UppercaseRunAt(s, i)
  }

  predicate UppercaseRunAt(s: string, i: int) {
    0 <= i <= |s| - 5 && forall j :: i <= j < i + 5 ==> IsAsciiUpper(s[j])
  }

  /** `\b` at position k: exactly one of the characters around k is a word character. */
  predicate IsBoundary(s: string, k: int) {
    (0 < k <= |s| && IsWordChar(s[k - 1])) != (0 <= k < |s| && IsWordChar(s[k]))
  }

  predicate DigitsAt(s: string, i: int, n: nat) {
    0 <= i && i + n <= |s| && forall j :: i <= j < i + n ==> IsDigit(s[j])
  }

  /** `\b\d{3}[-.]?\d{3}[-.]?\d{4}\b` matched from index i, with or without
      each of the two optional separators. */
  predicate PhoneAt(s: string, i: int, sep1: bool, sep2: bool) {
    var m := i + 3 + (if sep1 then 1 else 0);
    var l := m + 3 + (if sep2 then 1 else 0);
    0 <= i && l + 4 <= |s|
    && IsBoundary(s, i) && DigitsAt(s, i, 3) && (sep1 ==> s[i + 3] in "-.")
    && DigitsAt(s, m, 3) && (sep2 ==> s[m + 3] in "-.")
    && DigitsAt(s, l, 4) && IsBoundary(s, l + 4)
  }

  predicate HasPhoneNumber(s: string) {
    exists i, sep1: bool, sep2: bool :: 0 <= i < |s| && PhoneAt(s, i, sep1, sep2)
  }

  /** `pattern.test(s)` for the formatting table. */
  predicate TestFormat(p: FormatPattern, s: string) {
    match p
    case SpecialCharacters => HasSpecialCharacter(s)
    case MultiplePeriods => HasRepeatedPeriods(s)
    case HtmlTag => HasTagLike(s)
    case SquareBrackets => HasBracketed(s)
  }

  /** `pattern.test(s)` for the readability table. The e-mail expression carries
      the global flag, so its answer depends on state left by earlier calls; it
      is therefore taken from `emailTest`. */
  predicate TestReadability(p: ReadabilityPattern, s: string, emailTest: string -> bool) {
    match p
    case Uppercase => HasUppercaseRun(s)
    case Email => emailTest(s)
    case Phone => HasPhoneNumber(s)
  }

  // ---------------------------------------------------------------------------
  // What the scorer computes, as functions of the lower-cased text.

  /** `text.includes(keyword.toLowerCase())` */
  predicate KeywordHit(text: string, keyword: string) {
    Includes(text, ToLowerCase(keyword))
  }

  /** The keywords of `kws` that occur in `text`, in the order of `kws`. */
  function FoundKeywords(text: string, kws: seq<string>): seq<string>
    decreases |kws|
  {
    if kws == [] then []
    else
      var last := kws[|kws| - 1];
      FoundKeywords(text, kws[..|kws| - 1]) + if KeywordHit(text, last) then [last] else []
  }

  /** The keywords of `kws` that do not occur in `text`, in the order of `kws`. */
  function MissingKeywords(text: string, kws: seq<string>): seq<string>
    decreases |kws|
  {
    if kws == [] then []
    else
      var last := kws[|kws| - 1];
      MissingKeywords(text, kws[..|kws| - 1]) + if KeywordHit(text, last) then [] else [last]
  }

  /** How many patterns of `ps` match `s`. */
  function FormatHits(s: string, ps: seq<FormatPattern>): nat
    decreases |ps|
  {
    if ps == [] then 0
    else FormatHits(s, ps[..|ps| - 1]) + if TestFormat(ps[|ps| - 1], s) then 1 else 0
  }

  /** Whether some pattern of `ps` matches `s`. */
  predicate ReadabilityMatch(s: string, ps: seq<ReadabilityPattern>, emailTest: string -> bool)
    decreases |ps|
  {
    ps != [] && (ReadabilityMatch(s, ps[..|ps| - 1], emailTest) || TestReadability(ps[|ps| - 1], s, emailTest))
  }

  /** How many patterns of `ps` do not match `s`. */
  function ReadabilityMisses(s: string, ps: seq<ReadabilityPattern>, emailTest: string -> bool): nat
    decreases |ps|
  {
    if ps == [] then 0
    else ReadabilityMisses(s, ps[..|ps| - 1], emailTest) + if TestReadability(ps[|ps| - 1], s, emailTest) then 0 else 1
  }

  /** `Math.min(100, Math.round((found / total) * 100))`: the percentage of the
      table found, between 0 and 100; 0 only when nothing is found and 100
      only when the whole table is. */
  function KeywordScore(foundCount: nat): (r: int)
    ensures 0 <= r <= 100
    ensures r == 0 <==> foundCount == 0
    ensures r == 100 <==> foundCount >= |CommonKeywords|
  {
    Min(100, Round(foundCount * 100, |CommonKeywords|))
  }

  /** `Math.max(0, Math.round(100 - (issues / total) * 100))`: each matching
      pattern of the four costs exactly 25 points. */
  function FormattingScore(issueCount: nat): (r: int)
    ensures issueCount <= |FormatIssues| ==> r == 100 - 25 * issueCount
    ensures issueCount >= |FormatIssues| ==> r == 0
  {
    Max(0, Round(100 * |FormatIssues| - 100 * issueCount, |FormatIssues|))
  }

  /** 100 as soon as one readability pattern matches; otherwise the deduction
      for every pattern that did not match. */
  function ReadabilityScore(matches: bool, issueCount: nat): (r: int)
    ensures 0 <= r <= 100
    ensures matches ==> r == 100
    ensures !matches ==> (r == 100 <==> issueCount == 0)
    ensures !matches ==> (r == 0 <==> issueCount >= |ReadabilityIssues|)
  {
    if matches then 100
    else Max(0, Round(100 * |ReadabilityIssues| - 100 * issueCount, |ReadabilityIssues|))
  }

  /** `Math.round(keyword * 0.5 + formatting * 0.3 + readability * 0.2)`, in exact arithmetic.
      The blend lies between the smallest and the largest of the three scores. */
  function OverallScore(keyword: int, formatting: int, readability: int): (r: int)
    ensures Min(keyword, Min(formatting, readability)) <= r <= Max(keyword, Max(formatting, readability))
  {
    Round(5 * keyword + 3 * formatting + 2 * readability, 10)
  }

  /** The three suggestions the scorer can make. `MoreKeywords` carries the
      missing keywords it names as examples. */
  datatype Suggestion = MoreKeywords(examples: seq<string>) | SimplerFormatting | CleanerContactInfo

  /** The text shown for a suggestion. */
  function SuggestionText(s: Suggestion): string {
    match s
    case MoreKeywords(examples) =>
      "Consider adding more industry-relevant keywords to your resume (" + Join(examples, ", ") + ", etc.)"
    case SimplerFormatting =>
      "Simplify formatting and avoid special characters that ATS systems struggle with"
    case CleanerContactInfo =>
      "Ensure contact information is properly formatted and avoid excessive capitalization"
  }

  /** One suggestion per sub-score below 70, in the order keyword, formatting, readability. */
  function Suggestions(keyword: int, formatting: int, readability: int, missing: seq<string>): seq<Suggestion> {
    (if keyword < 70 then [MoreKeywords(Slice(missing, 5))] else [])
    + (if formatting < 70 then [SimplerFormatting] else [])
    + (if readability < 70 then [CleanerContactInfo] else [])
  }

  /** The review built from the results of the three passes. */
  function ReviewFrom(found: seq<string>, missing: seq<string>, formatIssueCount: nat,
                      readabilityMatches: bool, readabilityIssueCount: nat): ATSScoreResult
  {
    var keyword := KeywordScore(|found|);
    var formatting := FormattingScore(formatIssueCount);
    var readability := ReadabilityScore(readabilityMatches, readabilityIssueCount);
    ATSScoreResult(OverallScore(keyword, formatting, readability), keyword, formatting, readability,
                   Suggestions(keyword, formatting, readability, missing),
                   Slice(found, 10), Slice(missing, 10))
  }

  /** The whole review, as a function of the resume text. */
  function ATSReview(resumeText: string, emailTest: string -> bool): ATSScoreResult {
    var clean := ToLowerCase(resumeText);
    ReviewFrom(FoundKeywords(clean, CommonKeywords), MissingKeywords(clean, CommonKeywords),
               FormatHits(clean, FormatIssues),
               ReadabilityMatch(clean, ReadabilityIssues, emailTest),
               ReadabilityMisses(clean, ReadabilityIssues, emailTest))
  }

  // ---------------------------------------------------------------------------
  // The scorer itself. Each `forEach` pass over a table is a method of its own.

  /** The keyword pass: splits `keywords` into those `cleanText` contains and the rest. */
  method PartitionKeywords(cleanText: string, keywords: seq<string>)
    returns (keywordsFound: seq<string>, keywordsMissing: seq<string>)
    ensures keywordsFound == FoundKeywords(cleanText, keywords)
    ensures keywordsMissing == MissingKeywords(cleanText, keywords)
  {
    keywordsFound, keywordsMissing := [], [];
    var i := 0;
    while i < |keywords|
      invariant 0 <= i <= |keywords|
      invariant keywordsFound == FoundKeywords(cleanText, keywords[..i])
      invariant keywordsMissing == MissingKeywords(cleanText, keywords[..i])
    {
      var keyword := keywords[i];
      assert keywords[..i + 1][..i] == keywords[..i];
      if Includes(cleanText, ToLowerCase(keyword)) {
        keywordsFound := keywordsFound + [keyword];
      } else {
        keywordsMissing := keywordsMissing + [keyword];
      }
      i := i + 1;
    }
    assert keywords[..i] == keywords;
  }

  /** The formatting pass: counts the patterns of `issues` that match `cleanText`. */
  method CountFormatIssues(cleanText: string, issues: seq<FormatPattern>) returns (formatIssueCount: nat)
    ensures formatIssueCount == FormatHits(cleanText, issues)
  {
    formatIssueCount := 0;
    var j := 0;
    while j < |issues|
      invariant 0 <= j <= |issues|
      invariant formatIssueCount == FormatHits(cleanText, issues[..j])
    {
      assert issues[..j + 1][..j] == issues[..j];
      if TestFormat(issues[j], cleanText) {
        formatIssueCount := formatIssueCount + 1;
      }
      j := j + 1;
    }
    assert issues[..j] == issues;
  }

  /** The readability pass: notes whether some pattern of `issues` matches
      `cleanText`, and counts those that do not. */
  method CheckReadability(cleanText: string, issues: seq<ReadabilityPattern>, emailTest: string -> bool)
    returns (readabilityMatches: bool, readabilityIssueCount: nat)
    ensures readabilityMatches == ReadabilityMatch(cleanText, issues, emailTest)
    ensures readabilityIssueCount == ReadabilityMisses(cleanText, issues, emailTest)
  {
    readabilityMatches, readabilityIssueCount := false, 0;
    var k := 0;
    while k < |issues|
      invariant 0 <= k <= |issues|
      invariant readabilityMatches == ReadabilityMatch(cleanText, issues[..k], emailTest)
      invariant readabilityIssueCount == ReadabilityMisses(cleanText, issues[..k], emailTest)
    {
      assert issues[..k + 1][..k] == issues[..k];
      if TestReadability(issues[k], cleanText, emailTest) {
        readabilityMatches := true;
      } else {
        readabilityIssueCount := readabilityIssueCount + 1;
      }
      k := k + 1;
    }
    assert issues[..k] == issues;
  }

  method SimulateATSReview(resumeText: string, emailTest: string -> bool) returns (result: ATSScoreResult)
    ensures result == ATSReview(resumeText, emailTest)
  {
    var cleanText := ToLowerCase(resumeText);

    var keywordsFound, keywordsMissing := PartitionKeywords(cleanText, CommonKeywords);
    var keywordScore := Min(100, Round(|keywordsFound| * 100, |CommonKeywords|));

    var formatIssueCount := CountFormatIssues(cleanText, FormatIssues);
    var formattingScore := Max(0, Round(100 * |FormatIssues| - 100 * formatIssueCount, |FormatIssues|));

    var readabilityMatches, readabilityIssueCount := CheckReadability(cleanText, ReadabilityIssues, emailTest);
    var readabilityScore := if readabilityMatches then 100
      else Max(0, Round(100 * |ReadabilityIssues| - 100 * readabilityIssueCount, |ReadabilityIssues|));

    var overallScore := Round(5 * keywordScore + 3 * formattingScore + 2 * readabilityScore, 10);

    assert keywordScore == KeywordScore(|keywordsFound|);
    assert formattingScore == FormattingScore(formatIssueCount);
    assert readabilityScore == ReadabilityScore(readabilityMatches, readabilityIssueCount);

    var suggestions: seq<Suggestion> := [];
    if keywordScore < 70 {
      suggestions := suggestions + [MoreKeywords(Slice(keywordsMissing, 5))];
    }
    if formattingScore < 70 {
      suggestions := suggestions + [SimplerFormatting];
    }
    if readabilityScore < 70 {
      suggestions := suggestions + [CleanerContactInfo];
    }

    assert suggestions == Suggestions(keywordScore, formattingScore, readabilityScore, keywordsMissing);
    assert overallScore == OverallScore(keywordScore, formattingScore, readabilityScore);
    result := ATSScoreResult(overallScore, keywordScore, formattingScore, readabilityScore,
                             suggestions, Slice(keywordsFound, 10), Slice(keywordsMissing, 10));
    assert result == ReviewFrom(keywordsFound, keywordsMissing, formatIssueCount,
                                readabilityMatches, readabilityIssueCount);
  }
}
