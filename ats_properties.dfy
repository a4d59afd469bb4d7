/** What the ATS simulator promises about every review it produces. */
module AtsProperties {
  import opened JsBuiltins
  import opened AtsSimulator

  /** `a` is `b` with some entries left out, the rest kept in order. */
  ghost predicate IsSubsequence<T>(a: seq<T>, b: seq<T>)
    decreases |b|
  {
    if a == [] then true
    else if b == [] then false
    else (a[|a| - 1] == b[|b| - 1] && IsSubsequence(a[..|a| - 1], b[..|b| - 1]))
         || IsSubsequence(a, b[..|b| - 1])
  }

  ghost function Clean(resumeText: string): string { ToLowerCase(resumeText) }

  /** The found and missing lists before they are cut to ten entries. */
  ghost function AllFound(resumeText: string): seq<string> { FoundKeywords(Clean(resumeText), CommonKeywords) }

  ghost function AllMissing(resumeText: string): seq<string> { MissingKeywords(Clean(resumeText), CommonKeywords) }

  // ---------------------------------------------------------------------------
  // The keyword pass

  /** Every keyword lands in exactly one of the two lists, and the two lists
      together are as long as the table. */
  lemma {:induction false} PartitionCovers(text: string, kws: seq<string>)
    ensures |FoundKeywords(text, kws)| + |MissingKeywords(text, kws)| == |kws|
    ensures forall k :: k in FoundKeywords(text, kws) <==> k in kws && KeywordHit(text, k)
    ensures forall k :: k in MissingKeywords(text, kws) <==> k in kws && !KeywordHit(text, k)
    decreases |kws|
  {
    if kws != [] {
      var init := kws[..|kws| - 1];
      PartitionCovers(text, init);
      assert kws == init + [kws[|kws| - 1]];
    }
  }

  /** Both lists keep the order of the table. */
  lemma {:induction false} PartitionKeepsOrder(text: string, kws: seq<string>)
    ensures IsSubsequence(FoundKeywords(text, kws), kws)
    ensures IsSubsequence(MissingKeywords(text, kws), kws)
    decreases |kws|
  {
    if kws != [] {
      var init, last := kws[..|kws| - 1], kws[|kws| - 1];
      PartitionKeepsOrder(text, init);
      var found, missing := FoundKeywords(text, kws), MissingKeywords(text, kws);
      if KeywordHit(text, last) {
        assert found[..|found| - 1] == FoundKeywords(text, init);
        assert missing == MissingKeywords(text, init);
      } else {
        assert found == FoundKeywords(text, init);
        assert missing[..|missing| - 1] == MissingKeywords(text, init);
      }
    }
  }

  /** Every entry of the keyword table is already lower case. */
  lemma CommonKeywordsLowerCase()
    ensures forall i :: 0 <= i < |CommonKeywords| ==> NoAsciiUpper(CommonKeywords[i])
  {
    FirstKeywordsLowerCase();
    MiddleKeywordsLowerCase();
    LastKeywordsLowerCase();
  }

  lemma FirstKeywordsLowerCase()
    ensures forall i :: 0 <= i < 11 ==> NoAsciiUpper(CommonKeywords[i])
  {
  }

  lemma MiddleKeywordsLowerCase()
    ensures forall i :: 11 <= i < 22 ==> NoAsciiUpper(CommonKeywords[i])
  {
  }

  lemma LastKeywordsLowerCase()
    ensures forall i :: 22 <= i < 33 ==> NoAsciiUpper(CommonKeywords[i])
  {
  }

  /** Over a lower-case table, a keyword is found exactly when it occurs in the
      text as a plain substring. */
  lemma FoundIffOccurs(text: string, kws: seq<string>)
    requires forall i :: 0 <= i < |kws| ==> NoAsciiUpper(kws[i])
    ensures forall k :: k in FoundKeywords(text, kws) <==> k in kws && exists i :: OccursAt(text, k, i)
    ensures forall k :: k in MissingKeywords(text, kws) <==> k in kws && !exists i :: OccursAt(text, k, i)
  {
    PartitionCovers(text, kws);
    forall k | k in kws
      ensures KeywordHit(text, k) <==> exists i :: OccursAt(text, k, i)
    {
      var j :| 0 <= j < |kws| && kws[j] == k;
      LowerCaseIdentity(k);
    }
  }

  /** The keyword pass on a resume: every keyword of the 33-entry table lands
      in exactly one list, found exactly when it occurs in the lower-cased text
      as a plain substring. */
  lemma ReviewKeywordPartition(resumeText: string)
    ensures |AllFound(resumeText)| + |AllMissing(resumeText)| == |CommonKeywords| == 33
    ensures forall k :: k in AllFound(resumeText) <==> k in CommonKeywords && exists i :: OccursAt(Clean(resumeText), k, i)
    ensures forall k :: k in AllMissing(resumeText) <==> k in CommonKeywords && !exists i :: OccursAt(Clean(resumeText), k, i)
  {
    PartitionCovers(Clean(resumeText), CommonKeywords);
    CommonKeywordsLowerCase();
    FoundIffOccurs(Clean(resumeText), CommonKeywords);
  }

  /** The review reports the first ten found and the first ten missing
      keywords, each list in table order. */
  lemma ReviewKeywordLists(resumeText: string, emailTest: string -> bool)
    ensures IsSubsequence(AllFound(resumeText), CommonKeywords)
    ensures IsSubsequence(AllMissing(resumeText), CommonKeywords)
    ensures ATSReview(resumeText, emailTest).keywordsFound == AllFound(resumeText)[..Min(10, |AllFound(resumeText)|)]
    ensures ATSReview(resumeText, emailTest).keywordsMissing == AllMissing(resumeText)[..Min(10, |AllMissing(resumeText)|)]
  {
    PartitionKeepsOrder(Clean(resumeText), CommonKeywords);
  }

  /** No word boundary is checked: "team" is found inside "Teamwork". */
  lemma TeamFoundInTeamwork()
    ensures "team" in AllFound("Teamwork")
  {
    assert Clean("Teamwork") == "teamwork";
    assert OccursAt("teamwork", "team", 0);
    CommonKeywordsLowerCase();
    assert "team" == CommonKeywords[7];
    FoundIffOccurs("teamwork", CommonKeywords);
  }

  // ---------------------------------------------------------------------------
  // The patterns on sample texts

  /** Anything outside word characters, white space and `. , - : ; ( ) & % / \`
      is special: an asterisk, a plus, a letter with a diacritic. */
  lemma SpecialCharacterExamples()
    ensures HasSpecialCharacter("a*b")
    ensures HasSpecialCharacter("c++")
    ensures HasSpecialCharacter("caf\U{e9}")
  {
    assert IsSpecialChar("a*b"[1]);
    assert IsSpecialChar("c++"[1]);
    assert IsSpecialChar("caf\U{e9}"[3]);
  }

  /** The punctuation the pattern exempts is not special. */
  lemma ExemptPunctuationExamples()
    ensures !HasSpecialCharacter("q&a, 5% (b/c): d-e;")
  {
    var t := "q&a, 5% (b/c): d-e;";
    forall i | 0 <= i < |t|
      ensures !IsSpecialChar(t[i])
    {
    }
  }

  lemma RepeatedPeriodsExamples()
    ensures HasRepeatedPeriods("etc...")
    ensures !HasRepeatedPeriods("a.b.c")
  {
    assert "etc..."[3] == '.' && "etc..."[4] == '.';
  }

  /** A '<' followed anywhere later by a '>' is taken for a tag, even in prose. */
  lemma TagLikeExamples()
    ensures HasTagLike("<b>bold")
    ensures HasTagLike("x < y > z")
    ensures !HasTagLike("a > b < c")
  {
    assert "<b>bold"[0] == '<' && "<b>bold"[2] == '>';
    assert "x < y > z"[2] == '<' && "x < y > z"[6] == '>';
  }

  lemma BracketedExamples()
    ensures HasBracketed("see [1]")
    ensures !HasBracketed("] [")
  {
    assert "see [1]"[4] == '[' && "see [1]"[6] == ']';
  }

  lemma UppercaseRunExamples()
    ensures HasUppercaseRun("the NASDAQ")
    ensures !HasUppercaseRun("ABCD efgh")
  {
    assert UppercaseRunAt("the NASDAQ", 4);
    var t := "ABCD efgh";
    forall i | 0 <= i <= |t| - 5
      ensures !UppercaseRunAt(t, i)
    {
      assert !IsAsciiUpper(t[4]);
    }
  }

  /** Ten digits, optionally split 3-3-4 by '-' or '.', standing alone
      between word boundaries. */
  lemma PhoneNumberExamples()
    ensures HasPhoneNumber("x 555-123-4567 y")
    ensures HasPhoneNumber("5551234567")
    ensures HasPhoneNumber("555.1234567")
    ensures !PhoneAt("15551234567", 1, false, false)
  {
    assert PhoneAt("x 555-123-4567 y", 2, true, true);
    assert PhoneAt("5551234567", 0, false, false);
    assert PhoneAt("555.1234567", 0, true, false);
    assert !IsBoundary("15551234567", 1);
  }

  /** An eleven-digit run holds no phone number: no ten of its digits stand
      between two word boundaries. */
  lemma ElevenDigitsAreNoPhoneNumber()
    ensures !HasPhoneNumber("15551234567")
  {
    var t := "15551234567";
    assert forall k :: 0 <= k < |t| ==> IsDigit(t[k]) && IsWordChar(t[k]);
    forall i, sep1: bool, sep2: bool | 0 <= i < |t|
      ensures !PhoneAt(t, i, sep1, sep2)
    {
      if 0 < i {
        assert !IsBoundary(t, i);
      } else if !sep1 && !sep2 {
        assert !IsBoundary(t, 10);
      }
    }
  }

  // ---------------------------------------------------------------------------
  // The sub-scores

  lemma {:induction false} FormatHitsBound(s: string, ps: seq<FormatPattern>)
    ensures FormatHits(s, ps) <= |ps|
    decreases |ps|
  {
    if ps != [] {
      FormatHitsBound(s, ps[..|ps| - 1]);
    }
  }

  /** When no readability pattern matches, every pattern counts as missed. */
  lemma {:induction false} NoMatchMissesAll(s: string, ps: seq<ReadabilityPattern>, emailTest: string -> bool)
    ensures !ReadabilityMatch(s, ps, emailTest) ==> ReadabilityMisses(s, ps, emailTest) == |ps|
    decreases |ps|
  {
    if ps != [] {
      NoMatchMissesAll(s, ps[..|ps| - 1], emailTest);
    }
  }

  /** The upper-case pattern never fires: the text it is tested on has been lower-cased. */
  lemma UppercaseNeverMatches(resumeText: string)
    ensures !HasUppercaseRun(Clean(resumeText))
  {
    var s := Clean(resumeText);
    forall i | 0 <= i <= |s| - 5
      ensures !UppercaseRunAt(s, i)
    {
      assert !IsAsciiUpper(s[i]);
    }
  }

  /** The keyword score of a review lies in [0, 100]; it is 0 exactly when no
      keyword occurs and 100 exactly when every keyword does. */
  lemma ReviewKeywordScore(resumeText: string, emailTest: string -> bool)
    ensures 0 <= ATSReview(resumeText, emailTest).keywordScore <= 100
    ensures ATSReview(resumeText, emailTest).keywordScore == 0 <==> AllFound(resumeText) == []
    ensures ATSReview(resumeText, emailTest).keywordScore == 100 <==> AllMissing(resumeText) == []
  {
    PartitionCovers(Clean(resumeText), CommonKeywords);
  }

  /** The formatting score of a review loses 25 points per matching pattern,
      so it is one of 0, 25, 50, 75 and 100. */
  lemma ReviewFormattingScore(resumeText: string, emailTest: string -> bool)
    ensures ATSReview(resumeText, emailTest).formattingScore == 100 - 25 * FormatHits(Clean(resumeText), FormatIssues)
    ensures ATSReview(resumeText, emailTest).formattingScore in {0, 25, 50, 75, 100}
  {
    var hits := FormatHits(Clean(resumeText), FormatIssues);
    FormatHitsBound(Clean(resumeText), FormatIssues);
    var score := ATSReview(resumeText, emailTest).formattingScore;
    assert score == 100 - 25 * hits;
    assert hits == 0 || hits == 1 || hits == 2 || hits == 3 || hits == 4;
  }

  /** Whether a readability pattern matches the lower-cased text, pattern by pattern. */
  lemma ReadabilityMatchUnfold(s: string, emailTest: string -> bool)
    ensures ReadabilityMatch(s, ReadabilityIssues, emailTest) <==> HasUppercaseRun(s) || emailTest(s) || HasPhoneNumber(s)
  {
    var ps := ReadabilityIssues;
    assert ps[..|ps| - 1] == [Uppercase, Email];
    assert [Uppercase, Email][..1] == [Uppercase];
    assert [Uppercase][..0] == [];
    assert ReadabilityMatch(s, [Uppercase], emailTest) == HasUppercaseRun(s);
    assert ReadabilityMatch(s, [Uppercase, Email], emailTest) == (HasUppercaseRun(s) || emailTest(s));
  }

  /** The readability score of a review is 100 exactly when the e-mail or the
      phone pattern matches, and 0 otherwise: a match gives full marks, and
      without one all three patterns count as issues. */
  lemma ReviewReadabilityScore(resumeText: string, emailTest: string -> bool)
    ensures ATSReview(resumeText, emailTest).readabilityScore
            == if emailTest(Clean(resumeText)) || HasPhoneNumber(Clean(resumeText)) then 100 else 0
  {
    var s := Clean(resumeText);
    NoMatchMissesAll(s, ReadabilityIssues, emailTest);
    UppercaseNeverMatches(resumeText);
    ReadabilityMatchUnfold(s, emailTest);
  }

  /** The overall score of a review is the rounded 0.5 / 0.3 / 0.2 blend of its
      other three scores, and lies in [0, 100]. */
  lemma ReviewOverallScore(resumeText: string, emailTest: string -> bool)
    ensures var r := ATSReview(resumeText, emailTest);
            r.overallScore == Round(5 * r.keywordScore + 3 * r.formattingScore + 2 * r.readabilityScore, 10)
    ensures 0 <= ATSReview(resumeText, emailTest).overallScore <= 100
  {
    ReviewKeywordScore(resumeText, emailTest);
    ReviewFormattingScore(resumeText, emailTest);
    ReviewReadabilityScore(resumeText, emailTest);
  }

  // ---------------------------------------------------------------------------
  // The suggestions

  /** The suggestions, stated in the review's own fields: one per sub-score
      below 70, in the order keyword, formatting, readability; the keyword
      suggestion names the first (at most five) reported missing keywords. */
  lemma ReviewSuggestions(resumeText: string, emailTest: string -> bool)
    ensures var r := ATSReview(resumeText, emailTest);
            r.suggestions == (if r.keywordScore < 70 then [MoreKeywords(Slice(r.keywordsMissing, 5))] else [])
                             + (if r.formattingScore < 70 then [SimplerFormatting] else [])
                             + (if r.readabilityScore < 70 then [CleanerContactInfo] else [])
    ensures |ATSReview(resumeText, emailTest).suggestions| <= 3
  {
    var missing := AllMissing(resumeText);
    assert Slice(Slice(missing, 10), 5) == Slice(missing, 5);
  }

  /** The keyword suggestion's text lists the example keywords, comma-separated,
      so each example appears in it. */
  lemma KeywordSuggestionNamesExamples(examples: seq<string>)
    ensures Includes(SuggestionText(MoreKeywords(examples)), Join(examples, ", "))
    ensures forall i :: 0 <= i < |examples| ==> Includes(SuggestionText(MoreKeywords(examples)), examples[i])
  {
    var head := "Consider adding more industry-relevant keywords to your resume (";
    var joined := Join(examples, ", ");
    var text := SuggestionText(MoreKeywords(examples));
    assert text == head + joined + ", etc.)";
    assert text[|head|..|head| + |joined|] == joined;
    assert OccursAt(text, joined, |head|);
    JoinContainsEach(examples, ", ");
    forall i | 0 <= i < |examples|
      ensures Includes(text, examples[i])
    {
      var k :| OccursAt(joined, examples[i], k);
      OccursAtNested(text, joined, examples[i], |head|, k);
    }
  }

  // ---------------------------------------------------------------------------
  // A worked case

  lemma {:induction false} NothingFoundInEmptyText(kws: seq<string>)
    requires forall i :: 0 <= i < |kws| ==> kws[i] != []
    ensures FoundKeywords("", kws) == []
    ensures MissingKeywords("", kws) == kws
    decreases |kws|
  {
    if kws != [] {
      var init, last := kws[..|kws| - 1], kws[|kws| - 1];
      NothingFoundInEmptyText(init);
      assert |ToLowerCase(last)| > 0;
      assert !KeywordHit("", last);
      assert kws == init + [last];
    }
  }

  lemma {:induction false} NoFormatHitsInEmptyText(ps: seq<FormatPattern>)
    ensures FormatHits("", ps) == 0
    decreases |ps|
  {
    if ps != [] {
      NoFormatHitsInEmptyText(ps[..|ps| - 1]);
    }
  }

  /** The empty resume: no keyword, no formatting issue, and (the e-mail
      expression not matching the empty text) no readability pattern. */
  lemma EmptyResume(emailTest: string -> bool)
    requires !emailTest("")
    ensures ATSReview("", emailTest)
            == ATSScoreResult(30, 0, 100, 0, [MoreKeywords(CommonKeywords[..5]), CleanerContactInfo], [], CommonKeywords[..10])
  {
    assert Clean("") == "";
    assert forall i :: 0 <= i < |CommonKeywords| ==> CommonKeywords[i] != [];
    NothingFoundInEmptyText(CommonKeywords);
    NoFormatHitsInEmptyText(FormatIssues);
    ReadabilityMatchUnfold("", emailTest);
    NoMatchMissesAll("", ReadabilityIssues, emailTest);
    assert ATSReview("", emailTest) == ReviewFrom([], CommonKeywords, 0, false, |ReadabilityIssues|);
    EmptyPassesReview();
  }

  /** The review built when no keyword is found, no formatting pattern matches
      and no readability pattern matches. */
  lemma EmptyPassesReview()
    ensures ReviewFrom([], CommonKeywords, 0, false, |ReadabilityIssues|)
            == ATSScoreResult(30, 0, 100, 0, [MoreKeywords(CommonKeywords[..5]), CleanerContactInfo], [], CommonKeywords[..10])
  {
    assert KeywordScore(0) == 0;
    assert FormattingScore(0) == 100;
    assert ReadabilityScore(false, |ReadabilityIssues|) == 0;
    RoundUnique(300, 10, 30);
    assert OverallScore(0, 100, 0) == 30;
    assert Slice(CommonKeywords, 5) == CommonKeywords[..5];
  }
}
