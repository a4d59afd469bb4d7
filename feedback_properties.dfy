/** What the feedback generator promises across calls. */
module FeedbackProperties {
  import opened FeedbackGenerator

  /** A persona and a score bundle leave no freedom in the feedback. */
  lemma IsFeedbackDetermines(r1: FeedbackResult, r2: FeedbackResult, p: Persona, scores: ResumeScores)
    requires IsFeedback(r1, p, scores) && IsFeedback(r2, p, scores)
    ensures r1 == r2
  {
    assert r1.sections == r2.sections;
  }

  /** The resume text is accepted but never read. */
  lemma FeedbackIgnoresResumeText(text1: string, text2: string, scores: ResumeScores, persona: string)
    ensures GenerateFeedback(text1, scores, persona) == GenerateFeedback(text2, scores, persona)
  {
    IsFeedbackDetermines(GenerateFeedback(text1, scores, persona), GenerateFeedback(text2, scores, persona),
                         SelectedPersona(persona), scores);
  }

  /** A persona value outside the three known ones is answered as "hr". */
  lemma UnknownPersonaGetsHR(resumeText: string, scores: ResumeScores, persona: string)
    requires persona != "hr" && persona != "brutal" && persona != "genz"
    ensures GenerateFeedback(resumeText, scores, persona) == GenerateFeedback(resumeText, scores, "hr")
  {
  }

  /** Two scores select the same paragraph exactly when they fall in the same
      band: the selection changes at 60 and at 80 and nowhere else. */
  lemma SelectionChangesOnlyAtThresholds(p: Persona, score1: int, score2: int)
    ensures ContentFeedback(p, score1) == ContentFeedback(p, score2) <==> ScoreBand(score1) == ScoreBand(score2)
    ensures DesignFeedback(p, score1) == DesignFeedback(p, score2) <==> ScoreBand(score1) == ScoreBand(score2)
    ensures AtsFeedback(p, score1) == AtsFeedback(p, score2) <==> ScoreBand(score1) == ScoreBand(score2)
  {
  }

  /** The tips are the persona's five and do not depend on the scores. */
  lemma TipsIgnoreScores(text1: string, scores1: ResumeScores, text2: string, scores2: ResumeScores, persona: string)
    ensures GenerateFeedback(text1, scores1, persona).tips == GenerateFeedback(text2, scores2, persona).tips
    ensures |GenerateFeedback(text1, scores1, persona).tips| == 5
  {
  }

  /** Content 85, design 72, ATS 55, overall 71, brutal voice: the high-band
      content text, the middle-band design text, the low-band ATS text, and the
      middle-band summary clause. */
  lemma BrutalScenario(resumeText: string)
    ensures var r := GenerateFeedback(resumeText, ResumeScores(85, 72, 55, 71), "brutal");
            r.title == ReviewTitle(Brutal)
            && r.summary == Summary(Brutal, 71, Mid)
            && r.sections[0].content == Paragraph(Content, Brutal, High)
            && r.sections[1].content == Paragraph(Design, Brutal, Mid)
            && r.sections[2].content == Paragraph(Ats, Brutal, Low)
  {
  }

  /** Both ends of the generated range are reached: 60 on a zero draw, 99 on
      a draw of 0.975 or more. */
  lemma GeneratedScoreExtremes()
    ensures GenerateScores(0.0, 0.0, 0.0) == ResumeScores(60, 60, 60, 60)
    ensures GenerateScores(0.975, 0.975, 0.975) == ResumeScores(99, 99, 99, 99)
  {
  }
}
