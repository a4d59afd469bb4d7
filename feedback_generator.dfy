/** The persona feedback generator: for a score bundle and a persona it picks
    pre-written paragraphs by score band and assembles them, with the
    persona's title, summary, section headings and tips, into one result.
    The pre-written texts are represented by tags naming which text is meant. */
module FeedbackGenerator {

  datatype ResumeScores = ResumeScores(content: int, design: int, ats: int, overall: int)

  /** The three voices: HR professional, brutally honest friend, Gen-Z. */
  datatype Persona = HR | Brutal | GenZ

  datatype Topic = Content | Design | Ats

  /** The score bands the texts are written for: 80 and above, 60 to 79, below 60. */
  datatype Band = High | Mid | Low

  /** One of the 27 pre-written paragraphs. */
  datatype Paragraph = Paragraph(topic: Topic, persona: Persona, band: Band)

  /** One of the nine fixed section headings. */
  datatype Heading = Heading(persona: Persona, topic: Topic)

  datatype Section = Section(title: Heading, content: Paragraph)

  /** The fixed title of a persona's review. */
  datatype Title = ReviewTitle(persona: Persona)

  /** A persona's summary template, filled with the overall score and the
      clause written for that score's band. */
  datatype Summary = Summary(persona: Persona, overall: int, clause: Band)

  /** The persona's tip number `index` (0 to 4). */
  datatype Tip = Tip(persona: Persona, index: nat)

  datatype FeedbackResult = FeedbackResult(title: Title, summary: Summary, sections: seq<Section>, tips: seq<Tip>)

  // ---------------------------------------------------------------------------
  // Reference definitions

  /** The band a score falls in. */
  function ScoreBand(score: int): Band {
    if score >= 80 then High else if score >= 60 then Mid else Low
  }

  /** The persona a `generateFeedback` call dispatches to: anything that is not
      "brutal" or "genz" gets the HR professional. */
  function SelectedPersona(persona: string): Persona {
    if persona == "brutal" then Brutal else if persona == "genz" then GenZ else HR
  }

  function PersonaTips(p: Persona): seq<Tip> {
    seq(5, i requires 0 <= i < 5 => Tip(p, i))
  }

  /** `r` is the feedback of persona `p` on `scores`: the persona's title, its
      summary with the clause of the overall score's band, three sections
      (content, design, ATS) whose paragraphs are chosen by the band of the
      matching score, and the persona's five tips. */
  predicate IsFeedback(r: FeedbackResult, p: Persona, scores: ResumeScores) {
    r.title == ReviewTitle(p)
    && r.summary == Summary(p, scores.overall, ScoreBand(scores.overall))
    && |r.sections| == 3
    && r.sections[0] == Section(Heading(p, Content), Paragraph(Content, p, ScoreBand(scores.content)))
    && r.sections[1] == Section(Heading(p, Design), Paragraph(Design, p, ScoreBand(scores.design)))
    && r.sections[2] == Section(Heading(p, Ats), Paragraph(Ats, p, ScoreBand(scores.ats)))
    && r.tips == PersonaTips(p)
  }

  // ---------------------------------------------------------------------------
  // The generator

  function GenerateFeedback(resumeText: string, scores: ResumeScores, persona: string): (r: FeedbackResult)
    ensures IsFeedback(r, SelectedPersona(persona), scores)
    ensures |r.sections| == 3 && |r.tips| == 5
  {
    if persona == "hr" then GenerateHRFeedback(resumeText, scores)
    else if persona == "brutal" then GenerateBrutalFeedback(resumeText, scores)
    else if persona == "genz" then GenerateGenZFeedback(resumeText, scores)
    else GenerateHRFeedback(resumeText, scores)
  }

  function GenerateHRFeedback(resumeText: string, scores: ResumeScores): (r: FeedbackResult)
    ensures IsFeedback(r, HR, scores)
  {
    var contentFeedback := ContentFeedback(HR, scores.content);
    var designFeedback := DesignFeedback(HR, scores.design);
    var atsFeedback := AtsFeedback(HR, scores.ats);
    FeedbackResult(
      ReviewTitle(HR),
      Summary(HR, scores.overall, if scores.overall >= 80 then High else if scores.overall >= 60 then Mid else Low),
      [Section(Heading(HR, Content), contentFeedback),
       Section(Heading(HR, Design), designFeedback),
       Section(Heading(HR, Ats), atsFeedback)],
      [Tip(HR, 0), Tip(HR, 1), Tip(HR, 2), Tip(HR, 3), Tip(HR, 4)])
  }

  function GenerateBrutalFeedback(resumeText: string, scores: ResumeScores): (r: FeedbackResult)
    ensures IsFeedback(r, Brutal, scores)
  {
    var contentFeedback := ContentFeedback(Brutal, scores.content);
    var designFeedback := DesignFeedback(Brutal, scores.design);
    var atsFeedback := AtsFeedback(Brutal, scores.ats);
    FeedbackResult(
      ReviewTitle(Brutal),
      Summary(Brutal, scores.overall, if scores.overall >= 80 then High else if scores.overall >= 60 then Mid else Low),
      [Section(Heading(Brutal, Content), contentFeedback),
       Section(Heading(Brutal, Design), designFeedback),
       Section(Heading(Brutal, Ats), atsFeedback)],
      [Tip(Brutal, 0), Tip(Brutal, 1), Tip(Brutal, 2), Tip(Brutal, 3), Tip(Brutal, 4)])
  }

  function GenerateGenZFeedback(resumeText: string, scores: ResumeScores): (r: FeedbackResult)
    ensures IsFeedback(r, GenZ, scores)
  {
    var contentFeedback := ContentFeedback(GenZ, scores.content);
    var designFeedback := DesignFeedback(GenZ, scores.design);
    var atsFeedback := AtsFeedback(GenZ, scores.ats);
    FeedbackResult(
      ReviewTitle(GenZ),
      Summary(GenZ, scores.overall, if scores.overall >= 80 then High else if scores.overall >= 60 then Mid else Low),
      [Section(Heading(GenZ, Content), contentFeedback),
       Section(Heading(GenZ, Design), designFeedback),
       Section(Heading(GenZ, Ats), atsFeedback)],
      [Tip(GenZ, 0), Tip(GenZ, 1), Tip(GenZ, 2), Tip(GenZ, 3), Tip(GenZ, 4)])
  }

  // ---------------------------------------------------------------------------
  // The paragraph pickers: each persona has a text for 80 and above, one for
  // 60 to 79 and one below 60.

  function ContentFeedback(persona: Persona, score: int): (r: Paragraph)
    ensures r.topic == Content && r.persona == persona
    ensures r.band == High <==> score >= 80
    ensures r.band == Mid <==> 60 <= score < 80
    ensures r.band == Low <==> score < 60
  {
    match persona
    case HR =>
      if score >= 80 then Paragraph(Content, HR, High)
      else if score >= 60 then Paragraph(Content, HR, Mid)
      else Paragraph(Content, HR, Low)
    case Brutal =>
      if score >= 80 then Paragraph(Content, Brutal, High)
      else if score >= 60 then Paragraph(Content, Brutal, Mid)
      else Paragraph(Content, Brutal, Low)
    case GenZ =>
      if score >= 80 then Paragraph(Content, GenZ, High)
      else if score >= 60 then Paragraph(Content, GenZ, Mid)
      else Paragraph(Content, GenZ, Low)
  }

  function DesignFeedback(persona: Persona, score: int): (r: Paragraph)
    ensures r.topic == Design && r.persona == persona
    ensures r.band == High <==> score >= 80
    ensures r.band == Mid <==> 60 <= score < 80
    ensures r.band == Low <==> score < 60
  {
    match persona
    case HR =>
      if score >= 80 then Paragraph(Design, HR, High)
      else if score >= 60 then Paragraph(Design, HR, Mid)
      else Paragraph(Design, HR, Low)
    case Brutal =>
      if score >= 80 then Paragraph(Design, Brutal, High)
      else if score >= 60 then Paragraph(Design, Brutal, Mid)
      else Paragraph(Design, Brutal, Low)
    case GenZ =>
      if score >= 80 then Paragraph(Design, GenZ, High)
      else if score >= 60 then Paragraph(Design, GenZ, Mid)
      else Paragraph(Design, GenZ, Low)
  }

  function AtsFeedback(persona: Persona, score: int): (r: Paragraph)
    ensures r.topic == Ats && r.persona == persona
    ensures r.band == High <==> score >= 80
    ensures r.band == Mid <==> 60 <= score < 80
    ensures r.band == Low <==> score < 60
  {
    match persona
    case HR =>
      if score >= 80 then Paragraph(Ats, HR, High)
      else if score >= 60 then Paragraph(Ats, HR, Mid)
      else Paragraph(Ats, HR, Low)
    case Brutal =>
      if score >= 80 then Paragraph(Ats, Brutal, High)
      else if score >= 60 then Paragraph(Ats, Brutal, Mid)
      else Paragraph(Ats, Brutal, Low)
    case GenZ =>
      if score >= 80 then Paragraph(Ats, GenZ, High)
      else if score >= 60 then Paragraph(Ats, GenZ, Mid)
      else Paragraph(Ats, GenZ, Low)
  }

  // ---------------------------------------------------------------------------
  // Score generation, with the three `Math.random()` draws as parameters

  function Min3(a: int, b: int, c: int): int {
    if a <= b && a <= c then a else if b <= c then b else c
  }

  function Max3(a: int, b: int, c: int): int {
    if a >= b && a >= c then a else if b >= c then b else c
  }

  /** `Math.floor(draw * 40) + 60` */
  function ScoreFromDraw(draw: real): (s: int)
    requires 0.0 <= draw < 1.0
    ensures 60 <= s <= 99
  {
    (draw * 40.0).Floor + 60
  }

  /** Each sub-score lies in [60, 99] (100 is never drawn), and the overall
      score, `Math.floor(0.4 * content + 0.3 * design + 0.3 * ats)` in exact
      arithmetic, lies between the smallest and the largest of the three. */
  function GenerateScores(contentDraw: real, designDraw: real, atsDraw: real): (r: ResumeScores)
    requires 0.0 <= contentDraw < 1.0 && 0.0 <= designDraw < 1.0 && 0.0 <= atsDraw < 1.0
    ensures 60 <= r.content <= 99 && 60 <= r.design <= 99 && 60 <= r.ats <= 99
    ensures Min3(r.content, r.design, r.ats) <= r.overall <= Max3(r.content, r.design, r.ats)
  {
    var content := ScoreFromDraw(contentDraw);
    var design := ScoreFromDraw(designDraw);
    var ats := ScoreFromDraw(atsDraw);
    var overall := (4 * content + 3 * design + 3 * ats) / 10;
    ResumeScores(content, design, ats, overall)
  }
}
