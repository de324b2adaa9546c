/** `EmotionAnalyzer.analyze`: one classifier call, then the tone verdict and
    the highlights, assembled into the result record. The classifier itself is
    not modelled; its outcome on the text is an input. */
module Analysis {
  import opened Common
  import opened ToneInterpreter
  import opened Cues

  /** What the classifier produced for a text: its ranked emotions (top first,
      scores already rounded to four decimals), or the message of the
      exception it raised. */
  datatype Classification = Failure(message: string) | Ranking(emotions: seq<EmotionScore>)

  /** The dictionary `analyze` returns: either `{"error": ...}` or the full
      analysis, whose `emotion` and `score` are `None` when the ranking is
      empty. */
  datatype RawResult =
    | Error(message: string)
    | Analysis(
        text: string,
        emotion: Option<string>,
        score: Option<Score>,
        emotions: seq<EmotionScore>,
        social: Verdict,
        highlights: seq<Cue>)

  /** `analyze(text)`, given what the classifier does on `text`. */
  function Analyze(text: string, outcome: Classification): (r: RawResult)
    // an exception becomes the error record, and only an exception does
    ensures r.Error? <==> outcome.Failure?
    ensures outcome.Failure? ==> r.message == outcome.message
    ensures r.Analysis? ==>
      && r.text == text
      && r.emotions == outcome.emotions
      // the reported emotion and score are those of the top entry, if any
      && (r.emotion.Some? <==> outcome.emotions != [])
      && (r.score.Some? <==> outcome.emotions != [])
      && (outcome.emotions != [] ==>
            r.emotion.value == outcome.emotions[0].emotion && r.score.value == outcome.emotions[0].score)
      && r.social == Interpret(text, outcome.emotions)
      && r.highlights == Highlights(text)
  {
    match outcome
    case Failure(message) => Error(message)
    case Ranking(emotions) =>
      var top := if emotions == [] then None else Some(emotions[0]);
      Analysis(
        text,
        if top.Some? then Some(top.value.emotion) else None,
        if top.Some? then Some(top.value.score) else None,
        emotions,
        Interpret(text, emotions),
        Highlights(text))
  }

  /** The tone is "unknown" exactly when there is no top emotion to report. */
  lemma UnknownToneIffNoTop(text: string, outcome: Classification)
    requires outcome.Ranking?
    ensures Analyze(text, outcome).social.tone == Unknown <==> Analyze(text, outcome).emotion.None?
  {
  }

  /** When the verdict lists alternatives, the first is the reported emotion
      and score, and the second is within 0.12 of it. */
  lemma AlternativesLeadWithTop(text: string, outcome: Classification)
    requires outcome.Ranking? && Interpret(text, outcome.emotions).alternatives.Some?
    ensures var r := Analyze(text, outcome);
      && r.emotion.Some? && r.score.Some?
      && r.social.alternatives.value[0] == Alternative(r.emotion.value, r.score.value)
      && Distance(r.score.value, r.social.alternatives.value[1].score) < AmbiguityMargin
  {
  }
}
