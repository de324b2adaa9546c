/** The two HTTP endpoints: `/analyze` passes the stripped text to the
    analyzer, `/analyze-friendly` turns its result into UI-ready wording.
    Both refuse blank text with a 400 before the classifier is consulted. The
    classifier is a parameter: `classify(t)` is what it does on `t`. */
module Api {
  import opened Common
  import opened Strings
  import opened ToneInterpreter
  import opened Cues
  import opened Analysis

  /** A response body, or the `HTTPException` raised instead. */
  datatype Response<T> = Ok(body: T) | HttpError(status: int, detail: string)

  predicate Blank(s: string) {
    forall i :: 0 <= i < |s| ==> IsSpace(s[i])
  }

  /** `POST /analyze` */
  function AnalyzeEndpoint(reqText: string, classify: string -> Classification): (r: Response<RawResult>)
    ensures r.HttpError? <==> Blank(reqText)
    ensures r.HttpError? ==> r == HttpError(400, "text is required")
    // otherwise the analyzer sees the stripped text, which is neither empty
    // nor padded, and its result (an error record included) is the body
    ensures r.Ok? ==>
      var t := Strip(reqText);
      && t != [] && !IsSpace(t[0]) && !IsSpace(t[|t| - 1])
      && r.body == Analyze(t, classify(t))
  {
    var text := Strip(reqText);
    if text == [] then HttpError(400, "text is required")
    else Ok(Analyze(text, classify(text)))
  }

  /** The friendly answer; `confidence` is shown capitalised. */
  datatype Friendly = Friendly(
    emotion: string,
    interpretation: string,
    confidence: Confidence,
    rawEmotion: string,
    rawScore: Score,
    emotions: seq<EmotionScore>,
    social: Verdict,
    highlights: seq<Cue>)

  function FriendlyConfidenceName(c: Confidence): string {
    match c
    case Low => "Low"
    case Medium => "Medium"
    case High => "High"
  }

  /** The friendly spelling of a confidence level is the interpreter's
      spelling capitalised: the two differ only in their first letter. */
  lemma FriendlyConfidenceNameCapitalised(c: Confidence)
    ensures var f, t := FriendlyConfidenceName(c), ConfidenceName(c);
      |f| == |t| > 0 && f[1..] == t[1..] && IsUpperLetter(f[0]) && t[0] == LowerChar(f[0])
  {
  }

  const UnclearScore: Score := 5500   // 0.55
  const MediumScore: Score := 6000    // 0.60
  const HighScore: Score := 8000      // 0.80

  const UnclearEmotion := "Unclear / Not sure"
  const HardToTell := "It\U{2019}s hard to tell the emotion from this message alone. Try adding one more sentence or some context."
  const MoreThanOneWay := "A message can be interpreted in more than one way. Try adding more context."

  const EmotionDisplay: map<string, string> := map[
    "joy" := "Joy / Positive",
    "anger" := "Anger / Frustration",
    "sadness" := "Sadness",
    "fear" := "Worry / Fear",
    "disgust" := "Discomfort / Dislike",
    "surprise" := "Surprise",
    "neutral" := "Neutral"
  ]

  const InterpretationText: map<string, string> := map[
    "joy" := "The sender may feel happy, relieved, excited, or supportive.",
    "anger" := "The sender may feel frustrated, annoyed, or upset. Sometimes it can also be criticism.",
    "sadness" := "The sender may feel sad, disappointed, or hurt.",
    "fear" := "The sender may feel worried, anxious, or uncertain about the situation.",
    "disgust" := "The sender may feel uncomfortable or strongly dislike the topic.",
    "surprise" := "The sender may be surprised or did not expect what happened.",
    "neutral" := "The message might be factual or emotionally neutral."
  ]

  /** `(raw.get("emotion") or "").lower()` */
  function RawLabel(emotion: Option<string>): (l: string)
    ensures emotion.None? ==> l == []
    ensures emotion.Some? ==> l == Lower(emotion.value)
  {
    if emotion.Some? then Lower(emotion.value) else ""
  }

  /** `float(raw.get("score") or 0)` */
  function RawScore(score: Option<Score>): (s: Score)
    ensures score.None? ==> s == 0
    ensures score.Some? ==> s == score.value
  {
    if score.Some? then score.value else 0
  }

  /** The three-way bucket for a score of at least 0.55. */
  function Bucket(score: Score): (c: Confidence)
    ensures c == High <==> score >= HighScore
    ensures c == Medium <==> MediumScore <= score < HighScore
    ensures c == Low <==> score < MediumScore
  {
    if score >= HighScore then High
    else if score >= MediumScore then Medium
    else Low
  }

  /** The body of `analyze_friendly` after the analyzer returned `raw`. */
  function FriendlyFrom(raw: RawResult): (r: Response<Friendly>)
    // an error record becomes a 500 carrying its message, and only then
    ensures r.HttpError? <==> raw.Error?
    ensures raw.Error? ==> r == HttpError(500, raw.message)
    ensures r.Ok? ==>
      var name := RawLabel(raw.emotion);
      var score := RawScore(raw.score);
      var f := r.body;
      // the raw label and score, and the analysis extras, pass through
      && f.rawEmotion == name && f.rawScore == score
      && f.emotions == raw.emotions && f.social == raw.social && f.highlights == raw.highlights
      // a low score, or a label with no display name, reads as unclear
      && (f.emotion == UnclearEmotion <==> score < UnclearScore || name !in EmotionDisplay)
      && (score < UnclearScore ==> f.interpretation == HardToTell && f.confidence == Low)
      && (score >= UnclearScore ==> f.confidence == Bucket(score))
      && (score >= UnclearScore && name in EmotionDisplay ==>
            f.emotion == EmotionDisplay[name] && f.interpretation == InterpretationText[name])
      && (score >= UnclearScore && name !in EmotionDisplay ==> f.interpretation == MoreThanOneWay)
  {
    match raw
    case Error(message) => HttpError(500, message)
    case Analysis(_, emotion, score, emotions, social, highlights) =>
      var name := RawLabel(emotion);
      var s := RawScore(score);
      if s < UnclearScore then
        Ok(Friendly(UnclearEmotion, HardToTell, Low, name, s, emotions, social, highlights))
      else
        Ok(Friendly(
          if name in EmotionDisplay then EmotionDisplay[name] else UnclearEmotion,
          if name in InterpretationText then InterpretationText[name] else MoreThanOneWay,
          Bucket(s), name, s, emotions, social, highlights))
  }

  /** `POST /analyze-friendly` */
  function AnalyzeFriendlyEndpoint(reqText: string, classify: string -> Classification): (r: Response<Friendly>)
    ensures Blank(reqText) ==> r == HttpError(400, "Please provide text")
    ensures !Blank(reqText) ==> r == FriendlyFrom(Analyze(Strip(reqText), classify(Strip(reqText))))
  {
    var text := Strip(reqText);
    if text == [] then HttpError(400, "Please provide text")
    else FriendlyFrom(Analyze(text, classify(text)))
  }

  /** Blank text is refused by both endpoints whatever the classifier would
      have done: the answer does not depend on it. */
  lemma BlankNeverClassified(reqText: string, f: string -> Classification, g: string -> Classification)
    requires Blank(reqText)
    ensures AnalyzeEndpoint(reqText, f) == AnalyzeEndpoint(reqText, g)
    ensures AnalyzeFriendlyEndpoint(reqText, f) == AnalyzeFriendlyEndpoint(reqText, g)
  {
  }

  /** A higher score never gets a lower friendly confidence. */
  lemma BucketMonotone(a: Score, b: Score)
    requires a <= b
    ensures Bucket(a) == High ==> Bucket(b) == High
    ensures Bucket(a) == Medium ==> Bucket(b) != Low
  {
  }

  /** Every known label has both a display name and an interpretation, and no
      display name reads as unclear. */
  lemma DisplayTablesAgree()
    ensures EmotionDisplay.Keys == InterpretationText.Keys
    ensures forall l :: l in EmotionDisplay ==> EmotionDisplay[l] != UnclearEmotion
  {
  }

  /** A classifier exception on non-blank text becomes a 500 carrying its
      message. */
  lemma FailureIsServerError(reqText: string, classify: string -> Classification)
    requires !Blank(reqText) && classify(Strip(reqText)).Failure?
    ensures AnalyzeFriendlyEndpoint(reqText, classify) == HttpError(500, classify(Strip(reqText)).message)
  {
  }

  /** An empty ranking reads as unclear with low confidence, an empty raw
      label and a raw score of 0, and an "unknown" tone. */
  lemma EmptyRankingIsUnclear(reqText: string, classify: string -> Classification)
    requires !Blank(reqText) && classify(Strip(reqText)) == Ranking([])
    ensures var r := AnalyzeFriendlyEndpoint(reqText, classify);
      && r.Ok? && r.body.emotion == UnclearEmotion && r.body.interpretation == HardToTell
      && r.body.confidence == Low && r.body.rawEmotion == [] && r.body.rawScore == 0
      && r.body.social == UnknownVerdict && r.body.emotions == []
  {
  }

  /** "High" in the friendly answer means there was a top emotion scoring at
      least 0.80; the label need not be a known one. */
  lemma HighMeansStrong(raw: RawResult)
    requires FriendlyFrom(raw).Ok? && FriendlyFrom(raw).body.confidence == High
    ensures raw.Analysis? && raw.score.Some? && raw.score.value >= HighScore
  {
  }

  /** An unrecognised label scoring 0.80 or more is shown as unclear, yet
      with "High" confidence, since the bucket looks at the score alone. */
  lemma UnknownLabelKeepsBucket(raw: RawResult)
    requires raw.Analysis? && raw.emotion.Some? && raw.score.Some?
    requires Lower(raw.emotion.value) !in EmotionDisplay && raw.score.value >= HighScore
    ensures FriendlyFrom(raw).Ok?
    ensures FriendlyFrom(raw).body.emotion == UnclearEmotion && FriendlyFrom(raw).body.confidence == High
    ensures FriendlyFrom(raw).body.interpretation == MoreThanOneWay
  {
  }
}
