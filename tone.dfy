/** The tone interpreter (`EmotionAnalyzer._interpret_social`): turns the
    classifier's ranked emotions, plus one emoji/wording check on the raw
    text, into a social-tone verdict. */
module ToneInterpreter {
  import opened Common
  import opened Strings

  /** The closed set of tones the interpreter can report. */
  datatype Tone =
    | Unknown
    | FriendlyPositive
    | JokingTeasing
    | CriticalAngry
    | HurtSad
    | WorriedAnxious
    | SurprisedConfused
    | NeutralUnclear

  /** The wire value of a tone, as it appears in the `"tone"` field. */
  function ToneName(t: Tone): string {
    match t
    case Unknown => "unknown"
    case FriendlyPositive => "friendly_positive"
    case JokingTeasing => "joking_teasing"
    case CriticalAngry => "critical_angry"
    case HurtSad => "hurt_sad"
    case WorriedAnxious => "worried_anxious"
    case SurprisedConfused => "surprised_confused"
    case NeutralUnclear => "neutral_unclear"
  }

  /** Different tones never share a wire value. */
  lemma ToneNamesDistinct()
    ensures forall a: Tone, b: Tone :: ToneName(a) == ToneName(b) ==> a == b
  {
  }

  datatype Confidence = Low | Medium | High

  /** The interpreter's spelling of a confidence level. */
  function ConfidenceName(c: Confidence): string {
    match c
    case Low => "low"
    case Medium => "medium"
    case High => "high"
  }

  /** Different confidence levels never share a spelling. */
  lemma ConfidenceNamesDistinct()
    ensures forall a: Confidence, b: Confidence :: ConfidenceName(a) == ConfidenceName(b) ==> a == b
  {
  }

  /** One `{"emotion_hint": ..., "score": ...}` entry of `alternatives`. */
  datatype Alternative = Alternative(emotionHint: string, score: Score)

  /** The verdict record; `alternatives` is `None` when the key is absent. */
  datatype Verdict = Verdict(
    tone: Tone,
    confidence: Confidence,
    explanation: string,
    note: string,
    alternatives: Option<seq<Alternative>>)

  /** The tone, confidence and explanation chosen from the top label,
      before the ambiguity downgrade. */
  datatype Reading = Reading(tone: Tone, confidence: Confidence, explanation: string)

  const StrongScore: Score := 7000      // 0.70
  const TensionScore: Score := 2000     // 0.20
  const AmbiguityMargin: nat := 1200    // 0.12

  const UnknownNote := "This is an automated guess, not a fact."
  const GuessNote := "This is an automated guess (not a truth). If unsure, consider asking the sender."
  const AmbiguousExplanation := "Message may have multiple interpretations (model is uncertain)."

  const UnknownVerdict := Verdict(Unknown, Low, "Not enough information to infer tone.", UnknownNote, None)
  const TeasingVerdict := Verdict(JokingTeasing, Medium,
    "Emoji + wording suggests a teasing/joking tone (possibly a light jab).", GuessNote, None)

  /** 😂 😅 🤣 😉 */
  const LaughEmoji: seq<string> := ["\U{1F602}", "\U{1F605}", "\U{1F923}", "\U{1F609}"]
  const TeasingWords: seq<string> := ["sure", "yeah right", "as if", "again"]

  /** `any(w in hay for w in needles)` */
  predicate ContainsAny(hay: string, needles: seq<string>) {
    exists i :: 0 <= i < |needles| && Contains(hay, needles[i])
  }

  /** A laughing/winking emoji in the raw text and a teasing word in its
      lower-cased form. */
  predicate IsTeasing(text: string): (b: bool)
    // the text itself holds one of the four laugh/wink characters
    ensures b ==> exists k :: 0 <= k < |text| && text[k] in {'\U{1F602}', '\U{1F605}', '\U{1F923}', '\U{1F609}'}
  {
    if ContainsAny(text, LaughEmoji) then
      var i :| 0 <= i < |LaughEmoji| && Contains(text, LaughEmoji[i]);
      ContainedCharsOccur(text, LaughEmoji[i]);
      var e := LaughEmoji[i][0];
      assert e in {'\U{1F602}', '\U{1F605}', '\U{1F923}', '\U{1F609}'};
      assert e in text;
      ContainsAny(Lower(text), TeasingWords)
    else false
  }

  /** "high" at 0.70 and above, "medium" below. */
  function Strength(score: Score): (c: Confidence)
    ensures c == High <==> score >= StrongScore
    ensures c != Low
  {
    if score >= StrongScore then High else Medium
  }

  /** The if/elif chain keyed on the top label, including the joy-with-tension
      override. `second` is the second-ranked entry when there is one. */
  function ReadTop(top: EmotionScore, second: Option<EmotionScore>): (r: Reading)
    // every label reads as some tone; "high" needs a strong score and a
    // joyful or negative label; joking only ever comes from joy
    ensures r.tone != Unknown
    ensures r.confidence == High ==>
      top.score >= StrongScore && r.tone in {FriendlyPositive, CriticalAngry, HurtSad, WorriedAnxious}
    ensures r.tone == JokingTeasing ==> top.emotion == "joy" && r.confidence == Medium
  {
    if top.emotion == "joy" then
      if second.Some? && second.value.emotion in {"anger", "fear", "disgust"}
         && second.value.score >= TensionScore
      then Reading(JokingTeasing, Medium, "Could be joking/teasing (positive but with some tension).")
      else Reading(FriendlyPositive, Strength(top.score), "Sounds positive or friendly.")
    else if top.emotion in {"anger", "disgust"} then
      Reading(CriticalAngry, Strength(top.score), "May sound frustrated, angry, or critical.")
    else if top.emotion == "sadness" then
      Reading(HurtSad, Strength(top.score), "May sound disappointed, sad, or hurt.")
    else if top.emotion == "fear" then
      Reading(WorriedAnxious, Strength(top.score), "May sound worried or anxious.")
    else if top.emotion == "surprise" then
      Reading(SurprisedConfused, Medium, "May sound surprised or confused (could be positive or negative).")
    else
      Reading(NeutralUnclear, Low, "Tone is not clear.")
  }

  /** `ambiguous and second_label`: a second entry with a non-empty label whose
      score is within 0.12 of the top score. */
  predicate TopTwoClose(emotions: seq<EmotionScore>): (b: bool)
    // the two scores lie strictly within 0.12 of each other, on either side
    ensures b <==> (
      && |emotions| >= 2 && emotions[1].emotion != ""
      && emotions[0].score < emotions[1].score + AmbiguityMargin
      && emotions[1].score < emotions[0].score + AmbiguityMargin)
  {
    && |emotions| >= 2
    && emotions[1].emotion != ""
    && Distance(emotions[0].score, emotions[1].score) < AmbiguityMargin
  }

  /** `emotions[1] if len(emotions) > 1 else None` */
  function SecondOf(emotions: seq<EmotionScore>): (r: Option<EmotionScore>)
    ensures r.Some? <==> |emotions| >= 2
    ensures r.Some? ==> r.value == emotions[1]
  {
    if |emotions| > 1 then Some(emotions[1]) else None
  }

  /** `_interpret_social(text, emotions)`. */
  function Interpret(text: string, emotions: seq<EmotionScore>): (v: Verdict)
    // no emotions: the fixed "unknown" verdict with its own note
    ensures emotions == [] ==> v == UnknownVerdict
    // emoji + teasing word: joking/medium, never downgraded, whatever the scores
    ensures emotions != [] && IsTeasing(text) ==> v == TeasingVerdict
    // alternatives are attached exactly when the downgrade fires ...
    ensures v.alternatives.Some? <==> emotions != [] && !IsTeasing(text) && TopTwoClose(emotions)
    // ... and then confidence is low and they list the top two, in order
    ensures v.alternatives.Some? ==>
      && v.confidence == Low
      && v.explanation == AmbiguousExplanation
      && v.alternatives.value == [Alternative(emotions[0].emotion, emotions[0].score),
                                  Alternative(emotions[1].emotion, emotions[1].score)]
    // every verdict for a non-empty ranking carries the same disclaimer
    ensures emotions != [] ==> v.note == GuessNote && v.tone != Unknown
  {
    if emotions == [] then UnknownVerdict
    else if IsTeasing(text) then TeasingVerdict
    else
      var reading := ReadTop(emotions[0], SecondOf(emotions));
      if TopTwoClose(emotions) then
        Verdict(reading.tone, Low, AmbiguousExplanation, GuessNote,
          Some([Alternative(emotions[0].emotion, emotions[0].score),
                Alternative(emotions[1].emotion, emotions[1].score)]))
      else
        Verdict(reading.tone, reading.confidence, reading.explanation, GuessNote, None)
  }

  /** The downgrade never changes the tone: apart from the two early returns,
      the tone is the one the top label selects. When there is no downgrade,
      confidence and explanation are the label's too. */
  lemma DowngradeKeepsTone(text: string, emotions: seq<EmotionScore>)
    requires emotions != [] && !IsTeasing(text)
    ensures Interpret(text, emotions).tone == ReadTop(emotions[0], SecondOf(emotions)).tone
    ensures !TopTwoClose(emotions) ==>
      var r := ReadTop(emotions[0], SecondOf(emotions));
      Interpret(text, emotions).confidence == r.confidence
      && Interpret(text, emotions).explanation == r.explanation
  {
  }

  /** Joy on top: friendly (high iff the score reaches 0.70), unless the runner-up
      is anger, fear or disgust at 0.20 or more, which makes it joking/medium. */
  lemma JoyReading(top: EmotionScore, second: Option<EmotionScore>)
    requires top.emotion == "joy"
    ensures var r := ReadTop(top, second);
      if second.Some? && second.value.emotion in {"anger", "fear", "disgust"} && second.value.score >= 2000
      then r.tone == JokingTeasing && r.confidence == Medium
      else (r.tone == FriendlyPositive && (r.confidence == High <==> top.score >= 7000)
            && (r.confidence == Medium <==> top.score < 7000))
  {
  }

  /** The other labels: negative ones are high iff the score reaches 0.70,
      surprise is always medium, anything unrecognised is neutral/low. */
  lemma OtherReadings(top: EmotionScore, second: Option<EmotionScore>)
    requires top.emotion != "joy"
    ensures var r := ReadTop(top, second);
      && (top.emotion in {"anger", "disgust"} ==> r.tone == CriticalAngry)
      && (top.emotion == "sadness" ==> r.tone == HurtSad)
      && (top.emotion == "fear" ==> r.tone == WorriedAnxious)
      && (top.emotion in {"anger", "disgust", "sadness", "fear"} ==>
            (r.confidence == High <==> top.score >= 7000) && r.confidence != Low)
      && (top.emotion == "surprise" ==> r.tone == SurprisedConfused && r.confidence == Medium)
      && (top.emotion !in {"anger", "disgust", "sadness", "fear", "surprise"} ==>
            r.tone == NeutralUnclear && r.confidence == Low)
  {
  }

  /** "high" is only ever reported for a strong, unambiguous negative or
      joyful top label. */
  lemma HighMeansStrongAndClear(text: string, emotions: seq<EmotionScore>)
    requires Interpret(text, emotions).confidence == High
    ensures emotions != [] && emotions[0].score >= 7000
    ensures !TopTwoClose(emotions) && Interpret(text, emotions).alternatives == None
    ensures Interpret(text, emotions).tone in {FriendlyPositive, CriticalAngry, HurtSad, WorriedAnxious}
  {
  }

  /** Joy at 0.85 with no runner-up: friendly with high confidence, and no
      alternatives since there is no second score to compare. */
  lemma LoneStrongJoy(text: string)
    requires !IsTeasing(text)
    ensures var v := Interpret(text, [EmotionScore("joy", 8500)]);
      v.tone == FriendlyPositive && v.confidence == High && v.alternatives == None
  {
  }

  /** Joy at 0.60 over anger at 0.25: the tension override makes it
      joking/medium, and the gap of 0.35 leaves it undowngraded. */
  lemma JoyOverAnger(text: string)
    requires !IsTeasing(text)
    ensures var v := Interpret(text, [EmotionScore("joy", 6000), EmotionScore("anger", 2500)]);
      v.tone == JokingTeasing && v.confidence == Medium && v.alternatives == None
  {
  }

  /** Joy at 0.60 over anger at 0.50: the override still picks joking, but
      the gap of 0.10 downgrades it to low with both entries as
      alternatives. */
  lemma CloseJoyOverAnger(text: string)
    requires !IsTeasing(text)
    ensures var v := Interpret(text, [EmotionScore("joy", 6000), EmotionScore("anger", 5000)]);
      && v.tone == JokingTeasing && v.confidence == Low
      && v.alternatives == Some([Alternative("joy", 6000), Alternative("anger", 5000)])
  {
  }
}
