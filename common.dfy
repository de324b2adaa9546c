/** Types shared by every part of the analyzer. */
module Common {

  datatype Option<+T> = None | Some(value: T)

  /** A classifier score after `round(score, 4)`: an integer number of
      ten-thousandths in the range 0.0 .. 1.0. */
  type Score = s: int | 0 <= s <= 10000

  /** One entry of the classifier's ranked output, `{"label": ..., "score": ...}` (`label` is a Dafny keyword, so the field is `emotion`). */
  datatype EmotionScore = EmotionScore(emotion: string, score: Score)

  /** Python's `abs(a - b)` on two scores. */
  function Distance(a: Score, b: Score): (d: nat)
    ensures a - d == b || a + d == b
  {
    if a >= b then a - b else b - a
  }
}
