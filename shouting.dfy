/** A worked example: the highlights of "I am SO TIRED of this!!!". The facts
    about the concrete message are kept in small lemmas, and general lemmas
    turn them into cues. */
module ShoutingExample {
  import opened Strings
  import opened Cues

  predicate IsAscii(s: string) {
    forall i :: 0 <= i < |s| ==> s[i] < '\U{80}'
  }

  /** A text of ASCII characters holds none of the emoji. */
  lemma AsciiHasNoEmoji(text: string)
    requires IsAscii(text)
    ensures TableCues(EmojiTable, text, Emoji) == []
  {
    forall j | 0 <= j < |EmojiTable| ensures !Contains(text, EmojiTable[j].0) {
      CharMissing(text, EmojiTable[j].0, 0);
    }
    NoKeyNoCue(EmojiTable, text, Emoji);
  }

  /** A text lacking the letters g, u, n, w, l, y and p holds none of the
      keywords: each keyword has one of them. */
  lemma NoKeywordLetters(hay: string)
    requires 'g' !in hay && 'u' !in hay && 'n' !in hay && 'w' !in hay
    requires 'l' !in hay && 'y' !in hay && 'p' !in hay
    ensures TableCues(KeywordTable, hay, Keyword) == []
  {
    var missing := [1, 1, 2, 0, 1, 0, 4, 0, 3];
    forall j | 0 <= j < |KeywordTable| ensures !Contains(hay, KeywordTable[j].0) {
      CharMissing(hay, KeywordTable[j].0, missing[j]);
    }
    NoKeyNoCue(KeywordTable, hay, Keyword);
  }

  lemma ExclaimOnly(text: string)
    requires Count(text, '!') >= 3 && Count(text, '?') < 3
    ensures PunctuationCues(text) == [ExclaimCue]
  {
  }

  lemma CapsOnly(text: string)
    requires HasShoutedWord(text)
    ensures StyleCues(text) == [CapsCue]
  {
  }

  /** Sequence concatenation of the four groups, kept apart from the scan so
      that the solver does not unfold the scan functions while proving it. */
  lemma FourGroups(E: seq<Cue>, K: seq<Cue>, P: seq<Cue>, S: seq<Cue>)
    requires E == [] && K == [] && P == [ExclaimCue] && S == [CapsCue]
    ensures E + K + P + S == [ExclaimCue, CapsCue]
  {
  }

  /** A scan whose two table groups are empty, with at least three "!",
      fewer than three "?" and a shouted word, is "!!!" then ALL_CAPS. */
  lemma ScanOfMarks(emoji: Table, keywords: Table, text: string)
    requires TableCues(emoji, text, Emoji) == [] && TableCues(keywords, Lower(text), Keyword) == []
    requires Count(text, '!') >= 3 && Count(text, '?') < 3 && HasShoutedWord(text)
    ensures ScanCues(emoji, keywords, text) == [ExclaimCue, CapsCue]
  {
    ExclaimOnly(text);
    CapsOnly(text);
    FourGroups(TableCues(emoji, text, Emoji), TableCues(keywords, Lower(text), Keyword),
               PunctuationCues(text), StyleCues(text));
  }

  /** No character of `text` lower-cases to g, u, n, w, l, y or p. */
  predicate LacksKeywordLetters(text: string) {
    forall i :: 0 <= i < |text| ==> LowerChar(text[i]) !in "gunwlyp"
  }

  lemma LoweredLacksKeywordLetters(text: string)
    requires LacksKeywordLetters(text)
    ensures 'g' !in Lower(text) && 'u' !in Lower(text) && 'n' !in Lower(text) && 'w' !in Lower(text)
    ensures 'l' !in Lower(text) && 'y' !in Lower(text) && 'p' !in Lower(text)
  {
  }

  /** A maximal run of three or more characters that is upper-case is a
      shouted word. */
  lemma ShoutedRun(text: string, i: nat, w: string)
    requires IsRun(text, i, w) && |w| >= 3 && IsUpper(w)
    ensures HasShoutedWord(text)
  {
    MaximalRunInSplit(text, i, w);
  }

  /** A text with "!!!" somewhere and no "?" has at least three "!" and
      fewer than three "?". */
  lemma MarkCounts(text: string, bang: nat)
    requires OccursAt(text, "!!!", bang) && '?' !in text
    ensures Count(text, '!') >= 3 && Count(text, '?') < 3
  {
    ContainsIffOccurs(text, "!!!");
    RunOfThreeCounts(text, '!');
  }

  /** An ASCII text without the keyword letters, holding "!!!" at `bang`, no
      "?", and an upper-case maximal run of length three or more at `word`,
      is highlighted for "!!!" and ALL_CAPS only. */
  lemma MarksOnly(text: string, bang: nat, i: nat, word: string)
    requires IsAscii(text) && LacksKeywordLetters(text)
    requires OccursAt(text, "!!!", bang) && '?' !in text
    requires IsRun(text, i, word) && |word| >= 3 && IsUpper(word)
    ensures Highlights(text) == [ExclaimCue, CapsCue]
  {
    AsciiHasNoEmoji(text);
    LoweredLacksKeywordLetters(text);
    NoKeywordLetters(Lower(text));
    MarkCounts(text, bang);
    ShoutedRun(text, i, word);
    ScanOfMarks(EmojiTable, KeywordTable, text);
  }

  const ShoutingText := "I am SO TIRED of this!!!"

  lemma ShoutingIsAscii()
    ensures IsAscii(ShoutingText)
  {
  }

  lemma ShoutingLacksKeywordLetters()
    ensures LacksKeywordLetters(ShoutingText)
  {
  }

  lemma ShoutingMarks()
    ensures OccursAt(ShoutingText, "!!!", 21) && '?' !in ShoutingText
  {
  }

  /** "TIRED" (characters 8 to 12) is a maximal run ... */
  lemma TiredIsARun()
    ensures IsRun(ShoutingText, 8, ShoutingText[8..13])
  {
  }

  /** ... and upper-case. ("SO" is upper-case too but shorter than three.) */
  lemma TiredIsUpper()
    ensures IsUpper(ShoutingText[8..13])
  {
    assert IsUpperLetter(ShoutingText[8..13][0]);
  }

  /** "I am SO TIRED of this!!!" is highlighted for its exclamation marks and
      its shouting, and for nothing else. */
  lemma Shouting()
    ensures Highlights(ShoutingText) == [ExclaimCue, CapsCue]
  {
    ShoutingIsAscii();
    ShoutingLacksKeywordLetters();
    ShoutingMarks();
    TiredIsARun();
    TiredIsUpper();
    MarksOnly(ShoutingText, 21, 8, ShoutingText[8..13]);
  }
}
