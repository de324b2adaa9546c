# Sentiment analyzer: tone interpreter, cue extractor and HTTP endpoints

A Dafny model of the analysis core of the sentiment analyzer service. The model covers:

- **`EmotionAnalyzer._interpret_social`** turns the classifier's ranked emotions into a social-tone verdict: tone, confidence, explanation, note, and optional alternatives. It also looks for a laugh or wink emoji in the raw text together with a teasing word in the lower-cased text.
- **`EmotionAnalyzer._extract_highlights`** lists the cues that plausibly drove the guess: emoji, keywords, runs of "!" or "?", and shouted words. They come in scan order and are capped at eight.
- **`EmotionAnalyzer.analyze`** makes one classifier call and assembles the raw result record. A classifier exception becomes `{"error": ...}`.
- **`POST /analyze`** strips the request text and refuses blank text with a 400.
- **`POST /analyze-friendly`** does the same blank check (with a different message). It turns a classifier error into a 500. Otherwise it maps the raw top label and score to display wording and a three-way confidence bucket.

Modules:

- **`Common`**: `Option`, `Score` and a ranked entry.
- **`Strings`**: the Python `str` operations the code uses, namely `in`, `lower`, `isupper`, `count`, `split()` and `strip()`, with their lemmas.
- **`ToneInterpreter`**, **`Cues`**, **`Analysis`** and **`Api`**: one per part of the source, as listed above.
- **`ShoutingExample`**: proves the highlights of one concrete message.

The model's conventions:

- **Scores** are integers in ten-thousandths (0..10000). This matches the classifier's output after `round(score, 4)`, so `0.70` is `7000` and the `0.12` margin is `1200`.
- **The classifier** is not modelled. `Analysis.Analyze` takes its outcome on the text as an input. The endpoints take a function `classify` from text to outcome, so "the classifier is not consulted on blank text" becomes "the answer does not depend on `classify`".
- **`_extract_highlights`** is modelled twice:
  - as the imperative method `Cues.ExtractHighlights`, with the source's loops over the two ordered tables and its appends;
  - as the specification function `Cues.Highlights`.

  The method's postcondition ties the two together. The order, justification and cap properties are proved about the function.

Behaviour worth knowing, as the code has it:

- **The downgrade needs a non-empty second label.** The ambiguity downgrade is guarded by `ambiguous and second_label`, so a second entry with an empty label never downgrades. The model follows the code (`TopTwoClose`); a guard that only asked for a second entry would differ here.
- **The downgrade also applies after the joy/tension override.** It can turn the override's joking/medium into joking/low (`CloseJoyOverAnger`). It never applies after the emoji-plus-teasing-word early return.
- **Unknown labels can get "High" confidence.** In `/analyze-friendly`, the confidence bucket looks only at the score. An unrecognised label scoring 0.80 or more is shown as "Unclear / Not sure" with "High" confidence (`Api.UnknownLabelKeepsBucket`).
- **Some branches are redundant.**
  - Both `"!!!" in text` and `text.count("!") >= 3` are tested, but the first implies the second. Each punctuation cue is therefore present exactly when the text holds three of its mark (`Cues.PunctuationCues`).
  - In `/analyze-friendly`, the "Low" arm of the confidence bucket is only reached for scores in [0.55, 0.60).

## Model

| member | source | states |
|---|---|---|
| Common.Distance | SentimentAnalysis/sentiment_service.py:45 | `abs(top_score - second_score)`: the result is the non-negative gap between the two scores |
| Strings.LowerChar | SentimentAnalysis/sentiment_service.py:24 | lower-casing maps each upper-case ASCII letter to its own lower-case letter ('A' to 'a', ..., 'Z' to 'z') and leaves every other character alone; the result is never upper-case |
| Strings.IsUpper | SentimentAnalysis/sentiment_service.py:146 | `w.isupper()`: some upper-case letter and no lower-case one; such a word is non-empty and is changed by `lower()` |
| Strings.Lower | SentimentAnalysis/sentiment_service.py:102 | `text.lower()` keeps the length and lower-cases each character in place |
| Strings.Contains | SentimentAnalysis/sentiment_service.py:117 | `needle in hay`: the empty needle is in every text, and a contained needle is no longer than the text |
| Strings.ContainsIffOccurs | SentimentAnalysis/sentiment_service.py:117 | the substring test `e in text` holds exactly when some slice of the text equals the needle |
| Strings.Count | SentimentAnalysis/sentiment_service.py:138 | `text.count(c)` is the number of times `c` occurs in the text (its multiplicity in the text's multiset of characters), hence at most the length |
| Strings.ContainedCharsOccur | SentimentAnalysis/sentiment_service.py:117 | every character of a contained needle occurs in the haystack |
| Strings.CharMissing | SentimentAnalysis/sentiment_service.py:134 | a needle with a character the haystack lacks is not `in` it |
| Strings.CountSubstring | SentimentAnalysis/sentiment_service.py:138 | a substring never holds more occurrences of a character than the whole text |
| Strings.TokenLength | SentimentAnalysis/sentiment_service.py:145 | the first word of `split()` is the longest whitespace-free prefix: whitespace or the end follows it |
| Strings.Split | SentimentAnalysis/sentiment_service.py:145 | every word of `text.split()` is non-empty and free of whitespace |
| Strings.SplitKeepsEverythingButSpace | SentimentAnalysis/sentiment_service.py:145 | concatenating the words of `split()` gives the text with all whitespace removed: nothing else is lost or reordered |
| Strings.RunIsToken | SentimentAnalysis/sentiment_service.py:145 | a maximal whitespace-free run at the start of the text is exactly the first word |
| Strings.MaximalRunInSplit | SentimentAnalysis/sentiment_service.py:145 | every maximal whitespace-free run of the text is one of the words of `split()` |
| Strings.SplitWordsAreRuns | SentimentAnalysis/sentiment_service.py:145 | every word of `split()` is a maximal whitespace-free run of the text |
| Strings.SplitIsRuns | SentimentAnalysis/sentiment_service.py:145 | the words of `split()` are exactly the maximal whitespace-free runs of the text, in both directions |
| Strings.StripLeft | SentimentAnalysis/api.py:27 | the left strip is a suffix of the text, what it drops is whitespace, and it does not start with whitespace |
| Strings.StripRight | SentimentAnalysis/api.py:27 | the right strip is a prefix of the text, what it drops is whitespace, and it does not end with whitespace |
| Strings.Strip | SentimentAnalysis/api.py:27-28 | `strip()` is empty exactly when every character of the text is whitespace, and otherwise neither starts nor ends with whitespace |
| Strings.StripIsSlice | SentimentAnalysis/api.py:27 | `strip()` is the text with a whitespace-only prefix and a whitespace-only suffix removed |
| ToneInterpreter.ToneNamesDistinct | SentimentAnalysis/sentiment_service.py:14-99 | the eight `"tone"` wire values are pairwise different, so a tone can be read back from its string |
| ToneInterpreter.ConfidenceNamesDistinct | SentimentAnalysis/sentiment_service.py:14-99 | the `"confidence"` values "low", "medium" and "high" are pairwise different |
| ToneInterpreter.Strength | SentimentAnalysis/sentiment_service.py:50 | confidence is "high" exactly at 0.70 and above, else "medium", never "low" |
| ToneInterpreter.IsTeasing | SentimentAnalysis/sentiment_service.py:27-30 | the early joking return needs a laugh or wink emoji in the raw text and a teasing word in the lower-cased text; the text then holds one of the four emoji characters |
| ToneInterpreter.ReadTop | SentimentAnalysis/sentiment_service.py:47-81 | the if/elif chain on the top label always picks a tone; "high" needs a score of 0.70 or more and a joyful or negative label; joking comes only from joy and is medium |
| ToneInterpreter.TopTwoClose | SentimentAnalysis/sentiment_service.py:45 | `ambiguous and second_label` (line 91): there is a second entry with a non-empty label and the two scores lie strictly within 0.12 of each other on either side |
| ToneInterpreter.SecondOf | SentimentAnalysis/sentiment_service.py:38 | the runner-up is present exactly when there are at least two entries, and is then the second one |
| ToneInterpreter.Interpret | SentimentAnalysis/sentiment_service.py:14-99 | no emotions gives the fixed unknown verdict; emoji plus teasing word gives joking/medium whatever the scores; alternatives appear exactly when the top two are within 0.12 and the second label is non-empty, and then confidence is low and they list the top two in order; every other verdict carries the guess note and a known tone |
| ToneInterpreter.DowngradeKeepsTone | SentimentAnalysis/sentiment_service.py:84-97 | the ambiguity downgrade never changes the tone chosen from the top label; without it, confidence and explanation are the label's |
| ToneInterpreter.JoyReading | SentimentAnalysis/sentiment_service.py:47-56 | joy on top is friendly, and high iff its score reaches 0.70, unless the runner-up is anger, fear or disgust at 0.20 or more, which makes it joking/medium |
| ToneInterpreter.OtherReadings | SentimentAnalysis/sentiment_service.py:58-81 | anger/disgust, sadness and fear map to their tones, high iff the score reaches 0.70; surprise is medium; anything else is neutral/low |
| ToneInterpreter.HighMeansStrongAndClear | SentimentAnalysis/sentiment_service.py:14-99 | a "high" verdict implies a top score of at least 0.70, no downgrade and a joyful or negative tone |
| ToneInterpreter.LoneStrongJoy | SentimentAnalysis/sentiment_service.py:38-56 | joy at 0.85 alone is friendly/high with no alternatives |
| ToneInterpreter.JoyOverAnger | SentimentAnalysis/sentiment_service.py:45-97 | joy 0.60 over anger 0.25 is joking/medium with no alternatives |
| ToneInterpreter.CloseJoyOverAnger | SentimentAnalysis/sentiment_service.py:45-97 | joy 0.60 over anger 0.50 is joking but downgraded to low, listing both as alternatives |
| Cues.KindNamesDistinct | SentimentAnalysis/sentiment_service.py:116-147 | the `"type"` values "emoji", "keyword", "punctuation" and "style" are pairwise different |
| Cues.KeyIndex | SentimentAnalysis/sentiment_service.py:106-131 | the position of the first entry with a given key in an ordered table, or the table length exactly when the key is absent |
| Cues.TableCues | SentimentAnalysis/sentiment_service.py:116-118 | one table scan yields at most one cue per entry, all of the scan's kind, each a table entry whose key occurs in the scanned text |
| Cues.TableCuesSelect | SentimentAnalysis/sentiment_service.py:116-118 | an entry yields its cue exactly when its key occurs in the scanned text |
| Cues.TableCuesInTableOrder | SentimentAnalysis/sentiment_service.py:116-118 | the cues of a scan come in strictly increasing table position |
| Cues.NoKeyNoCue | SentimentAnalysis/sentiment_service.py:133-135 | a table none of whose keys occurs yields no cue |
| Cues.PunctuationCues | SentimentAnalysis/sentiment_service.py:137-142 | "!!!" is present exactly when the text holds at least three "!", "???" exactly when it holds at least three "?", in that order |
| Cues.RunOfThreeCounts | SentimentAnalysis/sentiment_service.py:138 | a text containing three marks in a row counts at least three of that mark |
| Cues.HasShoutedWord | SentimentAnalysis/sentiment_service.py:145-146 | some word of `split()` of three or more characters is upper-case (see `Cues.ShoutedWordIsRun`) |
| Cues.ShoutedWordIsRun | SentimentAnalysis/sentiment_service.py:145-146 | a shouted word exists exactly when the text has an upper-case maximal whitespace-free run of three or more characters |
| Cues.StyleCues | SentimentAnalysis/sentiment_service.py:144-147 | ALL_CAPS is present exactly when some word of three or more characters is upper-case |
| Cues.ScanCues | SentimentAnalysis/sentiment_service.py:103-147 | the four scans (emoji over the raw text, keywords over the lower-cased text, punctuation, capitals) over any two ordered tables, in that order; at most one cue per table entry plus three more |
| Cues.AllCues | SentimentAnalysis/sentiment_service.py:103-147 | the `highlights` list before the cut at line 149: the scans over the two literal tables, at most 7 + 9 + 3 = 19 cues |
| Cues.Truncate | SentimentAnalysis/sentiment_service.py:149 | `[:8]` keeps a prefix of at most eight cues, the whole list when it is short enough |
| Cues.Highlights | SentimentAnalysis/sentiment_service.py:101-149 | the highlights are a prefix of all cues found: all of them when there are at most eight, exactly the first eight otherwise |
| Cues.AppendTableCues | SentimentAnalysis/sentiment_service.py:116-118 | the table loop appends exactly the table scan's cues, in order |
| Cues.AppendStyleCues | SentimentAnalysis/sentiment_service.py:137-147 | the punctuation and capitalisation checks append exactly those cues |
| Cues.ExtractHighlights | SentimentAnalysis/sentiment_service.py:101-149 | the loops and appends compute `Highlights(text)` |
| Cues.ScanOrdered | SentimentAnalysis/sentiment_service.py:101-147 | for any two tables with distinct keys, a scan is grouped by kind in scan order with "!!!" before "???", follows each table's order and repeats no cue |
| Cues.ScanJustified | SentimentAnalysis/sentiment_service.py:101-147 | every cue of a scan is backed by the text |
| Cues.ScanMarkCues | SentimentAnalysis/sentiment_service.py:137-147 | in any scan, each of "!!!", "???" and ALL_CAPS occurs exactly when its condition holds |
| Cues.PrefixKeepsOrder | SentimentAnalysis/sentiment_service.py:149 | cutting to a prefix keeps the ordering ("!!!" before "???" included) and no-repeat properties |
| Cues.TablesHaveDistinctKeys | SentimentAnalysis/sentiment_service.py:106-131 | neither table repeats a key |
| Cues.HighlightsOrdered | SentimentAnalysis/sentiment_service.py:101-149 | the highlights are grouped emoji, keywords, punctuation, style, with "!!!" before "???"; emoji and keyword cues follow their table's order; no cue appears twice |
| Cues.HighlightsJustified | SentimentAnalysis/sentiment_service.py:101-149 | each highlight is justified: an emoji key found in the raw text, a keyword found in the lower-cased text, three "!" or "?", or a shouted word |
| Cues.MarkCues | SentimentAnalysis/sentiment_service.py:137-147 | before the cut, "!!!", "???" and ALL_CAPS are each found exactly when their condition holds |
| ShoutingExample.AsciiHasNoEmoji | SentimentAnalysis/sentiment_service.py:106-118 | an ASCII-only text yields no emoji cue |
| ShoutingExample.NoKeywordLetters | SentimentAnalysis/sentiment_service.py:121-135 | a lower-cased text lacking g, u, n, w, l, y and p yields no keyword cue |
| ShoutingExample.LoweredLacksKeywordLetters | SentimentAnalysis/sentiment_service.py:102 | a text none of whose characters lower-cases to one of those letters keeps them out of its lower-cased form |
| ShoutingExample.ExclaimOnly | SentimentAnalysis/sentiment_service.py:137-142 | three "!" and fewer than three "?" give exactly the "!!!" cue |
| ShoutingExample.CapsOnly | SentimentAnalysis/sentiment_service.py:144-147 | a shouted word gives exactly the ALL_CAPS cue |
| ShoutingExample.ScanOfMarks | SentimentAnalysis/sentiment_service.py:101-147 | with no emoji and keyword cues, three "!", fewer than three "?" and a shouted word, the scan is "!!!" then ALL_CAPS |
| ShoutingExample.ShoutedRun | SentimentAnalysis/sentiment_service.py:144-147 | an upper-case maximal run of three or more characters makes a shouted word |
| ShoutingExample.MarkCounts | SentimentAnalysis/sentiment_service.py:138-142 | a text with "!!!" and no "?" counts at least three "!" and fewer than three "?" |
| ShoutingExample.MarksOnly | SentimentAnalysis/sentiment_service.py:101-149 | an ASCII text without keyword letters, with "!!!", no "?" and an upper-case run of three or more, is highlighted for "!!!" and ALL_CAPS only |
| ShoutingExample.Shouting | SentimentAnalysis/sentiment_service.py:101-149 | "I am SO TIRED of this!!!" is highlighted for "!!!" and ALL_CAPS and nothing else ("SO" is too short; "TIRED" qualifies) |
| Analysis.Analyze | SentimentAnalysis/sentiment_service.py:152-177 | an error record exactly when the classifier fails, carrying its message; otherwise the text and ranking are copied, emotion and score are the top entry's (absent exactly when the ranking is empty), and the verdict and highlights are those of the text |
| Analysis.UnknownToneIffNoTop | SentimentAnalysis/sentiment_service.py:161-168 | the tone is "unknown" exactly when no top emotion is reported |
| Analysis.AlternativesLeadWithTop | SentimentAnalysis/sentiment_service.py:91-97 | listed alternatives start with the reported emotion and score, and the second is within 0.12 of it |
| Api.AnalyzeEndpoint | SentimentAnalysis/api.py:25-30 | a 400 "text is required" exactly for blank text; otherwise the analyzer gets the stripped, non-empty text with no whitespace at either edge, and its result is the body |
| Api.RawLabel | SentimentAnalysis/api.py:44 | the raw label is the lower-cased top emotion, or empty when there is none |
| Api.RawScore | SentimentAnalysis/api.py:45 | the raw score is the top score, or 0 when there is none |
| Api.Bucket | SentimentAnalysis/api.py:81-86 | "High" exactly at 0.80 and above, "Medium" exactly in [0.60, 0.80), "Low" exactly below 0.60 |
| Api.FriendlyFrom | SentimentAnalysis/api.py:39-102 | an error record becomes a 500 with its message and only then; below 0.55 the answer is unclear/low with the hard-to-tell wording; otherwise the bucket is the score's and known labels get their display name and interpretation, unknown ones the unclear name and the more-than-one-way wording; raw label, score and extras pass through |
| Api.AnalyzeFriendlyEndpoint | SentimentAnalysis/api.py:33-39 | blank text gives a 400 "Please provide text"; otherwise the answer is built from the analysis of the stripped text |
| Api.BlankNeverClassified | SentimentAnalysis/api.py:27-37 | on blank text both endpoints answer the same whatever the classifier does |
| Api.FriendlyConfidenceNameCapitalised | SentimentAnalysis/api.py:81-86 | the friendly confidence "Low", "Medium", "High" is the interpreter's "low", "medium", "high" with the first letter capitalised |
| Api.BucketMonotone | SentimentAnalysis/api.py:81-86 | a higher score never gets a lower bucket |
| Api.DisplayTablesAgree | SentimentAnalysis/api.py:61-79 | the display and interpretation tables cover the same labels, and no display name is the unclear one |
| Api.FailureIsServerError | SentimentAnalysis/api.py:39-41 | a classifier failure on non-blank text becomes a 500 carrying its message |
| Api.EmptyRankingIsUnclear | SentimentAnalysis/api.py:44-59 | an empty ranking reads as unclear/low with an empty raw label, raw score 0 and the unknown verdict |
| Api.HighMeansStrong | SentimentAnalysis/api.py:81-86 | "High" implies a reported top score of at least 0.80 |
| Api.UnknownLabelKeepsBucket | SentimentAnalysis/api.py:81-93 | an unrecognised label at 0.80 or more is shown as unclear with the more-than-one-way wording, yet with "High" confidence |

## Left out

- Model loading and the `transformers` pipeline (`EmotionAnalyzer.__init__`, `top_k=3`): the classifier is external. Its outcome is an input, and the model does not bound the ranking to three entries.
- The conversion `round(float(r["score"]), 4)` is not modelled: scores are taken as already rounded. IEEE-754 float effects are not modelled either; the comparisons against 0.12, 0.20, 0.55, 0.60, 0.70 and 0.80 are exact on ten-thousandths. In floating point, `abs(a - b) < 0.12` can differ from the exact comparison when the gap is exactly 0.12.
- `round(score, 4)` on the friendly endpoint's `raw_score` and the alternatives' scores is the identity on ten-thousandths.
- Strings.LowerChar: only ASCII letters are lower-cased, and `Strings.IsUpper` only knows ASCII letters. Python's full Unicode case mapping and cased-character rules are not modelled.
- Strings.IsSpace: covers the single code points Python's `str.isspace` accepts. Python's definition is taken from the Unicode database of its version; this is the set of current CPython.
- The `/` and `/health` endpoints, FastAPI routing, request validation and JSON serialisation are not modelled. Neither is `req.text or ""` on a missing text (the request model requires a string).
- The dictionary lookups `raw.get(key, default)` in `analyze_friendly`: their defaults cannot be reached once the record is a successful analysis, so the fields are read directly.
- The `print` calls and the `__main__` self-test block: output only.
- SentimentAnalisys/sentiment_service.py is not part of this model: it is a thin wrapper around the same emotion classifier (`top_k=1`) that returns the text with only the top label and its rounded score, and has no logic of its own.
- Determinism and idempotence of `_extract_highlights`: every operation is a Dafny function, so repeating a call on the same text gives the same result by construction.
