/** The cue extractor (`EmotionAnalyzer._extract_highlights`): the spans of a
    message (emoji, keywords, punctuation runs, shouting) that plausibly
    drove the tone guess, in scan order and capped at eight. */
module Cues {
  import opened Strings

  datatype Kind = Emoji | Keyword | Punctuation | Style

  /** The wire value of a kind, as it appears in the `"type"` field. */
  function KindName(k: Kind): string {
    match k
    case Emoji => "emoji"
    case Keyword => "keyword"
    case Punctuation => "punctuation"
    case Style => "style"
  }

  /** Different kinds never share a `"type"` string. */
  lemma KindNamesDistinct()
    ensures forall a: Kind, b: Kind :: KindName(a) == KindName(b) ==> a == b
  {
  }

  /** One `{"span": ..., "type": ..., "reason": ...}` highlight. */
  datatype Cue = Cue(span: string, kind: Kind, reason: string)

  /** Position of each kind in the scan. */
  function KindRank(k: Kind): nat {
    match k
    case Emoji => 0
    case Keyword => 1
    case Punctuation => 2
    case Style => 3
  }

  /** An ordered `{span: reason}` table; Python dicts iterate in insertion order. */
  type Table = seq<(string, string)>

  /** 😂 😅 🤣 😉 😡 ❤️ 🙏 — the heart is U+2764 followed by U+FE0F. */
  const EmojiTable: Table := [
    ("\U{1F602}", "Laughing emoji often indicates humor/teasing."),
    ("\U{1F605}", "Nervous/laugh emoji can soften a message (possible teasing)."),
    ("\U{1F923}", "Strong laughter emoji indicates joking."),
    ("\U{1F609}", "Wink emoji can indicate teasing or sarcasm."),
    ("\U{1F621}", "Angry emoji may indicate frustration."),
    ("\U{2764}\U{FE0F}", "Heart emoji often indicates warmth/positivity."),
    ("\U{1F64F}", "May indicate request/thanks or emotional emphasis.")
  ]

  const KeywordTable: Table := [
    ("again", "May imply repetition/annoyance or a light jab."),
    ("sure", "Sometimes used in sarcastic/teasing replies (depends on context)."),
    ("fine", "Can be passive-aggressive in short replies."),
    ("whatever", "May indicate dismissal or frustration."),
    ("always", "Generalization can intensify criticism."),
    ("never", "Generalization can intensify criticism."),
    ("sorry", "Often signals apology or regret."),
    ("please", "Polite request; can soften tone."),
    ("thanks", "Gratitude; usually positive.")
  ]

  const ExclaimCue := Cue("!!!", Punctuation, "Many exclamation marks may indicate strong emotion.")
  const QuestionCue := Cue("???", Punctuation, "Many question marks may indicate confusion or pressure.")
  const CapsCue := Cue("ALL_CAPS", Style, "ALL CAPS can be perceived as shouting/emphasis.")

  /** `highlights[:8]` */
  const MaxHighlights := 8

  predicate DistinctKeys(table: Table) {
    forall i, j :: 0 <= i < j < |table| ==> table[i].0 != table[j].0
  }

  /** Index of the first entry of `table` whose key is `key`, or `|table|`. */
  function KeyIndex(table: Table, key: string): (k: nat)
    ensures k <= |table|
    ensures k < |table| ==> table[k].0 == key
    ensures forall i :: 0 <= i < k ==> table[i].0 != key
    ensures k == |table| <==> forall i :: 0 <= i < |table| ==> table[i].0 != key
  {
    if table == [] then 0
    else
      var init := table[..|table| - 1];
      var k := KeyIndex(init, key);
      if k < |init| then k
      else if table[|table| - 1].0 == key then |init|
      else |table|
  }

  /** The cues one table scan emits: every entry whose key occurs in `hay`,
      in table order. */
  function TableCues(table: Table, hay: string, kind: Kind): (r: seq<Cue>)
    ensures |r| <= |table|
    ensures OfKind(r, kind)
    ensures forall c :: c in r ==> c.kind == kind && Contains(hay, c.span) && (c.span, c.reason) in table
  {
    if table == [] then []
    else
      var init := table[..|table| - 1];
      var last := table[|table| - 1];
      assert forall e :: e in init ==> e in table;
      TableCues(init, hay, kind)
        + (if Contains(hay, last.0) then [Cue(last.0, kind, last.1)] else [])
  }

  /** `"!!!" in text or text.count("!") >= 3`, and likewise for "?". Since a
      run of three marks already counts three, each cue is present exactly
      when the text holds at least three of its mark. */
  function PunctuationCues(text: string): (r: seq<Cue>)
    ensures OfKind(r, Punctuation)
    ensures r == [] || r == [ExclaimCue] || r == [QuestionCue] || r == [ExclaimCue, QuestionCue]
    ensures ExclaimCue in r <==> Count(text, '!') >= 3
    ensures QuestionCue in r <==> Count(text, '?') >= 3
  {
    RunOfThreeCounts(text, '!');
    RunOfThreeCounts(text, '?');
    (if Contains(text, "!!!") || Count(text, '!') >= 3 then [ExclaimCue] else [])
    + (if Contains(text, "???") || Count(text, '?') >= 3 then [QuestionCue] else [])
  }

  /** A text holding `ccc` holds at least three `c`. */
  lemma RunOfThreeCounts(text: string, c: char)
    ensures Contains(text, [c, c, c]) ==> Count(text, c) >= 3
  {
    if Contains(text, [c, c, c]) {
      CountSubstring(text, [c, c, c], c);
      assert [c, c, c][1..] == [c, c] && [c, c][1..] == [c] && [c][1..] == [];
      assert Count([c], c) == 1;
      assert Count([c, c], c) == 2;
    }
  }

  /** `any(w.isupper() for w in text.split() if len(w) >= 3)` */
  predicate HasShoutedWord(text: string) {
    exists w :: w in Split(text) && |w| >= 3 && IsUpper(w)
  }

  /** A shouted word is exactly an upper-case maximal run of
      non-whitespace of length three or more. */
  lemma ShoutedWordIsRun(text: string)
    ensures HasShoutedWord(text) <==> exists i: nat, w :: IsRun(text, i, w) && |w| >= 3 && IsUpper(w)
  {
    if HasShoutedWord(text) {
      var w :| w in Split(text) && |w| >= 3 && IsUpper(w);
      SplitIsRuns(text, w);
    }
    if exists i: nat, w :: IsRun(text, i, w) && |w| >= 3 && IsUpper(w) {
      var i: nat, w :| IsRun(text, i, w) && |w| >= 3 && IsUpper(w);
      MaximalRunInSplit(text, i, w);
    }
  }

  function StyleCues(text: string): (r: seq<Cue>)
    ensures OfKind(r, Style)
    ensures r == [] || r == [CapsCue]
    ensures CapsCue in r <==> HasShoutedWord(text)
  {
    if HasShoutedWord(text) then [CapsCue] else []
  }

  /** The four scans in order, for given emoji and keyword tables. The lemmas
      below are proved for any tables and then applied to the two constants. */
  function ScanCues(emoji: Table, keywords: Table, text: string): (r: seq<Cue>)
    // at most one cue per table entry, plus "!!!", "???" and ALL_CAPS
    ensures |r| <= |emoji| + |keywords| + 3
  {
    TableCues(emoji, text, Emoji)
      + TableCues(keywords, Lower(text), Keyword)
      + PunctuationCues(text)
      + StyleCues(text)
  }

  /** Every cue the four scans find, before truncation. */
  function AllCues(text: string): (r: seq<Cue>)
    // up to 7 + 9 + 3 = 19 cues, so the cut to eight can drop some
    ensures |r| <= |EmojiTable| + |KeywordTable| + 3 == 19
  {
    ScanCues(EmojiTable, KeywordTable, text)
  }

  /** `cues[:8]` */
  function Truncate(cues: seq<Cue>): (r: seq<Cue>)
    ensures |r| <= MaxHighlights && r <= cues
    ensures |cues| <= MaxHighlights ==> r == cues
    ensures |cues| > MaxHighlights ==> |r| == MaxHighlights
  {
    if |cues| <= MaxHighlights then cues else cues[..MaxHighlights]
  }

  /** What `_extract_highlights(text)` returns: the first eight cues found. */
  function Highlights(text: string): (r: seq<Cue>)
    ensures |r| <= MaxHighlights && r <= AllCues(text)
    ensures |AllCues(text)| <= MaxHighlights ==> r == AllCues(text)
    ensures |AllCues(text)| > MaxHighlights ==> |r| == MaxHighlights
  {
    Truncate(AllCues(text))
  }

  /** One `for span, reason in table.items(): if span in hay: highlights.append(...)`
      loop, appending to `highlights`. */
  method AppendTableCues(highlights: seq<Cue>, table: Table, hay: string, kind: Kind)
    returns (extended: seq<Cue>)
    ensures extended == highlights + TableCues(table, hay, kind)
  {
    extended := highlights;
    for i := 0 to |table|
      invariant extended == highlights + TableCues(table[..i], hay, kind)
    {
      var (span, reason) := table[i];
      assert table[..i + 1][..i] == table[..i];
      if Contains(hay, span) {
        extended := extended + [Cue(span, kind, reason)];
      }
    }
    assert table[..|table|] == table;
  }

  /** The punctuation and capitalisation checks, each an optional append. */
  method AppendStyleCues(highlights: seq<Cue>, text: string) returns (extended: seq<Cue>)
    ensures extended == highlights + PunctuationCues(text) + StyleCues(text)
  {
    extended := highlights;
    if Contains(text, "!!!") || Count(text, '!') >= 3 {
      extended := extended + [ExclaimCue];
    }
    if Contains(text, "???") || Count(text, '?') >= 3 {
      extended := extended + [QuestionCue];
    }
    assert extended == highlights + PunctuationCues(text);
    if HasShoutedWord(text) {
      extended := extended + [CapsCue];
    }
  }

  /** `_extract_highlights(text)`: the emoji scan over the raw text, the keyword
      scan over the lower-cased text, the punctuation and capitalisation checks,
      then the cut to eight. */
  method ExtractHighlights(text: string) returns (highlights: seq<Cue>)
    ensures highlights == Highlights(text)
  {
    var t := Lower(text);
    highlights := AppendTableCues([], EmojiTable, text, Emoji);
    ghost var emoji := TableCues(EmojiTable, text, Emoji);
    assert highlights == emoji;
    highlights := AppendTableCues(highlights, KeywordTable, t, Keyword);
    highlights := AppendStyleCues(highlights, text);
    highlights := Truncate(highlights);
  }

  /** A table entry yields a cue exactly when its key occurs in `hay`. */
  lemma {:induction false} TableCuesSelect(table: Table, hay: string, kind: Kind, i: nat)
    requires i < |table|
    ensures Cue(table[i].0, kind, table[i].1) in TableCues(table, hay, kind) <==> Contains(hay, table[i].0)
  {
    var init := table[..|table| - 1];
    var last := table[|table| - 1];
    var r := TableCues(table, hay, kind);
    assert r == TableCues(init, hay, kind) + (if Contains(hay, last.0) then [Cue(last.0, kind, last.1)] else []);
    if i < |init| {
      TableCuesSelect(init, hay, kind, i);
      assert table[i] == init[i];
    }
  }

  /** The cues' spans come in strictly increasing table position. */
  predicate InTableOrder(cues: seq<Cue>, table: Table) {
    forall i, j :: 0 <= i < j < |cues| ==> KeyIndex(table, cues[i].span) < KeyIndex(table, cues[j].span)
  }

  /** A table scan lists its cues in table order: for two cues, the earlier
      one's span comes strictly earlier in the table. */
  lemma {:induction false} TableCuesInTableOrder(table: Table, hay: string, kind: Kind)
    requires DistinctKeys(table)
    ensures InTableOrder(TableCues(table, hay, kind), table)
  {
    if table != [] {
      var init := table[..|table| - 1];
      var last := table[|table| - 1];
      var front := TableCues(init, hay, kind);
      var r := TableCues(table, hay, kind);
      assert r == front + (if Contains(hay, last.0) then [Cue(last.0, kind, last.1)] else []);
      TableCuesInTableOrder(init, hay, kind);
      // every span of `front` is a key of `init`, so its index is unchanged
      forall c | c in front ensures KeyIndex(table, c.span) == KeyIndex(init, c.span) < |init| {
        var m :| 0 <= m < |init| && init[m] == (c.span, c.reason);
      }
      // the last key is not among the earlier ones
      assert KeyIndex(init, last.0) == |init|;
      assert KeyIndex(table, last.0) == |init|;
      forall i, j | 0 <= i < j < |r| ensures KeyIndex(table, r[i].span) < KeyIndex(table, r[j].span) {
        assert r[i] == front[i] && r[i] in front;
        if j < |front| {
          assert r[j] == front[j] && r[j] in front;
        } else {
          assert r[j].span == last.0;
        }
      }
    }
  }

  predicate OfKind(cues: seq<Cue>, k: Kind) {
    forall c :: c in cues ==> c.kind == k
  }

  /** Where each cue of a scan `E + K + P + S` comes from, given the kind of
      each group. */
  lemma GroupAt(E: seq<Cue>, K: seq<Cue>, P: seq<Cue>, S: seq<Cue>, i: nat)
    requires OfKind(E, Emoji) && OfKind(K, Keyword) && OfKind(P, Punctuation) && OfKind(S, Style)
    requires i < |E + K + P + S|
    ensures var all := E + K + P + S;
      && (i < |E| ==> all[i] == E[i] && all[i].kind == Emoji)
      && (|E| <= i < |E| + |K| ==> all[i] == K[i - |E|] && all[i].kind == Keyword)
      && (|E| + |K| <= i < |E| + |K| + |P| ==> all[i] == P[i - |E| - |K|] && all[i].kind == Punctuation)
      && (|E| + |K| + |P| <= i ==> all[i] == S[i - |E| - |K| - |P|] && all[i].kind == Style)
  {
    if i < |E| {
      assert E[i] in E;
    } else if i < |E| + |K| {
      assert K[i - |E|] in K;
    } else if i < |E| + |K| + |P| {
      assert P[i - |E| - |K|] in P;
    } else {
      assert S[i - |E| - |K| - |P|] in S;
    }
  }

  /** Cues grouped by kind, in scan order. */
  predicate KindsInScanOrder(cues: seq<Cue>) {
    forall i, j :: 0 <= i < j < |cues| ==> KindRank(cues[i].kind) <= KindRank(cues[j].kind)
  }

  /** The cues of kind `k` follow `table`'s order. */
  predicate KindInTableOrder(cues: seq<Cue>, k: Kind, table: Table) {
    forall i, j :: 0 <= i < j < |cues| && cues[i].kind == k && cues[j].kind == k ==>
      KeyIndex(table, cues[i].span) < KeyIndex(table, cues[j].span)
  }

  /** "!!!" never comes after "???". */
  predicate ExclaimBeforeQuestion(cues: seq<Cue>) {
    forall i, j :: 0 <= i < j < |cues| ==> !(cues[i] == QuestionCue && cues[j] == ExclaimCue)
  }

  /** No cue appears twice. */
  predicate NoRepeats(cues: seq<Cue>) {
    forall i, j :: 0 <= i < j < |cues| ==> cues[i] != cues[j]
  }

  /** The groups a scan is made of never repeat a cue: table cues have distinct
      spans, the two punctuation cues differ and there is one style cue. */
  lemma GroupsNoRepeats(E: seq<Cue>, K: seq<Cue>, P: seq<Cue>, S: seq<Cue>, emoji: Table, keywords: Table)
    requires OfKind(E, Emoji) && OfKind(K, Keyword) && OfKind(P, Punctuation) && OfKind(S, Style)
    requires InTableOrder(E, emoji) && InTableOrder(K, keywords)
    requires P == [] || P == [ExclaimCue] || P == [QuestionCue] || P == [ExclaimCue, QuestionCue]
    requires S == [] || S == [CapsCue]
    ensures NoRepeats(E + K + P + S)
  {
    var all := E + K + P + S;
    forall i, j | 0 <= i < j < |all| ensures all[i] != all[j] {
      GroupAt(E, K, P, S, i);
      GroupAt(E, K, P, S, j);
    }
  }

  /** Four groups of the four kinds, in scan order, with the two table groups
      each in its table's order, make a sequence grouped by kind whose emoji
      and keyword cues follow their tables. */
  lemma GroupsOrdered(E: seq<Cue>, K: seq<Cue>, P: seq<Cue>, S: seq<Cue>, emoji: Table, keywords: Table)
    requires OfKind(E, Emoji) && OfKind(K, Keyword) && OfKind(P, Punctuation) && OfKind(S, Style)
    requires InTableOrder(E, emoji) && InTableOrder(K, keywords)
    requires P == [] || P == [ExclaimCue] || P == [QuestionCue] || P == [ExclaimCue, QuestionCue]
    ensures KindsInScanOrder(E + K + P + S) && ExclaimBeforeQuestion(E + K + P + S)
    ensures KindInTableOrder(E + K + P + S, Emoji, emoji)
    ensures KindInTableOrder(E + K + P + S, Keyword, keywords)
  {
    var all := E + K + P + S;
    forall i, j | 0 <= i < j < |all|
      ensures KindRank(all[i].kind) <= KindRank(all[j].kind)
      ensures !(all[i] == QuestionCue && all[j] == ExclaimCue)
      ensures all[i].kind == all[j].kind == Emoji ==>
                KeyIndex(emoji, all[i].span) < KeyIndex(emoji, all[j].span)
      ensures all[i].kind == all[j].kind == Keyword ==>
                KeyIndex(keywords, all[i].span) < KeyIndex(keywords, all[j].span)
    {
      GroupAt(E, K, P, S, i);
      GroupAt(E, K, P, S, j);
    }
  }

  /** A scan is grouped by kind in scan order, and inside the emoji and keyword
      groups the cues follow their table's order. */
  lemma ScanOrdered(emoji: Table, keywords: Table, text: string)
    requires DistinctKeys(emoji) && DistinctKeys(keywords)
    ensures KindsInScanOrder(ScanCues(emoji, keywords, text))
    ensures ExclaimBeforeQuestion(ScanCues(emoji, keywords, text))
    ensures KindInTableOrder(ScanCues(emoji, keywords, text), Emoji, emoji)
    ensures KindInTableOrder(ScanCues(emoji, keywords, text), Keyword, keywords)
    ensures NoRepeats(ScanCues(emoji, keywords, text))
  {
    var E, K, P, S := TableCues(emoji, text, Emoji), TableCues(keywords, Lower(text), Keyword),
                      PunctuationCues(text), StyleCues(text);
    TableCuesInTableOrder(emoji, text, Emoji);
    TableCuesInTableOrder(keywords, Lower(text), Keyword);
    GroupsOrdered(E, K, P, S, emoji, keywords);
    GroupsNoRepeats(E, K, P, S, emoji, keywords);
  }

  /** Where a cue of a scan can come from, by its kind. */
  lemma ScanMembers(emoji: Table, keywords: Table, text: string, c: Cue)
    requires c in ScanCues(emoji, keywords, text)
    ensures c.kind == Emoji ==> c in TableCues(emoji, text, Emoji)
    ensures c.kind == Keyword ==> c in TableCues(keywords, Lower(text), Keyword)
    ensures c.kind == Punctuation ==> c in PunctuationCues(text)
    ensures c.kind == Style ==> c in StyleCues(text)
  {
    var E, K, P, S := TableCues(emoji, text, Emoji), TableCues(keywords, Lower(text), Keyword),
                      PunctuationCues(text), StyleCues(text);
    assert c in E + K + P + S;
  }

  /** What backs a cue found in `text`: an emoji cue's span is an emoji table
      key found in the raw text, a keyword cue's span a keyword found in the
      lower-cased text; "!!!" needs three "!", "???" three "?", and ALL_CAPS a
      shouted word of length three or more. */
  predicate Justified(c: Cue, text: string, emoji: Table, keywords: Table) {
    && (c.kind == Emoji ==> Contains(text, c.span) && (c.span, c.reason) in emoji)
    && (c.kind == Keyword ==> Contains(Lower(text), c.span) && (c.span, c.reason) in keywords)
    && (c.kind == Punctuation ==> c == ExclaimCue || c == QuestionCue)
    && (c == ExclaimCue ==> Count(text, '!') >= 3)
    && (c == QuestionCue ==> Count(text, '?') >= 3)
    && (c.kind == Style ==> c == CapsCue && HasShoutedWord(text))
  }

  lemma ScanJustified(emoji: Table, keywords: Table, text: string)
    ensures forall c :: c in ScanCues(emoji, keywords, text) ==> Justified(c, text, emoji, keywords)
  {
    forall c | c in ScanCues(emoji, keywords, text) ensures Justified(c, text, emoji, keywords) {
      ScanMembers(emoji, keywords, text, c);
    }
  }

  /** Each of "!!!", "???" and ALL_CAPS is in a scan exactly when its
      condition holds. */
  lemma ScanMarkCues(emoji: Table, keywords: Table, text: string)
    ensures ExclaimCue in ScanCues(emoji, keywords, text) <==> Count(text, '!') >= 3
    ensures QuestionCue in ScanCues(emoji, keywords, text) <==> Count(text, '?') >= 3
    ensures CapsCue in ScanCues(emoji, keywords, text) <==> HasShoutedWord(text)
  {
    var E, K, P, S := TableCues(emoji, text, Emoji), TableCues(keywords, Lower(text), Keyword),
                      PunctuationCues(text), StyleCues(text);
    var all := ScanCues(emoji, keywords, text);
    assert all == E + K + P + S;
    if ExclaimCue in all {
      ScanMembers(emoji, keywords, text, ExclaimCue);
    }
    if QuestionCue in all {
      ScanMembers(emoji, keywords, text, QuestionCue);
    }
    if CapsCue in all {
      ScanMembers(emoji, keywords, text, CapsCue);
    }
  }

  /** The four order properties survive the cut to a prefix. */
  lemma PrefixKeepsOrder(h: seq<Cue>, all: seq<Cue>, emoji: Table, keywords: Table)
    requires h <= all
    requires KindsInScanOrder(all) && NoRepeats(all) && ExclaimBeforeQuestion(all)
    requires KindInTableOrder(all, Emoji, emoji) && KindInTableOrder(all, Keyword, keywords)
    ensures KindsInScanOrder(h) && NoRepeats(h) && ExclaimBeforeQuestion(h)
    ensures KindInTableOrder(h, Emoji, emoji) && KindInTableOrder(h, Keyword, keywords)
  {
    assert forall i :: 0 <= i < |h| ==> h[i] == all[i];
  }

  lemma TablesHaveDistinctKeys()
    ensures DistinctKeys(EmojiTable) && DistinctKeys(KeywordTable)
  {
  }

  /** What `_extract_highlights` returns is grouped by kind in scan order
      (emoji, keywords, punctuation, style), with "!!!" before "???"; emoji
      and keyword cues follow their table's order; and no cue appears twice,
      so each punctuation and style cue appears at most once. */
  lemma HighlightsOrdered(text: string)
    ensures KindsInScanOrder(Highlights(text)) && NoRepeats(Highlights(text))
    ensures ExclaimBeforeQuestion(Highlights(text))
    ensures KindInTableOrder(Highlights(text), Emoji, EmojiTable)
    ensures KindInTableOrder(Highlights(text), Keyword, KeywordTable)
  {
    TablesHaveDistinctKeys();
    ScanOrdered(EmojiTable, KeywordTable, text);
    PrefixKeepsOrder(Highlights(text), AllCues(text), EmojiTable, KeywordTable);
  }

  /** Every highlight is backed by the text (see `Justified`). */
  lemma HighlightsJustified(text: string)
    ensures forall c :: c in Highlights(text) ==> Justified(c, text, EmojiTable, KeywordTable)
  {
    ScanJustified(EmojiTable, KeywordTable, text);
    assert forall c :: c in Highlights(text) ==> c in AllCues(text);
  }

  /** Before the cut to eight, each of "!!!", "???" and ALL_CAPS is found
      exactly when its condition holds. (After the cut a mark cue can only
      be missing, never added: see `HighlightsJustified`.) */
  lemma MarkCues(text: string)
    ensures ExclaimCue in AllCues(text) <==> Count(text, '!') >= 3
    ensures QuestionCue in AllCues(text) <==> Count(text, '?') >= 3
    ensures CapsCue in AllCues(text) <==> HasShoutedWord(text)
  {
    ScanMarkCues(EmojiTable, KeywordTable, text);
  }

  /** A table none of whose keys occurs in `hay` yields no cue. */
  lemma {:induction false} NoKeyNoCue(table: Table, hay: string, kind: Kind)
    requires forall j :: 0 <= j < |table| ==> !Contains(hay, table[j].0)
    ensures TableCues(table, hay, kind) == []
  {
    if table != [] {
      var init := table[..|table| - 1];
      assert forall j :: 0 <= j < |init| ==> init[j] == table[j];
      NoKeyNoCue(init, hay, kind);
    }
  }
}
