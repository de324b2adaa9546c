/** The handful of Python `str` operations the analyzer relies on:
    `in` (substring test), `lower`, `isupper`, `count`, `split` and `strip`.
    Letters are ASCII letters; whitespace is the set of single code points
    that Python's `str.isspace` accepts. */
module Strings {

  /** Python's `str.isspace` for a single code point. */
  predicate IsSpace(c: char) {
    || c == ' '
    || ('\t' <= c <= '\r')
    || ('\U{1C}' <= c <= '\U{1F}')
    || c == '\U{85}' || c == '\U{A0}' || c == '\U{1680}'
    || ('\U{2000}' <= c <= '\U{200A}')
    || c == '\U{2028}' || c == '\U{2029}' || c == '\U{202F}' || c == '\U{205F}'
    || c == '\U{3000}'
  }

  predicate IsUpperLetter(c: char) { 'A' <= c <= 'Z' }

  predicate IsLowerLetter(c: char) { 'a' <= c <= 'z' }

  function LowerChar(c: char): (r: char)
    ensures !IsUpperLetter(r)
    ensures IsUpperLetter(c) ==> IsLowerLetter(r)
    // 'A' becomes 'a', 'B' becomes 'b', and so on
    ensures IsUpperLetter(c) ==> r as int - 'a' as int == c as int - 'A' as int
    ensures !IsUpperLetter(c) ==> r == c
  {
    if IsUpperLetter(c) then (c as int + 32) as char else c
  }

  /** `s.lower()` */
  function Lower(s: string): (r: string)
    ensures |r| == |s|
    ensures forall i :: 0 <= i < |s| ==> r[i] == LowerChar(s[i])
  {
    seq(|s|, i requires 0 <= i < |s| => LowerChar(s[i]))
  }

  /** `w.isupper()`: at least one cased character and no lower-case one. */
  predicate IsUpper(w: string): (b: bool)
    // an upper-case word is non-empty and changes under `lower()`
    ensures b ==> w != [] && Lower(w) != w
  {
    && (exists i :: 0 <= i < |w| && IsUpperLetter(w[i]))
    && (forall i :: 0 <= i < |w| ==> !IsLowerLetter(w[i]))
  }

  /** `needle in hay` */
  predicate Contains(hay: string, needle: string): (b: bool)
    ensures needle == [] ==> b
    ensures b ==> |needle| <= |hay|
  {
    needle <= hay || (hay != [] && Contains(hay[1..], needle))
  }

  ghost predicate OccursAt(hay: string, needle: string, i: nat) {
    i + |needle| <= |hay| && hay[i..i + |needle|] == needle
  }

  /** The recursive substring test agrees with "some slice equals the needle". */
  lemma {:induction false} ContainsIffOccurs(hay: string, needle: string)
    ensures Contains(hay, needle) <==> exists i: nat :: OccursAt(hay, needle, i)
  {
    if needle <= hay {
      assert OccursAt(hay, needle, 0);
    } else if hay == [] {
      forall i: nat ensures !OccursAt(hay, needle, i) {
      }
    } else {
      ContainsIffOccurs(hay[1..], needle);
      if Contains(hay[1..], needle) {
        var i: nat :| OccursAt(hay[1..], needle, i);
        OccursShift(hay, needle, i + 1);
      } else {
        forall i: nat | OccursAt(hay, needle, i) ensures false {
          if i > 0 {
            OccursShift(hay, needle, i);
          }
        }
      }
    }
  }

  /** An occurrence at `i > 0` is an occurrence at `i - 1` of the tail. */
  lemma OccursShift(hay: string, needle: string, i: nat)
    requires 0 < i && hay != []
    ensures OccursAt(hay, needle, i) <==> OccursAt(hay[1..], needle, i - 1)
  {
    if i + |needle| <= |hay| {
      assert hay[1..][i - 1..i - 1 + |needle|] == hay[i..i + |needle|];
    }
  }

  /** `s.count(c)` for a one-character argument. */
  function Count(s: string, c: char): (n: nat)
    ensures n == multiset(s)[c]
    ensures n <= |s|
  {
    if s == [] then 0
    else
      assert s == [s[0]] + s[1..];
      (if s[0] == c then 1 else 0) + Count(s[1..], c)
  }

  lemma {:induction false} CountPrefix(p: string, s: string, c: char)
    requires p <= s
    ensures Count(p, c) <= Count(s, c)
  {
    if p != [] {
      assert p[1..] <= s[1..];
      CountPrefix(p[1..], s[1..], c);
    }
  }

  /** Every character of a contained needle occurs in the haystack. */
  lemma {:induction false} ContainedCharsOccur(hay: string, needle: string)
    requires Contains(hay, needle)
    ensures forall i :: 0 <= i < |needle| ==> needle[i] in hay
  {
    if !(needle <= hay) {
      ContainedCharsOccur(hay[1..], needle);
      assert forall x :: x in hay[1..] ==> x in hay;
    } else {
      assert forall i :: 0 <= i < |needle| ==> needle[i] == hay[i];
    }
  }

  /** A needle with a character the haystack lacks does not occur in it. */
  lemma CharMissing(hay: string, needle: string, i: nat)
    requires i < |needle| && needle[i] !in hay
    ensures !Contains(hay, needle)
  {
    if Contains(hay, needle) {
      ContainedCharsOccur(hay, needle);
    }
  }

  /** A substring never holds more occurrences of `c` than the whole string. */
  lemma {:induction false} CountSubstring(s: string, needle: string, c: char)
    requires Contains(s, needle)
    ensures Count(needle, c) <= Count(s, c)
  {
    if needle <= s {
      CountPrefix(needle, s, c);
    } else {
      CountSubstring(s[1..], needle, c);
    }
  }

  /** Length of the run of non-whitespace characters that starts `s`. */
  function TokenLength(s: string): (n: nat)
    ensures n <= |s|
    ensures forall i :: 0 <= i < n ==> !IsSpace(s[i])
    ensures n < |s| ==> IsSpace(s[n])
  {
    if s == [] || IsSpace(s[0]) then 0 else 1 + TokenLength(s[1..])
  }

  /** `s.split()` with no separator: the maximal runs of non-whitespace. */
  function Split(s: string): (words: seq<string>)
    ensures forall w :: w in words ==> w != [] && forall i :: 0 <= i < |w| ==> !IsSpace(w[i])
    decreases |s|
  {
    if s == [] then []
    else if IsSpace(s[0]) then Split(s[1..])
    else
      var n := TokenLength(s);
      [s[..n]] + Split(s[n..])
  }

  function Flatten(words: seq<string>): string {
    if words == [] then [] else words[0] + Flatten(words[1..])
  }

  function RemoveSpaces(s: string): string {
    if s == [] then [] else (if IsSpace(s[0]) then [] else [s[0]]) + RemoveSpaces(s[1..])
  }

  lemma {:induction false} RemoveSpacesAfterToken(s: string, k: nat)
    requires k <= |s|
    requires forall i :: 0 <= i < k ==> !IsSpace(s[i])
    ensures RemoveSpaces(s) == s[..k] + RemoveSpaces(s[k..])
  {
    if k == 0 {
      assert s[k..] == s;
    } else {
      RemoveSpacesAfterToken(s[1..], k - 1);
      assert s[1..][k - 1..] == s[k..];
      assert [s[0]] + s[1..][..k - 1] == s[..k];
    }
  }

  /** Splitting loses exactly the whitespace: gluing the words back together
      gives the input with every whitespace character removed. */
  lemma {:induction false} SplitKeepsEverythingButSpace(s: string)
    ensures Flatten(Split(s)) == RemoveSpaces(s)
    decreases |s|
  {
    if s == [] {
    } else if IsSpace(s[0]) {
      SplitKeepsEverythingButSpace(s[1..]);
    } else {
      var n := TokenLength(s);
      SplitKeepsEverythingButSpace(s[n..]);
      RemoveSpacesAfterToken(s, n);
      assert Split(s) == [s[..n]] + Split(s[n..]);
      assert ([s[..n]] + Split(s[n..]))[1..] == Split(s[n..]);
    }
  }

  /** `w` is a maximal non-empty run of non-whitespace of `s`, starting at
      `i`: whitespace or an end of `s` on either side. */
  ghost predicate IsRun(s: string, i: nat, w: string) {
    && w != [] && i + |w| <= |s| && s[i..i + |w|] == w
    && (i == 0 || IsSpace(s[i - 1]))
    && (forall k :: 0 <= k < |w| ==> !IsSpace(w[k]))
    && (i + |w| == |s| || IsSpace(s[i + |w|]))
  }

  /** Dropping a prefix that ends before the run keeps it a run. */
  lemma RunAfterDrop(s: string, t: nat, i: nat, w: string)
    requires IsRun(s, i, w) && t <= i
    ensures IsRun(s[t..], i - t, w)
  {
    assert s[t..][i - t..i - t + |w|] == s[i..i + |w|];
  }

  /** A run at the start of `s` is its first token. */
  lemma RunIsToken(s: string, w: string)
    requires IsRun(s, 0, w)
    ensures TokenLength(s) == |w| && s[..TokenLength(s)] == w
  {
    var t := TokenLength(s);
    assert forall k :: 0 <= k < |w| ==> s[k] == w[k];
  }

  /** A maximal run of non-whitespace is one of the words of `s.split()`. */
  lemma {:induction false} MaximalRunInSplit(s: string, i: nat, w: string)
    requires IsRun(s, i, w)
    ensures w in Split(s)
    decreases |s|
  {
    var t := TokenLength(s);
    if t == 0 {
      SpaceStep(s, i, w);
      MaximalRunInSplit(s[1..], i - 1, w);
      InSplitAfterSpace(s, w);
    } else if i == 0 {
      RunIsToken(s, w);
      FirstTokenInSplit(s);
    } else {
      TokenStep(s, i, w);
      MaximalRunInSplit(s[t..], i - t, w);
      InSplitAfterToken(s, w);
    }
  }

  /** When `s` starts with whitespace the run lies in `s[1..]`. */
  lemma SpaceStep(s: string, i: nat, w: string)
    requires IsRun(s, i, w) && TokenLength(s) == 0
    ensures 1 <= i && IsSpace(s[0]) && IsRun(s[1..], i - 1, w)
  {
    assert s[i] == w[0];
    RunAfterDrop(s, 1, i, w);
  }

  /** When `s` starts with a token that is not the run, the run lies after it. */
  lemma TokenStep(s: string, i: nat, w: string)
    requires IsRun(s, i, w) && TokenLength(s) > 0 && i > 0
    ensures !IsSpace(s[0]) && TokenLength(s) < i
    ensures IsRun(s[TokenLength(s)..], i - TokenLength(s), w)
  {
    assert IsSpace(s[i - 1]);
    RunAfterDrop(s, TokenLength(s), i, w);
  }

  /** A run of `s[t..]` is a run of `s` when something separates it from
      `s[..t]`: the start of `s`, whitespace just before or just after the
      cut. */
  lemma RunAfterPrefix(s: string, t: nat, i: nat, w: string)
    requires t <= |s| && IsRun(s[t..], i, w)
    requires t == 0 || IsSpace(s[t - 1]) || (t < |s| && IsSpace(s[t]))
    ensures IsRun(s, t + i, w)
  {
    assert s[t..][i..i + |w|] == s[t + i..t + i + |w|];
    assert s[t..][i] == s[t + i];
  }

  /** Every word of `s.split()` is a maximal run of non-whitespace. */
  lemma {:induction false} SplitWordsAreRuns(s: string, w: string)
    requires w in Split(s)
    ensures exists i: nat :: IsRun(s, i, w)
    decreases |s|
  {
    if IsSpace(s[0]) {
      SplitWordsAreRuns(s[1..], w);
      var i: nat :| IsRun(s[1..], i, w);
      RunAfterPrefix(s, 1, i, w);
    } else {
      var t := TokenLength(s);
      assert Split(s) == [s[..t]] + Split(s[t..]);
      if w == s[..t] {
        assert IsRun(s, 0, w);
      } else {
        SplitWordsAreRuns(s[t..], w);
        var i: nat :| IsRun(s[t..], i, w);
        RunAfterPrefix(s, t, i, w);
      }
    }
  }

  /** The words of `s.split()` are exactly the maximal runs of
      non-whitespace of `s`. */
  lemma SplitIsRuns(s: string, w: string)
    ensures w in Split(s) <==> exists i: nat :: IsRun(s, i, w)
  {
    if w in Split(s) {
      SplitWordsAreRuns(s, w);
    }
    if exists i: nat :: IsRun(s, i, w) {
      var i: nat :| IsRun(s, i, w);
      MaximalRunInSplit(s, i, w);
    }
  }

  lemma InSplitAfterSpace(s: string, w: string)
    requires s != [] && IsSpace(s[0]) && w in Split(s[1..])
    ensures w in Split(s)
  {
  }

  lemma FirstTokenInSplit(s: string)
    requires s != [] && !IsSpace(s[0])
    ensures s[..TokenLength(s)] in Split(s)
  {
    assert Split(s) == [s[..TokenLength(s)]] + Split(s[TokenLength(s)..]);
  }

  lemma InSplitAfterToken(s: string, w: string)
    requires s != [] && !IsSpace(s[0]) && w in Split(s[TokenLength(s)..])
    ensures w in Split(s)
  {
    assert Split(s) == [s[..TokenLength(s)]] + Split(s[TokenLength(s)..]);
  }

  /** `s.lstrip()` */
  function StripLeft(s: string): (r: string)
    ensures |r| <= |s| && r == s[|s| - |r|..]
    ensures forall i :: 0 <= i < |s| - |r| ==> IsSpace(s[i])
    ensures r != [] ==> !IsSpace(r[0])
  {
    if s != [] && IsSpace(s[0]) then StripLeft(s[1..]) else s
  }

  /** `s.rstrip()` */
  function StripRight(s: string): (r: string)
    ensures |r| <= |s| && r == s[..|r|]
    ensures forall i :: |r| <= i < |s| ==> IsSpace(s[i])
    ensures r != [] ==> !IsSpace(r[|r| - 1])
  {
    if s != [] && IsSpace(s[|s| - 1]) then StripRight(s[..|s| - 1]) else s
  }

  /** `s.strip()`: empty exactly for all-whitespace text, and otherwise
      neither starting nor ending with whitespace. */
  function Strip(s: string): (r: string)
    ensures r == [] <==> forall i :: 0 <= i < |s| ==> IsSpace(s[i])
    ensures r != [] ==> !IsSpace(r[0]) && !IsSpace(r[|r| - 1])
  {
    var l := StripLeft(s);
    var r := StripRight(l);
    assert l != [] ==> l[0] == s[|s| - |l|];
    assert r != [] ==> r[0] == l[0];
    r
  }

  /** What `s.rstrip()` drops from the stripped-left part of `s` is
      whitespace of `s`. */
  lemma StripRightDropsSpace(s: string, l: string)
    requires |l| <= |s| && l == s[|s| - |l|..]
    ensures forall i :: |s| - |l| + |StripRight(l)| <= i < |s| ==> IsSpace(s[i])
  {
    var a := |s| - |l|;
    forall i | a + |StripRight(l)| <= i < |s| ensures IsSpace(s[i]) {
      assert s[i] == l[i - a];
    }
  }

  /** `t` is `s` with a whitespace-only prefix `s[..a]` and suffix `s[b..]`
      removed. */
  ghost predicate TrimmedAt(s: string, t: string, a: nat, b: nat) {
    && a <= b <= |s| && t == s[a..b]
    && (forall i :: 0 <= i < a ==> IsSpace(s[i]))
    && (forall i :: b <= i < |s| ==> IsSpace(s[i]))
  }

  /** `s.strip()` is `s` with a whitespace-only prefix and suffix removed. */
  lemma StripIsSlice(s: string)
    ensures exists a: nat, b: nat :: TrimmedAt(s, Strip(s), a, b)
  {
    var l := StripLeft(s);
    var r := StripRight(l);
    var a := |s| - |l|;
    assert Strip(s) == r;
    StripRightDropsSpace(s, l);
    assert r == s[a..a + |r|];
    assert TrimmedAt(s, r, a, a + |r|);
  }
}
