/**
  The few string operations the scoring rules use: Python's `str()` on an
  optional field, `.lower()`, `startswith`, the substring test `kw in text`,
  counting how many keywords of a fixed list occur in a text, and the
  goal-clarity pattern `\d+%|\d+ percent`.
 */
module Text {
  import opened Wrappers

  /** `str(v)` for a field that is either a string or `None`. */
  function PyStr(v: Option<string>): string {
    match v
    case None => "None"
    case Some(t) => t
  }

  function LowerChar(c: char): char {
    if 'A' <= c <= 'Z' then (c as int + 32) as char else c
  }

  /** `.lower()`, restricted to the ASCII letters. */
  function Lower(s: string): (r: string)
    ensures |r| == |s|
    ensures forall i :: 0 <= i < |r| ==> !('A' <= r[i] <= 'Z')
    ensures forall i :: 0 <= i < |s| && 'A' <= s[i] <= 'Z' ==> r[i] as int == s[i] as int + 32
    ensures forall i :: 0 <= i < |s| && !('A' <= s[i] <= 'Z') ==> r[i] == s[i]
  {
    seq(|s|, i requires 0 <= i < |s| => LowerChar(s[i]))
  }

  /** Lowering twice is lowering once. */
  lemma LowerIdempotent(s: string)
    ensures Lower(Lower(s)) == Lower(s)
  {
    var t := Lower(s);
    assert forall i :: 0 <= i < |t| ==> Lower(t)[i] == t[i];
  }

  predicate IsDigit(c: char) {
    '0' <= c <= '9'
  }

  /** `s.startswith(p)` */
  predicate StartsWith(s: string, p: string) {
    |p| <= |s| && s[..|p|] == p
  }

  /** `kw in text`: is kw a substring of text? Scans the text from the left. */
  predicate Contains(text: string, kw: string)
    decreases |text|
  {
    StartsWith(text, kw) || (|text| > 0 && Contains(text[1..], kw))
  }

  /** The substring test as a statement about positions. */
  ghost predicate OccursAt(text: string, kw: string, i: int) {
    0 <= i && i + |kw| <= |text| && text[i..i + |kw|] == kw
  }

  /** The scan finds kw exactly when kw occurs at some position of the text. */
  lemma {:induction false} ContainsIffOccurs(text: string, kw: string)
    ensures Contains(text, kw) <==> exists i :: OccursAt(text, kw, i)
    decreases |text|
  {
    if StartsWith(text, kw) {
      assert OccursAt(text, kw, 0);
    } else if |text| == 0 {
      assert forall i :: !OccursAt(text, kw, i);
    } else {
      ContainsIffOccurs(text[1..], kw);
      if Contains(text[1..], kw) {
        var i :| OccursAt(text[1..], kw, i);
        assert text[1..][i..i + |kw|] == text[i + 1..i + 1 + |kw|];
        assert OccursAt(text, kw, i + 1);
      } else {
        forall i | OccursAt(text, kw, i) ensures false {
          assert i != 0;
          assert i + |kw| <= |text|;
          var tail := text[1..];
          assert tail[i - 1..i - 1 + |kw|] == text[i..i + |kw|];
          assert OccursAt(text[1..], kw, i - 1);
        }
      }
    }
  }

  /** A keyword longer than the text never occurs in it. */
  lemma {:induction false} LongKeywordAbsent(text: string, kw: string)
    requires |text| < |kw|
    ensures !Contains(text, kw)
    decreases |text|
  {
    if |text| > 0 {
      LongKeywordAbsent(text[1..], kw);
    }
  }

  /**
    `sum(1 for kw in keywords if kw in text)`: each keyword of the list is
    counted once when it occurs, however often it occurs.
   */
  function CountMatches(keywords: seq<string>, text: string): (n: nat)
    ensures n <= |keywords|
    ensures n == 0 <==> forall k :: 0 <= k < |keywords| ==> !Contains(text, keywords[k])
  {
    if keywords == [] then 0
    else (if Contains(text, keywords[0]) then 1 else 0) + CountMatches(keywords[1..], text)
  }

  /** The empty text holds no keyword of a list without empty keywords. */
  lemma {:induction false} EmptyTextMatchesNothing(keywords: seq<string>)
    requires forall k :: 0 <= k < |keywords| ==> keywords[k] != ""
    ensures CountMatches(keywords, "") == 0
  {
    forall k | 0 <= k < |keywords| ensures !Contains("", keywords[k]) {
      LongKeywordAbsent("", keywords[k]);
    }
  }

  ghost function MatchedKeywords(keywords: seq<string>, text: string): set<string> {
    set k | k in keywords && Contains(text, k)
  }

  /** For a list without repetitions the count is the number of distinct keywords found. */
  lemma {:induction false} CountIsDistinctKeywords(keywords: seq<string>, text: string)
    requires forall i, j :: 0 <= i < j < |keywords| ==> keywords[i] != keywords[j]
    ensures CountMatches(keywords, text) == |MatchedKeywords(keywords, text)|
  {
    if keywords != [] {
      var rest := keywords[1..];
      DistinctTail(keywords);
      CountIsDistinctKeywords(rest, text);
      MatchedSplit(keywords, text);
    }
  }

  /** The tail of a list without repetitions has none, and does not hold the head. */
  lemma DistinctTail(keywords: seq<string>)
    requires keywords != []
    requires forall i, j :: 0 <= i < j < |keywords| ==> keywords[i] != keywords[j]
    ensures forall i, j :: 0 <= i < j < |keywords[1..]| ==> keywords[1..][i] != keywords[1..][j]
    ensures keywords[0] !in keywords[1..]
  {
    var rest := keywords[1..];
    forall j | 0 <= j < |rest| ensures rest[j] != keywords[0] {
      assert rest[j] == keywords[j + 1];
    }
  }

  /** The keywords found in a list are those found in its tail, plus the head when it occurs. */
  lemma MatchedSplit(keywords: seq<string>, text: string)
    requires keywords != [] && keywords[0] !in keywords[1..]
    ensures keywords[0] !in MatchedKeywords(keywords[1..], text)
    ensures Contains(text, keywords[0]) ==>
      MatchedKeywords(keywords, text) == MatchedKeywords(keywords[1..], text) + {keywords[0]}
    ensures !Contains(text, keywords[0]) ==>
      MatchedKeywords(keywords, text) == MatchedKeywords(keywords[1..], text)
  {
    assert forall k :: k in keywords <==> k == keywords[0] || k in keywords[1..];
  }

  /** What follows a digit in a match of `\d+%|\d+ percent`. */
  predicate PercentSuffixAt(t: string, j: int)
    requires 0 <= j <= |t|
  {
    (j < |t| && t[j] == '%') || StartsWith(t[j..], " percent")
  }

  /**
    `re.search(r'\d+%|\d+ percent', t)` succeeds: some digit is followed
    directly by `%` or by ` percent` (the last digit of the `\d+` run).
   */
  predicate HasPercentPattern(t: string) {
    exists i :: 0 <= i < |t| && IsDigit(t[i]) && PercentSuffixAt(t, i + 1)
  }
}
