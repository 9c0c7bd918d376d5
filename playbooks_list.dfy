/** The playbook cards' word count and reading time. */
module PlaybooksList {

  import opened Text

  const WordsPerMinute: nat := 200

  /** End of the word that starts at `k`: the first whitespace position at or
      after `k`, or |s| when there is none. */
  function WordEnd(s: string, k: nat): (e: nat)
    requires k <= |s|
    ensures k <= e <= |s|
    ensures forall j :: k <= j < e ==> !IsWhitespace(s[j])
    ensures e < |s| ==> IsWhitespace(s[e])
    decreases |s| - k
  {
    if k == |s| || IsWhitespace(s[k]) then k else WordEnd(s, k + 1)
  }

  /** Maximal whitespace runs in `s` from position `k` on, counted by their
      first characters; `afterWhitespace` says whether `s[k - 1]` was whitespace. */
  function RunsFrom(s: string, k: nat, afterWhitespace: bool): nat
    requires k <= |s|
    decreases |s| - k
  {
    if k == |s| then 0
    else (if IsWhitespace(s[k]) && !afterWhitespace then 1 else 0) + RunsFrom(s, k + 1, IsWhitespace(s[k]))
  }

  function WhitespaceRuns(s: string): nat
  {
    RunsFrom(s, 0, false)
  }

  /** A piece of `split(/\s+/)`: no whitespace in it. */
  predicate IsWord(w: string)
  {
    forall j :: 0 <= j < |w| ==> !IsWhitespace(w[j])
  }

  /** The pieces of `s[k..]` between maximal whitespace runs. */
  function SplitFrom(s: string, k: nat): (pieces: seq<string>)
    requires k <= |s|
    ensures |pieces| >= 1
    decreases |s| - k
  {
    var i := WordEnd(s, k);
    if i == |s| then [s[k..]]
    else [s[k..i]] + SplitFrom(s, SkipWhitespace(s, i))
  }

  /** `s.split(/\s+/)`: the pieces between maximal whitespace runs, including
      the empty piece before a leading run and after a trailing one. */
  function Split(s: string): seq<string>
  {
    SplitFrom(s, 0)
  }

  lemma {:induction false} SplitFromPiecesAreWords(s: string, k: nat)
    requires k <= |s|
    ensures forall p :: 0 <= p < |SplitFrom(s, k)| ==> IsWord(SplitFrom(s, k)[p])
    decreases |s| - k
  {
    var i := WordEnd(s, k);
    if i < |s| {
      var rest := SplitFrom(s, SkipWhitespace(s, i));
      SplitFromPiecesAreWords(s, SkipWhitespace(s, i));
      assert SplitFrom(s, k) == [s[k..i]] + rest;
      assert forall p :: 1 <= p < |SplitFrom(s, k)| ==> SplitFrom(s, k)[p] == rest[p - 1];
    }
  }

  /** No piece of `split(/\s+/)` holds a whitespace character. */
  lemma SplitPiecesAreWords(s: string)
    ensures forall p :: 0 <= p < |Split(s)| ==> IsWord(Split(s)[p])
  {
    SplitFromPiecesAreWords(s, 0);
  }

  lemma {:induction false} SkipWord(s: string, k: nat, e: nat)
    requires k <= e <= |s| && forall j :: k <= j < e ==> !IsWhitespace(s[j])
    ensures RunsFrom(s, k, false) == RunsFrom(s, e, false)
    decreases e - k
  {
    if k < e {
      SkipWord(s, k + 1, e);
    }
  }

  lemma {:induction false} SkipRun(s: string, k: nat, e: nat)
    requires k <= e <= |s| && forall j :: k <= j < e ==> IsWhitespace(s[j])
    ensures RunsFrom(s, k, true) == RunsFrom(s, e, true)
    decreases e - k
  {
    if k < e {
      SkipRun(s, k + 1, e);
    }
  }

  lemma {:induction false} SplitFromCountsRuns(s: string, k: nat)
    requires k <= |s|
    ensures |SplitFrom(s, k)| == RunsFrom(s, k, false) + 1
    decreases |s| - k
  {
    var i := WordEnd(s, k);
    SkipWord(s, k, i);
    if i < |s| {
      var e := SkipWhitespace(s, i);
      SkipRun(s, i + 1, e);
      assert RunsFrom(s, e, true) == RunsFrom(s, e, false);
      SplitFromCountsRuns(s, e);
    }
  }

  /** `split(/\s+/)` yields one piece more than there are whitespace runs. */
  lemma SplitCountsRuns(s: string)
    ensures |Split(s)| == WhitespaceRuns(s) + 1
  {
    SplitFromCountsRuns(s, 0);
  }

  /** A leading whitespace run produces an empty first piece. */
  lemma LeadingWhitespaceGivesEmptyPiece(s: string)
    requires s != [] && IsWhitespace(s[0])
    ensures Split(s)[0] == ""
  {
  }

  lemma {:induction false} TrailingWhitespaceEndsSplitFrom(s: string, k: nat)
    requires k <= |s| && s != [] && IsWhitespace(s[|s| - 1])
    ensures SplitFrom(s, k)[|SplitFrom(s, k)| - 1] == ""
    decreases |s| - k
  {
    var i := WordEnd(s, k);
    if i < |s| {
      var e := SkipWhitespace(s, i);
      var rest := SplitFrom(s, e);
      TrailingWhitespaceEndsSplitFrom(s, e);
      assert SplitFrom(s, k) == [s[k..i]] + rest;
    } else {
      assert k == |s|;
    }
  }

  /** A trailing whitespace run produces an empty last piece. */
  lemma TrailingWhitespaceGivesEmptyPiece(s: string)
    requires s != [] && IsWhitespace(s[|s| - 1])
    ensures Split(s)[|Split(s)| - 1] == ""
  {
    TrailingWhitespaceEndsSplitFrom(s, 0);
  }

  /** `getWordCount`: the number of pieces, i.e. whitespace runs plus one, so
      never zero, even for empty content. */
  function WordCount(content: string): (n: nat)
    ensures n == WhitespaceRuns(content) + 1
    ensures n >= 1
  {
    SplitCountsRuns(content);
    |Split(content)|
  }

  /** Content without whitespace counts as one word. */
  lemma NoWhitespaceIsOneWord(content: string)
    requires forall j :: 0 <= j < |content| ==> !IsWhitespace(content[j])
    ensures WordCount(content) == 1
  {
    SkipWord(content, 0, |content|);
  }

  /** `Math.ceil(wordCount / 200)`: the least number of minutes whose 200 words
      each cover the count. */
  function ReadTime(wordCount: nat): (minutes: nat)
    ensures WordsPerMinute * (minutes - 1) < wordCount <= WordsPerMinute * minutes
    ensures wordCount >= 1 ==> minutes >= 1
  {
    (wordCount + WordsPerMinute - 1) / WordsPerMinute
  }
}
