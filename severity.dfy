/**
 * The severity classifier of analyze_and_collab.py: a keyword scan over the
 * last 2000 characters of a summary, and the excerpt of matching lines that
 * goes into the escalation message.
 */
module Severity {
  import opened Text

  const SeverityKeywords: seq<string> := [
    "CRITICAL",
    "FAILURE",
    "OUTAGE",
    "DOWN",
    "MAJOR ISSUE",
    "HIGH IMPACT",
    "DATA LOSS",
    "Unable to connect"
  ]

  /** The list without its one mixed-case entry. */
  const UpperCaseKeywords: seq<string> := SeverityKeywords[..7]

  /** Characters of the summary's end that are scanned. */
  const TailLength: nat := 2000

  /** At most this many matching lines go into the excerpt. */
  const ExcerptLimit: nat := 5

  const NoLineMatchNotice: string := "Critical indicators found in summary tail."

  /** Keywords that can be found inside a stripped line: nonempty, no line break, no outer blank. */
  ghost predicate WellFormedKeywords(keywords: seq<string>) {
    forall k :: 0 <= k < |keywords| ==>
      keywords[k] != [] && NoLineBreak(keywords[k])
      && !IsSpace(keywords[k][0]) && !IsSpace(keywords[k][|keywords[k]| - 1])
  }

  /** Printable ASCII text: no line breaks, and the only blank is the space. */
  ghost predicate Printable(s: string) {
    forall i :: 0 <= i < |s| ==> ' ' <= s[i] <= '~'
  }

  lemma PrintableKeyword(s: string)
    requires Printable(s) && s != [] && s[0] != ' ' && s[|s| - 1] != ' '
    ensures NoLineBreak(s) && !IsSpace(s[0]) && !IsSpace(s[|s| - 1])
  {
  }

  lemma SeverityKeywordsWellFormed()
    ensures WellFormedKeywords(SeverityKeywords)
  {
    forall k | 0 <= k < |SeverityKeywords|
      ensures Printable(SeverityKeywords[k])
    {
    }
    forall k | 0 <= k < |SeverityKeywords|
      ensures SeverityKeywords[k] != [] && NoLineBreak(SeverityKeywords[k])
      ensures !IsSpace(SeverityKeywords[k][0]) && !IsSpace(SeverityKeywords[k][|SeverityKeywords[k]| - 1])
    {
      PrintableKeyword(SeverityKeywords[k]);
    }
  }

  /** `any(keyword in text for keyword in keywords)`. */
  function AnyKeywordIn(keywords: seq<string>, text: string): (r: bool)
    ensures r <==> exists k :: 0 <= k < |keywords| && IsSubstring(keywords[k], text)
  {
    if keywords == [] then false
    else
      var rest := AnyKeywordIn(keywords[1..], text);
      assert forall k :: 1 <= k < |keywords| ==> keywords[k] == keywords[1..][k - 1];
      Contains(text, keywords[0]) || rest
  }

  /** `summary[-2000:]`: the last 2000 characters, or the whole of a shorter summary. */
  function SummaryTail(summary: string): (r: string)
    ensures |r| == if |summary| <= TailLength then |summary| else TailLength
    ensures r == summary[|summary| - |r|..]
  {
    Tail(summary, TailLength)
  }

  function IsCriticalWith(keywords: seq<string>, summary: string): bool {
    AnyKeywordIn(keywords, Upper(SummaryTail(summary)))
  }

  /** `is_critical(summary)`: some keyword occurs in the uppercased tail of the summary. */
  function IsCritical(summary: string): (r: bool)
    ensures r <==> (exists k :: 0 <= k < |SeverityKeywords| &&
                              IsSubstring(SeverityKeywords[k], Upper(SummaryTail(summary))))
  {
    IsCriticalWith(SeverityKeywords, summary)
  }

  /** Text in front of the last 2000 characters never changes the verdict. */
  lemma IsCriticalIgnoresPrefix(prefix: string, summary: string)
    requires |summary| >= TailLength
    ensures IsCritical(prefix + summary) == IsCritical(summary)
    ensures SummaryTail(prefix + summary) == SummaryTail(summary)
  {
    var whole := prefix + summary;
    assert whole[|whole| - TailLength..] == summary[|summary| - TailLength..];
  }

  /** A summary of at most 2000 characters is scanned whole. */
  lemma IsCriticalOnShortSummary(summary: string)
    requires |summary| <= TailLength
    ensures IsCritical(summary) <==>
      exists k :: 0 <= k < |SeverityKeywords| && IsSubstring(SeverityKeywords[k], Upper(summary))
  {
  }

  /** A keyword with a lower-case letter never occurs in uppercased text. */
  lemma LowerCaseKeywordNeverMatches(keyword: string, text: string, at: nat)
    requires at < |keyword| && IsLower(keyword[at])
    ensures !IsSubstring(keyword, Upper(text))
  {
    var u := Upper(text);
    forall i | OccursAt(keyword, u, i)
      ensures u[i + at] == keyword[at]
    {
      assert u[i..i + |keyword|][at] == u[i + at];
    }
  }

  /** The entry "Unable to connect" can never match: dropping it changes no verdict. */
  lemma MixedCaseKeywordInert(text: string)
    ensures AnyKeywordIn(SeverityKeywords, Upper(text)) == AnyKeywordIn(UpperCaseKeywords, Upper(text))
  {
    LowerCaseKeywordNeverMatches(SeverityKeywords[7], text, 1);
    assert forall k :: 0 <= k < 7 ==> UpperCaseKeywords[k] == SeverityKeywords[k];
  }

  lemma IsCriticalWithoutMixedCaseKeyword(summary: string)
    ensures IsCritical(summary) == IsCriticalWith(UpperCaseKeywords, summary)
  {
    MixedCaseKeywordInert(SummaryTail(summary));
  }

  /** The test applied to each line of the tail. */
  predicate LineFlagged(keywords: seq<string>, line: string) {
    AnyKeywordIn(keywords, Upper(line))
  }

  /** `[line.strip() for line in lines if any(keyword in line.upper() ...)]`. */
  function MatchingLinesWith(keywords: seq<string>, lines: seq<string>): (r: seq<string>)
    ensures |r| <= |lines|
  {
    if lines == [] then []
    else
      (if LineFlagged(keywords, lines[0]) then [Strip(lines[0])] else [])
      + MatchingLinesWith(keywords, lines[1..])
  }

  /** The list comprehension keeps the order of the lines: it distributes over concatenation. */
  lemma {:induction false} MatchingLinesAppend(keywords: seq<string>, a: seq<string>, b: seq<string>)
    ensures MatchingLinesWith(keywords, a + b) == MatchingLinesWith(keywords, a) + MatchingLinesWith(keywords, b)
    decreases |a|
  {
    if a == [] {
      assert a + b == b;
    } else {
      var head := if LineFlagged(keywords, a[0]) then [Strip(a[0])] else [];
      assert (a + b)[0] == a[0];
      assert (a + b)[1..] == a[1..] + b;
      var x := MatchingLinesWith(keywords, a[1..] + b);
      var y := MatchingLinesWith(keywords, a[1..]);
      var z := MatchingLinesWith(keywords, b);
      assert MatchingLinesWith(keywords, a + b) == head + x;
      assert MatchingLinesWith(keywords, a) == head + y;
      MatchingLinesAppend(keywords, a[1..], b);
      assert head + (y + z) == (head + y) + z;
    }
  }

  /** Every flagged line contributes its stripped text. */
  lemma {:induction false} MatchingLinesComplete(keywords: seq<string>, lines: seq<string>, i: nat)
    requires i < |lines| && LineFlagged(keywords, lines[i])
    ensures Strip(lines[i]) in MatchingLinesWith(keywords, lines)
    decreases i
  {
    if i > 0 {
      MatchingLinesComplete(keywords, lines[1..], i - 1);
    }
  }

  /** Uppercasing keeps whitespace whitespace and everything else not whitespace. */
  lemma UpperCharSpace(c: char)
    ensures IsSpace(UpperChar(c)) <==> IsSpace(c)
  {
  }

  /** An occurrence inside a window of the text is an occurrence in the window. */
  lemma OccurrenceInWindow(needle: string, s: string, p: int, lo: int, hi: int)
    requires OccursAt(needle, s, p) && 0 <= lo <= p && p + |needle| <= hi <= |s|
    ensures OccursAt(needle, s[lo..hi], p - lo)
  {
    var w := s[lo..hi];
    var q := p - lo;
    var a, b := w[q..q + |needle|], s[p..p + |needle|];
    assert forall t :: 0 <= t < |needle| ==> a[t] == b[t];
  }

  lemma MatchingLinesUnfold(keywords: seq<string>, lines: seq<string>)
    requires lines != []
    ensures LineFlagged(keywords, lines[0]) ==>
      MatchingLinesWith(keywords, lines) == [Strip(lines[0])] + MatchingLinesWith(keywords, lines[1..])
    ensures !LineFlagged(keywords, lines[0]) ==>
      MatchingLinesWith(keywords, lines) == MatchingLinesWith(keywords, lines[1..])
  {
  }

  /** An occurrence whose end characters are not blank lies inside the stripped part of the line. */
  lemma OccurrenceInsideStrip(keyword: string, line: string, p: int)
    requires keyword != [] && !IsSpace(keyword[0]) && !IsSpace(keyword[|keyword| - 1])
    requires OccursAt(keyword, Upper(line), p)
    ensures StripStart(line) <= p && p + |keyword| <= StripStart(line) + |Strip(line)|
  {
    KeywordCharInsideStrip(keyword, line, p, 0);
    KeywordCharInsideStrip(keyword, line, p, |keyword| - 1);
  }

  /** A non-blank keyword character sits over a character that `Strip` keeps. */
  lemma KeywordCharInsideStrip(keyword: string, line: string, p: int, t: int)
    requires OccursAt(keyword, Upper(line), p) && 0 <= t < |keyword| && !IsSpace(keyword[t])
    ensures StripStart(line) <= p + t < StripStart(line) + |Strip(line)|
  {
    var i := p + t;
    OccursAtChar(keyword, Upper(line), p, t);
    UpperCharSpace(line[i]);
    NonSpaceInsideStrip(line, i);
  }

  /** Stripping a flagged line keeps it flagged, since keywords have no outer blanks. */
  lemma StripKeepsKeyword(keyword: string, line: string)
    requires keyword != [] && !IsSpace(keyword[0]) && !IsSpace(keyword[|keyword| - 1])
    requires IsSubstring(keyword, Upper(line))
    ensures IsSubstring(keyword, Upper(Strip(line)))
  {
    var u := Upper(line);
    var p :| OccursAt(keyword, u, p);
    OccurrenceInsideStrip(keyword, line, p);
    var r := Strip(line);
    var lo := StripStart(line);
    var hi := lo + |r|;
    var w := line[lo..hi];
    assert r == w;
    OccurrenceInWindow(keyword, u, p, lo, hi);
    UpperSlice(line, lo, hi);
    var uw := Upper(w);
    assert uw == u[lo..hi];
    assert OccursAt(keyword, uw, p - lo);
  }

  lemma StripKeepsFlag(keywords: seq<string>, line: string)
    requires WellFormedKeywords(keywords) && LineFlagged(keywords, line)
    ensures LineFlagged(keywords, Strip(line))
  {
    var k :| 0 <= k < |keywords| && IsSubstring(keywords[k], Upper(line));
    StripKeepsKeyword(keywords[k], line);
  }

  /** Where the `j`-th matching line comes from: a flagged line of the input, stripped. */
  lemma {:induction false} MatchingLineOrigin(keywords: seq<string>, lines: seq<string>, j: nat) returns (i: nat)
    requires j < |MatchingLinesWith(keywords, lines)|
    ensures i < |lines| && LineFlagged(keywords, lines[i])
    ensures MatchingLinesWith(keywords, lines)[j] == Strip(lines[i])
    decreases |lines|
  {
    var tail := lines[1..];
    var all, rest := MatchingLinesWith(keywords, lines), MatchingLinesWith(keywords, tail);
    var flagged := LineFlagged(keywords, lines[0]);
    MatchingLinesUnfold(keywords, lines);
    if flagged && j == 0 {
      i := 0;
    } else {
      var j' := if flagged then j - 1 else j;
      assert all[j] == rest[j'];
      var i' := MatchingLineOrigin(keywords, tail, j');
      assert tail[i'] == lines[i' + 1];
      i := i' + 1;
    }
  }

  /** Each matching line is stripped, still flagged, nonempty and free of line breaks. */
  lemma MatchingLineFacts(keywords: seq<string>, lines: seq<string>, j: nat)
    requires WellFormedKeywords(keywords)
    requires forall i :: 0 <= i < |lines| ==> NoLineBreak(lines[i])
    requires j < |MatchingLinesWith(keywords, lines)|
    ensures var m := MatchingLinesWith(keywords, lines)[j];
      IsStripped(m) && LineFlagged(keywords, m) && m != [] && NoLineBreak(m)
  {
    var i := MatchingLineOrigin(keywords, lines, j);
    var m := MatchingLinesWith(keywords, lines)[j];
    StripKeepsFlag(keywords, lines[i]);
    StripNoLineBreak(lines[i]);
    var k :| 0 <= k < |keywords| && IsSubstring(keywords[k], Upper(m));
    var p :| OccursAt(keywords[k], Upper(m), p);
  }

  /** The stripped flagged lines of the summary's tail, in order; each still holds a keyword. */
  function MatchingLines(summary: string): (r: seq<string>)
    ensures forall j :: 0 <= j < |r| ==>
      IsStripped(r[j]) && LineFlagged(SeverityKeywords, r[j]) && r[j] != [] && NoLineBreak(r[j])
  {
    var lines := SplitLines(SummaryTail(summary));
    SeverityKeywordsWellFormed();
    MatchingLinesAllFacts(SeverityKeywords, lines);
    MatchingLinesWith(SeverityKeywords, lines)
  }

  lemma MatchingLinesAllFacts(keywords: seq<string>, lines: seq<string>)
    requires WellFormedKeywords(keywords)
    requires forall i :: 0 <= i < |lines| ==> NoLineBreak(lines[i])
    ensures forall j :: 0 <= j < |MatchingLinesWith(keywords, lines)| ==>
      var m := MatchingLinesWith(keywords, lines)[j];
      IsStripped(m) && LineFlagged(keywords, m) && m != [] && NoLineBreak(m)
  {
    forall j | 0 <= j < |MatchingLinesWith(keywords, lines)| {
      MatchingLineFacts(keywords, lines, j);
    }
  }

  /** `matching_lines[:5]`. */
  function ExcerptLines(summary: string): (r: seq<string>)
    ensures |r| <= ExcerptLimit && |r| <= |MatchingLines(summary)|
    ensures r == MatchingLines(summary)[..|r|]
    ensures |r| == ExcerptLimit || r == MatchingLines(summary)
  {
    var m := MatchingLines(summary);
    if |m| <= ExcerptLimit then m else m[..ExcerptLimit]
  }

  /**
   * What the escalation carries: the fixed notice when no line matched;
   * otherwise at most five lines taken in order from the tail's flagged lines,
   * each stripped and still holding a keyword, joined so that splitting the
   * excerpt gives them back.
   */
  function Excerpt(summary: string): (r: string)
    ensures MatchingLines(summary) == [] ==> r == NoLineMatchNotice
    ensures MatchingLines(summary) != [] ==> SplitLines(r) == ExcerptLines(summary)
    ensures forall j :: 0 <= j < |ExcerptLines(summary)| ==>
      IsStripped(ExcerptLines(summary)[j]) && LineFlagged(SeverityKeywords, ExcerptLines(summary)[j])
  {
    var m, e := MatchingLines(summary), ExcerptLines(summary);
    assert forall j :: 0 <= j < |e| ==> e[j] == m[j];
    if m != [] then
      SplitLinesJoin(e);
      Join("\n", e)
    else NoLineMatchNotice
  }

  /** Dropping "Unable to connect" from the list flags the same lines. */
  lemma {:induction false} MatchingLinesWithoutMixedCaseKeyword(lines: seq<string>)
    ensures MatchingLinesWith(SeverityKeywords, lines) == MatchingLinesWith(UpperCaseKeywords, lines)
    decreases |lines|
  {
    if lines != [] {
      MixedCaseKeywordInert(lines[0]);
      MatchingLinesWithoutMixedCaseKeyword(lines[1..]);
    }
  }

  /** So the excerpt does not depend on that entry either. */
  lemma ExcerptWithoutMixedCaseKeyword(summary: string)
    ensures MatchingLines(summary) == MatchingLinesWith(UpperCaseKeywords, SplitLines(SummaryTail(summary)))
  {
    MatchingLinesWithoutMixedCaseKeyword(SplitLines(SummaryTail(summary)));
  }

  /** Each line uppercased. */
  function UpperAll(lines: seq<string>): (r: seq<string>)
    ensures |r| == |lines|
    ensures forall k :: 0 <= k < |lines| ==> r[k] == Upper(lines[k])
  {
    if lines == [] then [] else [Upper(lines[0])] + UpperAll(lines[1..])
  }

  lemma {:induction false} FirstBreakUpper(s: string)
    ensures FirstBreak(Upper(s)) == FirstBreak(s)
    decreases |s|
  {
    if s != [] {
      var u := Upper(s);
      assert u[1..] == Upper(s[1..]);
      assert IsLineBreak(u[0]) <==> IsLineBreak(s[0]);
      FirstBreakUpper(s[1..]);
    }
  }

  /** Line splitting commutes with uppercasing, which keeps line breaks where they are. */
  lemma {:induction false} SplitLinesUpper(s: string)
    ensures SplitLines(Upper(s)) == UpperAll(SplitLines(s))
    decreases |s|
  {
    var u := Upper(s);
    if s != [] {
      var i := FirstBreak(s);
      FirstBreakUpper(s);
      if i == |s| {
        assert SplitLines(u) == [u];
        assert SplitLines(s) == [s];
      } else {
        var next := SplitLinesStep(s);
        var nextU := SplitLinesStep(u);
        UpperCharBreak(s[i]);
        if i + 1 < |s| {
          UpperCharBreak(s[i + 1]);
        }
        assert nextU == next;
        UpperSlice(s, 0, i);
        UpperSlice(s, next, |s|);
        assert u[..i] == Upper(s[..i]);
        assert u[next..] == Upper(s[next..]);
        SplitLinesUpper(s[next..]);
        var rest := SplitLines(s[next..]);
        assert SplitLines(s) == [s[..i]] + rest;
        assert UpperAll([s[..i]] + rest) == [Upper(s[..i])] + UpperAll(rest);
      }
    }
  }

  /** A keyword found in the uppercased tail lies within one line of the tail, which is then flagged. */
  lemma CriticalSummaryHasFlaggedLine(summary: string) returns (line: nat)
    requires IsCritical(summary)
    ensures line < |SplitLines(SummaryTail(summary))|
    ensures LineFlagged(SeverityKeywords, SplitLines(SummaryTail(summary))[line])
  {
    SeverityKeywordsWellFormed();
    var t := SummaryTail(summary);
    var u := Upper(t);
    var k :| 0 <= k < |SeverityKeywords| && IsSubstring(SeverityKeywords[k], u);
    line := OccurrenceWithinLine(SeverityKeywords[k], u);
    SplitLinesUpper(t);
    var lines := SplitLines(t);
    assert SplitLines(u)[line] == Upper(lines[line]);
  }

  /**
   * Whenever the summary is critical some line of its tail is flagged, because
   * no keyword holds a line break: the fixed notice is never what the
   * escalation carries.
   */
  lemma CriticalSummaryHasMatchingLine(summary: string)
    requires IsCritical(summary)
    ensures MatchingLines(summary) != []
    ensures Excerpt(summary) == Join("\n", ExcerptLines(summary))
  {
    var line := CriticalSummaryHasFlaggedLine(summary);
    MatchingLinesComplete(SeverityKeywords, SplitLines(SummaryTail(summary)), line);
  }
}
