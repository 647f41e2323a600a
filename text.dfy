/** The few Python `str` operations the pipeline relies on, over `seq<char>`. */
module Text {

  /**
   * `str.isspace()` on one character: tab to carriage return, the four
   * separators 0x1C-0x1F, the blank, and the Unicode spaces (U+0085, U+00A0,
   * U+1680, U+2000-U+200A, U+2028, U+2029, U+202F, U+205F, U+3000).
   */
  predicate IsSpace(c: char) {
    ('\t' <= c <= '\r') || ('\U{1C}' <= c <= ' ') || ('\U{85}' <= c && IsWideSpace(c))
  }

  predicate IsWideSpace(c: char) {
    c == '\U{85}' || c == '\U{A0}' || c == '\U{1680}' || ('\U{2000}' <= c <= '\U{200A}')
    || c == '\U{2028}' || c == '\U{2029}' || c == '\U{202F}' || c == '\U{205F}' || c == '\U{3000}'
  }

  /**
   * A `str.splitlines()` line boundary: line feed to carriage return, the
   * separators 0x1C-0x1E, U+0085, U+2028 and U+2029 (`\r\n` counts once).
   */
  predicate IsLineBreak(c: char) {
    ('\n' <= c <= '\r') || ('\U{1C}' <= c <= '\U{1E}') || c == '\U{85}' || c == '\U{2028}' || c == '\U{2029}'
  }

  predicate NoLineBreak(s: string) {
    forall i :: 0 <= i < |s| ==> !IsLineBreak(s[i])
  }

  predicate IsLower(c: char) {
    'a' <= c <= 'z'
  }

  /** `str.upper()` on one character, for the ASCII letters. */
  function UpperChar(c: char): char {
    if IsLower(c) then (c as int - 32) as char else c
  }

  /** `str.upper()`: equally long, letter for letter, and nothing lower-case is left. */
  function Upper(s: string): (r: string)
    ensures |r| == |s|
    ensures forall i :: 0 <= i < |s| ==> r[i] == UpperChar(s[i])
    ensures forall i :: 0 <= i < |r| ==> !IsLower(r[i])
  {
    seq(|s|, i requires 0 <= i < |s| => UpperChar(s[i]))
  }

  /** Uppercasing commutes with slicing. */
  lemma UpperSlice(s: string, lo: int, hi: int)
    requires 0 <= lo <= hi <= |s|
    ensures Upper(s[lo..hi]) == Upper(s)[lo..hi]
  {
  }

  ghost predicate OccursAt(needle: string, hay: string, i: int) {
    0 <= i && i + |needle| <= |hay| && hay[i..i + |needle|] == needle
  }

  /** `x` occurs at the end of `a + x`. */
  lemma OccursAtEnd(a: string, x: string)
    ensures OccursAt(x, a + x, |a|)
  {
    assert (a + x)[|a|..|a| + |x|] == x;
  }

  /** Appending text keeps an occurrence where it is. */
  lemma OccursExtended(x: string, a: string, i: int, b: string)
    requires OccursAt(x, a, i)
    ensures OccursAt(x, a + b, i)
  {
    assert (a + b)[i..i + |x|] == a[i..i + |x|];
  }

  lemma OccursAtChar(needle: string, hay: string, p: int, t: int)
    requires OccursAt(needle, hay, p) && 0 <= t < |needle|
    ensures hay[p + t] == needle[t]
  {
    assert hay[p..p + |needle|][t] == hay[p + t];
  }

  /** Line breaks are not lower-case letters, so uppercasing leaves them alone. */
  lemma UpperCharBreak(c: char)
    ensures IsLineBreak(UpperChar(c)) <==> IsLineBreak(c)
    ensures IsLineBreak(c) ==> UpperChar(c) == c
    ensures UpperChar(c) == '\n' <==> c == '\n'
  {
  }

  /** Python's `needle in hay` for strings. */
  ghost predicate IsSubstring(needle: string, hay: string) {
    exists i :: OccursAt(needle, hay, i)
  }

  /** The computed `in` test: true exactly when `needle` occurs somewhere in `hay`. */
  function Contains(hay: string, needle: string): (r: bool)
    ensures r <==> IsSubstring(needle, hay)
    decreases |hay|
  {
    if |needle| > |hay| then
      assert forall i :: !OccursAt(needle, hay, i);
      false
    else if hay[..|needle|] == needle then
      assert OccursAt(needle, hay, 0);
      true
    else
      var r := Contains(hay[1..], needle);
      assert r ==> IsSubstring(needle, hay) by {
        if r {
          var i :| OccursAt(needle, hay[1..], i);
          assert hay[1..][i..i + |needle|] == hay[i + 1..i + 1 + |needle|];
          assert OccursAt(needle, hay, i + 1);
        }
      }
      assert IsSubstring(needle, hay) ==> r by {
        if IsSubstring(needle, hay) {
          var i :| OccursAt(needle, hay, i);
          assert i != 0;
          assert hay[1..][i - 1..i - 1 + |needle|] == hay[i..i + |needle|];
          assert OccursAt(needle, hay[1..], i - 1);
        }
      }
      r
  }

  /** An occurrence inside a part is an occurrence inside the whole. */
  lemma SubstringOfConcat(needle: string, pre: string, mid: string, post: string)
    requires IsSubstring(needle, mid)
    ensures IsSubstring(needle, pre + mid + post)
  {
    var i :| OccursAt(needle, mid, i);
    var whole := pre + mid + post;
    assert whole[|pre| + i..|pre| + i + |needle|] == mid[i..i + |needle|];
    assert OccursAt(needle, whole, |pre| + i);
  }

  lemma SubstringOfItself(s: string)
    ensures IsSubstring(s, s)
  {
    assert OccursAt(s, s, 0);
  }

  /** Python's `s[-n:]` for a positive `n`. */
  function Tail(s: string, n: nat): (r: string)
    ensures |r| == if |s| <= n then |s| else n
    ensures r == s[|s| - |r|..]
  {
    if |s| <= n then s else s[|s| - n..]
  }

  ghost predicate IsStripped(s: string) {
    s == [] || (!IsSpace(s[0]) && !IsSpace(s[|s| - 1]))
  }

  /** How many blanks `s` starts with: where `Strip(s)` starts inside `s`. */
  function StripStart(s: string): (n: nat)
    ensures n <= |s|
    ensures forall i :: 0 <= i < n ==> IsSpace(s[i])
    ensures n < |s| ==> !IsSpace(s[n])
  {
    if s != [] && IsSpace(s[0]) then 1 + StripStart(s[1..]) else 0
  }

  /** `str.strip()`: drops the blanks in front, then the blanks at the back. */
  function Strip(s: string): (r: string)
    ensures StripStart(s) + |r| <= |s|
    ensures r == s[StripStart(s)..StripStart(s) + |r|]
    ensures IsStripped(r)
    decreases |s|
  {
    if s != [] && IsSpace(s[0]) then Strip(s[1..])
    else if s != [] && IsSpace(s[|s| - 1]) then Strip(s[..|s| - 1])
    else s
  }

  /** What `Strip` removed is blank on both sides, so it kept every non-blank character. */
  lemma {:induction false} StripDropsOnlyBlanks(s: string)
    ensures forall i :: 0 <= i < StripStart(s) ==> IsSpace(s[i])
    ensures forall i :: StripStart(s) + |Strip(s)| <= i < |s| ==> IsSpace(s[i])
    decreases |s|
  {
    if s != [] && IsSpace(s[0]) {
      var t := s[1..];
      StripDropsOnlyBlanks(t);
      assert forall i :: 1 <= i < |s| ==> s[i] == t[i - 1];
    } else if s != [] && IsSpace(s[|s| - 1]) {
      var t := s[..|s| - 1];
      StripDropsOnlyBlanks(t);
      assert StripStart(t) == 0 && StripStart(s) == 0;
      assert forall i :: 0 <= i < |t| ==> s[i] == t[i];
    }
  }

  /** A non-blank character lies inside the stripped part. */
  lemma NonSpaceInsideStrip(s: string, i: int)
    requires 0 <= i < |s| && !IsSpace(s[i])
    ensures StripStart(s) <= i < StripStart(s) + |Strip(s)|
  {
    StripDropsOnlyBlanks(s);
  }

  /** A non-blank character is kept by `Strip`, shifted by the blanks in front. */
  lemma StripKeepsChar(s: string, i: int)
    requires 0 <= i < |s| && !IsSpace(s[i])
    ensures StripStart(s) <= i < StripStart(s) + |Strip(s)| && Strip(s)[i - StripStart(s)] == s[i]
  {
    NonSpaceInsideStrip(s, i);
    SliceAt(s, StripStart(s), Strip(s), i);
  }

  /** `Strip` cuts out one piece, with only blanks around it, and keeps every non-blank character. */
  lemma StripTrimsOnlyBlanks(s: string)
    ensures var lo, r := StripStart(s), Strip(s);
      (forall i :: 0 <= i < lo ==> IsSpace(s[i]))
      && (forall i :: lo + |r| <= i < |s| ==> IsSpace(s[i]))
      && (forall i :: 0 <= i < |s| && !IsSpace(s[i]) ==> lo <= i < lo + |r| && r[i - lo] == s[i])
  {
    StripDropsOnlyBlanks(s);
    BlankFramedPiece(s, StripStart(s), Strip(s));
  }

  /** A piece of `s` with only blanks outside it holds every non-blank character of `s`. */
  lemma BlankFramedPiece(s: string, lo: nat, r: string)
    requires lo + |r| <= |s| && r == s[lo..lo + |r|]
    requires forall i :: 0 <= i < lo ==> IsSpace(s[i])
    requires forall i :: lo + |r| <= i < |s| ==> IsSpace(s[i])
    ensures forall i :: 0 <= i < |s| && !IsSpace(s[i]) ==> lo <= i < lo + |r| && r[i - lo] == s[i]
  {
  }

  lemma SliceAt(s: string, lo: int, r: string, i: int)
    requires 0 <= lo && lo + |r| <= |s| && r == s[lo..lo + |r|] && lo <= i < lo + |r|
    ensures r[i - lo] == s[i]
  {
  }

  lemma StripOfStripped(s: string)
    requires IsStripped(s)
    ensures Strip(s) == s
  {
  }

  /** Stripping a stripped string changes nothing. */
  lemma StripIdempotent(s: string)
    ensures Strip(Strip(s)) == Strip(s)
  {
  }

  /** Stripping a string that has no line break leaves none. */
  lemma StripNoLineBreak(s: string)
    requires NoLineBreak(s)
    ensures NoLineBreak(Strip(s))
  {
    var lo := StripStart(s);
    var r := Strip(s);
    assert forall i :: 0 <= i < |r| ==> r[i] == s[lo + i];
  }

  /** Index of the first line break in `s`, or `|s|` when there is none. */
  function FirstBreak(s: string): (i: nat)
    ensures i <= |s|
    ensures forall j :: 0 <= j < i ==> !IsLineBreak(s[j])
    ensures i < |s| ==> IsLineBreak(s[i])
  {
    if s == [] || IsLineBreak(s[0]) then 0 else 1 + FirstBreak(s[1..])
  }

  /** Where the next line starts after the break at `i`; `\r\n` is one break. */
  function LineEnd(s: string, i: nat): (next: nat)
    requires i < |s|
    ensures i < next <= |s|
  {
    if s[i] == '\r' && i + 1 < |s| && s[i + 1] == '\n' then i + 2 else i + 1
  }

  /** `str.splitlines()`: the lines, without their terminators, and no empty line after a final break. */
  function SplitLines(s: string): (r: seq<string>)
    ensures forall k :: 0 <= k < |r| ==> NoLineBreak(r[k])
    ensures s == [] <==> r == []
    decreases |s|
  {
    if s == [] then []
    else
      var i := FirstBreak(s);
      if i == |s| then [s]
      else
        [s[..i]] + SplitLines(s[LineEnd(s, i)..])
  }

  /** A line followed by `\n` is split off as one line. */
  lemma SplitLinesCons(line: string, rest: string)
    requires NoLineBreak(line)
    ensures SplitLines(line + "\n" + rest) == [line] + SplitLines(rest)
  {
    var s := line + "\n" + rest;
    assert forall j :: 0 <= j < |line| ==> s[j] == line[j];
    FirstBreakAt(s, |line|);
    assert s[..|line|] == line;
    assert s[|line| + 1..] == rest;
  }

  lemma FirstBreakAt(s: string, i: nat)
    requires i < |s| && IsLineBreak(s[i])
    requires forall j :: 0 <= j < i ==> !IsLineBreak(s[j])
    ensures FirstBreak(s) == i
  {
  }

  /** A nonempty text without line breaks is a single line. */
  lemma SplitLinesSingle(line: string)
    requires line != [] && NoLineBreak(line)
    ensures SplitLines(line) == [line]
  {
  }

  /** `sep.join(parts)`. */
  function Join(sep: string, parts: seq<string>): (r: string)
    ensures parts == [] ==> r == ""
  {
    if parts == [] then ""
    else if |parts| == 1 then parts[0]
    else parts[0] + sep + Join(sep, parts[1..])
  }

  /** The joined text opens with the first part. */
  lemma JoinStartsWithFirst(sep: string, parts: seq<string>)
    requires parts != []
    ensures parts[0] <= Join(sep, parts)
  {
  }


  /** `f(xs[0]) + f(xs[1]) + ...`, the text a loop of `+=` builds. */
  function ConcatMap<T>(f: T -> string, xs: seq<T>): string
    decreases |xs|
  {
    if xs == [] then "" else ConcatMap(f, xs[..|xs| - 1]) + f(xs[|xs| - 1])
  }

  /** One more iteration of the loop appends one more piece. */
  lemma ConcatMapStep<T>(f: T -> string, xs: seq<T>, j: nat)
    requires j < |xs|
    ensures ConcatMap(f, xs[..j + 1]) == ConcatMap(f, xs[..j]) + f(xs[j])
  {
    assert xs[..j + 1][..j] == xs[..j];
  }

  /** Building over two runs one after the other is building over each and concatenating. */
  lemma {:induction false} ConcatMapAppend<T>(f: T -> string, xs: seq<T>, ys: seq<T>)
    ensures ConcatMap(f, xs + ys) == ConcatMap(f, xs) + ConcatMap(f, ys)
    decreases |ys|
  {
    if ys == [] {
      assert xs + ys == xs;
    } else {
      var init := ys[..|ys| - 1];
      assert (xs + ys)[..|xs + ys| - 1] == xs + init;
      ConcatMapAppend(f, xs, init);
      var a, b, c := ConcatMap(f, xs), ConcatMap(f, init), f(ys[|ys| - 1]);
      assert a + b + c == a + (b + c);
    }
  }

  /** Each element's piece occurs, unchanged, in the whole. */
  lemma PieceInConcatMap<T>(f: T -> string, xs: seq<T>, j: nat)
    requires j < |xs|
    ensures IsSubstring(f(xs[j]), ConcatMap(f, xs))
  {
    var pre, post := xs[..j], xs[j + 1..];
    assert xs == pre + [xs[j]] + post;
    ConcatMapAppend(f, pre + [xs[j]], post);
    ConcatMapAppend(f, pre, [xs[j]]);
    assert ConcatMap(f, [xs[j]]) == f(xs[j]) by {
      assert [xs[j]][..0] == [];
    }
    SubstringOfItself(f(xs[j]));
    SubstringOfConcat(f(xs[j]), ConcatMap(f, pre), f(xs[j]), ConcatMap(f, post));
  }

  /** Every part occurs in the joined text. */
  lemma {:induction false} JoinHasPart(sep: string, parts: seq<string>, i: nat)
    requires i < |parts|
    ensures IsSubstring(parts[i], Join(sep, parts))
    decreases |parts|
  {
    if |parts| == 1 {
      SubstringOfItself(parts[0]);
    } else {
      var rest := Join(sep, parts[1..]);
      assert Join(sep, parts) == parts[0] + sep + rest;
      if i == 0 {
        SubstringOfItself(parts[0]);
        SubstringOfConcat(parts[0], [], parts[0], sep + rest);
        assert [] + parts[0] + (sep + rest) == parts[0] + sep + rest;
      } else {
        JoinHasPart(sep, parts[1..], i - 1);
        SubstringOfConcat(parts[i], parts[0] + sep, rest, []);
        assert parts[0] + sep + rest + [] == parts[0] + sep + rest;
      }
    }
  }

  /** A substring of a substring is a substring. */
  lemma SubstringTransitive(a: string, b: string, c: string)
    requires IsSubstring(a, b) && IsSubstring(b, c)
    ensures IsSubstring(a, c)
  {
    var j :| OccursAt(b, c, j);
    var pre, post := c[..j], c[j + |b|..];
    assert c == pre + b + post;
    SubstringOfConcat(a, pre, b, post);
  }

  /** `"\n".join` and `splitlines` are inverse on nonempty lines without breaks. */
  lemma {:induction false} SplitLinesJoin(parts: seq<string>)
    requires forall k :: 0 <= k < |parts| ==> parts[k] != [] && NoLineBreak(parts[k])
    ensures SplitLines(Join("\n", parts)) == parts
    decreases |parts|
  {
    if parts == [] {
    } else if |parts| == 1 {
      SplitLinesSingle(parts[0]);
    } else {
      SplitLinesCons(parts[0], Join("\n", parts[1..]));
      SplitLinesJoin(parts[1..]);
    }
  }

  /** An occurrence of a text without breaks covers no break of the text it occurs in. */
  lemma OccurrenceAvoidsBreaks(needle: string, s: string, p: int)
    requires NoLineBreak(needle) && OccursAt(needle, s, p)
    ensures forall j :: p <= j < p + |needle| ==> !IsLineBreak(s[j])
  {
    forall j | p <= j < p + |needle|
      ensures !IsLineBreak(s[j])
    {
      assert s[j] == s[p..p + |needle|][j - p];
    }
  }

  lemma OccurrenceInPrefix(needle: string, s: string, p: int, i: int)
    requires OccursAt(needle, s, p) && p + |needle| <= i <= |s|
    ensures OccursAt(needle, s[..i], p)
  {
    assert s[..i][p..p + |needle|] == s[p..p + |needle|];
  }

  lemma OccurrenceInSuffix(needle: string, s: string, p: int, next: int)
    requires OccursAt(needle, s, p) && 0 <= next <= p
    ensures OccursAt(needle, s[next..], p - next)
  {
    assert s[next..][p - next..p - next + |needle|] == s[p..p + |needle|];
  }

  /** One step of `SplitLines` on a text that has a break at `FirstBreak(s)`. */
  lemma SplitLinesStep(s: string) returns (next: nat)
    requires FirstBreak(s) < |s|
    ensures FirstBreak(s) < next <= |s|
    ensures next == LineEnd(s, FirstBreak(s))
    ensures SplitLines(s) == [s[..FirstBreak(s)]] + SplitLines(s[next..])
  {
    next := LineEnd(s, FirstBreak(s));
  }

  /** An occurrence of a nonempty text without breaks lies inside one line. */
  lemma {:induction false} OccurrenceWithinLine(needle: string, s: string) returns (k: nat)
    requires needle != [] && NoLineBreak(needle) && IsSubstring(needle, s)
    ensures k < |SplitLines(s)| && IsSubstring(needle, SplitLines(s)[k])
    decreases |s|
  {
    var p :| OccursAt(needle, s, p);
    var i := FirstBreak(s);
    if i == |s| {
      k := 0;
      assert SplitLines(s)[0] == s;
    } else {
      var next := SplitLinesStep(s);
      OccurrenceAvoidsBreaks(needle, s, p);
      assert next == i + 2 ==> IsLineBreak(s[i + 1]);
      if p + |needle| <= i {
        OccurrenceInPrefix(needle, s, p, i);
        k := 0;
      } else {
        OccurrenceInSuffix(needle, s, p, next);
        var j := OccurrenceWithinLine(needle, s[next..]);
        k := j + 1;
      }
    }
  }

  /** `posixpath.join(a, b)`: an absolute `b` replaces `a`. */
  function PathJoin(a: string, b: string): (r: string)
    ensures |b| > 0 && b[0] == '/' ==> r == b
    ensures (|b| == 0 || b[0] != '/') && |a| > 0 && a[|a| - 1] != '/' ==> r == a + "/" + b
  {
    if |b| > 0 && b[0] == '/' then b
    else if a == [] || a[|a| - 1] == '/' then a + b
    else a + "/" + b
  }

  /** `posixpath.basename(p)`: what follows the last `/`. */
  function Basename(p: string): (r: string)
    ensures |r| <= |p| && r == p[|p| - |r|..]
    ensures forall i :: 0 <= i < |r| ==> r[i] != '/'
    ensures |r| < |p| ==> p[|p| - |r| - 1] == '/'
  {
    if p == [] || p[|p| - 1] == '/' then [] else Basename(p[..|p| - 1]) + [p[|p| - 1]]
  }

  /** The basename of `dir + "/" + name` is `name` when `name` has no slash. */
  lemma {:induction false} BasenameOfJoin(dir: string, name: string)
    requires forall i :: 0 <= i < |name| ==> name[i] != '/'
    ensures Basename(dir + "/" + name) == name
    decreases |name|
  {
    if name != [] {
      var init := name[..|name| - 1];
      DropLastOfConcat(dir + "/", name);
      BasenameOfJoin(dir, init);
    }
  }

  /** The same fact without a precondition, for callers that only know it conditionally. */
  lemma BasenameOfJoinWhenSlashFree(dir: string, name: string)
    ensures (forall i :: 0 <= i < |name| ==> name[i] != '/') ==> Basename(dir + "/" + name) == name
  {
    if forall i :: 0 <= i < |name| ==> name[i] != '/' {
      BasenameOfJoin(dir, name);
    }
  }

  /** Dropping the last character of `a + b` drops it from `b` when `b` has one. */
  lemma DropLastOfConcat(a: string, b: string)
    requires b != []
    ensures (a + b)[..|a + b| - 1] == a + b[..|b| - 1]
  {
  }
}
