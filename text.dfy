/** The JavaScript string operations the pipeline relies on, with the edge-case
    behaviour of the ECMAScript built-ins: `trim`, `split(/\s+/)`, `split(sep)`,
    `join`, `includes`, `indexOf`/`lastIndexOf`, ASCII case mapping and the
    decimal rendering of integers in template literals. */
module Text {

  /** The characters matched by `\s` and removed by `trim`: ASCII tab, line
      feed, vertical tab, form feed, carriage return and space, plus the
      Unicode space separators, LINE/PARAGRAPH SEPARATOR and the BOM. */
  predicate IsSpace(c: char) {
    c == ' ' || c == '\t' || c == '\n' || c == '\r' || c == '\U{000B}' || c == '\U{000C}'
    || c == '\U{00A0}' || c == '\U{1680}' || ('\U{2000}' <= c <= '\U{200A}')
    || c == '\U{2028}' || c == '\U{2029}' || c == '\U{202F}' || c == '\U{205F}'
    || c == '\U{3000}' || c == '\U{FEFF}'
  }

  predicate NoSpace(s: string) {
    forall k :: 0 <= k < |s| ==> !IsSpace(s[k])
  }

  predicate AllSpace(s: string) {
    forall k :: 0 <= k < |s| ==> IsSpace(s[k])
  }

  /** sub occurs in s at position i. */
  predicate SliceAt(s: string, sub: string, i: int) {
    0 <= i && i + |sub| <= |s| && s[i..i + |sub|] == sub
  }

  // ---------------------------------------------------------------- trim

  /** Number of whitespace characters at the start of s. */
  function LeadingSpaces(s: string): (i: nat)
    ensures i <= |s| && AllSpace(s[..i])
    ensures i < |s| ==> !IsSpace(s[i])
  {
    if s != [] && IsSpace(s[0]) then
      var k := 1 + LeadingSpaces(s[1..]);
      assert forall m :: 1 <= m < k ==> s[m] == s[1..][m - 1];
      k
    else 0
  }

  /** Position after the last non-whitespace character of s (0 if none). */
  function TrailingStart(s: string): (j: nat)
    ensures j <= |s| && AllSpace(s[j..])
    ensures j > 0 ==> !IsSpace(s[j - 1])
  {
    if s != [] && IsSpace(s[|s| - 1]) then TrailingStart(s[..|s| - 1]) else |s|
  }

  /** `String.prototype.trim`. */
  function Trim(s: string): (r: string)
    ensures r == [] <==> AllSpace(s)
    ensures r != [] ==> !IsSpace(r[0]) && !IsSpace(r[|r| - 1])
    ensures exists i :: SliceAt(s, r, i) && AllSpace(s[..i]) && AllSpace(s[i + |r|..])
  {
    var i := LeadingSpaces(s);
    if i == |s| then
      assert s[..i] == s;
      assert SliceAt(s, [], 0);
      []
    else
      var j := TrailingStart(s);
      assert !AllSpace(s) by { assert !IsSpace(s[i]); }
      assert SliceAt(s, s[i..j], i);
      assert s[i + |s[i..j]|..] == s[j..];
      s[i..j]
  }

  /** The partner of `Trim`: a slice with non-space ends and only whitespace
      around it is the trimmed string, so no inner word passes for it. */
  lemma TrimUnique(s: string, t: string, i: int)
    requires SliceAt(s, t, i) && AllSpace(s[..i]) && AllSpace(s[i + |t|..])
    requires t != [] && !IsSpace(t[0]) && !IsSpace(t[|t| - 1])
    ensures Trim(s) == t
  {
    assert s[i] == t[0] && s[i + |t| - 1] == t[|t| - 1];
    assert LeadingSpaces(s) == i;
  }


  lemma TrimOfTrimmed(s: string)
    requires s != [] ==> !IsSpace(s[0]) && !IsSpace(s[|s| - 1])
    ensures Trim(s) == s
  {
  }

  // ------------------------------------------------------- split(/\s+/)

  /** Index of the first whitespace character, or |s| when there is none. */
  function FirstSpace(s: string): (i: nat)
    ensures i <= |s| && NoSpace(s[..i])
    ensures i < |s| ==> IsSpace(s[i])
  {
    if s == [] || IsSpace(s[0]) then 0 else 1 + FirstSpace(s[1..])
  }

  /** End of the maximal whitespace run that starts at i. */
  function EndOfRun(s: string, i: nat): (j: nat)
    requires i < |s| && IsSpace(s[i])
    ensures i < j <= |s| && AllSpace(s[i..j])
    ensures j < |s| ==> !IsSpace(s[j])
    decreases |s| - i
  {
    if i + 1 < |s| && IsSpace(s[i + 1]) then EndOfRun(s, i + 1) else i + 1
  }

  /** `s.split(/\s+/)`: the pieces between maximal whitespace runs. A leading
      or trailing run yields an empty first or last piece, and "" yields [""]. */
  function SplitWs(s: string): (r: seq<string>)
    ensures |r| >= 1
    ensures forall k :: 0 <= k < |r| ==> NoSpace(r[k])
    ensures s != [] && !IsSpace(s[0]) ==> r[0] != []
    ensures forall k :: 0 < k < |r| - 1 ==> r[k] != []
    decreases |s|
  {
    var i := FirstSpace(s);
    if i == |s| then [s] else [s[..i]] + SplitWs(s[EndOfRun(s, i)..])
  }

  /** A space-free word, one space, and a rest that does not start with
      whitespace: the split peels off the word. */
  lemma SplitWsPeel(a: string, rest: string)
    requires NoSpace(a) && (rest != [] ==> !IsSpace(rest[0]))
    ensures SplitWs(a + " " + rest) == [a] + SplitWs(rest)
  {
    var s := a + " " + rest;
    assert s[..|a|] == a;
    assert FirstSpace(s) == |a| by { FirstSpaceOfWord(s, |a|); }
    assert EndOfRun(s, |a|) == |a| + 1;
    assert s[|a| + 1..] == rest;
  }

  lemma FirstSpaceOfWord(s: string, i: nat)
    requires i < |s| && NoSpace(s[..i]) && IsSpace(s[i])
    ensures FirstSpace(s) == i
    decreases i
  {
    if i > 0 {
      assert !IsSpace(s[..i][0]);
      assert s[1..][..i - 1] == s[..i][1..];
      FirstSpaceOfWord(s[1..], i - 1);
    }
  }

  /** Joining space-free words with single spaces and splitting again gives
      the words back, provided only the first and last may be empty. */
  lemma {:induction false} SplitJoin(ws: seq<string>)
    requires |ws| >= 1
    requires forall k :: 0 <= k < |ws| ==> NoSpace(ws[k])
    requires forall k :: 0 < k < |ws| - 1 ==> ws[k] != []
    ensures SplitWs(Join(ws, " ")) == ws
    decreases |ws|
  {
    if |ws| == 1 {
      var i := FirstSpace(ws[0]);
      assert ws[0][..i] == ws[0];
    } else {
      var rest := Join(ws[1..], " ");
      assert rest != [] ==> !IsSpace(rest[0]) by {
        if |ws| == 2 {
          assert rest == ws[1];
        } else {
          assert rest == ws[1] + " " + Join(ws[2..], " ");
          assert ws[1] != [] && !IsSpace(ws[1][0]);
        }
      }
      SplitWsPeel(ws[0], rest);
      SplitJoin(ws[1..]);
      assert [ws[0]] + ws[1..] == ws;
    }
  }

  /** Number of maximal whitespace runs in s, counted at the last character of
      each run. */
  function Runs(s: string): nat {
    if s == [] then 0
    else (if IsSpace(s[0]) && (|s| == 1 || !IsSpace(s[1])) then 1 else 0) + Runs(s[1..])
  }

  /** `s.split(/\s+/).length`, the word count the scoring formula uses. */
  function WordCount(s: string): (n: nat)
    ensures n >= 1
  {
    |SplitWs(s)|
  }

  lemma RunsSkipWord(s: string, k: nat, i: nat)
    requires k <= i <= |s| && NoSpace(s[k..i])
    ensures Runs(s[k..]) == Runs(s[i..])
    decreases i - k
  {
    if k < i {
      assert s[k..][1..] == s[k + 1..];
      assert !IsSpace(s[k..i][0]);
      RunsSkipWord(s, k + 1, i);
    }
  }

  lemma RunsSkipRun(s: string, k: nat, j: nat)
    requires k < j <= |s| && AllSpace(s[k..j]) && (j < |s| ==> !IsSpace(s[j]))
    ensures Runs(s[k..]) == Runs(s[j..]) + 1
    decreases j - k
  {
    assert s[k..][1..] == s[k + 1..];
    assert IsSpace(s[k..j][0]);
    if k + 1 < j {
      assert IsSpace(s[k..j][1]);
      assert AllSpace(s[k + 1..j]) by {
        forall m | k + 1 <= m < j ensures IsSpace(s[m]) {
          assert s[m] == s[k..j][m - k];
        }
      }
      RunsSkipRun(s, k + 1, j);
    }
  }

  /** The word count is the number of whitespace runs plus one. */
  lemma {:induction false} WordCountIsRunsPlusOne(s: string)
    ensures WordCount(s) == Runs(s) + 1
    decreases |s|
  {
    var i := FirstSpace(s);
    assert s[0..] == s;
    if i == |s| {
      RunsSkipWord(s, 0, |s|);
      assert s[|s|..] == [];
    } else {
      var j := EndOfRun(s, i);
      RunsSkipWord(s, 0, i);
      RunsSkipRun(s, i, j);
      WordCountIsRunsPlusOne(s[j..]);
    }
  }

  /** A string without whitespace is a single word; one with whitespace is not. */
  lemma {:induction false} SingleWordIffNoSpace(s: string)
    ensures WordCount(s) == 1 <==> NoSpace(s)
  {
    var i := FirstSpace(s);
    if i < |s| {
      assert !NoSpace(s) by { assert IsSpace(s[i]); }
    }
  }

  /** `words.filter(w => w.length > n)`: the words longer than n, in order. */
  function LongerThan(words: seq<string>, n: nat): (r: seq<string>)
    ensures |r| <= |words|
    ensures forall k :: 0 <= k < |r| ==> |r[k]| > n && r[k] in words
  {
    if words == [] then []
    else (if |words[0]| > n then [words[0]] else []) + LongerThan(words[1..], n)
  }

  /** The filter distributes over concatenation. */
  lemma {:induction false} LongerThanAppend(a: seq<string>, b: seq<string>, n: nat)
    ensures LongerThan(a + b, n) == LongerThan(a, n) + LongerThan(b, n)
  {
    if a == [] {
      assert a + b == b;
    } else {
      assert (a + b)[0] == a[0];
      assert (a + b)[1..] == a[1..] + b;
      LongerThanAppend(a[1..], b, n);
    }
  }

  /** On one word it keeps exactly the long one; with `LongerThanAppend`
      this pins the filter: every long word kept, in order, with repeats. */
  lemma LongerThanSingleton(w: string, n: nat)
    ensures LongerThan([w], n) == (if |w| > n then [w] else [])
  {
    assert [w][1..] == [];
  }

  /** No long word is dropped. */
  lemma {:induction false} LongerThanKeepsAll(words: seq<string>, n: nat, w: string)
    requires w in words && |w| > n
    ensures w in LongerThan(words, n)
  {
    if words[0] != w {
      LongerThanKeepsAll(words[1..], n, w);
    }
  }

  // ---------------------------------------------------- join and split(sep)

  /** `parts.join(sep)`. */
  function Join(parts: seq<string>, sep: string): string {
    if |parts| == 0 then ""
    else if |parts| == 1 then parts[0]
    else parts[0] + sep + Join(parts[1..], sep)
  }

  lemma JoinCons(a: string, p: seq<string>, sep: string)
    requires |p| >= 1
    ensures Join([a] + p, sep) == a + sep + Join(p, sep)
  {
    assert ([a] + p)[1..] == p;
  }

  /** Appending a part appends the separator and the part. */
  lemma {:induction false} JoinSnoc(p: seq<string>, a: string, sep: string)
    requires |p| >= 1
    ensures Join(p + [a], sep) == Join(p, sep) + sep + a
    decreases |p|
  {
    if |p| == 1 {
      assert (p + [a])[1..] == [a];
    } else {
      assert (p + [a])[1..] == p[1..] + [a];
      JoinSnoc(p[1..], a, sep);
    }
  }

  lemma JoinThree(p: seq<string>, sep: string)
    requires |p| == 3
    ensures Join(p, sep) == p[0] + sep + p[1] + sep + p[2]
  {
    assert p[1..][1..] == [p[2]];
    assert Join(p[1..], sep) == p[1] + sep + p[2];
  }

  /** `s.includes(sub)`. */
  predicate Contains(s: string, sub: string) {
    exists i | 0 <= i <= |s| - |sub| :: SliceAt(s, sub, i)
  }

  lemma SliceAtShift(s: string, sub: string, i: int)
    requires s != [] && 1 <= i
    ensures SliceAt(s, sub, i) <==> SliceAt(s[1..], sub, i - 1)
  {
    if i + |sub| <= |s| {
      assert s[1..][i - 1..i - 1 + |sub|] == s[i..i + |sub|];
    }
  }

  /** First position at which sep occurs in s, or |s| when it does not. */
  function Find(s: string, sep: string): (i: nat)
    requires |sep| > 0
    ensures i <= |s|
    ensures i < |s| ==> SliceAt(s, sep, i)
    ensures forall k :: 0 <= k < i ==> !SliceAt(s, sep, k)
    ensures i == |s| <==> !Contains(s, sep)
    decreases |s|
  {
    if |s| < |sep| then
      |s|
    else if s[..|sep|] == sep then
      assert SliceAt(s, sep, 0);
      0
    else
      var j := Find(s[1..], sep);
      forall k | 1 <= k <= |s| ensures SliceAt(s, sep, k) <==> SliceAt(s[1..], sep, k - 1) {
        SliceAtShift(s, sep, k);
      }
      assert !SliceAt(s, sep, 0);
      1 + j
  }

  /** `s.split(sep)` for a non-empty literal separator: occurrences are taken
      left to right without overlap. */
  function SplitOn(s: string, sep: string): (r: seq<string>)
    requires |sep| > 0
    ensures |r| >= 1
    decreases |s|
  {
    var i := Find(s, sep);
    if i == |s| then [s] else [s[..i]] + SplitOn(s[i + |sep|..], sep)
  }

  lemma SliceSplit(s: string, i: nat, j: nat)
    requires i <= j <= |s|
    ensures s[..i] + s[i..j] + s[j..] == s
  {
  }

  /** Splitting and re-joining on the same separator gives the text back. */
  /** One step of `SplitOn`: the text is the first piece, the separator
      and the rest. */
  lemma SplitOnStep(s: string, sep: string, i: nat)
    requires |sep| > 0 && i == Find(s, sep) && i < |s|
    ensures SplitOn(s, sep) == [s[..i]] + SplitOn(s[i + |sep|..], sep)
    ensures s == s[..i] + sep + s[i + |sep|..]
  {
    assert s[i..i + |sep|] == sep by { assert SliceAt(s, sep, i); }
    SliceSplit(s, i, i + |sep|);
  }

  lemma {:induction false} JoinSplitOn(s: string, sep: string)
    requires |sep| > 0
    ensures Join(SplitOn(s, sep), sep) == s
    decreases |s|
  {
    var i := Find(s, sep);
    if i < |s| {
      var rest := s[i + |sep|..];
      SplitOnStep(s, sep, i);
      JoinCons(s[..i], SplitOn(rest, sep), sep);
      JoinSplitOn(rest, sep);
    }
  }

  /** Text that does not contain the separator splits into itself alone. */
  lemma SplitOnWithoutSeparator(s: string, sep: string)
    requires |sep| > 0 && !Contains(s, sep)
    ensures SplitOn(s, sep) == [s]
  {
  }

  /** `s.split(c)[0]` for a one-character separator: the text before the first c. */
  function BeforeFirst(s: string, c: char): (r: string)
    ensures r <= s && c !in r
    ensures |r| < |s| ==> s[|r|] == c
  {
    if s == [] || s[0] == c then [] else [s[0]] + BeforeFirst(s[1..], c)
  }

  // ------------------------------------------------- indexOf / lastIndexOf

  /** `s.indexOf(c)`: -1 when c does not occur. */
  function IndexOf(s: string, c: char): (i: int)
    ensures -1 <= i < |s|
    ensures i == -1 <==> c !in s
    ensures i >= 0 ==> s[i] == c && c !in s[..i]
  {
    if s == [] then -1
    else if s[0] == c then 0
    else
      var k := IndexOf(s[1..], c);
      assert s[1..][..if k >= 0 then k else 0] == s[1..if k >= 0 then k + 1 else 1];
      assert k >= 0 ==> s[..k + 1] == [s[0]] + s[1..][..k];
      if k == -1 then -1 else k + 1
  }

  /** `s.lastIndexOf(c)`: -1 when c does not occur. */
  function LastIndexOf(s: string, c: char): (i: int)
    ensures -1 <= i < |s|
    ensures i == -1 <==> c !in s
    ensures i >= 0 ==> s[i] == c && c !in s[i + 1..]
  {
    if s == [] then -1
    else if s[|s| - 1] == c then |s| - 1
    else
      var k := LastIndexOf(s[..|s| - 1], c);
      assert s[..|s| - 1] + [s[|s| - 1]] == s;
      assert k >= 0 ==> s[k + 1..] == s[..|s| - 1][k + 1..] + [s[|s| - 1]];
      k
  }

  // ------------------------------------------------------------ case (ASCII)

  function LowerChar(c: char): char {
    if 'A' <= c <= 'Z' then (c as int + 32) as char else c
  }

  function UpperChar(c: char): char {
    if 'a' <= c <= 'z' then (c as int - 32) as char else c
  }

  /** `toLowerCase` on ASCII letters; every other character is kept. */
  function Lower(s: string): (r: string)
    ensures |r| == |s| && forall k :: 0 <= k < |s| ==> r[k] == LowerChar(s[k])
  {
    seq(|s|, k requires 0 <= k < |s| => LowerChar(s[k]))
  }

  /** `toUpperCase` on ASCII letters; every other character is kept. */
  function Upper(s: string): (r: string)
    ensures |r| == |s| && forall k :: 0 <= k < |s| ==> r[k] == UpperChar(s[k])
  {
    seq(|s|, k requires 0 <= k < |s| => UpperChar(s[k]))
  }

  lemma LowerKeepsSpaces(s: string)
    ensures forall k :: 0 <= k < |s| ==> (IsSpace(Lower(s)[k]) <==> IsSpace(s[k]))
  {
  }

  // ---------------------------------------------------- numbers as text

  function DigitChar(d: nat): (c: char)
    requires d < 10
    ensures '0' <= c <= '9'
  {
    ('0' as int + d) as char
  }

  /** Decimal rendering of a non-negative integer, as `${n}` prints it. */
  function NatToString(n: nat): (r: string)
    ensures |r| >= 1 && forall k :: 0 <= k < |r| ==> '0' <= r[k] <= '9'
    ensures (r[0] == '0') <==> n == 0
  {
    if n < 10 then [DigitChar(n)] else NatToString(n / 10) + [DigitChar(n % 10)]
  }

  /** Decimal rendering of an integer, with a leading '-' when negative. */
  function IntToString(n: int): (r: string)
    ensures |r| >= 1
    ensures (r[0] == '-') <==> n < 0
  {
    if n < 0 then "-" + NatToString(-n) else NatToString(n)
  }
}
