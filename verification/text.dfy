/** The string operations the three copies of the pipeline apply to comment
    text: Python's `str.isspace`, `str.splitlines`, `str.split`, `str.join`,
    slicing, and the substitution `re.sub(r"http\S+", "", line)`. */
module Text {
  import opened Seqs

  /** Python's `str.isspace()` on one character, which is also what the
      regular-expression class `\s` matches in a `str` pattern. */
  predicate IsSpace(c: char) {
    var n := c as int;
    (0x09 <= n <= 0x0D) || (0x1C <= n <= 0x20) || n == 0x85 || n == 0xA0 || n == 0x1680
    || (0x2000 <= n <= 0x200A) || n == 0x2028 || n == 0x2029 || n == 0x202F
    || n == 0x205F || n == 0x3000
  }

  /** `s.isspace()`: `s` is non-empty and made of whitespace only. */
  predicate IsSpaceOnly(s: string) {
    |s| > 0 && forall i :: 0 <= i < |s| ==> IsSpace(s[i])
  }

  /** The characters at which `str.splitlines()` ends a line. */
  predicate IsLineBoundary(c: char) {
    var n := c as int;
    (0x0A <= n <= 0x0D) || (0x1C <= n <= 0x1E) || n == 0x85 || n == 0x2028 || n == 0x2029
  }

  /** Length of the first line of `s`: the index of its first line boundary, or `|s|`. */
  function LineLength(s: string): (k: nat)
    ensures k <= |s|
    ensures forall i :: 0 <= i < k ==> !IsLineBoundary(s[i])
    ensures k < |s| ==> IsLineBoundary(s[k])
    decreases |s|
  {
    if s == [] || IsLineBoundary(s[0]) then 0 else 1 + LineLength(s[1..])
  }

  /** Where the line after the first one starts: past the first boundary,
      or past both characters of a "\r\n" pair. */
  function NextLineStart(s: string): (next: nat)
    requires LineLength(s) < |s|
    ensures LineLength(s) < next <= |s|
    ensures forall i :: LineLength(s) <= i < next ==> IsLineBoundary(s[i])
  {
    var k := LineLength(s);
    if s[k] == '\r' && k + 1 < |s| && s[k + 1] == '\n' then k + 2 else k + 1
  }

  /** The first line ends at the first boundary. */
  lemma LineLengthAt(s: string, k: nat)
    requires k < |s| && IsLineBoundary(s[k])
    requires forall i :: 0 <= i < k ==> !IsLineBoundary(s[i])
    ensures LineLength(s) == k
  {
  }

  /** A text without boundaries is a single line. */
  lemma LineLengthWhole(s: string)
    requires forall i :: 0 <= i < |s| ==> !IsLineBoundary(s[i])
    ensures LineLength(s) == |s|
  {
  }

  /** `s.splitlines()`: the lines of `s` without their boundaries. A "\r\n"
      pair ends one line, a final boundary does not open an empty line, and
      the empty string has no lines. */
  function SplitLines(s: string): (lines: seq<string>)
    ensures s == "" <==> lines == []
    ensures forall i :: 0 <= i < |lines| ==> forall j :: 0 <= j < |lines[i]| ==> !IsLineBoundary(lines[i][j])
    decreases |s|
  {
    if s == [] then []
    else if LineLength(s) == |s| then [s]
    else [s[..LineLength(s)]] + SplitLines(s[NextLineStart(s)..])
  }

  predicate NotLineBoundary(c: char) {
    !IsLineBoundary(c)
  }

  /** `s` with every line boundary removed. */
  function EraseLineBoundaries(s: string): string {
    Filter(NotLineBoundary, s)
  }

  /** Splitting into lines loses exactly the line boundaries: the lines, put
      back together, are the text without them. */
  lemma {:induction false} SplitLinesKeepsText(s: string)
    ensures Flatten(SplitLines(s)) == EraseLineBoundaries(s)
    decreases |s|
  {
    if s != [] {
      var k := LineLength(s);
      if k == |s| {
        NoBoundaryKept(s);
        assert SplitLines(s) == [s] + [];
        FlattenCons(s, []);
      } else {
        var rest := s[NextLineStart(s)..];
        assert SplitLines(s) == [s[..k]] + SplitLines(rest);
        SplitLinesKeepsText(rest);
        FlattenCons(s[..k], SplitLines(rest));
        EraseFirstLine(s);
      }
    }
  }

  lemma {:induction false} EraseFirstLine(s: string)
    requires LineLength(s) < |s|
    ensures EraseLineBoundaries(s) == s[..LineLength(s)] + EraseLineBoundaries(s[NextLineStart(s)..])
  {
    var k, next := LineLength(s), NextLineStart(s);
    var line, gap, rest := s[..k], s[k..next], s[next..];
    assert s == line + gap + rest;
    forall i | 0 <= i < |gap| ensures IsLineBoundary(gap[i]) {
      assert gap[i] == s[k + i];
    }
    BoundariesErased(gap);
    NoBoundaryKept(line);
    FilterConcat(NotLineBoundary, line + gap, rest);
    FilterConcat(NotLineBoundary, line, gap);
    assert Filter(NotLineBoundary, line + gap) == line;
  }

  lemma {:induction false} NoBoundaryKept(s: string)
    requires forall i :: 0 <= i < |s| ==> !IsLineBoundary(s[i])
    ensures Filter(NotLineBoundary, s) == s
    decreases |s|
  {
    if s != [] {
      NoBoundaryKept(s[..|s| - 1]);
      assert s[..|s| - 1] + [s[|s| - 1]] == s;
    }
  }

  lemma {:induction false} BoundariesErased(s: string)
    requires forall i :: 0 <= i < |s| ==> IsLineBoundary(s[i])
    ensures Filter(NotLineBoundary, s) == []
    decreases |s|
  {
    if s != [] {
      BoundariesErased(s[..|s| - 1]);
    }
  }

  /** Index of the first `c` in `s`, or `|s|`. */
  function IndexOf(s: string, c: char): (k: nat)
    ensures k <= |s|
    ensures forall i :: 0 <= i < k ==> s[i] != c
    ensures k < |s| ==> s[k] == c
    decreases |s|
  {
    if s == [] || s[0] == c then 0 else 1 + IndexOf(s[1..], c)
  }

  /** `s.split(sep)` for a one-character separator: always at least one
      part, and no part holds the separator. */
  function Split(s: string, sep: char): (parts: seq<string>)
    ensures |parts| >= 1
    ensures forall i :: 0 <= i < |parts| ==> sep !in parts[i]
    decreases |s|
  {
    var k := IndexOf(s, sep);
    if k == |s| then [s] else [s[..k]] + Split(s[k + 1..], sep)
  }

  /** `sep.join(parts)` */
  function Join(parts: seq<string>, sep: string): string
    decreases |parts|
  {
    if |parts| == 0 then ""
    else if |parts| == 1 then parts[0]
    else parts[0] + sep + Join(parts[1..], sep)
  }

  /** Joining the parts of a split with the same separator gives the text back. */
  lemma {:induction false} JoinSplit(s: string, sep: char)
    ensures Join(Split(s, sep), [sep]) == s
    decreases |s|
  {
    var k := IndexOf(s, sep);
    if k == |s| {
      assert s[..k] == s;
    } else {
      var head, tail := s[..k], s[k + 1..];
      SplitAt(s, sep);
      JoinSplit(tail, sep);
      JoinCons(head, Split(tail, sep), [sep]);
      assert s == head + [sep] + tail;
    }
  }

  /** Where `s` holds the separator, its split is the text before it
      followed by the split of the text after it. */
  lemma SplitAt(s: string, sep: char)
    requires IndexOf(s, sep) < |s|
    ensures Split(s, sep) == [s[..IndexOf(s, sep)]] + Split(s[IndexOf(s, sep) + 1..], sep)
  {
  }

  /** A join of a part followed by at least one more. */
  lemma JoinCons(head: string, rest: seq<string>, sep: string)
    requires |rest| >= 1
    ensures Join([head] + rest, sep) == head + sep + Join(rest, sep)
  {
    assert ([head] + rest)[1..] == rest;
  }

  /** Splitting a join gives the parts back, as long as no part holds the separator. */
  lemma {:induction false} SplitJoin(parts: seq<string>, sep: char)
    requires |parts| >= 1
    requires forall i :: 0 <= i < |parts| ==> sep !in parts[i]
    ensures Split(Join(parts, [sep]), sep) == parts
    decreases |parts|
  {
    var head := parts[0];
    IndexOfAbsent(head, sep);
    if |parts| > 1 {
      var tail := Join(parts[1..], [sep]);
      var s := Join(parts, [sep]);
      assert s == head + ([sep] + tail);
      IndexOfAt(head, [sep] + tail, sep);
      assert s[..|head|] == head;
      assert s[|head| + 1..] == tail;
      assert Split(s, sep) == [head] + Split(tail, sep);
      forall i | 0 <= i < |parts[1..]| ensures sep !in parts[1..][i] {
        assert parts[1..][i] == parts[i + 1];
      }
      SplitJoin(parts[1..], sep);
      assert [head] + parts[1..] == parts;
    }
  }

  lemma {:induction false} IndexOfAbsent(s: string, c: char)
    requires c !in s
    ensures IndexOf(s, c) == |s|
  {
  }

  lemma {:induction false} IndexOfAt(a: string, b: string, c: char)
    requires c !in a
    requires |b| > 0 && b[0] == c
    ensures IndexOf(a + b, c) == |a|
  {
    assert forall i :: 0 <= i < |a| ==> (a + b)[i] == a[i];
    assert (a + b)[|a|] == c;
  }

  /** `s[:n]`: the first `min(|s|, n)` characters. */
  function Prefix(s: string, n: nat): (r: string)
    ensures |r| == if |s| < n then |s| else n
    ensures r <= s
  {
    if |s| <= n then s else s[..n]
  }

  /** `s.replace(c, "")` for one character `c`. */
  function Remove(s: string, c: char): (r: string)
    ensures c !in r
    ensures forall i :: 0 <= i < |s| && s[i] != c ==> s[i] in r
    ensures forall i :: 0 <= i < |r| ==> r[i] in s
  {
    Filter(x => x != c, s)
  }

  // ---------------------------------------------------------------------
  // re.sub(r"http\S+", "", s)

  /** Length of the longest prefix of `s` that holds no whitespace (what a
      greedy `\S+` run can reach from the start). */
  function NonSpaceRun(s: string): (k: nat)
    ensures k <= |s|
    ensures forall i :: 0 <= i < k ==> !IsSpace(s[i])
    ensures k < |s| ==> IsSpace(s[k])
    decreases |s|
  {
    if s == [] || IsSpace(s[0]) then 0 else 1 + NonSpaceRun(s[1..])
  }

  /** The pattern `http\S+` matches at the start of `s`. */
  predicate UrlAt(s: string) {
    |s| >= 5 && s[..4] == "http" && !IsSpace(s[4])
  }

  /** A match of `http\S+` is greedy: it runs to the next whitespace or the end. */
  lemma {:induction false} UrlRunLength(s: string)
    requires UrlAt(s)
    ensures 5 <= NonSpaceRun(s)
  {
    assert s[0] == s[..4][0] && s[1] == s[..4][1] && s[2] == s[..4][2] && s[3] == s[..4][3];
  }

  /** `re.sub(r"http\S+", "", s)`: scanning left to right, every match of
      `http\S+` (extended greedily to the next whitespace) is deleted, and
      the scan resumes after it. */
  function StripUrls(s: string): (r: string)
    ensures |r| <= |s|
    decreases |s|
  {
    if s == [] then []
    else if UrlAt(s) then
      UrlRunLength(s);
      StripUrls(s[NonSpaceRun(s)..])
    else [s[0]] + StripUrls(s[1..])
  }

  /** Index of the first position of `w` where `http\S+` matches, or `|w|`. */
  function UrlIndex(w: string): (k: nat)
    ensures k <= |w|
    ensures k < |w| ==> UrlAt(w[k..])
    ensures forall j :: 0 <= j < k ==> !UrlAt(w[j..])
    decreases |w|
  {
    if w == [] || UrlAt(w) then 0
    else
      var k := 1 + UrlIndex(w[1..]);
      assert forall j :: 1 <= j <= |w| ==> w[1..][j - 1..] == w[j..];
      k
  }

  /** Inside one whitespace-free word, URL stripping keeps the text up to the
      first `http` followed by a non-space character, and deletes the rest. */
  lemma {:induction false} StripUrlsWord(w: string)
    requires forall i :: 0 <= i < |w| ==> !IsSpace(w[i])
    ensures StripUrls(w) == w[..UrlIndex(w)]
    decreases |w|
  {
    if w != [] {
      if UrlAt(w) {
        UrlRunLength(w);
        assert NonSpaceRun(w) == |w|;
        assert w[|w|..] == [];
      } else {
        StripUrlsWord(w[1..]);
        assert w[..UrlIndex(w)] == [w[0]] + w[1..][..UrlIndex(w[1..])];
      }
    }
  }

  /** A whitespace character is never part of a match: URL stripping works
      word by word and leaves every whitespace character where it was. */
  lemma {:induction false} StripUrlsSpace(a: string, c: char, b: string)
    requires IsSpace(c)
    ensures StripUrls(a + [c] + b) == StripUrls(a) + [c] + StripUrls(b)
    decreases |a|, 1
  {
    if a == [] {
      StripUrlsAtSpace(c, b);
      assert a + [c] + b == [c] + b;
    } else {
      StripUrlsSpaceAfter(a, c, b);
    }
  }

  /** The step of `StripUrlsSpace` for a non-empty `a`. */
  lemma {:induction false} StripUrlsSpaceAfter(a: string, c: char, b: string)
    requires IsSpace(c) && a != []
    ensures StripUrls(a + [c] + b) == StripUrls(a) + [c] + StripUrls(b)
    decreases |a|, 0
  {
    UrlAtPrefix(a, c, b);
    if UrlAt(a) {
      var k := StripUrlsSkipsUrl(a, c, b);
      StripUrlsSpace(a[k..], c, b);
    } else {
      StripUrlsKeepsFirst(a, c, b);
      StripUrlsSpace(a[1..], c, b);
    }
  }

  lemma StripUrlsAtSpace(c: char, b: string)
    requires IsSpace(c)
    ensures StripUrls([c] + b) == [c] + StripUrls(b)
  {
    NoMatchAtSpace([c] + b);
    assert ([c] + b)[1..] == b;
  }

  lemma StripUrlsSkipsUrl(a: string, c: char, b: string) returns (k: nat)
    requires IsSpace(c) && UrlAt(a)
    ensures 5 <= k <= |a| && k == NonSpaceRun(a)
    ensures StripUrls(a) == StripUrls(a[k..])
    ensures StripUrls(a + [c] + b) == StripUrls(a[k..] + [c] + b)
  {
    k := NonSpaceRun(a);
    var s := a + [c] + b;
    UrlRunLength(a);
    UrlAtPrefix(a, c, b);
    RunOfSpaceSeparated(a, c, b);
    assert s[k..] == a[k..] + [c] + b;
  }

  lemma StripUrlsKeepsFirst(a: string, c: char, b: string)
    requires IsSpace(c) && a != [] && !UrlAt(a) && !UrlAt(a + [c] + b)
    ensures StripUrls(a) == [a[0]] + StripUrls(a[1..])
    ensures StripUrls(a + [c] + b) == [a[0]] + StripUrls(a[1..] + [c] + b)
  {
    var s := a + [c] + b;
    assert s[1..] == a[1..] + [c] + b;
  }

  lemma {:induction false} NoMatchAtSpace(s: string)
    requires |s| > 0 && IsSpace(s[0])
    ensures !UrlAt(s)
  {
    if |s| >= 5 {
      assert s[..4][0] == s[0];
    }
  }

  /** Whether `http\S+` matches at the start does not depend on what follows a space. */
  lemma {:induction false} UrlAtPrefix(a: string, c: char, b: string)
    requires IsSpace(c) && a != []
    ensures UrlAt(a + [c] + b) <==> UrlAt(a)
  {
    var s := a + [c] + b;
    assert forall i :: 0 <= i < |a| ==> s[i] == a[i];
    assert s[|a|] == c;
    if |a| >= 5 {
      assert s[..4] == a[..4];
    } else if |s| >= 5 && |a| < 4 {
      assert s[..4][|a|] == c;
    }
  }

  lemma {:induction false} RunOfSpaceSeparated(a: string, c: char, b: string)
    requires IsSpace(c)
    ensures NonSpaceRun(a + [c] + b) == NonSpaceRun(a)
  {
    var s := a + [c] + b;
    assert forall i :: 0 <= i < |a| ==> s[i] == a[i];
    assert s[|a|] == c;
  }

  /** Text in which `http\S+` matches nowhere is left unchanged. */
  lemma {:induction false} StripUrlsNoMatch(s: string)
    requires forall j :: 0 <= j < |s| ==> !UrlAt(s[j..])
    ensures StripUrls(s) == s
    decreases |s|
  {
    if s != [] {
      assert !UrlAt(s[0..]);
      assert s[0..] == s;
      forall j | 0 <= j < |s| - 1 ensures !UrlAt(s[1..][j..]) {
        assert s[1..][j..] == s[j + 1..];
      }
      StripUrlsNoMatch(s[1..]);
    }
  }
}
