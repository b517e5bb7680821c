/** The script's string helpers: whitespace classes, regular-expression
    replacements and splits written out character by character, trimming,
    whitespace collapsing, word splitting and the two line normalisers.
    `Words` is an independent reference definition of "the words of a text";
    the lemmas at the end tie the script's split/trim/filter pipeline and the
    collapsing helpers to it. */
module Text {

  /** U+00A0, the non-breaking space. */
  const NBSP: char := '\U{00A0}'

  /** The characters matched by the `\s` class of the host's regular
      expressions (the ES5 WhiteSpace and LineTerminator productions),
      written out as a finite set. U+00A0 belongs to it. */
  predicate IsSpace(c: char) {
    c == '\t' || c == '\n' || c == '\U{000B}' || c == '\U{000C}' || c == '\r' ||
    c == ' ' || c == NBSP || c == '\U{1680}' ||
    ('\U{2000}' <= c <= '\U{200A}') || c == '\U{2028}' || c == '\U{2029}' ||
    c == '\U{202F}' || c == '\U{205F}' || c == '\U{3000}' || c == '\U{FEFF}'
  }

  /** The character classes the script's regular expressions use. */
  datatype CharClass =
    | Space      // `\s`
    | LineSpace  // `[ \t ]`
    | Newline    // `\n`
    | Break      // `\r|\n`

  predicate InClass(c: char, k: CharClass) {
    match k
    case Space => IsSpace(c)
    case LineSpace => c == ' ' || c == '\t' || c == NBSP
    case Newline => c == '\n'
    case Break => c == '\r' || c == '\n'
  }

  lemma ClassIsSpace(c: char, k: CharClass)
    requires InClass(c, k)
    ensures IsSpace(c)
  {
  }

  predicate NoneIn(s: string, k: CharClass) {
    forall i :: 0 <= i < |s| ==> !InClass(s[i], k)
  }

  /** No character `a` is immediately followed by a character `b`. */
  predicate NoPair(s: string, a: char, b: char) {
    |s| < 2 || (!(s[0] == a && s[1] == b) && NoPair(s[1..], a, b))
  }

  // ---------------------------------------------------------------------------
  // Replacements

  /** `s.replace(/\r\n/g, "\n")`. */
  function ReplaceCRLF(s: string): (r: string)
    ensures |r| <= |s|
    ensures forall i :: 0 <= i < |r| ==> r[i] in s
  {
    if |s| < 2 then s
    else if s[0] == '\r' && s[1] == '\n' then "\n" + ReplaceCRLF(s[2..])
    else [s[0]] + ReplaceCRLF(s[1..])
  }

  /** `s.replace(/\r/g, "\n")`. */
  function ReplaceCR(s: string): (r: string)
    ensures |r| == |s|
    ensures forall i :: 0 <= i < |s| ==> r[i] == (if s[i] == '\r' then '\n' else s[i])
  {
    if |s| == 0 then "" else [if s[0] == '\r' then '\n' else s[0]] + ReplaceCR(s[1..])
  }

  /** `s.replace(/\\n/g, "\n")`: the two-character escape backslash, `n`
      becomes a real line break, scanning left to right. */
  function UnescapeNewlines(s: string): (r: string)
    ensures forall i :: 0 <= i < |r| ==> r[i] == '\n' || r[i] in s
    ensures NoPair(r, '\\', 'n')
    ensures |s| > 0 ==> |r| > 0 && r[0] == (if |s| > 1 && s[0] == '\\' && s[1] == 'n' then '\n' else s[0])
  {
    if |s| < 2 then s
    else if s[0] == '\\' && s[1] == 'n' then "\n" + UnescapeNewlines(s[2..])
    else [s[0]] + UnescapeNewlines(s[1..])
  }

  /** `s.replace(/k+/g, " ")`: every maximal run of class-`k` characters
      becomes a single space. */
  function CollapseRuns(s: string, k: CharClass): (r: string)
    ensures |r| <= |s|
    ensures forall i :: 0 <= i < |r| ==> r[i] == ' ' || (!InClass(r[i], k) && r[i] in s)
    ensures InClass(' ', k) ==> NoPair(r, ' ', ' ')
    ensures |s| > 0 ==> |r| > 0 && r[0] == (if InClass(s[0], k) then ' ' else s[0])
  {
    if |s| == 0 then ""
    else if InClass(s[0], k) then
      if |s| > 1 && InClass(s[1], k) then CollapseRuns(s[1..], k)
      else " " + CollapseRuns(s[1..], k)
    else [s[0]] + CollapseRuns(s[1..], k)
  }

  /** `collapseWhitespace`: `s.replace(/\s+/g, " ")`. */
  function CollapseWhitespace(s: string): (r: string)
    ensures forall i :: 0 <= i < |r| ==> r[i] == ' ' || !IsSpace(r[i])
    ensures NoPair(r, ' ', ' ')
  {
    CollapseRuns(s, Space)
  }

  // ---------------------------------------------------------------------------
  // Splitting and joining

  /** `s.split(c)` for the characters of a class: every separator ends a piece,
      so consecutive separators give empty pieces. */
  function SplitOn(s: string, k: CharClass): (parts: seq<string>)
    ensures |parts| >= 1
    ensures forall i :: 0 <= i < |parts| ==> NoneIn(parts[i], k)
    ensures |s| > 0 && !InClass(s[0], k) ==> |parts[0]| > 0 && parts[0][0] == s[0]
  {
    if |s| == 0 then [""]
    else
      var rest := SplitOn(s[1..], k);
      if InClass(s[0], k) then [""] + rest
      else [[s[0]] + rest[0]] + rest[1..]
  }

  /** `s.split(/k+/)`: the pieces between maximal runs of class-`k` characters
      (a leading or trailing run gives an empty first or last piece). */
  function SplitRuns(s: string, k: CharClass): (parts: seq<string>)
    ensures |parts| >= 1
    ensures forall i :: 0 <= i < |parts| ==> NoneIn(parts[i], k)
    ensures |s| > 0 && InClass(s[0], k) ==> parts[0] == ""
    ensures |s| > 0 && !InClass(s[0], k) ==> |parts[0]| > 0 && parts[0][0] == s[0]
  {
    if |s| == 0 then [""]
    else
      var rest := SplitRuns(s[1..], k);
      if InClass(s[0], k) then
        if |s| > 1 && InClass(s[1], k) then rest else [""] + rest
      else [[s[0]] + rest[0]] + rest[1..]
  }

  /** `parts.join(sep)`. */
  function JoinWith(parts: seq<string>, sep: string): string {
    if |parts| == 0 then ""
    else if |parts| == 1 then parts[0]
    else parts[0] + sep + JoinWith(parts[1..], sep)
  }

  /** The pieces that are not empty, in order. */
  function NonEmpty(parts: seq<string>): (r: seq<string>)
    ensures |r| <= |parts|
    ensures forall i :: 0 <= i < |r| ==> r[i] != "" && r[i] in parts
  {
    if |parts| == 0 then []
    else if parts[0] == "" then NonEmpty(parts[1..])
    else [parts[0]] + NonEmpty(parts[1..])
  }

  // ---------------------------------------------------------------------------
  // Trimming

  predicate AllSpace(s: string) {
    forall i :: 0 <= i < |s| ==> IsSpace(s[i])
  }

  /** How many whitespace characters open `s`. */
  function LeadingSpaces(s: string): (n: nat)
    ensures n <= |s|
    ensures forall i :: 0 <= i < n ==> IsSpace(s[i])
    ensures n < |s| ==> !IsSpace(s[n])
  {
    if |s| == 0 || !IsSpace(s[0]) then 0 else 1 + LeadingSpaces(s[1..])
  }

  /** How many whitespace characters close `s`. */
  function TrailingSpaces(s: string): (n: nat)
    ensures n <= |s|
    ensures forall i :: |s| - n <= i < |s| ==> IsSpace(s[i])
    ensures n < |s| ==> !IsSpace(s[|s| - n - 1])
  {
    if |s| == 0 || !IsSpace(s[|s| - 1]) then 0 else 1 + TrailingSpaces(s[..|s| - 1])
  }

  /** `safeTrim`: strips the leading and the trailing run of whitespace. The
      result is the infix of `s` starting at `LeadingSpaces(s)`, everything
      outside it is whitespace and its two ends are not. */
  function SafeTrim(s: string): (r: string)
    ensures LeadingSpaces(s) + |r| <= |s|
    ensures forall i :: 0 <= i < |r| ==> r[i] == s[LeadingSpaces(s) + i]
    ensures r == [] || (!IsSpace(r[0]) && !IsSpace(r[|r| - 1]))
    ensures forall i :: 0 <= i < LeadingSpaces(s) ==> IsSpace(s[i])
    ensures forall i :: LeadingSpaces(s) + |r| <= i < |s| ==> IsSpace(s[i])
  {
    var k := LeadingSpaces(s);
    var t := s[k..];
    t[..|t| - TrailingSpaces(t)]
  }

  // ---------------------------------------------------------------------------
  // Words

  /** Length of the longest prefix of `s` free of whitespace. */
  function WordLength(s: string): (n: nat)
    ensures n <= |s|
    ensures forall i :: 0 <= i < n ==> !IsSpace(s[i])
    ensures n < |s| ==> IsSpace(s[n])
  {
    if |s| == 0 || IsSpace(s[0]) then 0 else 1 + WordLength(s[1..])
  }

  /** Reference definition: the maximal whitespace-free runs of `s`, in order. */
  function Words(s: string): (ws: seq<string>)
    ensures forall i :: 0 <= i < |ws| ==> ws[i] != "" && NoneIn(ws[i], Space)
    decreases |s|
  {
    if |s| == 0 then []
    else if IsSpace(s[0]) then Words(s[1..])
    else
      var n := WordLength(s);
      [s[..n]] + Words(s[n..])
  }

  /** `splitWordsForLayout`: trim, split on whitespace runs, keep non-empty pieces. */
  function SplitWordsForLayout(text: string): (words: seq<string>)
    ensures forall i :: 0 <= i < |words| ==> words[i] != "" && NoneIn(words[i], Space)
  {
    var s := SafeTrim(text);
    if s == "" then [] else NonEmpty(SplitRuns(s, Space))
  }

  // ---------------------------------------------------------------------------
  // Line normalisers

  /** Each piece with its class-`k` runs collapsed. */
  function CollapseEach(parts: seq<string>, k: CharClass): (r: seq<string>)
    ensures |r| == |parts|
    ensures forall i :: 0 <= i < |r| ==> r[i] == CollapseRuns(parts[i], k)
  {
    seq(|parts|, i requires 0 <= i < |parts| => CollapseRuns(parts[i], k))
  }

  /** Line breaks made canonical: CRLF and CR become LF, and the literal
      escape backslash-`n` becomes LF. */
  function CanonicalBreaks(s: string): string {
    UnescapeNewlines(ReplaceCR(ReplaceCRLF(s)))
  }

  /** What `normalizeWSKeepBreaks` returns. */
  function NormalizedKeepBreaks(s: string): string {
    if s == "" then ""
    else JoinWith(CollapseEach(SplitOn(CanonicalBreaks(s), Newline), LineSpace), "\n")
  }

  /** Text in the form `normalizeWSKeepBreaks` produces. */
  predicate KeepBreaksNormal(r: string) {
    '\r' !in r && '\t' !in r && NBSP !in r && NoPair(r, '\\', 'n') && NoPair(r, ' ', ' ')
  }

  /** `normalizeWSKeepBreaks`: the per-line collapse rewrites the split pieces in place. */
  method NormalizeWSKeepBreaks(s: string) returns (r: string)
    ensures r == NormalizedKeepBreaks(s)
    ensures KeepBreaksNormal(r)
    ensures r == "" <==> s == ""
  {
    NormalizedKeepBreaksNormal(s);
    if s == "" {
      return "";
    }
    var parts := SplitOn(CanonicalBreaks(s), Newline);
    var lines := CollapseLinesInPlace(parts);
    r := JoinWith(lines, "\n");
    NormalizedKeepBreaksEmpty(s);
  }

  /** The loop of `normalizeWS_keepBreaks` that collapses the whitespace runs
      of each line, one array slot at a time. */
  method CollapseLinesInPlace(parts: seq<string>) returns (collapsed: seq<string>)
    ensures collapsed == CollapseEach(parts, LineSpace)
  {
    var lines := new string[|parts|](i requires 0 <= i < |parts| => parts[i]);
    for i := 0 to lines.Length
      invariant forall j :: 0 <= j < i ==> lines[j] == CollapseRuns(parts[j], LineSpace)
      invariant forall j :: i <= j < lines.Length ==> lines[j] == parts[j]
    {
      lines[i] := CollapseRuns(lines[i], LineSpace);
    }
    collapsed := lines[..];
  }

  /** `normalizeLinesForAutoFit`: canonical CR/LF breaks, split on LF, collapse
      whitespace runs in each piece (without trimming) and drop empty pieces. */
  function NormalizeLinesForAutoFit(text: string): (lines: seq<string>)
    ensures forall i :: 0 <= i < |lines| ==>
              lines[i] != "" && '\r' !in lines[i] && '\n' !in lines[i] && NoPair(lines[i], ' ', ' ')
  {
    if text == "" then []
    else
      var norm := ReplaceCR(ReplaceCRLF(text));
      assert '\r' !in norm;
      SplitOnKeepsAbsent(norm, Newline, '\r');
      var parts := SplitOn(norm, Newline);
      CollapsedLinesClean(parts);
      NonEmpty(CollapseEach(parts, Space))
  }

  lemma CollapsedLinesClean(parts: seq<string>)
    requires forall i :: 0 <= i < |parts| ==> '\r' !in parts[i]
    ensures forall i :: 0 <= i < |NonEmpty(CollapseEach(parts, Space))| ==>
              '\r' !in NonEmpty(CollapseEach(parts, Space))[i] &&
              '\n' !in NonEmpty(CollapseEach(parts, Space))[i] &&
              NoPair(NonEmpty(CollapseEach(parts, Space))[i], ' ', ' ')
  {
    var lines := NonEmpty(CollapseEach(parts, Space));
    forall i | 0 <= i < |lines|
      ensures '\r' !in lines[i] && '\n' !in lines[i] && NoPair(lines[i], ' ', ' ')
    {
      var j :| 0 <= j < |parts| && lines[i] == CollapseRuns(parts[j], Space);
      assert forall t :: 0 <= t < |lines[i]| ==> lines[i][t] == ' ' || !IsSpace(lines[i][t]);
    }
  }

  // ===========================================================================
  // Lemmas: normalisation

  lemma {:induction false} NoPairConcat(x: string, y: string, a: char, b: char)
    requires NoPair(x, a, b) && NoPair(y, a, b)
    requires x == [] || y == [] || !(x[|x| - 1] == a && y[0] == b)
    ensures NoPair(x + y, a, b)
  {
    if |x| == 1 {
      assert x + y == [x[0]] + y;
      assert ([x[0]] + y)[1..] == y;
    } else if |x| > 1 {
      assert x[1..][|x[1..]| - 1] == x[|x| - 1];
      assert NoPair(x[1..], a, b);
      NoPairConcat(x[1..], y, a, b);
      assert (x + y)[1..] == x[1..] + y;
      assert (x + y)[0] == x[0] && (x + y)[1] == x[1];
    } else {
      assert x + y == y;
    }
  }

  lemma {:induction false} NoPairJoin(ps: seq<string>, sep: char, a: char, b: char)
    requires sep != a && sep != b
    requires forall i :: 0 <= i < |ps| ==> NoPair(ps[i], a, b)
    ensures NoPair(JoinWith(ps, [sep]), a, b)
  {
    if |ps| > 1 {
      NoPairJoin(ps[1..], sep, a, b);
      NoPairConcat(ps[0], [sep], a, b);
      NoPairConcat(ps[0] + [sep], JoinWith(ps[1..], [sep]), a, b);
    }
  }

  lemma {:induction false} AbsentJoin(ps: seq<string>, sep: char, c: char)
    requires sep != c
    requires forall i :: 0 <= i < |ps| ==> c !in ps[i]
    ensures c !in JoinWith(ps, [sep])
  {
    if |ps| > 1 {
      AbsentJoin(ps[1..], sep, c);
    }
  }

  lemma {:induction false} SplitOnKeepsAbsent(s: string, k: CharClass, c: char)
    requires c !in s
    ensures forall i :: 0 <= i < |SplitOn(s, k)| ==> c !in SplitOn(s, k)[i]
  {
    if |s| > 0 {
      SplitOnKeepsAbsent(s[1..], k, c);
    }
  }

  lemma {:induction false} SplitOnKeepsNoPair(s: string, k: CharClass, a: char, b: char)
    requires NoPair(s, a, b)
    ensures forall i :: 0 <= i < |SplitOn(s, k)| ==> NoPair(SplitOn(s, k)[i], a, b)
  {
    if |s| > 0 {
      assert NoPair(s[1..], a, b);
      SplitOnKeepsNoPair(s[1..], k, a, b);
      var rest := SplitOn(s[1..], k);
      if !InClass(s[0], k) {
        NoPairConcat([s[0]], rest[0], a, b);
      }
    }
  }

  /** Collapsing a class never creates a pair of two characters outside it. */
  lemma {:induction false} CollapseKeepsNoPair(s: string, k: CharClass, a: char, b: char)
    requires !InClass(a, k) && !InClass(b, k) && a != ' ' && b != ' '
    requires NoPair(s, a, b)
    ensures NoPair(CollapseRuns(s, k), a, b)
  {
    if |s| > 0 {
      assert NoPair(s[1..], a, b);
      CollapseKeepsNoPair(s[1..], k, a, b);
      var rest := CollapseRuns(s[1..], k);
      if InClass(s[0], k) {
        if !(|s| > 1 && InClass(s[1], k)) {
          NoPairConcat(" ", rest, a, b);
        }
      } else {
        NoPairConcat([s[0]], rest, a, b);
      }
    }
  }

  /** Without a carriage return, or without a line feed, there is no CR LF
      pair to replace. */
  lemma {:induction false} ReplaceCRLFIdle(s: string)
    requires '\r' !in s || '\n' !in s
    ensures ReplaceCRLF(s) == s
  {
    if |s| >= 2 {
      ReplaceCRLFIdle(s[1..]);
    }
  }

  /** A text without an escape is left as it is. */
  lemma {:induction false} UnescapeNoPair(s: string)
    requires NoPair(s, '\\', 'n')
    ensures UnescapeNewlines(s) == s
  {
    if |s| >= 2 {
      UnescapeNoPair(s[1..]);
    }
  }

  /** Unescaping works piecewise around any escape: what precedes it and
      what follows it are unescaped on their own and the escape becomes one
      line feed (no escape can straddle the boundary). With `UnescapeNoPair`
      this determines the result for every input. */
  lemma {:induction false} UnescapeAroundPair(x: string, y: string)
    ensures UnescapeNewlines(x + "\\n" + y) == UnescapeNewlines(x) + "\n" + UnescapeNewlines(y)
    decreases |x|
  {
    if |x| == 0 {
      AroundPairEmpty(x, y);
    } else if |x| >= 2 && x[0] == '\\' && x[1] == 'n' {
      UnescapeAroundPair(x[2..], y);
      AroundPairAfterEscape(x, y);
    } else {
      UnescapeAroundPair(x[1..], y);
      AroundPairAfterChar(x, y);
    }
  }

  // The cases of `UnescapeAroundPair`: no text before the escape, text
  // starting with an escape, and text starting with any other character.

  lemma AroundPairEmpty(x: string, y: string)
    requires x == []
    ensures UnescapeNewlines(x + "\\n" + y) == UnescapeNewlines(x) + "\n" + UnescapeNewlines(y)
  {
    assert x + "\\n" + y == "\\n" + y;
    UnescapePairFirst(y);
  }

  lemma AroundPairAfterEscape(x: string, y: string)
    requires |x| >= 2 && x[0] == '\\' && x[1] == 'n'
    requires UnescapeNewlines(x[2..] + "\\n" + y) == UnescapeNewlines(x[2..]) + "\n" + UnescapeNewlines(y)
    ensures UnescapeNewlines(x + "\\n" + y) == UnescapeNewlines(x) + "\n" + UnescapeNewlines(y)
  {
    var t := x[2..];
    assert x == "\\n" + t;
    Regroup("\\n", t, "\\n", y);
    UnescapePairFirst(t + "\\n" + y);
    UnescapePairFirst(t);
    Regroup("\n", UnescapeNewlines(t), "\n", UnescapeNewlines(y));
  }

  lemma AroundPairAfterChar(x: string, y: string)
    requires |x| >= 1 && !(|x| >= 2 && x[0] == '\\' && x[1] == 'n')
    requires UnescapeNewlines(x[1..] + "\\n" + y) == UnescapeNewlines(x[1..]) + "\n" + UnescapeNewlines(y)
    ensures UnescapeNewlines(x + "\\n" + y) == UnescapeNewlines(x) + "\n" + UnescapeNewlines(y)
  {
    var c, t := x[0], x[1..];
    assert x == [c] + t;
    Regroup([c], t, "\\n", y);
    assert (t + "\\n" + y)[0] == (if |t| == 0 then '\\' else t[0]);
    UnescapeCharFirst(c, t + "\\n" + y);
    UnescapeCharFirst(c, t);
    Regroup([c], UnescapeNewlines(t), "\n", UnescapeNewlines(y));
  }

  /** Concatenation regrouped, stated apart from any unescaping. */
  lemma Regroup(a: string, b: string, c: string, d: string)
    ensures a + (b + c + d) == a + b + c + d
  {
  }

  /** An escape at the front becomes a line feed. */
  lemma UnescapePairFirst(t: string)
    ensures UnescapeNewlines("\\n" + t) == "\n" + UnescapeNewlines(t)
  {
    assert ("\\n" + t)[2..] == t;
  }

  /** A character that does not start an escape is kept. */
  lemma UnescapeCharFirst(c: char, t: string)
    requires !(c == '\\' && |t| > 0 && t[0] == 'n')
    ensures UnescapeNewlines([c] + t) == [c] + UnescapeNewlines(t)
  {
    if |t| == 0 {
      assert [c] + t == [c];
    } else {
      assert ([c] + t)[1..] == t;
    }
  }

  lemma {:induction false} CollapseFixed(s: string, k: CharClass)
    requires forall i :: 0 <= i < |s| ==> s[i] == ' ' || !InClass(s[i], k)
    requires NoPair(s, ' ', ' ')
    ensures CollapseRuns(s, k) == s
  {
    if |s| > 0 {
      assert NoPair(s[1..], ' ', ' ');
      CollapseFixed(s[1..], k);
    }
  }

  /** Collapsing is idempotent. */
  lemma CollapseIdempotent(s: string, k: CharClass)
    requires InClass(' ', k)
    ensures CollapseRuns(CollapseRuns(s, k), k) == CollapseRuns(s, k)
  {
    CollapseFixed(CollapseRuns(s, k), k);
  }

  lemma {:induction false} SplitOnJoin(lines: seq<string>)
    requires |lines| >= 1
    requires forall i :: 0 <= i < |lines| ==> '\n' !in lines[i]
    ensures SplitOn(JoinWith(lines, "\n"), Newline) == lines
  {
    if |lines| == 1 {
      SplitOnSingle(lines[0]);
    } else {
      SplitOnJoin(lines[1..]);
      SplitOnPrefix(lines[0], JoinWith(lines[1..], "\n"));
      assert [lines[0]] + lines[1..] == lines;
    }
  }

  lemma {:induction false} SplitOnSingle(l: string)
    requires '\n' !in l
    ensures SplitOn(l, Newline) == [l]
  {
    if |l| > 0 {
      SplitOnSingle(l[1..]);
      assert [l[0]] + l[1..] == l;
    }
  }

  lemma {:induction false} SplitOnPrefix(l: string, rest: string)
    requires '\n' !in l
    ensures SplitOn(l + "\n" + rest, Newline) == [l] + SplitOn(rest, Newline)
  {
    if |l| == 0 {
      assert l + "\n" + rest == "\n" + rest;
      assert ("\n" + rest)[1..] == rest;
    } else {
      SplitOnPrefix(l[1..], rest);
      assert (l + "\n" + rest)[1..] == l[1..] + "\n" + rest;
      assert [l[0]] + l[1..] == l;
    }
  }

  /** Everything `NormalizedKeepBreaks` returns is in normal form, and it is
      empty exactly for the empty input. */
  lemma NormalizedKeepBreaksNormal(s: string)
    ensures KeepBreaksNormal(NormalizedKeepBreaks(s))
  {
    if s != "" {
      var c1 := ReplaceCRLF(s);
      var c2 := ReplaceCR(c1);
      assert '\r' !in c2;
      var norm := UnescapeNewlines(c2);
      assert '\r' !in norm;
      var parts := SplitOn(norm, Newline);
      var lines := CollapseEach(parts, LineSpace);
      SplitOnKeepsAbsent(norm, Newline, '\r');
      SplitOnKeepsNoPair(norm, Newline, '\\', 'n');
      forall i | 0 <= i < |lines|
        ensures '\r' !in lines[i] && '\t' !in lines[i] && NBSP !in lines[i]
        ensures NoPair(lines[i], '\\', 'n') && NoPair(lines[i], ' ', ' ')
      {
        CollapseKeepsNoPair(parts[i], LineSpace, '\\', 'n');
      }
      AbsentJoin(lines, '\n', '\r');
      AbsentJoin(lines, '\n', '\t');
      AbsentJoin(lines, '\n', NBSP);
      NoPairJoin(lines, '\n', '\\', 'n');
      NoPairJoin(lines, '\n', ' ', ' ');
    }
  }

  lemma NormalizedKeepBreaksEmpty(s: string)
    ensures NormalizedKeepBreaks(s) == "" <==> s == ""
  {
    if s != "" {
      var norm := CanonicalBreaks(s);
      assert |ReplaceCRLF(s)| > 0;
      assert |norm| > 0;
      var parts := SplitOn(norm, Newline);
      if |parts| == 1 {
        JoinSplitOnNewline(norm);
        assert parts[0] == norm;
        assert |CollapseRuns(parts[0], LineSpace)| > 0;
      }
    }
  }

  lemma {:induction false} JoinSplitOnNewline(s: string)
    ensures JoinWith(SplitOn(s, Newline), "\n") == s
  {
    if |s| > 0 {
      JoinSplitOnNewline(s[1..]);
      var rest := SplitOn(s[1..], Newline);
      if s[0] == '\n' {
        assert SplitOn(s, Newline) == [""] + rest;
        assert ([""] + rest)[1..] == rest;
      } else {
        JoinConsFirst(s[0], rest, "\n");
      }
    }
  }

  lemma JoinConsFirst(c: char, ps: seq<string>, sep: string)
    requires |ps| >= 1
    ensures JoinWith([[c] + ps[0]] + ps[1..], sep) == [c] + JoinWith(ps, sep)
  {
    var qs := [[c] + ps[0]] + ps[1..];
    assert qs[1..] == ps[1..];
  }

  /** `normalizeWSKeepBreaks` is idempotent. */
  lemma NormalizeIdempotent(s: string)
    ensures NormalizedKeepBreaks(NormalizedKeepBreaks(s)) == NormalizedKeepBreaks(s)
  {
    var r := NormalizedKeepBreaks(s);
    NormalizedKeepBreaksNormal(s);
    if r != "" {
      var parts := SplitOn(CanonicalBreaks(s), Newline);
      var lines := CollapseEach(parts, LineSpace);
      assert r == JoinWith(lines, "\n");
      CanonicalOfNormal(r);
      CollapsedPiecesFixed(parts);
      SplitOnJoin(lines);
    }
  }

  /** Normal text has no breaks left to canonicalise. */
  lemma CanonicalOfNormal(r: string)
    requires KeepBreaksNormal(r)
    ensures CanonicalBreaks(r) == r
  {
    ReplaceCRLFIdle(r);
    assert ReplaceCR(r) == r;
    UnescapeNoPair(r);
  }

  /** Collapsed pieces of a split are free of line feeds and collapse to themselves. */
  lemma CollapsedPiecesFixed(parts: seq<string>)
    requires forall i :: 0 <= i < |parts| ==> NoneIn(parts[i], Newline)
    ensures forall i :: 0 <= i < |parts| ==> '\n' !in CollapseEach(parts, LineSpace)[i]
    ensures CollapseEach(CollapseEach(parts, LineSpace), LineSpace) == CollapseEach(parts, LineSpace)
  {
    var lines := CollapseEach(parts, LineSpace);
    forall i | 0 <= i < |lines| ensures '\n' !in lines[i] && CollapseRuns(lines[i], LineSpace) == lines[i] {
      assert NoneIn(parts[i], Newline);
      CollapseIdempotent(parts[i], LineSpace);
    }
  }

  // ===========================================================================
  // Lemmas: words

  /** The words of every piece, in order. */
  function WordsOfAll(ps: seq<string>): seq<string> {
    if |ps| == 0 then [] else Words(ps[0]) + WordsOfAll(ps[1..])
  }

  lemma {:induction false} WordsCons(c: char, x: string)
    requires !IsSpace(c)
    ensures |x| > 0 && !IsSpace(x[0]) ==> |Words(x)| > 0
    ensures Words([c] + x) ==
              if |x| == 0 || IsSpace(x[0]) then [[c]] + Words(x)
              else [[c] + Words(x)[0]] + Words(x)[1..]
  {
    var s := [c] + x;
    assert s[0] == c && s[1..] == x;
    var m := WordLength(x);
    var n := WordLength(s);
    assert n == 1 + m;
    assert Words(s) == [s[..n]] + Words(s[n..]);
    assert s[..n] == [c] + x[..m];
    assert s[n..] == x[m..];
    if |x| == 0 || IsSpace(x[0]) {
      assert m == 0;
      assert x[m..] == x;
      assert x[..m] == [];
    } else {
      assert Words(x) == [x[..m]] + Words(x[m..]);
    }
  }

  lemma {:induction false} WordLengthBeforeSpace(a: string, c: char, b: string)
    requires IsSpace(c)
    ensures WordLength(a + [c] + b) == WordLength(a)
  {
    if |a| > 0 && !IsSpace(a[0]) {
      assert (a + [c] + b)[1..] == a[1..] + [c] + b;
      WordLengthBeforeSpace(a[1..], c, b);
    }
  }

  /** A whitespace character separates words: the words of `a c b` are the
      words of `a` followed by the words of `b`. */
  lemma {:induction false} WordsSpaceJoin(a: string, c: char, b: string)
    requires IsSpace(c)
    ensures Words(a + [c] + b) == Words(a) + Words(b)
    decreases |a|
  {
    var s := a + [c] + b;
    if |a| == 0 {
      assert s == [c] + b && s[1..] == b;
    } else if IsSpace(a[0]) {
      assert s[1..] == a[1..] + [c] + b;
      WordsSpaceJoin(a[1..], c, b);
    } else {
      WordsSpaceJoin(a[WordLength(a)..], c, b);
      WordsSpaceJoinWord(a, c, b);
    }
  }

  /** The step of `WordsSpaceJoin` past the first word of `a`. */
  lemma WordsSpaceJoinWord(a: string, c: char, b: string)
    requires IsSpace(c) && |a| > 0 && !IsSpace(a[0])
    requires Words(a[WordLength(a)..] + [c] + b) == Words(a[WordLength(a)..]) + Words(b)
    ensures Words(a + [c] + b) == Words(a) + Words(b)
  {
    var s := a + [c] + b;
    var n := WordLength(a);
    WordLengthBeforeSpace(a, c, b);
    assert s[..n] == a[..n];
    assert s[n..] == a[n..] + [c] + b;
  }

  lemma {:induction false} WordsAllSpace(s: string)
    requires AllSpace(s)
    ensures Words(s) == []
  {
    if |s| > 0 {
      assert AllSpace(s[1..]);
      WordsAllSpace(s[1..]);
    }
  }

  lemma {:induction false} WordsSpacePrefix(p: string, t: string)
    requires AllSpace(p)
    ensures Words(p + t) == Words(t)
  {
    if |p| > 0 {
      assert (p + t)[1..] == p[1..] + t;
      assert AllSpace(p[1..]);
      WordsSpacePrefix(p[1..], t);
    } else {
      assert p + t == t;
    }
  }

  lemma WordsSpaceSuffix(t: string, q: string)
    requires AllSpace(q)
    ensures Words(t + q) == Words(t)
  {
    if |q| > 0 {
      assert t + q == t + [q[0]] + q[1..];
      WordsSpaceJoin(t, q[0], q[1..]);
      assert AllSpace(q[1..]);
      WordsAllSpace(q[1..]);
    } else {
      assert t + q == t;
    }
  }

  /** Trimming does not change the words. */
  lemma WordsOfTrim(s: string)
    ensures Words(SafeTrim(s)) == Words(s)
  {
    var r := SafeTrim(s);
    var k := LeadingSpaces(s);
    var p, q := s[..k], s[k + |r|..];
    assert AllSpace(p);
    assert AllSpace(q);
    assert s == p + (r + q);
    WordsSpacePrefix(p, r + q);
    WordsSpaceSuffix(r, q);
  }

  /** Splitting on whitespace runs and dropping the empty pieces yields the words. */
  lemma {:induction false} SplitRunsWords(s: string)
    ensures NonEmpty(SplitRuns(s, Space)) == Words(s)
  {
    if |s| > 0 {
      SplitRunsWords(s[1..]);
      var rest := SplitRuns(s[1..], Space);
      if IsSpace(s[0]) {
        if !(|s| > 1 && IsSpace(s[1])) {
          assert ([""] + rest)[1..] == rest;
        }
      } else {
        var first := [s[0]] + rest[0];
        assert SplitRuns(s, Space) == [first] + rest[1..];
        assert ([first] + rest[1..])[1..] == rest[1..];
        WordsCons(s[0], s[1..]);
        assert [s[0]] + s[1..] == s;
        if |s| == 1 || IsSpace(s[1]) {
          assert rest[0] == "";
          assert first == [s[0]];
          assert rest == [""] + rest[1..];
          assert NonEmpty(rest) == NonEmpty(rest[1..]);
          assert NonEmpty([first] + rest[1..]) == [first] + NonEmpty(rest[1..]);
        } else {
          assert rest == [rest[0]] + rest[1..];
          assert NonEmpty(rest) == [rest[0]] + NonEmpty(rest[1..]);
        }
      }
    }
  }

  /** `splitWordsForLayout` computes exactly the words of its input. */
  lemma SplitWordsIsWords(text: string)
    ensures SplitWordsForLayout(text) == Words(text)
  {
    WordsOfTrim(text);
    SplitRunsWords(SafeTrim(text));
  }

  /** Collapsing runs of any whitespace class keeps the words. */
  lemma {:induction false} WordsCollapse(s: string, k: CharClass)
    ensures Words(CollapseRuns(s, k)) == Words(s)
  {
    if |s| > 0 {
      WordsCollapse(s[1..], k);
      if IsSpace(s[0]) {
        WordsCollapseSpace(s, k);
      } else {
        WordsCollapseWord(s, k);
      }
    }
  }

  /** The step of `WordsCollapse` for a leading whitespace character. */
  lemma WordsCollapseSpace(s: string, k: CharClass)
    requires |s| > 0 && IsSpace(s[0])
    requires Words(CollapseRuns(s[1..], k)) == Words(s[1..])
    ensures Words(CollapseRuns(s, k)) == Words(s)
  {
    var rest := CollapseRuns(s[1..], k);
    if InClass(s[0], k) {
      if !(|s| > 1 && InClass(s[1], k)) {
        assert (" " + rest)[1..] == rest;
      }
    } else {
      assert ([s[0]] + rest)[1..] == rest;
    }
  }

  /** The step of `WordsCollapse` for a leading word character. */
  lemma WordsCollapseWord(s: string, k: CharClass)
    requires |s| > 0 && !IsSpace(s[0])
    requires Words(CollapseRuns(s[1..], k)) == Words(s[1..])
    ensures Words(CollapseRuns(s, k)) == Words(s)
  {
    var rest := CollapseRuns(s[1..], k);
    assert !InClass(s[0], k);
    WordsCons(s[0], rest);
    WordsCons(s[0], s[1..]);
    assert [s[0]] + s[1..] == s;
    if |s| > 1 && InClass(s[1], k) {
      ClassIsSpace(s[1], k);
    }
  }

  /** Joining pieces with a whitespace character concatenates their words. */
  lemma {:induction false} WordsJoin(ps: seq<string>, c: char)
    requires IsSpace(c)
    ensures Words(JoinWith(ps, [c])) == WordsOfAll(ps)
  {
    if |ps| == 1 {
      assert WordsOfAll(ps[1..]) == [];
    } else if |ps| > 1 {
      WordsJoin(ps[1..], c);
      WordsSpaceJoin(ps[0], c, JoinWith(ps[1..], [c]));
    }
  }

  lemma {:induction false} WordsOfWord(w: string)
    requires NoneIn(w, Space)
    ensures Words(w) == if w == "" then [] else [w]
  {
    if w != "" {
      assert WordLength(w) == |w|;
      assert w[|w|..] == "";
      assert w[..|w|] == w;
    }
  }

  /** Joining `split(/k+/)` with single spaces is the same as collapsing class-`k` runs. */
  lemma {:induction false} JoinSplitRuns(s: string, k: CharClass)
    ensures JoinWith(SplitRuns(s, k), " ") == CollapseRuns(s, k)
  {
    if |s| > 0 {
      JoinSplitRuns(s[1..], k);
      var rest := SplitRuns(s[1..], k);
      if InClass(s[0], k) {
        if !(|s| > 1 && InClass(s[1], k)) {
          assert ([""] + rest)[1..] == rest;
        }
      } else {
        JoinConsFirst(s[0], rest, " ");
      }
    }
  }

  lemma {:induction false} WordsOfAllCollapse(ps: seq<string>, k: CharClass)
    ensures WordsOfAll(CollapseEach(ps, k)) == WordsOfAll(ps)
  {
    if |ps| > 0 {
      WordsCollapse(ps[0], k);
      WordsOfAllCollapse(ps[1..], k);
      assert CollapseEach(ps, k)[1..] == CollapseEach(ps[1..], k);
    }
  }

  // ===========================================================================
  // Lemmas: the lines the fitter reads back

  lemma ReplaceCRConcat(x: string, y: string)
    ensures ReplaceCR(x + y) == ReplaceCR(x) + ReplaceCR(y)
  {
    assert forall i :: 0 <= i < |x + y| ==> (x + y)[i] == if i < |x| then x[i] else y[i - |x|];
  }

  lemma {:induction false} ReplaceCRJoin(lines: seq<string>)
    requires forall i :: 0 <= i < |lines| ==> '\r' !in lines[i]
    ensures ReplaceCR(JoinWith(lines, "\r")) == JoinWith(lines, "\n")
  {
    if |lines| == 1 {
      assert ReplaceCR(lines[0]) == lines[0];
    } else if |lines| > 1 {
      ReplaceCRJoin(lines[1..]);
      ReplaceCRConcat(lines[0] + "\r", JoinWith(lines[1..], "\r"));
      ReplaceCRConcat(lines[0], "\r");
      assert ReplaceCR(lines[0]) == lines[0];
    }
  }

  lemma {:induction false} NonEmptyAllEmpty(ps: seq<string>)
    requires forall i :: 0 <= i < |ps| ==> ps[i] == ""
    ensures NonEmpty(ps) == []
  {
    if |ps| > 0 {
      NonEmptyAllEmpty(ps[1..]);
    }
  }

  /** Lines joined with CR, as the layout emits them, are read back by
      `normalizeLinesForAutoFit` as the same lines minus the empty ones,
      provided each line is already whitespace-collapsed and break-free. */
  lemma AutoFitLinesOfJoin(lines: seq<string>)
    requires forall i :: 0 <= i < |lines| ==>
               '\r' !in lines[i] && '\n' !in lines[i] && CollapseWhitespace(lines[i]) == lines[i]
    ensures NormalizeLinesForAutoFit(JoinWith(lines, "\r")) == NonEmpty(lines)
  {
    var j := JoinWith(lines, "\r");
    if |lines| == 0 {
    } else if j == "" {
      if |lines| > 1 {
        assert false;
      }
      assert NonEmpty(lines) == NonEmpty(lines[1..]);
    } else {
      AutoFitLinesOfNonEmptyJoin(lines);
    }
  }

  lemma AutoFitLinesOfNonEmptyJoin(lines: seq<string>)
    requires |lines| > 0
    requires forall i :: 0 <= i < |lines| ==>
               '\r' !in lines[i] && '\n' !in lines[i] && CollapseWhitespace(lines[i]) == lines[i]
    requires JoinWith(lines, "\r") != ""
    ensures NormalizeLinesForAutoFit(JoinWith(lines, "\r")) == NonEmpty(lines)
  {
    var j := JoinWith(lines, "\r");
    AbsentJoin(lines, '\r', '\n');
    ReplaceCRLFIdle(j);
    ReplaceCRJoin(lines);
    var c := ReplaceCR(ReplaceCRLF(j));
    assert c == JoinWith(lines, "\n");
    SplitOnJoin(lines);
    var parts := SplitOn(c, Newline);
    assert parts == lines;
    var collapsed := CollapseEach(parts, Space);
    assert collapsed == lines;
  }
}
