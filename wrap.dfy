/** The measured wrapper: words are packed greedily into lines no wider than
    a pixel limit, then the first line hands words to the second while it is
    the wider of the two, and middle lines pull words up from the line below
    while they are the narrower. Pixel widths come from an oracle `m`, the
    width the host reports for a piece of text set in the current font. */
module Wrap {
  import opened Base
  import opened Text

  /** The width the measuring layer reports; empty text measures 0 without
      consulting the host. */
  function MeasureWidth(m: string -> real, t: string): (w: real)
    ensures t == "" ==> w == 0.0
  {
    if t == "" then 0.0 else m(t)
  }

  /** The width of a line of words set with single spaces. */
  function LineWidth(m: string -> real, line: seq<string>): real {
    MeasureWidth(m, JoinWith(line, " "))
  }

  /** All words of all lines, in order. */
  function Flatten(lines: seq<seq<string>>): seq<string> {
    if |lines| == 0 then [] else lines[0] + Flatten(lines[1..])
  }

  predicate AllNonEmpty(lines: seq<seq<string>>) {
    forall i :: 0 <= i < |lines| ==> |lines[i]| > 0
  }

  /** Every prefix of two or more words of every line fits the limit. */
  predicate PrefixesFit(m: string -> real, lines: seq<seq<string>>, maxWidth: real) {
    forall i, k :: 0 <= i < |lines| && 2 <= k <= |lines[i]| ==> LineWidth(m, lines[i][..k]) <= maxWidth
  }

  /** No line could have taken the first word of the line after it. */
  predicate Maximal(m: string -> real, lines: seq<seq<string>>, maxWidth: real) {
    forall i :: 1 <= i < |lines| ==>
      |lines[i]| > 0 && LineWidth(m, lines[i - 1] + [lines[i][0]]) > maxWidth
  }

  /** What the greedy wrapper produces for `words`. */
  predicate GreedyShape(m: string -> real, words: seq<string>, lines: seq<seq<string>>, maxWidth: real) {
    Flatten(lines) == words && AllNonEmpty(lines) &&
    PrefixesFit(m, lines, maxWidth) && Maximal(m, lines, maxWidth)
  }

  // ---------------------------------------------------------------------------
  // Flattening

  lemma {:induction false} FlattenAppend(xs: seq<seq<string>>, ys: seq<seq<string>>)
    ensures Flatten(xs + ys) == Flatten(xs) + Flatten(ys)
  {
    if |xs| == 0 {
      assert xs + ys == ys;
    } else {
      assert (xs + ys)[1..] == xs[1..] + ys;
      FlattenAppend(xs[1..], ys);
    }
  }

  lemma AppendAssoc<T>(a: seq<T>, b: seq<T>, c: seq<T>)
    ensures a + (b + c) == (a + b) + c
  {
  }

  lemma FlattenSingle(x: seq<string>)
    ensures Flatten([x]) == x
  {
    assert [x][1..] == [];
  }

  lemma FlattenEmptyLines(lines: seq<seq<string>>)
    requires AllNonEmpty(lines)
    ensures Flatten(lines) == [] <==> lines == []
  {
    if |lines| > 0 {
      assert |lines[0]| > 0;
    }
  }

  // ---------------------------------------------------------------------------
  // Greedy wrap

  /** Every prefix of two or more words of the line being built fits. */
  predicate CurrentFits(m: string -> real, current: seq<string>, maxWidth: real) {
    forall k :: 2 <= k <= |current| ==> LineWidth(m, current[..k]) <= maxWidth
  }

  /** The last finished line could not have taken the first word of the line
      being built. */
  predicate Linked(m: string -> real, lines: seq<seq<string>>, current: seq<string>, maxWidth: real) {
    |lines| > 0 ==> |current| > 0 && LineWidth(m, lines[|lines| - 1] + [current[0]]) > maxWidth
  }

  lemma PushKeeps(m: string -> real, current: seq<string>, word: string, maxWidth: real)
    requires CurrentFits(m, current, maxWidth) && LineWidth(m, current + [word]) <= maxWidth
    ensures CurrentFits(m, current + [word], maxWidth)
  {
    forall k | 2 <= k <= |current| + 1
      ensures LineWidth(m, (current + [word])[..k]) <= maxWidth
    {
      if k <= |current| {
        assert (current + [word])[..k] == current[..k];
      } else {
        assert (current + [word])[..k] == current + [word];
      }
    }
  }

  lemma FlushKeeps(m: string -> real, lines: seq<seq<string>>, current: seq<string>, maxWidth: real)
    requires AllNonEmpty(lines) && PrefixesFit(m, lines, maxWidth) && Maximal(m, lines, maxWidth)
    requires Linked(m, lines, current, maxWidth) && CurrentFits(m, current, maxWidth) && |current| > 0
    ensures AllNonEmpty(lines + [current])
    ensures PrefixesFit(m, lines + [current], maxWidth) && Maximal(m, lines + [current], maxWidth)
    ensures Flatten(lines + [current]) == Flatten(lines) + current
  {
    FlattenAppend(lines, [current]);
    FlattenSingle(current);
    var l := lines + [current];
    forall i | 1 <= i < |l|
      ensures |l[i]| > 0 && LineWidth(m, l[i - 1] + [l[i][0]]) > maxWidth
    {
      if i < |lines| {
        assert l[i] == lines[i] && l[i - 1] == lines[i - 1];
      }
    }
  }

  /** The state the greedy wrapper keeps between words: the finished lines
      and the line being built. */
  predicate GreedyState(m: string -> real, lines: seq<seq<string>>, current: seq<string>, maxWidth: real) {
    AllNonEmpty(lines) && PrefixesFit(m, lines, maxWidth) && Maximal(m, lines, maxWidth) &&
    CurrentFits(m, current, maxWidth) && Linked(m, lines, current, maxWidth)
  }

  /** One iteration of the greedy wrapper's loop: `word` joins `current` if
      the joined line fits, and otherwise `current` is finished and `word`
      starts a new line. */
  method GreedyPlace(lines: seq<seq<string>>, current: seq<string>, word: string, m: string -> real,
                     maxWidth: real)
    returns (lines': seq<seq<string>>, current': seq<string>)
    requires GreedyState(m, lines, current, maxWidth)
    ensures GreedyState(m, lines', current', maxWidth) && |current'| > 0
    ensures Flatten(lines') + current' == Flatten(lines) + (current + [word])
  {
    var candidate := JoinWith(current + [word], " ");
    if |current| == 0 {
      lines', current' := lines, [word];
    } else if MeasureWidth(m, candidate) <= maxWidth {
      PushKeeps(m, current, word, maxWidth);
      lines', current' := lines, current + [word];
    } else {
      FlushKeeps(m, lines, current, maxWidth);
      AppendAssoc(Flatten(lines), current, [word]);
      lines', current' := lines + [current], [word];
    }
  }

  /** `greedyWrapWordsPixels`: each word joins the current line if the line
      with it still fits, and otherwise starts a new line; the first word of
      a line is placed whatever its width. */
  method GreedyWrapWordsPixels(words: seq<string>, m: string -> real, maxWidth: real)
    returns (lines: seq<seq<string>>)
    ensures GreedyShape(m, words, lines, maxWidth)
  {
    lines := [];
    var current: seq<string> := [];
    if |words| == 0 {
      return;
    }
    var i := 0;
    while i < |words|
      invariant 0 <= i <= |words|
      invariant Flatten(lines) + current == words[..i]
      invariant i > 0 <==> |current| > 0
      invariant GreedyState(m, lines, current, maxWidth)
    {
      assert words[..i + 1] == words[..i] + [words[i]];
      AppendAssoc(Flatten(lines), current, [words[i]]);
      lines, current := GreedyPlace(lines, current, words[i], m, maxWidth);
      i := i + 1;
    }
    assert words[..|words|] == words;
    GreedyFinish(m, words, lines, current, maxWidth);
    lines := lines + [current];
  }

  /** Finishing the line being built completes the greedy shape. */
  lemma GreedyFinish(m: string -> real, words: seq<string>, lines: seq<seq<string>>, current: seq<string>,
                     maxWidth: real)
    requires GreedyState(m, lines, current, maxWidth) && |current| > 0
    requires Flatten(lines) + current == words
    ensures GreedyShape(m, words, lines + [current], maxWidth)
  {
    FlushKeeps(m, lines, current, maxWidth);
  }

  /** A line of two or more words that the greedy wrapper produced fits;
      only a line holding a single word may be wider than the limit. */
  lemma GreedyLinesFit(m: string -> real, words: seq<string>, lines: seq<seq<string>>, maxWidth: real, i: nat)
    requires GreedyShape(m, words, lines, maxWidth) && i < |lines|
    ensures |lines[i]| >= 1
    ensures LineWidth(m, lines[i]) > maxWidth ==> |lines[i]| == 1
  {
    if |lines[i]| >= 2 {
      assert lines[i][..|lines[i]|] == lines[i];
    }
  }

  /** The greedy shape determines the lines: any two wraps of the same words
      that both have it are equal. */
  lemma {:induction false} GreedyUnique(m: string -> real, words: seq<string>,
                                        l1: seq<seq<string>>, l2: seq<seq<string>>, maxWidth: real)
    requires GreedyShape(m, words, l1, maxWidth) && GreedyShape(m, words, l2, maxWidth)
    ensures l1 == l2
    decreases |words|
  {
    if |l1| == 0 {
      FlattenEmptyLines(l2);
    } else if |l2| == 0 {
      FlattenEmptyLines(l1);
    } else {
      var a, b := l1[0], l2[0];
      assert words == a + Flatten(l1[1..]) && words == b + Flatten(l2[1..]);
      FirstLineNoLonger(m, words, l1, l2, maxWidth);
      FirstLineNoLonger(m, words, l2, l1, maxWidth);
      assert a == words[..|a|] && b == words[..|b|];
      var rest := words[|a|..];
      assert Flatten(l1[1..]) == rest && Flatten(l2[1..]) == rest;
      GreedyShapeTail(m, words, l1, maxWidth);
      GreedyShapeTail(m, words, l2, maxWidth);
      GreedyUnique(m, rest, l1[1..], l2[1..], maxWidth);
      assert l1 == [a] + l1[1..] && l2 == [b] + l2[1..];
    }
  }

  /** The lines after the first of a greedy wrap are a greedy wrap of the
      words after the first line. */
  lemma GreedyShapeTail(m: string -> real, words: seq<string>, lines: seq<seq<string>>, maxWidth: real)
    requires GreedyShape(m, words, lines, maxWidth) && |lines| > 0
    ensures GreedyShape(m, words[|lines[0]|..], lines[1..], maxWidth)
  {
    assert words == lines[0] + Flatten(lines[1..]);
    assert words[|lines[0]|..] == Flatten(lines[1..]);
    var t := lines[1..];
    forall i | 1 <= i < |t|
      ensures |t[i]| > 0 && LineWidth(m, t[i - 1] + [t[i][0]]) > maxWidth
    {
      assert t[i] == lines[i + 1] && t[i - 1] == lines[i];
    }
  }

  /** Two greedy wraps of the same words start with lines of the same
      length: a longer first line would contain a two-word prefix that the
      other wrap found too wide. */
  lemma FirstLineNoLonger(m: string -> real, words: seq<string>, l1: seq<seq<string>>, l2: seq<seq<string>>,
                          maxWidth: real)
    requires GreedyShape(m, words, l1, maxWidth) && GreedyShape(m, words, l2, maxWidth)
    requires |l1| > 0 && |l2| > 0
    ensures |l1[0]| <= |l2[0]|
  {
    var a, b := l2[0], l1[0];
    if |a| < |b| {
      FirstLineNoLongerStep(m, words, l1, l2, maxWidth);
    }
  }

  /** If the first line of `l2` is the shorter, the first line of `l1` holds
      it followed by the first word of the second line of `l2`. */
  lemma FirstLineNoLongerStep(m: string -> real, words: seq<string>, l1: seq<seq<string>>, l2: seq<seq<string>>,
                              maxWidth: real)
    requires GreedyShape(m, words, l1, maxWidth) && GreedyShape(m, words, l2, maxWidth)
    requires |l1| > 0 && |l2| > 0
    ensures |l2[0]| < |l1[0]| ==> |l2| > 1 && l1[0][..|l2[0]| + 1] == l2[0] + [l2[1][0]]
  {
    var a, b := l2[0], l1[0];
    assert words == a + Flatten(l2[1..]) && words == b + Flatten(l1[1..]);
    if |a| < |b| {
      assert l2[1..] == [l2[1]] + l2[2..];
      FlattenAppend([l2[1]], l2[2..]);
      FlattenSingle(l2[1]);
      assert words[|a|] == l2[1][0];
      assert b[..|a| + 1] == words[..|a| + 1];
    }
  }

  // ---------------------------------------------------------------------------
  // First-line rebalancing

  /** `maxMoves || 5`. */
  function MoveLimit(maxMoves: nat): (n: nat)
    ensures n > 0
  {
    if maxMoves == 0 then 5 else maxMoves
  }

  /** Moves the last word of the first line to the front of the second while
      the first line has more than one word, is at least as wide as the
      second, and the second still fits with the word; at most `remaining`
      times. */
  function FirstLineMoves(l0: seq<string>, l1: seq<string>, m: string -> real, maxWidth: real,
                          remaining: nat): (seq<string>, seq<string>)
    decreases remaining
  {
    if remaining == 0 || |l0| <= 1 then (l0, l1)
    else if LineWidth(m, l0) < LineWidth(m, l1) then (l0, l1)
    else
      var last := l0[|l0| - 1];
      var shorter := l0[..|l0| - 1];
      var longer := [last] + l1;
      if LineWidth(m, longer) > maxWidth then (l0, l1)
      else FirstLineMoves(if |shorter| > 0 then shorter else [last], longer, m, maxWidth, remaining - 1)
  }

  /** The whole list after the first-line pass. */
  function RebalanceFirstLine(lines: seq<seq<string>>, m: string -> real, maxWidth: real,
                              maxMoves: nat): (r: seq<seq<string>>)
    ensures |r| == |lines|
  {
    if |lines| < 2 then lines
    else
      var (x, y) := FirstLineMoves(lines[0], lines[1], m, maxWidth, MoveLimit(maxMoves));
      lines[0 := x][1 := y]
  }

  /** `rebalanceFirstLineStrict`: edits the first two entries of the list in
      place. */
  method RebalanceFirstLineStrict(a: array<seq<string>>, m: string -> real, maxWidth: real, maxMoves: nat)
    modifies a
    ensures a[..] == RebalanceFirstLine(old(a[..]), m, maxWidth, maxMoves)
  {
    if a.Length < 2 {
      return;
    }
    ghost var orig := a[..];
    var moves := 0;
    var limit := MoveLimit(maxMoves);
    while moves < limit && |a[0]| > 1
      invariant 0 <= moves <= limit
      invariant a[2..] == orig[2..]
      invariant FirstLineMoves(a[0], a[1], m, maxWidth, limit - moves)
             == FirstLineMoves(orig[0], orig[1], m, maxWidth, limit)
    {
      var w1 := MeasureWidth(m, JoinWith(a[0], " "));
      var w2 := MeasureWidth(m, JoinWith(a[1], " "));
      if w1 < w2 {
        break;
      }
      var lastWord := a[0][|a[0]| - 1];
      var newLine1 := a[0][..|a[0]| - 1];
      var newLine2 := [lastWord] + a[1];
      var newW2 := MeasureWidth(m, JoinWith(newLine2, " "));
      if newW2 > maxWidth {
        break;
      }
      a[0] := if |newLine1| > 0 then newLine1 else [lastWord];
      a[1] := newLine2;
      moves := moves + 1;
    }
    assert a[..] == [a[0], a[1]] + a[2..];
    assert orig == [orig[0], orig[1]] + orig[2..];
  }

  /** A prefix of a line without its last word is a prefix of the line, and
      the rest of the line is what follows it there plus the last word. */
  lemma DropLastPrefix(l0: seq<string>, x: seq<string>)
    requires |l0| > 0 && |x| <= |l0| - 1 && x == l0[..|l0| - 1][..|x|]
    ensures x == l0[..|x|]
    ensures l0[..|l0| - 1][|x|..] + [l0[|l0| - 1]] == l0[|x|..]
  {
  }

  /** The two lines the first-line pass produces: the first is a non-empty
      prefix of the original first line, the second is the rest of it in
      front of the original second line, at most `remaining` words moved,
      and a second line that received words fits the limit. */
  lemma {:induction false} FirstLineMovesShape(l0: seq<string>, l1: seq<string>, m: string -> real,
                                               maxWidth: real, remaining: nat)
    ensures |FirstLineMoves(l0, l1, m, maxWidth, remaining).0| <= |l0|
    ensures FirstLineMoves(l0, l1, m, maxWidth, remaining).0 == l0[..|FirstLineMoves(l0, l1, m, maxWidth, remaining).0|]
    ensures FirstLineMoves(l0, l1, m, maxWidth, remaining).1
         == l0[|FirstLineMoves(l0, l1, m, maxWidth, remaining).0|..] + l1
    ensures |l0| > 0 ==> |FirstLineMoves(l0, l1, m, maxWidth, remaining).0| > 0
    ensures |l0| - |FirstLineMoves(l0, l1, m, maxWidth, remaining).0| <= remaining
    ensures FirstLineMoves(l0, l1, m, maxWidth, remaining).1 == l1 ||
            LineWidth(m, FirstLineMoves(l0, l1, m, maxWidth, remaining).1) <= maxWidth
    decreases remaining
  {
    var r := FirstLineMoves(l0, l1, m, maxWidth, remaining);
    if remaining == 0 || |l0| <= 1 || LineWidth(m, l0) < LineWidth(m, l1) {
      assert r == (l0, l1);
      assert l0[..|l0|] == l0 && l0[|l0|..] + l1 == l1;
    } else {
      var last := l0[|l0| - 1];
      var shorter := l0[..|l0| - 1];
      var longer := [last] + l1;
      if LineWidth(m, longer) > maxWidth {
        assert r == (l0, l1);
        assert l0[..|l0|] == l0 && l0[|l0|..] + l1 == l1;
      } else {
        assert r == FirstLineMoves(shorter, longer, m, maxWidth, remaining - 1);
        FirstLineMovesShape(shorter, longer, m, maxWidth, remaining - 1);
        FirstLineMoveStep(l0, l1, r.0, r.1, m, maxWidth, remaining);
      }
    }
  }

  /** The recursive case of `FirstLineMovesShape`: what holds of the pass
      over the first line without its last word holds of the whole line. */
  lemma FirstLineMoveStep(l0: seq<string>, l1: seq<string>, r0: seq<string>, r1: seq<string>,
                          m: string -> real, maxWidth: real, remaining: nat)
    requires |l0| > 1 && remaining > 0
    requires LineWidth(m, [l0[|l0| - 1]] + l1) <= maxWidth
    requires |r0| <= |l0| - 1 && r0 == l0[..|l0| - 1][..|r0|] && |r0| > 0
    requires r1 == l0[..|l0| - 1][|r0|..] + ([l0[|l0| - 1]] + l1)
    requires |l0| - 1 - |r0| <= remaining - 1
    requires r1 == [l0[|l0| - 1]] + l1 || LineWidth(m, r1) <= maxWidth
    ensures |r0| <= |l0| && r0 == l0[..|r0|] && |r0| > 0 && |l0| - |r0| <= remaining
    ensures r1 == l0[|r0|..] + l1
    ensures r1 == l1 || LineWidth(m, r1) <= maxWidth
  {
    DropLastPrefix(l0, r0);
    AppendAssoc(l0[..|l0| - 1][|r0|..], [l0[|l0| - 1]], l1);
  }

  /** Splitting a line after a prefix and moving the rest in front of the
      next line keeps the words of the two lines in order. */
  lemma SplitAfterPrefix(l0: seq<string>, x: seq<string>, l1: seq<string>)
    requires |x| <= |l0| && x == l0[..|x|]
    ensures x + (l0[|x|..] + l1) == l0 + l1
  {
    AppendAssoc(x, l0[|x|..], l1);
    assert x + l0[|x|..] == l0;
  }

  /** Replacing the first two lines by two lines with the same words keeps
      all words in order. */
  lemma FlattenReplaceFirstTwo(lines: seq<seq<string>>, x: seq<string>, y: seq<string>)
    requires |lines| >= 2 && x + y == lines[0] + lines[1]
    ensures Flatten(lines[0 := x][1 := y]) == Flatten(lines)
  {
    var post := lines[2..];
    assert lines == [lines[0], lines[1]] + post;
    assert lines[0 := x][1 := y] == [x, y] + post;
    FlattenAppend([lines[0], lines[1]], post);
    FlattenAppend([x, y], post);
    FlattenPair(lines[0], lines[1]);
    FlattenPair(x, y);
  }

  /** The first-line pass keeps every word in order and every line after
      the second. */
  lemma RebalanceFirstLineKeeps(lines: seq<seq<string>>, m: string -> real, maxWidth: real, maxMoves: nat)
    ensures Flatten(RebalanceFirstLine(lines, m, maxWidth, maxMoves)) == Flatten(lines)
    ensures forall i :: 2 <= i < |lines| ==> RebalanceFirstLine(lines, m, maxWidth, maxMoves)[i] == lines[i]
  {
    if |lines| >= 2 {
      var (x, y) := FirstLineMoves(lines[0], lines[1], m, maxWidth, MoveLimit(maxMoves));
      FirstLineMovesShape(lines[0], lines[1], m, maxWidth, MoveLimit(maxMoves));
      SplitAfterPrefix(lines[0], x, lines[1]);
      FlattenReplaceFirstTwo(lines, x, y);
    }
  }

  /** The first line keeps a non-empty prefix of itself, at most the move
      limit of words go to the second line, and a second line that received
      words fits the limit. */
  lemma RebalanceFirstLineShape(lines: seq<seq<string>>, m: string -> real, maxWidth: real, maxMoves: nat)
    requires |lines| >= 2
    ensures var r := RebalanceFirstLine(lines, m, maxWidth, maxMoves);
      |r[0]| <= |lines[0]| && r[0] == lines[0][..|r[0]|] && r[1] == lines[0][|r[0]|..] + lines[1]
    ensures |lines[0]| > 0 ==> |RebalanceFirstLine(lines, m, maxWidth, maxMoves)[0]| > 0
    ensures |lines[0]| - |RebalanceFirstLine(lines, m, maxWidth, maxMoves)[0]| <= MoveLimit(maxMoves)
    ensures var r := RebalanceFirstLine(lines, m, maxWidth, maxMoves);
      r[1] == lines[1] || LineWidth(m, r[1]) <= maxWidth
  {
    FirstLineMovesShape(lines[0], lines[1], m, maxWidth, MoveLimit(maxMoves));
  }

  /** When the first line is already narrower than the second, nothing moves. */
  lemma FirstLineNarrowerStays(lines: seq<seq<string>>, m: string -> real, maxWidth: real, maxMoves: nat)
    requires |lines| >= 2 && LineWidth(m, lines[0]) < LineWidth(m, lines[1])
    ensures RebalanceFirstLine(lines, m, maxWidth, maxMoves) == lines
  {
  }

  // ---------------------------------------------------------------------------
  // Middle-line rebalancing

  /** `passes || 4`. */
  function PassLimit(passes: nat): (n: nat)
    ensures n > 0
  {
    if passes == 0 then 4 else passes
  }

  /** Line `j` takes the first word of line `j + 1`. */
  function PullUp(lines: seq<seq<string>>, j: nat): (r: seq<seq<string>>)
    requires j + 1 < |lines| && |lines[j + 1]| > 0
    ensures |r| == |lines|
  {
    lines[j := lines[j] + [lines[j + 1][0]]][j + 1 := lines[j + 1][1..]]
  }

  /** One scan over the middle lines from line `j` on: a line narrower than
      the next non-empty line takes that line's first word when it still fits
      with it. Reports whether anything moved. */
  function MiddleScan(lines: seq<seq<string>>, m: string -> real, maxWidth: real, j: nat,
                      changed: bool): (r: (seq<seq<string>>, bool))
    requires 1 <= j
    ensures |r.0| == |lines|
    decreases |lines| - j
  {
    if j + 1 >= |lines| then (lines, changed)
    else if |lines[j + 1]| == 0 then MiddleScan(lines, m, maxWidth, j + 1, changed)
    else if LineWidth(m, lines[j]) >= LineWidth(m, lines[j + 1]) then MiddleScan(lines, m, maxWidth, j + 1, changed)
    else if LineWidth(m, lines[j] + [lines[j + 1][0]]) <= maxWidth then
      MiddleScan(PullUp(lines, j), m, maxWidth, j + 1, true)
    else MiddleScan(lines, m, maxWidth, j + 1, changed)
  }

  /** Up to `remaining` scans, stopping after a scan that moved nothing. */
  function MiddlePasses(lines: seq<seq<string>>, m: string -> real, maxWidth: real, remaining: nat)
    : (r: seq<seq<string>>)
    ensures |r| == |lines|
    decreases remaining
  {
    if remaining == 0 then lines
    else
      var (next, changed) := MiddleScan(lines, m, maxWidth, 1, false);
      if !changed then next else MiddlePasses(next, m, maxWidth, remaining - 1)
  }

  /** The whole list after the middle-line pass. */
  function RebalanceMiddle(lines: seq<seq<string>>, m: string -> real, maxWidth: real, passes: nat)
    : (r: seq<seq<string>>)
    ensures |r| == |lines|
  {
    if |lines| < 3 then lines else MiddlePasses(lines, m, maxWidth, PassLimit(passes))
  }

  /** The width of every line, as measured at the start of a middle pass. */
  method MeasureLines(a: array<seq<string>>, m: string -> real) returns (widths: seq<real>)
    ensures |widths| == a.Length
    ensures forall k :: 0 <= k < a.Length ==> widths[k] == LineWidth(m, a[k])
  {
    widths := [];
    var i := 0;
    while i < a.Length
      invariant 0 <= i <= a.Length && |widths| == i
      invariant forall k :: 0 <= k < i ==> widths[k] == LineWidth(m, a[k])
    {
      widths := widths + [MeasureWidth(m, JoinWith(a[i], " "))];
      i := i + 1;
    }
  }

  /** `wordsLines[j].push(wordsLines[j + 1].shift())`. */
  method PullUpInPlace(a: array<seq<string>>, j: nat)
    requires j + 1 < a.Length && |a[j + 1]| > 0
    modifies a
    ensures a[..] == PullUp(old(a[..]), j)
  {
    a[j] := a[j] + [a[j + 1][0]];
    a[j + 1] := a[j + 1][1..];
  }

  /** One middle pass over the list in place, comparing cached widths that
      are refreshed for the two lines involved in every move. */
  method MiddleScanInPlace(a: array<seq<string>>, m: string -> real, maxWidth: real) returns (changed: bool)
    requires a.Length >= 3
    modifies a
    ensures (a[..], changed) == MiddleScan(old(a[..]), m, maxWidth, 1, false)
  {
    var widths := MeasureLines(a, m);
    changed := false;
    ghost var start := a[..];
    var j := 1;
    while j < a.Length - 1
      invariant 1 <= j <= a.Length - 1
      invariant |widths| == a.Length
      invariant forall k :: 0 <= k < a.Length ==> widths[k] == LineWidth(m, a[k])
      invariant MiddleScan(a[..], m, maxWidth, j, changed) == MiddleScan(start, m, maxWidth, 1, false)
    {
      widths, changed := MiddleStep(a, m, maxWidth, widths, j, changed);
      j := j + 1;
    }
  }

  /** One position of the middle pass: line `j` takes the first word of line
      `j + 1` when it is the narrower of the two and the word fits. */
  method MiddleStep(a: array<seq<string>>, m: string -> real, maxWidth: real, widths: seq<real>, j: nat,
                    changed: bool)
    returns (widths': seq<real>, changed': bool)
    requires 1 <= j < a.Length - 1
    requires |widths| == a.Length
    requires forall k :: 0 <= k < a.Length ==> widths[k] == LineWidth(m, a[k])
    modifies a
    ensures |widths'| == a.Length
    ensures forall k :: 0 <= k < a.Length ==> widths'[k] == LineWidth(m, a[k])
    ensures MiddleScan(a[..], m, maxWidth, j + 1, changed') == MiddleScan(old(a[..]), m, maxWidth, j, changed)
  {
    widths', changed' := widths, changed;
    if |a[j + 1]| > 0 && widths[j] < widths[j + 1] {
      var nextWord := a[j + 1][0];
      var candidateWidth := MeasureWidth(m, JoinWith(a[j] + [nextWord], " "));
      if candidateWidth <= maxWidth {
        PullUpInPlace(a, j);
        widths' := widths[j := candidateWidth];
        widths' := widths'[j + 1 := MeasureWidth(m, JoinWith(a[j + 1], " "))];
        changed' := true;
      }
    }
  }

  /** `rebalanceMiddleLines`: up to the pass limit of middle passes over the
      list in place, stopping after a pass that moved nothing. */
  method RebalanceMiddleLines(a: array<seq<string>>, m: string -> real, maxWidth: real, passes: nat)
    returns (ghost passesRun: nat)
    modifies a
    ensures a[..] == RebalanceMiddle(old(a[..]), m, maxWidth, passes)
    ensures passesRun <= PassLimit(passes)
  {
    passesRun := 0;
    if a.Length < 3 {
      return;
    }
    ghost var target := MiddlePasses(a[..], m, maxWidth, PassLimit(passes));
    var maxPasses := PassLimit(passes);
    var pass := 0;
    while pass < maxPasses
      invariant 0 <= pass <= maxPasses && passesRun == pass
      invariant MiddlePasses(a[..], m, maxWidth, maxPasses - pass) == target
    {
      passesRun := pass + 1;
      var changed := MiddleScanInPlace(a, m, maxWidth);
      if !changed {
        break;
      }
      pass := pass + 1;
    }
  }

  /** A middle scan keeps every word in order, and the first line. */
  lemma {:induction false} MiddleScanKeeps(lines: seq<seq<string>>, m: string -> real, maxWidth: real, j: nat,
                                           changed: bool)
    requires 1 <= j
    ensures Flatten(MiddleScan(lines, m, maxWidth, j, changed).0) == Flatten(lines)
    ensures |lines| > 0 ==> MiddleScan(lines, m, maxWidth, j, changed).0[0] == lines[0]
    ensures !MiddleScan(lines, m, maxWidth, j, changed).1 ==> MiddleScan(lines, m, maxWidth, j, changed).0 == lines
    ensures changed ==> MiddleScan(lines, m, maxWidth, j, changed).1
    decreases |lines| - j
  {
    if j + 1 < |lines| {
      if |lines[j + 1]| > 0 && LineWidth(m, lines[j]) < LineWidth(m, lines[j + 1]) &&
         LineWidth(m, lines[j] + [lines[j + 1][0]]) <= maxWidth {
        PullUpKeeps(lines, j);
        MiddleScanKeeps(PullUp(lines, j), m, maxWidth, j + 1, true);
      } else {
        MiddleScanKeeps(lines, m, maxWidth, j + 1, changed);
      }
    }
  }

  /** Compared with `lines`, every line of `r` is unchanged, has lost its
      first word (below line `j`), or fits the limit. */
  predicate ReceiversFit(lines: seq<seq<string>>, r: seq<seq<string>>, m: string -> real, maxWidth: real, j: nat) {
    |r| == |lines| &&
    forall i :: 0 <= i < |lines| ==>
      r[i] == lines[i] || (i > j && |lines[i]| > 0 && r[i] == lines[i][1..]) || LineWidth(m, r[i]) <= maxWidth
  }

  /** A middle scan moves a word only into a line that still fits with it:
      afterwards every line is as it was, has lost its first word to the
      line above, or fits the limit. */
  lemma {:induction false} MiddleScanReceiversFit(lines: seq<seq<string>>, m: string -> real, maxWidth: real,
                                                  j: nat, changed: bool)
    requires 1 <= j
    ensures ReceiversFit(lines, MiddleScan(lines, m, maxWidth, j, changed).0, m, maxWidth, j)
    decreases |lines| - j
  {
    if j + 1 < |lines| {
      if PullsAt(lines, m, maxWidth, j) {
        MiddleScanPulls(lines, m, maxWidth, j, changed);
        MiddleScanReceiversFit(PullUp(lines, j), m, maxWidth, j + 1, true);
        PullUpReceiverFits(lines, MiddleScan(PullUp(lines, j), m, maxWidth, j + 1, true).0, m, maxWidth, j);
      } else {
        MiddleScanSkips(lines, m, maxWidth, j, changed);
        MiddleScanReceiversFit(lines, m, maxWidth, j + 1, changed);
        SkipReceiverFits(lines, MiddleScan(lines, m, maxWidth, j + 1, changed).0, m, maxWidth, j);
      }
    } else {
      assert MiddleScan(lines, m, maxWidth, j, changed).0 == lines;
    }
  }

  /** Whether the scan at `j` pulls the next line's first word up. */
  predicate PullsAt(lines: seq<seq<string>>, m: string -> real, maxWidth: real, j: nat)
    requires j + 1 < |lines|
  {
    |lines[j + 1]| > 0 && LineWidth(m, lines[j]) < LineWidth(m, lines[j + 1]) &&
    LineWidth(m, lines[j] + [lines[j + 1][0]]) <= maxWidth
  }

  /** A scan at `j` that pulls a word up resumes from the changed lines. */
  lemma MiddleScanPulls(lines: seq<seq<string>>, m: string -> real, maxWidth: real, j: nat, changed: bool)
    requires 1 <= j && j + 1 < |lines| && PullsAt(lines, m, maxWidth, j)
    ensures MiddleScan(lines, m, maxWidth, j, changed) == MiddleScan(PullUp(lines, j), m, maxWidth, j + 1, true)
  {
  }

  /** A scan at `j` that moves nothing resumes from the same lines. */
  lemma MiddleScanSkips(lines: seq<seq<string>>, m: string -> real, maxWidth: real, j: nat, changed: bool)
    requires 1 <= j && j + 1 < |lines| && !PullsAt(lines, m, maxWidth, j)
    ensures MiddleScan(lines, m, maxWidth, j, changed) == MiddleScan(lines, m, maxWidth, j + 1, changed)
  {
  }

  /** What holds of a scan resumed after `j` holds of the scan from `j`. */
  lemma SkipReceiverFits(lines: seq<seq<string>>, r: seq<seq<string>>, m: string -> real, maxWidth: real, j: nat)
    requires ReceiversFit(lines, r, m, maxWidth, j + 1)
    ensures ReceiversFit(lines, r, m, maxWidth, j)
  {
  }

  /** What holds of a scan resumed after a pull at `j` holds of the scan from `j`. */
  lemma PullUpReceiverFits(lines: seq<seq<string>>, r: seq<seq<string>>, m: string -> real, maxWidth: real, j: nat)
    requires 1 <= j && j + 1 < |lines| && PullsAt(lines, m, maxWidth, j)
    requires ReceiversFit(PullUp(lines, j), r, m, maxWidth, j + 1)
    ensures ReceiversFit(lines, r, m, maxWidth, j)
  {
    var p := PullUp(lines, j);
    forall i | 0 <= i < |lines|
      ensures r[i] == lines[i] || (i > j && |lines[i]| > 0 && r[i] == lines[i][1..]) || LineWidth(m, r[i]) <= maxWidth
    {
      if i != j && i != j + 1 {
        assert p[i] == lines[i];
      }
    }
  }

  lemma PullUpKeeps(lines: seq<seq<string>>, j: nat)
    requires 1 <= j && j + 1 < |lines| && |lines[j + 1]| > 0
    ensures Flatten(PullUp(lines, j)) == Flatten(lines)
    ensures PullUp(lines, j)[0] == lines[0]
  {
    var r := PullUp(lines, j);
    var pre, post := lines[..j], lines[j + 2..];
    assert lines == pre + ([lines[j], lines[j + 1]] + post);
    assert r == pre + ([r[j], r[j + 1]] + post);
    FlattenAppend(pre, [lines[j], lines[j + 1]] + post);
    FlattenAppend(pre, [r[j], r[j + 1]] + post);
    FlattenAppend([lines[j], lines[j + 1]], post);
    FlattenAppend([r[j], r[j + 1]], post);
    FlattenPair(lines[j], lines[j + 1]);
    FlattenPair(r[j], r[j + 1]);
    assert r[j] + r[j + 1] == lines[j] + lines[j + 1];
  }

  lemma FlattenPair(x: seq<string>, y: seq<string>)
    ensures Flatten([x, y]) == x + y
  {
    assert [x, y][1..] == [y];
    FlattenSingle(y);
  }

  /** The middle pass keeps every word in order, the number of lines and the
      first line, and leaves lists of fewer than three lines alone. */
  lemma {:induction false} MiddlePassesKeeps(lines: seq<seq<string>>, m: string -> real, maxWidth: real,
                                             remaining: nat)
    ensures Flatten(MiddlePasses(lines, m, maxWidth, remaining)) == Flatten(lines)
    ensures |lines| > 0 ==> MiddlePasses(lines, m, maxWidth, remaining)[0] == lines[0]
    decreases remaining
  {
    if remaining > 0 {
      MiddleScanKeeps(lines, m, maxWidth, 1, false);
      var (next, changed) := MiddleScan(lines, m, maxWidth, 1, false);
      if changed {
        MiddlePassesKeeps(next, m, maxWidth, remaining - 1);
      }
    }
  }

  lemma RebalanceMiddleKeeps(lines: seq<seq<string>>, m: string -> real, maxWidth: real, passes: nat)
    ensures Flatten(RebalanceMiddle(lines, m, maxWidth, passes)) == Flatten(lines)
    ensures |lines| > 0 ==> RebalanceMiddle(lines, m, maxWidth, passes)[0] == lines[0]
    ensures |lines| < 3 ==> RebalanceMiddle(lines, m, maxWidth, passes) == lines
  {
    if |lines| >= 3 {
      MiddlePassesKeeps(lines, m, maxWidth, PassLimit(passes));
    }
  }

  // ---------------------------------------------------------------------------
  // The middle pass after the other two

  /** A measuring oracle for which putting words in front of a line never
      makes it narrower. */
  ghost predicate GrowsWithPrefix(m: string -> real) {
    forall xs: seq<string>, ys: seq<string> :: LineWidth(m, xs + ys) >= LineWidth(m, ys)
  }

  /** A middle scan from line `j` on moves nothing when no line after `j`
      could hand its first word to the line above it. */
  lemma {:induction false} MiddleScanIdle(lines: seq<seq<string>>, m: string -> real, maxWidth: real, j: nat,
                                          changed: bool)
    requires 1 <= j
    requires forall i :: j < i < |lines| && |lines[i]| > 0 ==> LineWidth(m, lines[i - 1] + [lines[i][0]]) > maxWidth
    ensures MiddleScan(lines, m, maxWidth, j, changed) == (lines, changed)
    decreases |lines| - j
  {
    if j + 1 < |lines| {
      MiddleScanIdle(lines, m, maxWidth, j + 1, changed);
    }
  }

  /** The second line after the first-line pass could not take the first
      word of the third when the oracle grows with prefixes. */
  lemma SecondLineStaysFull(g: seq<seq<string>>, m: string -> real, maxWidth: real, maxMoves: nat,
                            words: seq<string>)
    requires GreedyShape(m, words, g, maxWidth) && GrowsWithPrefix(m) && |g| >= 3
    ensures var l := RebalanceFirstLine(g, m, maxWidth, maxMoves);
      LineWidth(m, l[1] + [l[2][0]]) > maxWidth
  {
    var l := RebalanceFirstLine(g, m, maxWidth, maxMoves);
    RebalanceFirstLineShape(g, m, maxWidth, maxMoves);
    var moved := g[0][|l[0]|..];
    AppendAssoc(moved, g[1], [g[2][0]]);
    assert LineWidth(m, moved + (g[1] + [g[2][0]])) >= LineWidth(m, g[1] + [g[2][0]]);
  }

  /** With an oracle that grows with prefixes, the middle pass finds nothing
      to move once the greedy wrap and the first-line pass have run. */
  lemma MiddleIdleAfterFirstLine(g: seq<seq<string>>, m: string -> real, maxWidth: real, maxMoves: nat,
                                 passes: nat, words: seq<string>)
    requires GreedyShape(m, words, g, maxWidth) && GrowsWithPrefix(m)
    ensures var l := RebalanceFirstLine(g, m, maxWidth, maxMoves);
      RebalanceMiddle(l, m, maxWidth, passes) == l
  {
    var l := RebalanceFirstLine(g, m, maxWidth, maxMoves);
    if |l| >= 3 {
      SecondLineStaysFull(g, m, maxWidth, maxMoves, words);
      RebalanceFirstLineKeeps(g, m, maxWidth, maxMoves);
      forall i | 1 < i < |l| && |l[i]| > 0
        ensures LineWidth(m, l[i - 1] + [l[i][0]]) > maxWidth
      {
        if i > 2 {
          assert l[i - 1] == g[i - 1] && l[i] == g[i];
        }
      }
      MiddleScanIdle(l, m, maxWidth, 1, false);
    }
  }

  // ---------------------------------------------------------------------------
  // Laying out a bubble

  /** `Math.max(1, maxWidth || 1)`. */
  function WidthLimit(maxWidth: real): (w: real)
    ensures w >= 1.0
    ensures maxWidth >= 1.0 ==> w == maxWidth
    ensures maxWidth < 1.0 ==> w == 1.0
  {
    Max(1.0, if maxWidth == 0.0 then 1.0 else maxWidth)
  }

  /** `layoutBubbleLines`: the words of the text, wrapped greedily at the
      width limit, then the first-line pass with at most 5 moves and the
      middle pass with at most 4 passes, both in place. The greedy wrap it
      started from is returned alongside. */
  method LayoutBubbleLines(text: string, m: string -> real, maxWidth: real)
    returns (lines: seq<seq<string>>, ghost greedy: seq<seq<string>>)
    ensures GreedyShape(m, SplitWordsForLayout(text), greedy, WidthLimit(maxWidth))
    ensures lines == RebalanceMiddle(RebalanceFirstLine(greedy, m, WidthLimit(maxWidth), 5), m, WidthLimit(maxWidth), 4)
    ensures Flatten(lines) == SplitWordsForLayout(text)
    ensures |lines| == |greedy|
    ensures BubbleLines(text, m, maxWidth, lines)
  {
    var widthLimit := Max(1.0, if maxWidth == 0.0 then 1.0 else maxWidth);
    var words := SplitWordsForLayout(text);
    if |words| == 0 {
      lines, greedy := [], [];
      return;
    }
    var g := GreedyWrapWordsPixels(words, m, widthLimit);
    greedy := g;
    var a := new seq<string>[|g|](i => if 0 <= i < |g| then g[i] else []);
    assert a[..] == g;
    RebalanceFirstLineStrict(a, m, widthLimit, 5);
    ghost var passesRun := RebalanceMiddleLines(a, m, widthLimit, 4);
    lines := a[..];
    RebalanceFirstLineKeeps(g, m, widthLimit, 5);
    RebalanceMiddleKeeps(RebalanceFirstLine(g, m, widthLimit, 5), m, widthLimit, 4);
  }

  /** Reference definition of the layout lines of a text: its greedy wrap
      at the width limit after the first-line pass (at most 5 moves) and the
      middle pass (at most 4 passes). */
  ghost predicate BubbleLines(text: string, m: string -> real, maxWidth: real, lines: seq<seq<string>>) {
    exists g :: GreedyShape(m, SplitWordsForLayout(text), g, WidthLimit(maxWidth)) &&
      lines == RebalanceMiddle(RebalanceFirstLine(g, m, WidthLimit(maxWidth), 5), m, WidthLimit(maxWidth), 4)
  }

  /** Reference definition of what `layoutBubble` returns for a text: its
      layout lines, each joined with spaces, joined with carriage returns. */
  ghost predicate BubbleText(text: string, m: string -> real, maxWidth: real, wrapped: string) {
    exists lines :: BubbleLines(text, m, maxWidth, lines) && wrapped == JoinWith(JoinEach(lines), "\r")
  }

  /** A text has one layout: the greedy wrap it starts from is unique. */
  lemma BubbleLinesUnique(text: string, m: string -> real, maxWidth: real,
                          l1: seq<seq<string>>, l2: seq<seq<string>>)
    requires BubbleLines(text, m, maxWidth, l1) && BubbleLines(text, m, maxWidth, l2)
    ensures l1 == l2
  {
    var w := WidthLimit(maxWidth);
    var g1 :| GreedyShape(m, SplitWordsForLayout(text), g1, w) &&
      l1 == RebalanceMiddle(RebalanceFirstLine(g1, m, w, 5), m, w, 4);
    var g2 :| GreedyShape(m, SplitWordsForLayout(text), g2, w) &&
      l2 == RebalanceMiddle(RebalanceFirstLine(g2, m, w, 5), m, w, 4);
    GreedyUnique(m, SplitWordsForLayout(text), g1, g2, w);
  }

  /** `layoutBubble` is a function of its text, measure and width. */
  lemma BubbleTextUnique(text: string, m: string -> real, maxWidth: real, w1: string, w2: string)
    requires BubbleText(text, m, maxWidth, w1) && BubbleText(text, m, maxWidth, w2)
    ensures w1 == w2
  {
    var l1 :| BubbleLines(text, m, maxWidth, l1) && w1 == JoinWith(JoinEach(l1), "\r");
    var l2 :| BubbleLines(text, m, maxWidth, l2) && w2 == JoinWith(JoinEach(l2), "\r");
    BubbleLinesUnique(text, m, maxWidth, l1, l2);
  }

  /** The layout lines, each joined with single spaces. */
  function JoinEach(lines: seq<seq<string>>): (parts: seq<string>)
    ensures |parts| == |lines|
    ensures forall i :: 0 <= i < |lines| ==> parts[i] == JoinWith(lines[i], " ")
  {
    if |lines| == 0 then [] else [JoinWith(lines[0], " ")] + JoinEach(lines[1..])
  }

  /** `layoutBubble`: the layout lines joined with single spaces, and the
      lines joined with carriage returns; no words gives the empty text. */
  method LayoutBubble(text: string, m: string -> real, maxWidth: real)
    returns (wrapped: string, ghost lines: seq<seq<string>>)
    ensures SplitWordsForLayout(wrapped) == SplitWordsForLayout(text)
    ensures wrapped == "" <==> SplitWordsForLayout(text) == []
    ensures Flatten(lines) == SplitWordsForLayout(text)
    ensures wrapped == JoinWith(JoinEach(lines), "\r")
    ensures BubbleLines(text, m, maxWidth, lines)
    ensures BubbleText(text, m, maxWidth, wrapped)
  {
    ghost var greedy;
    var ls;
    ls, greedy := LayoutBubbleLines(text, m, maxWidth);
    lines := ls;
    if |ls| == 0 {
      wrapped := "";
      return;
    }
    var parts := JoinLines(ls);
    wrapped := JoinWith(parts, "\r");
    LayoutKeepsWords(text, ls);
    FlattenEmptyLines(greedy);
  }

  /** The loop of `layoutBubble` that joins each line's words with spaces. */
  method JoinLines(ls: seq<seq<string>>) returns (parts: seq<string>)
    ensures parts == JoinEach(ls)
  {
    parts := [];
    var i := 0;
    while i < |ls|
      invariant 0 <= i <= |ls| && |parts| == i
      invariant forall k :: 0 <= k < i ==> parts[k] == JoinWith(ls[k], " ")
    {
      parts := parts + [JoinWith(ls[i], " ")];
      i := i + 1;
    }
  }

  /** Joining layout lines keeps exactly the words they hold. */
  lemma LayoutKeepsWords(text: string, lines: seq<seq<string>>)
    requires Flatten(lines) == SplitWordsForLayout(text)
    ensures SplitWordsForLayout(JoinWith(JoinEach(lines), "\r")) == SplitWordsForLayout(text)
    ensures JoinWith(JoinEach(lines), "\r") == "" ==> SplitWordsForLayout(text) == []
  {
    var r := JoinWith(JoinEach(lines), "\r");
    SplitWordsIsWords(r);
    WordsJoin(JoinEach(lines), '\r');
    WordsOfJoinEach(lines);
    WordsOfWordList(Flatten(lines));
    if r == "" {
      assert Words(r) == [];
    }
  }

  /** The words of lines joined with spaces are the words of their words. */
  lemma {:induction false} WordsOfJoinEach(lines: seq<seq<string>>)
    ensures WordsOfAll(JoinEach(lines)) == WordsOfAll(Flatten(lines))
  {
    if |lines| > 0 {
      WordsOfJoinEach(lines[1..]);
      WordsJoin(lines[0], ' ');
      WordsOfAllAppend(lines[0], Flatten(lines[1..]));
      assert JoinEach(lines)[1..] == JoinEach(lines[1..]);
    }
  }

  lemma {:induction false} WordsOfAllAppend(a: seq<string>, b: seq<string>)
    ensures WordsOfAll(a + b) == WordsOfAll(a) + WordsOfAll(b)
  {
    if |a| > 0 {
      assert (a + b)[1..] == a[1..] + b;
      WordsOfAllAppend(a[1..], b);
    } else {
      assert a + b == b;
    }
  }

  /** Words that are non-empty and hold no whitespace are their own words. */
  lemma {:induction false} WordsOfWordList(ws: seq<string>)
    requires forall i :: 0 <= i < |ws| ==> ws[i] != "" && NoneIn(ws[i], Space)
    ensures WordsOfAll(ws) == ws
  {
    if |ws| > 0 {
      WordsOfWord(ws[0]);
      WordsOfWordList(ws[1..]);
    }
  }

  /** Each line after the first-line pass is non-empty, and fits the limit
      when it holds two or more words. */
  lemma FirstLinePassLineFits(g: seq<seq<string>>, m: string -> real, maxWidth: real, maxMoves: nat,
                              words: seq<string>, i: nat)
    requires GreedyShape(m, words, g, maxWidth) && i < |g|
    ensures var l := RebalanceFirstLine(g, m, maxWidth, maxMoves);
      |l[i]| > 0 && (|l[i]| >= 2 ==> LineWidth(m, l[i]) <= maxWidth)
  {
    var l := RebalanceFirstLine(g, m, maxWidth, maxMoves);
    if |g| >= 2 {
      RebalanceFirstLineShape(g, m, maxWidth, maxMoves);
    }
    if |g| < 2 || i >= 2 || (i == 1 && l[1] == g[1]) {
      assert l[i] == g[i];
      assert g[i][..|g[i]|] == g[i];
    } else if i == 0 {
      assert |g[0]| > 0;
    }
  }

  /** With an oracle that grows with prefixes, the bubble layout has as many
      lines as the greedy wrap, none empty, and every line of two or more
      words fits the width limit. */
  lemma LayoutLinesFit(g: seq<seq<string>>, m: string -> real, maxWidth: real, words: seq<string>)
    requires GreedyShape(m, words, g, maxWidth) && GrowsWithPrefix(m)
    ensures var l := RebalanceMiddle(RebalanceFirstLine(g, m, maxWidth, 5), m, maxWidth, 4);
      |l| == |g| && AllNonEmpty(l) && Flatten(l) == words &&
      forall i :: 0 <= i < |l| && |l[i]| >= 2 ==> LineWidth(m, l[i]) <= maxWidth
  {
    MiddleIdleAfterFirstLine(g, m, maxWidth, 5, 4, words);
    RebalanceFirstLineKeeps(g, m, maxWidth, 5);
    forall i | 0 <= i < |g|
      ensures var l := RebalanceFirstLine(g, m, maxWidth, 5);
        |l[i]| > 0 && (|l[i]| >= 2 ==> LineWidth(m, l[i]) <= maxWidth)
    {
      FirstLinePassLineFits(g, m, maxWidth, 5, words, i);
    }
  }
}
