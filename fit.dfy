/** Font sizing: the closed-form starting size for a wrapped text, and the
    auto-fit step that searches for the largest size whose longest line and
    estimated height fit the inner box, then lets the text box grow. */
module Fit {
  import opened Base
  import opened Text

  // ---------------------------------------------------------------------------
  // Starting-size estimate

  /** A character is taken to be 0.6 of the size wide. */
  const CharWidthFactor: real := 0.6
  /** A line is taken to be 1.18 of the size high. */
  const LeadingFactor: real := 1.18
  /** The estimate adds a tenth to every line's height. */
  const HeightSlack: real := 1.1
  const MinSafeSize: real := 6.0
  const MaxSafeSize: real := 60.0

  /** The length of every line once it is trimmed. */
  function TrimmedLengths(parts: seq<string>): (lens: seq<nat>)
    ensures |lens| == |parts|
    ensures forall i :: 0 <= i < |parts| ==> lens[i] == |SafeTrim(parts[i])|
  {
    seq(|parts|, i requires 0 <= i < |parts| => |SafeTrim(parts[i])|)
  }

  /** The largest of some lengths; 0 when there are none. */
  function MaxOf(xs: seq<nat>): (n: nat)
    ensures forall i :: 0 <= i < |xs| ==> xs[i] <= n
    ensures n == 0 || exists i :: 0 <= i < |xs| && xs[i] == n
  {
    if |xs| == 0 then 0
    else
      var k := MaxOf(xs[..|xs| - 1]);
      assert forall i :: 0 <= i < |xs| - 1 ==> xs[..|xs| - 1][i] == xs[i];
      if xs[|xs| - 1] > k then xs[|xs| - 1] else k
  }

  lemma MaxOfStep(xs: seq<nat>, i: nat)
    requires i < |xs|
    ensures MaxOf(xs[..i + 1]) == if xs[i] > MaxOf(xs[..i]) then xs[i] else MaxOf(xs[..i])
  {
    assert xs[..i + 1][..i] == xs[..i];
  }

  /** `maxChars`: the length of the longest line once each line is trimmed. */
  function LongestTrimmed(parts: seq<string>): nat {
    MaxOf(TrimmedLengths(parts))
  }

  /** `maxSizeW`: the size at which `maxChars` characters fill the inner
      width, rounded down. */
  function MaxSizeW(maxChars: nat, innerW: real): int
    requires maxChars > 0
  {
    Floor(innerW / (maxChars as real * CharWidthFactor))
  }

  /** `maxSizeH`: the size at which `lineCount` lines fill the inner
      height, rounded down. */
  function MaxSizeH(lineCount: nat, innerH: real): int
    requires lineCount > 0
  {
    Floor(innerH / (lineCount as real * LeadingFactor * HeightSlack))
  }

  /** `maxSizeW` is the largest whole size at which the longest line fits
      the inner width, and `maxSizeH` the largest at which all lines fit the
      inner height. */
  lemma MaxSizesFit(maxChars: nat, lineCount: nat, innerW: real, innerH: real)
    requires maxChars > 0 && lineCount > 0
    ensures var w, d := MaxSizeW(maxChars, innerW) as real, maxChars as real * CharWidthFactor;
      w * d <= innerW < (w + 1.0) * d
    ensures var h, d := MaxSizeH(lineCount, innerH) as real, lineCount as real * LeadingFactor * HeightSlack;
      h * d <= innerH < (h + 1.0) * d
  {
    DivideBack(innerW, maxChars as real * CharWidthFactor, MaxSizeW(maxChars, innerW));
    DivideBack(innerH, lineCount as real * LeadingFactor * HeightSlack, MaxSizeH(lineCount, innerH));
  }

  lemma DivideBack(x: real, d: real, f: int)
    requires d > 0.0 && f as real <= x / d < f as real + 1.0
    ensures f as real * d <= x < (f as real + 1.0) * d
  {
    var q := x / d;
    assert q * d == x;
    var below, above := q - f as real, f as real + 1.0 - q;
    MultiplyPositive(below, d);
    MultiplyPositive(above, d);
    assert below * d == x - f as real * d;
    assert above * d == (f as real + 1.0) * d - x;
  }

  lemma MultiplyPositive(a: real, b: real)
    requires a >= 0.0 && b > 0.0
    ensures a * b >= 0.0
    ensures a > 0.0 ==> a * b > 0.0
  {
  }

  /** `upperBound`: the smaller of the two sizes, but at least 6. */
  function UpperBound(maxChars: nat, lineCount: nat, innerW: real, innerH: real): (u: real)
    requires maxChars > 0 && lineCount > 0
    ensures u >= MinSafeSize
    ensures u <= Max(MinSafeSize, MaxSizeW(maxChars, innerW) as real)
    ensures u <= Max(MinSafeSize, MaxSizeH(lineCount, innerH) as real)
    ensures u >= Min(MaxSizeW(maxChars, innerW) as real, MaxSizeH(lineCount, innerH) as real)
    ensures u == MinSafeSize || u == MaxSizeW(maxChars, innerW) as real || u == MaxSizeH(lineCount, innerH) as real
  {
    Max(MinSafeSize, Min(MaxSizeW(maxChars, innerW) as real, MaxSizeH(lineCount, innerH) as real))
  }

  /** The safe size for an upper bound: shrink to the bound when it is at
      most the base size, otherwise grow towards it but to at most twice the
      base and never below the base; then keep within 6 to 60. */
  function SafeSize(upper: real, baseSize: real): (s: real)
    requires upper >= MinSafeSize
    ensures MinSafeSize <= s <= MaxSafeSize && s <= upper
    ensures upper <= baseSize ==> s == Min(upper, MaxSafeSize)
    ensures upper > baseSize ==> s >= Min(baseSize, MaxSafeSize)
    ensures upper > baseSize ==> s >= Min(Min(upper, Floor(baseSize * 2.0) as real), MaxSafeSize)
    ensures upper > baseSize && baseSize >= 0.0 ==> s <= Max(MinSafeSize, 2.0 * baseSize)
    ensures upper > baseSize ==> s <= Max(MinSafeSize, Max(baseSize, Floor(baseSize * 2.0) as real))
  {
    var safe :=
      if upper <= baseSize then upper
      else
        var grown := Min(upper, Floor(baseSize * 2.0) as real);
        if grown < baseSize then baseSize else grown;
    if safe < MinSafeSize then MinSafeSize
    else if safe > MaxSafeSize then MaxSafeSize
    else safe
  }

  /** The size for lines of the given trimmed lengths: the base size when
      all are blank, else the safe size for the longest and the number of
      lines. */
  function SizeForLines(lens: seq<nat>, innerW: real, innerH: real, baseSize: real): real {
    var maxChars := MaxOf(lens);
    if maxChars == 0 then baseSize
    else SafeSize(UpperBound(maxChars, |lens|, innerW, innerH), baseSize)
  }

  /** What `estimateSafeFontSizeForWrapped` returns: the base size for an
      empty text, else the size for its lines split at every CR and LF. */
  function EstimatedSize(wrapped: string, innerW: real, innerH: real, baseSize: real): real {
    if wrapped == "" then baseSize
    else SizeForLines(TrimmedLengths(SplitOn(wrapped, Break)), innerW, innerH, baseSize)
  }

  /** The running maximum of `estimateSafeFontSizeForWrapped` over the
      trimmed lines, skipping blank ones. */
  method LongestTrimmedLine(parts: seq<string>) returns (maxChars: nat)
    ensures maxChars == MaxOf(TrimmedLengths(parts))
  {
    ghost var lens := TrimmedLengths(parts);
    maxChars := 0;
    var i := 0;
    while i < |parts|
      invariant 0 <= i <= |parts|
      invariant maxChars == MaxOf(lens[..i])
    {
      var line := SafeTrim(parts[i]);
      MaxOfStep(lens, i);
      if line != "" && |line| > maxChars {
        maxChars := |line|;
      }
      i := i + 1;
    }
    assert lens[..|parts|] == lens;
  }

  /** `estimateSafeFontSizeForWrapped`. */
  method EstimateSafeFontSizeForWrapped(wrapped: string, innerW: real, innerH: real, baseSize: real)
    returns (size: real)
    ensures size == EstimatedSize(wrapped, innerW, innerH, baseSize)
  {
    if wrapped == "" {
      return baseSize;
    }
    var parts := SplitOn(wrapped, Break);
    var maxChars := LongestTrimmedLine(parts);
    if maxChars <= 0 {
      return baseSize;
    }
    size := SafeSize(UpperBound(maxChars, |parts|, innerW, innerH), baseSize);
  }

  /** Lines that are all blank keep the base size; otherwise the size is
      from 6 to 60 and no larger than the upper bound. */
  lemma SizeForLinesCases(lens: seq<nat>, innerW: real, innerH: real, baseSize: real)
    ensures (forall i :: 0 <= i < |lens| ==> lens[i] == 0) ==> SizeForLines(lens, innerW, innerH, baseSize) == baseSize
    ensures (exists i :: 0 <= i < |lens| && lens[i] > 0) ==>
      var e := SizeForLines(lens, innerW, innerH, baseSize);
      MinSafeSize <= e <= MaxSafeSize && e <= UpperBound(MaxOf(lens), |lens|, innerW, innerH)
  {
  }

  /** The safe size never decreases when the upper bound grows. */
  lemma SafeSizeMonotone(u1: real, u2: real, baseSize: real)
    requires MinSafeSize <= u1 <= u2
    ensures SafeSize(u1, baseSize) <= SafeSize(u2, baseSize)
  {
  }

  lemma FloorMonotone(x: real, y: real)
    requires x <= y
    ensures Floor(x) <= Floor(y)
  {
  }

  lemma DivideMonotone(x: real, y: real, d: real)
    requires x <= y && d > 0.0
    ensures x / d <= y / d
  {
    assert (y - x) / d >= 0.0;
    assert y / d - x / d == (y - x) / d;
  }

  /** A larger inner box never lowers the upper bound. */
  lemma UpperBoundMonotone(maxChars: nat, lineCount: nat, w1: real, h1: real, w2: real, h2: real)
    requires maxChars > 0 && lineCount > 0 && w1 <= w2 && h1 <= h2
    ensures UpperBound(maxChars, lineCount, w1, h1) <= UpperBound(maxChars, lineCount, w2, h2)
  {
    var dw := maxChars as real * CharWidthFactor;
    var dh := lineCount as real * LeadingFactor * HeightSlack;
    DivideMonotone(w1, w2, dw);
    DivideMonotone(h1, h2, dh);
    FloorMonotone(w1 / dw, w2 / dw);
    FloorMonotone(h1 / dh, h2 / dh);
  }

  /** A larger inner box never gives a smaller starting size. */
  lemma EstimateGrowsWithBox(wrapped: string, w1: real, h1: real, w2: real, h2: real, baseSize: real)
    requires w1 <= w2 && h1 <= h2
    ensures EstimatedSize(wrapped, w1, h1, baseSize) <= EstimatedSize(wrapped, w2, h2, baseSize)
  {
    if wrapped != "" {
      var lens := TrimmedLengths(SplitOn(wrapped, Break));
      var n := MaxOf(lens);
      if n > 0 {
        UpperBoundMonotone(n, |lens|, w1, h1, w2, h2);
        SafeSizeMonotone(UpperBound(n, |lens|, w1, h1), UpperBound(n, |lens|, w2, h2), baseSize);
      }
    }
  }

  // ---------------------------------------------------------------------------
  // Auto-fit

  /** The leading the fit test sets: 1.12 of the size. */
  const FitLeadingFactor: real := 1.12
  /** The search probes at most this many sizes. */
  const MaxSearchSteps: nat := 10
  /** The box height keeps this much room below the estimated content. */
  const HeightMargin: real := 20.0

  /** The leading the fit test sets at a size: 1.12 of the size, rounded
      down, at least 1. */
  function FitLeading(size: real): (l: real)
    ensures l >= 1.0 && l == l.Floor as real
    ensures l <= Max(1.0, size * FitLeadingFactor)
    ensures size * FitLeadingFactor >= 1.0 ==> size * FitLeadingFactor < l + 1.0
  {
    Max(1.0, Floor(size * FitLeadingFactor) as real)
  }

  /** One line's height in the estimate: 1.18 of the size, rounded down,
      at least 1. */
  function LineHeight(size: real): (h: int)
    ensures h >= 1
    ensures h as real <= Max(1.0, size * LeadingFactor)
    ensures size * LeadingFactor >= 1.0 ==> size * LeadingFactor < h as real + 1.0
  {
    var f := Floor(size * LeadingFactor);
    if f < 1 then 1 else f
  }

  /** `estimateContentHeight`. */
  function ContentHeight(size: real, lineCount: nat): (h: int)
    ensures h >= lineCount
  {
    LineHeight(size) * lineCount
  }

  /** A smaller size never gives a taller estimate. */
  lemma ContentHeightMonotone(s1: real, s2: real, lineCount: nat)
    requires s1 <= s2
    ensures ContentHeight(s1, lineCount) <= ContentHeight(s2, lineCount)
  {
    assert s1 * LeadingFactor <= s2 * LeadingFactor;
    FloorMonotone(s1 * LeadingFactor, s2 * LeadingFactor);
    assert LineHeight(s1) <= LineHeight(s2);
    MultiplyMonotone(LineHeight(s1), LineHeight(s2), lineCount);
  }

  lemma MultiplyMonotone(a: int, b: int, n: nat)
    requires a <= b
    ensures a * n <= b * n
  {
    assert b * n - a * n == (b - a) * n;
  }

  /** The width the fit test compares: the measured longest line when there
      is one, otherwise the width of the whole text layer. */
  function MeasuredWidth(longest: string, lineWidthAt: (string, real) -> real, boundsWidthAt: real -> real,
                         size: real): real {
    if longest != "" then lineWidthAt(longest, size) else boundsWidthAt(size)
  }

  /** `sizeFits`: neither the width nor the estimated height exceeds the
      inner box by more than one pixel. */
  predicate SizeFits(width: real, size: real, lineCount: nat, innerW: real, innerH: real) {
    !(width > innerW + 1.0) && !(ContentHeight(size, lineCount) as real > innerH + 1.0)
  }

  /** The fit test as a function of the size alone. */
  function FitsOracle(longest: string, lineWidthAt: (string, real) -> real, boundsWidthAt: real -> real,
                      lineCount: nat, innerW: real, innerH: real): real -> bool {
    s => SizeFits(MeasuredWidth(longest, lineWidthAt, boundsWidthAt, s), s, lineCount, innerW, innerH)
  }

  /** The height half of the fit test passes at every size below one where
      it passes. */
  lemma HeightTestMonotone(s1: real, s2: real, lineCount: nat, innerH: real)
    requires s1 <= s2 && !(ContentHeight(s2, lineCount) as real > innerH + 1.0)
    ensures !(ContentHeight(s1, lineCount) as real > innerH + 1.0)
  {
    ContentHeightMonotone(s1, s2, lineCount);
  }

  /** A fit test that, once it fails in the range, fails at every larger size. */
  ghost predicate Monotone(fits: real -> bool, lo: int, hi: int) {
    forall a: real, b: real :: lo as real <= a <= b <= hi as real && fits(b) ==> fits(a)
  }

  /** The test at a whole size. */
  predicate FitsAt(fits: real -> bool, n: int) {
    fits(n as real)
  }

  /** Reference definition: the largest whole size from `lo` to `hi` that
      fits, found by trying them from the top; `lo` when none fits. */
  function LargestFit(fits: real -> bool, lo: int, hi: int): (r: int)
    ensures lo <= r && (lo <= hi ==> r <= hi)
    ensures hi < lo ==> r == lo
    ensures forall n :: r < n <= hi ==> !FitsAt(fits, n)
    ensures FitsAt(fits, r) || (r == lo && forall n :: lo <= n <= hi ==> !FitsAt(fits, n))
    decreases hi - lo
  {
    if hi < lo then lo
    else if FitsAt(fits, hi) then hi
    else LargestFit(fits, lo, hi - 1)
  }

  function Pow2(n: nat): (p: nat)
    ensures p >= 1
  {
    if n == 0 then 1 else 2 * Pow2(n - 1)
  }

  /** One probe halves the sizes left to search. */
  lemma Halve(lo: int, hi: int, k: nat)
    requires lo <= hi && k >= 1 && hi - lo + 1 < Pow2(k)
    ensures hi - ((lo + hi) / 2 + 1) + 1 < Pow2(k - 1)
    ensures ((lo + hi) / 2 - 1) - lo + 1 < Pow2(k - 1)
  {
    assert Pow2(k) == 2 * Pow2(k - 1);
  }

  /** Under a monotone test, a size that fits with the next one failing (or
      the top of the range) is the largest fit. */
  lemma LargestFitAt(fits: real -> bool, lo: int, hi: int, k: int)
    requires Monotone(fits, lo, hi) && lo <= k <= hi && FitsAt(fits, k)
    requires k < hi ==> !FitsAt(fits, k + 1)
    ensures LargestFit(fits, lo, hi) == k
  {
  }

  /** Under a monotone test that fails at `lo`, nothing in the range fits. */
  lemma NothingFits(fits: real -> bool, lo: int, hi: int, a: real)
    requires Monotone(fits, lo, hi) && lo <= hi && !FitsAt(fits, lo)
    requires lo as real <= a <= hi as real
    ensures !fits(a) && LargestFit(fits, lo, hi) == lo
  {
  }

  /** How the search's final state determines its answer. */
  lemma SearchAnswer(fits: real -> bool, minSize: int, maxSize: int, lo: int, hi: int,
                     best: real, first: real, start: real)
    requires Monotone(fits, minSize, maxSize) && minSize <= maxSize
    requires lo == hi + 1 && minSize <= lo && hi <= maxSize
    requires lo > minSize ==> best == (lo - 1) as real && fits(best)
    requires lo == minSize ==> best == first
    requires hi < maxSize ==> !FitsAt(fits, hi + 1)
    requires first == minSize as real ||
             (first == start && minSize as real <= start <= maxSize as real && fits(start))
    ensures best == LargestFit(fits, minSize, maxSize) as real
  {
    if lo > minSize {
      LargestFitAt(fits, minSize, maxSize, hi);
    } else if first != minSize as real {
      NothingFits(fits, minSize, maxSize, start);
    } else {
      NothingFits(fits, minSize, maxSize, minSize as real);
    }
  }

  /** The search of `autoFitTextLayer`: the starting size counts when it is
      in range and fits; then at most 10 probes of a binary search over the
      whole sizes from `minSize` to `maxSize`, each fitting probe raising
      `best`. With a monotone test over fewer than 1023 sizes the answer is
      the largest whole size that fits, or `minSize` when none does. */
  method SearchBestSize(fits: real -> bool, start: real, minSize: int, maxSize: int)
    returns (best: real, probes: nat)
    ensures probes <= MaxSearchSteps
    ensures minSize <= maxSize ==> minSize as real <= best <= maxSize as real
    ensures minSize > maxSize ==> best == minSize as real
    ensures best == minSize as real || fits(best)
    ensures minSize as real <= start <= maxSize as real && fits(start) ==> fits(best)
    ensures Monotone(fits, minSize, maxSize) && maxSize - minSize < 1023 ==>
              best == LargestFit(fits, minSize, maxSize) as real
  {
    var lo := minSize;
    var hi := maxSize;
    best := minSize as real;
    if start >= minSize as real && start <= maxSize as real {
      if fits(start) {
        best := start;
      }
    }
    ghost var first := best;
    probes := 0;
    while lo <= hi && probes < MaxSearchSteps
      invariant probes <= MaxSearchSteps
      invariant minSize <= lo && hi <= maxSize && (minSize <= maxSize ==> lo <= hi + 1)
      invariant minSize <= maxSize ==> minSize as real <= best <= maxSize as real
      invariant minSize > maxSize ==> best == minSize as real
      invariant lo > minSize ==> best == (lo - 1) as real && fits(best)
      invariant lo == minSize ==> best == first
      invariant first == minSize as real || fits(first)
      invariant minSize as real <= start <= maxSize as real && fits(start) ==> first == start
      invariant hi < maxSize ==> !FitsAt(fits, hi + 1)
      invariant maxSize - minSize < 1023 ==> hi - lo + 1 < Pow2(MaxSearchSteps - probes)
    {
      var mid := (lo + hi) / 2;
      if maxSize - minSize < 1023 {
        Halve(lo, hi, MaxSearchSteps - probes);
      }
      if FitsAt(fits, mid) {
        best := mid as real;
        lo := mid + 1;
      } else {
        hi := mid - 1;
      }
      probes := probes + 1;
    }
    if minSize <= maxSize && Monotone(fits, minSize, maxSize) && maxSize - minSize < 1023 {
      SearchAnswer(fits, minSize, maxSize, lo, hi, best, first, start);
    }
  }

  /** The first of the longest lines, as a left-to-right scan that replaces
      its candidate only by a strictly longer line finds it. */
  function Longest(lines: seq<string>): (r: string)
    ensures lines == [] ==> r == ""
    ensures forall i :: 0 <= i < |lines| ==> |lines[i]| <= |r|
    ensures lines != [] ==> exists i :: 0 <= i < |lines| && r == lines[i] &&
                                        forall j :: 0 <= j < i ==> |lines[j]| < |r|
  {
    if |lines| == 0 then ""
    else
      var init := lines[..|lines| - 1];
      var best := Longest(init);
      assert forall i :: 0 <= i < |init| ==> init[i] == lines[i];
      if |init| == 0 then lines[0]
      else if |lines[|lines| - 1]| > |best| then lines[|lines| - 1]
      else best
  }

  /** The scan of `autoFitTextLayer` for its longest line. */
  method LongestLine(lines: seq<string>) returns (longest: string)
    ensures longest == Longest(lines)
  {
    longest := if |lines| > 0 then lines[0] else "";
    if |lines| == 0 {
      return;
    }
    var i := 1;
    while i < |lines|
      invariant 1 <= i <= |lines|
      invariant longest == Longest(lines[..i])
    {
      assert lines[..i + 1][..i] == lines[..i];
      if |lines[i]| > |longest| {
        longest := lines[i];
      }
      i := i + 1;
    }
    assert lines[..|lines|] == lines;
  }

  /** The paragraph text item the bubble text is set in. */
  class TextFrame {
    var size: real
    var leading: real
    var width: real
    var height: real

    /** `createParagraphFullBox`: a paragraph exactly the size of the inner
        box, with a leading of 1.18 of the size, rounded down, at least 1. */
    constructor (sizePx: real, innerW: real, innerH: real)
      ensures size == sizePx && width == innerW && height == innerH
      ensures leading == Max(1.0, Floor(sizePx * LeadingFactor) as real)
    {
      size := sizePx;
      width := innerW;
      height := innerH;
      leading := Max(1.0, Floor(sizePx * LeadingFactor) as real);
    }

    /** `autoFitTextLayer`: searches for the best size for the lines of
        `rawText`, leaves the frame at that size with the fit test's leading,
        and raises the box height to leave room for the estimated content;
        the height is never lowered. */
    method AutoFit(lineWidthAt: (string, real) -> real, boundsWidthAt: real -> real,
                   innerW: real, innerH: real, minSize: int, maxSize: int, rawText: string)
      returns (best: real)
      modifies this
      ensures var lines := NormalizeLinesForAutoFit(rawText);
        var fits := FitsOracle(Longest(lines), lineWidthAt, boundsWidthAt, if |lines| > 0 then |lines| else 1, innerW, innerH);
        Monotone(fits, minSize, maxSize) && maxSize - minSize < 1023 ==> best == LargestFit(fits, minSize, maxSize) as real
      ensures minSize <= maxSize ==> minSize as real <= best <= maxSize as real
      ensures var lines := NormalizeLinesForAutoFit(rawText);
        var fits := FitsOracle(Longest(lines), lineWidthAt, boundsWidthAt, if |lines| > 0 then |lines| else 1, innerW, innerH);
        (best == minSize as real || fits(best)) &&
        (minSize as real <= old(size) <= maxSize as real && fits(old(size)) ==> fits(best))
      ensures size == best && leading == FitLeading(best)
      ensures var lines := NormalizeLinesForAutoFit(rawText);
        height == Max(old(height), Max(innerH, ContentHeight(best, if |lines| > 0 then |lines| else 1) as real + HeightMargin))
      ensures height >= old(height) && height >= innerH
      ensures width == old(width)
    {
      var lines := NormalizeLinesForAutoFit(rawText);
      var longestLine := LongestLine(lines);
      var lineCount := if |lines| > 0 then |lines| else 1;
      var fits := FitsOracle(longestLine, lineWidthAt, boundsWidthAt, lineCount, innerW, innerH);
      var probes;
      best, probes := SearchBestSize(fits, size, minSize, maxSize);
      var finalHeightEstimate := ContentHeight(best, lineCount);
      size := best;
      leading := FitLeading(best);
      var safeHeight := Max(innerH, finalHeightEstimate as real + HeightMargin);
      if height < safeHeight {
        height := safeHeight;
      }
    }
  }
}
