/** One pass of the script's main loop over a bubble record: the text is
    normalised and trimmed, anchored at the derived center, wrapped either
    along its own line breaks or by the bubble layout, given the estimated
    base size and then fitted into the inner box. */
module Layout {
  import opened Base
  import opened Text
  import opened Geometry
  import opened Wrap
  import opened Fit

  /** The size the text starts from when the record gives none. */
  const DefaultBaseSize: real := 28.0
  /** The manual line breaks are given up when they push the estimate below
      this fraction of the base size. */
  const ManualGiveUp: real := 0.7
  /** The range of the final size search. */
  const MinSize: int := 12
  const MaxSize: int := 60

  /** The record's size when it is positive, else 28. */
  function BaseSize(item: Item): (s: real)
    ensures s > 0.0
    ensures item.size.Some? && item.size.value > 0.0 ==> s == item.size.value
    ensures !(item.size.Some? && item.size.value > 0.0) ==> s == DefaultBaseSize
  {
    if item.size.Some? && item.size.value > 0.0 then item.size.value else DefaultBaseSize
  }

  /** The text as the loop sees it: breaks kept, runs collapsed, trimmed. */
  function CleanText(item: Item): string {
    SafeTrim(NormalizedKeepBreaks(item.text))
  }

  /** The manual lines: the pieces between runs of line feeds, each with its
      whitespace collapsed, joined with carriage returns. */
  function ManualWrap(raw: string): string {
    JoinWith(CollapseEach(SplitRuns(raw, Newline), Space), "\r")
  }

  /** The text given to the bubble layout when the manual lines are dropped:
      the pieces joined with spaces, whitespace collapsed. */
  function ManualSeed(raw: string): string {
    CollapseWhitespace(JoinWith(SplitRuns(raw, Newline), " "))
  }

  /** Both manual texts hold exactly the words of the input. */
  lemma ManualKeepsWords(raw: string)
    ensures SplitWordsForLayout(ManualWrap(raw)) == SplitWordsForLayout(raw)
    ensures SplitWordsForLayout(ManualSeed(raw)) == SplitWordsForLayout(raw)
  {
    var parts := SplitRuns(raw, Newline);
    WordsJoin(CollapseEach(parts, Space), '\r');
    WordsOfAllCollapse(parts, Space);
    WordsJoin(parts, ' ');
    JoinSplitRuns(raw, Newline);
    WordsCollapse(raw, Newline);
    WordsCollapse(JoinWith(parts, " "), Space);
    SplitWordsIsWords(ManualWrap(raw));
    SplitWordsIsWords(ManualSeed(raw));
    SplitWordsIsWords(raw);
  }

  /** Collapsing whitespace keeps the words. */
  lemma CollapseKeepsWords(s: string)
    ensures SplitWordsForLayout(CollapseWhitespace(s)) == SplitWordsForLayout(s)
  {
    WordsCollapse(s, Space);
    SplitWordsIsWords(CollapseWhitespace(s));
    SplitWordsIsWords(s);
  }

  /** The manual lines, collapsed one piece at a time. */
  method BuildManualWrap(raw: string) returns (wrapped: string)
    ensures wrapped == ManualWrap(raw)
  {
    var parts := SplitRuns(raw, Newline);
    var manualLines: seq<string> := [];
    var k := 0;
    while k < |parts|
      invariant 0 <= k <= |parts| && |manualLines| == k
      invariant forall j :: 0 <= j < k ==> manualLines[j] == CollapseWhitespace(parts[j])
    {
      manualLines := manualLines + [CollapseWhitespace(parts[k])];
      k := k + 1;
    }
    assert manualLines == CollapseEach(parts, Space);
    wrapped := JoinWith(manualLines, "\r");
  }

  /** Reference definition of the first wrap: the manual lines for text
      with line feeds, otherwise the bubble layout of the collapsed text, or
      the collapsed text itself when the layout is empty. */
  ghost predicate ForcedOf(raw: string, m: string -> real, innerW: real, forced: string) {
    if '\n' in raw then forced == ManualWrap(raw)
    else
      exists laid :: BubbleText(CollapseWhitespace(raw), m, innerW, laid) &&
                     forced == (if laid == "" then CollapseWhitespace(raw) else laid)
  }

  /** The second pass's rule: the free layout replaces the first wrap only
      when its estimate is strictly larger. */
  function Adopt(free: string, forced: string, innerW: real, innerH: real, baseSize: real): (r: string)
    ensures r == free || r == forced
    ensures EstimatedSize(r, innerW, innerH, baseSize) >= EstimatedSize(forced, innerW, innerH, baseSize)
    ensures r != forced ==> EstimatedSize(r, innerW, innerH, baseSize) > EstimatedSize(forced, innerW, innerH, baseSize)
    ensures EstimatedSize(free, innerW, innerH, baseSize) > EstimatedSize(forced, innerW, innerH, baseSize) ==> r == free
  {
    if EstimatedSize(free, innerW, innerH, baseSize) > EstimatedSize(forced, innerW, innerH, baseSize) then free else forced
  }

  /** Whether the second pass runs: the first wrap keeps manual lines and
      its estimate is below 0.7 of the base size. */
  predicate TriesFree(raw: string, forced: string, innerW: real, innerH: real, baseSize: real) {
    '\n' in raw && EstimatedSize(forced, innerW, innerH, baseSize) < baseSize * ManualGiveUp
  }

  /** The wrap placed, given the first wrap. */
  ghost predicate ChoiceFrom(raw: string, m: string -> real, innerW: real, innerH: real, baseSize: real,
                             forced: string, wrapped: string) {
    if TriesFree(raw, forced, innerW, innerH, baseSize) then
      exists free :: BubbleText(ManualSeed(raw), m, innerW, free) &&
                     wrapped == Adopt(free, forced, innerW, innerH, baseSize)
    else wrapped == forced
  }

  /** Reference definition of the wrap placed for a cleaned text: the first
      wrap, except that when it keeps manual lines and its estimate is below
      0.7 of the base size, the bubble layout of the joined pieces replaces
      it if that layout's estimate is strictly larger. */
  ghost predicate WrapChoice(raw: string, m: string -> real, innerW: real, innerH: real, baseSize: real,
                             wrapped: string) {
    exists forced :: ForcedOf(raw, m, innerW, forced) && ChoiceFrom(raw, m, innerW, innerH, baseSize, forced, wrapped)
  }

  /** The first wrap is a function of the text, measure and width. */
  lemma ForcedOfUnique(raw: string, m: string -> real, innerW: real, f1: string, f2: string)
    requires ForcedOf(raw, m, innerW, f1) && ForcedOf(raw, m, innerW, f2)
    ensures f1 == f2
  {
    if '\n' !in raw {
      var seed := CollapseWhitespace(raw);
      var a1 :| BubbleText(seed, m, innerW, a1) && f1 == (if a1 == "" then seed else a1);
      var a2 :| BubbleText(seed, m, innerW, a2) && f2 == (if a2 == "" then seed else a2);
      BubbleTextUnique(seed, m, innerW, a1, a2);
    }
  }

  /** Given the first wrap, the second pass decides the wrap placed. */
  lemma ChoiceFromUnique(raw: string, m: string -> real, innerW: real, innerH: real, baseSize: real,
                         forced: string, w1: string, w2: string)
    requires ChoiceFrom(raw, m, innerW, innerH, baseSize, forced, w1)
    requires ChoiceFrom(raw, m, innerW, innerH, baseSize, forced, w2)
    ensures w1 == w2
  {
    if TriesFree(raw, forced, innerW, innerH, baseSize) {
      var a1 :| BubbleText(ManualSeed(raw), m, innerW, a1) && w1 == Adopt(a1, forced, innerW, innerH, baseSize);
      var a2 :| BubbleText(ManualSeed(raw), m, innerW, a2) && w2 == Adopt(a2, forced, innerW, innerH, baseSize);
      BubbleTextUnique(ManualSeed(raw), m, innerW, a1, a2);
    }
  }

  /** The wrap placed is a function of the text, measure, box and base
      size. */
  lemma WrapChoiceUnique(raw: string, m: string -> real, innerW: real, innerH: real, baseSize: real,
                         w1: string, w2: string)
    requires WrapChoice(raw, m, innerW, innerH, baseSize, w1)
    requires WrapChoice(raw, m, innerW, innerH, baseSize, w2)
    ensures w1 == w2
  {
    var f1 :| ForcedOf(raw, m, innerW, f1) && ChoiceFrom(raw, m, innerW, innerH, baseSize, f1, w1);
    var f2 :| ForcedOf(raw, m, innerW, f2) && ChoiceFrom(raw, m, innerW, innerH, baseSize, f2, w2);
    ForcedOfUnique(raw, m, innerW, f1, f2);
    ChoiceFromUnique(raw, m, innerW, innerH, baseSize, f1, w1, w2);
  }

  /** The first wrap and the seed for a second one. Text with line feeds
      keeps its own lines and seeds with its pieces joined by spaces;
      otherwise the bubble layout wraps the collapsed text, which also
      stands in when the layout returns nothing. Both hold exactly the
      input's words. */
  method ForcedWrap(raw: string, m: string -> real, innerW: real)
    returns (seed: string, wrappedForced: string)
    ensures '\n' in raw ==> seed == ManualSeed(raw) && wrappedForced == ManualWrap(raw)
    ensures '\n' !in raw ==> seed == CollapseWhitespace(raw)
    ensures ForcedOf(raw, m, innerW, wrappedForced)
    ensures SplitWordsForLayout(seed) == SplitWordsForLayout(raw)
    ensures SplitWordsForLayout(wrappedForced) == SplitWordsForLayout(raw)
  {
    if '\n' in raw {
      seed := ManualSeed(raw);
      wrappedForced := BuildManualWrap(raw);
      ManualKeepsWords(raw);
    } else {
      seed := CollapseWhitespace(raw);
      ghost var lines;
      wrappedForced, lines := LayoutBubble(seed, m, innerW);
      if wrappedForced == "" {
        wrappedForced := seed;
      }
      CollapseKeepsWords(raw);
    }
  }

  /** The wrap for a record's cleaned text: the first wrap, unless it has
      manual lines whose estimate falls below 0.7 of the base size, when the
      bubble layout of the joined text is tried as well and kept if its
      estimate is larger. The text placed always holds exactly the input's
      words, and its estimate is never below that of the first wrap. */
  method ChooseWrap(raw: string, m: string -> real, innerW: real, innerH: real, baseSize: real)
    returns (wrapped: string, ghost forced: string, ghost freeTried: bool, ghost free: string)
    ensures ForcedOf(raw, m, innerW, forced)
    ensures '\n' in raw ==> forced == ManualWrap(raw)
    ensures SplitWordsForLayout(forced) == SplitWordsForLayout(raw)
    ensures freeTried <==> TriesFree(raw, forced, innerW, innerH, baseSize)
    ensures !freeTried ==> wrapped == forced
    ensures freeTried ==> (BubbleText(ManualSeed(raw), m, innerW, free) &&
                           wrapped == Adopt(free, forced, innerW, innerH, baseSize))
    ensures WrapChoice(raw, m, innerW, innerH, baseSize, wrapped)
    ensures wrapped == forced ||
            (freeTried && EstimatedSize(wrapped, innerW, innerH, baseSize) > EstimatedSize(forced, innerW, innerH, baseSize))
    ensures EstimatedSize(wrapped, innerW, innerH, baseSize) >= EstimatedSize(forced, innerW, innerH, baseSize)
    ensures SplitWordsForLayout(wrapped) == SplitWordsForLayout(raw)
  {
    var hasManualBreaks := '\n' in raw;
    var seed, wrappedForced := ForcedWrap(raw, m, innerW);
    forced := wrappedForced;
    var sizeForced := EstimateSafeFontSizeForWrapped(wrappedForced, innerW, innerH, baseSize);
    wrapped := wrappedForced;
    var tryFree := hasManualBreaks && sizeForced < baseSize * ManualGiveUp;
    freeTried := tryFree;
    free := "";
    if tryFree {
      wrapped, free := TryFreeReflow(seed, wrappedForced, sizeForced, m, innerW, innerH, baseSize);
    }
  }

  /** The second pass: the bubble layout of the seed replaces the forced
      wrap only when its estimate is strictly larger. */
  method TryFreeReflow(seed: string, wrappedForced: string, sizeForced: real, m: string -> real,
                       innerW: real, innerH: real, baseSize: real)
    returns (wrapped: string, ghost free: string)
    requires sizeForced == EstimatedSize(wrappedForced, innerW, innerH, baseSize)
    ensures BubbleText(seed, m, innerW, free)
    ensures wrapped == Adopt(free, wrappedForced, innerW, innerH, baseSize)
    ensures wrapped == wrappedForced ||
            (EstimatedSize(wrapped, innerW, innerH, baseSize) > sizeForced &&
             SplitWordsForLayout(wrapped) == SplitWordsForLayout(seed))
    ensures EstimatedSize(wrapped, innerW, innerH, baseSize) >= sizeForced
  {
    ghost var lines;
    var wrappedFree;
    wrappedFree, lines := LayoutBubble(seed, m, innerW);
    free := wrappedFree;
    var sizeFree := EstimateSafeFontSizeForWrapped(wrappedFree, innerW, innerH, baseSize);
    wrapped := wrappedForced;
    if sizeFree > sizeForced {
      wrapped := wrappedFree;
    }
  }

  /** What the loop leaves for one record: the segments whose old text is
      filled away, the anchor, the text set in the layer, the frame after
      fitting and the rotation applied. */
  datatype Placement = Placement(removal: seq<Segment>, cx: int, cy: int, text: string, size: real,
                                 leading: real, width: real, height: real, rotation: Option<real>)

  /** A measure at a fixed size. */
  function WidthAtSize(widthAt: (string, real) -> real, size: real): string -> real {
    t => widthAt(t, size)
  }

  /** The inner box of a record that has a center. */
  function ItemArea(item: Item, sx: real, sy: real): InnerArea
    requires DeriveCenter(item).Some?
  {
    var a := Anchor(DeriveCenter(item).value, sx, sy);
    InnerBox(PhysicalBox(DeriveBox(item), sx, sy, a.0, a.1))
  }

  /** The number of lines the fit counts for a text, at least one. */
  function FitLineCount(text: string): (n: nat)
    ensures n >= 1
  {
    var lines := NormalizeLinesForAutoFit(text);
    if |lines| > 0 then |lines| else 1
  }

  /** The fit test for the text of a record in its inner box. */
  function ItemFits(text: string, lineWidthAt: (string, real) -> real, boundsWidthAt: real -> real,
                    area: InnerArea): real -> bool {
    FitsOracle(Longest(NormalizeLinesForAutoFit(text)), lineWidthAt, boundsWidthAt,
               FitLineCount(text), area.innerW, area.innerH)
  }

  /** The frame for a wrapped text: a paragraph the size of the inner box
      at the base size, fitted between sizes 12 and 60. It keeps the inner
      width and is exactly as tall as the larger of the inner box and the
      estimated content plus its margin. */
  method FitText(text: string, area: InnerArea, baseSize: real,
                 lineWidthAt: (string, real) -> real, boundsWidthAt: real -> real)
    returns (size: real, leading: real, width: real, height: real)
    ensures MinSize as real <= size <= MaxSize as real
    ensures leading == FitLeading(size)
    ensures width == area.innerW
    ensures height == Max(area.innerH, ContentHeight(size, FitLineCount(text)) as real + HeightMargin)
    ensures Monotone(ItemFits(text, lineWidthAt, boundsWidthAt, area), MinSize, MaxSize) ==>
              size == LargestFit(ItemFits(text, lineWidthAt, boundsWidthAt, area), MinSize, MaxSize) as real
    ensures size == MinSize as real || ItemFits(text, lineWidthAt, boundsWidthAt, area)(size)
    ensures MinSize as real <= baseSize <= MaxSize as real && ItemFits(text, lineWidthAt, boundsWidthAt, area)(baseSize) ==>
              ItemFits(text, lineWidthAt, boundsWidthAt, area)(size)
  {
    var frame := new TextFrame(baseSize, area.innerW, area.innerH);
    var best := frame.AutoFit(lineWidthAt, boundsWidthAt, area.innerW, area.innerH, MinSize, MaxSize, text);
    size, leading, width, height := frame.size, frame.leading, frame.width, frame.height;
  }

  /** One iteration of the main loop. A record whose cleaned text is empty
      or that has no center is skipped. Otherwise the old text is removed
      over the record's removal segments, the text is anchored at the
      rounded scaled center, wrapped by `ChooseWrap` at the record's
      base size (`widthAt` measures a text at a size), set in a frame the
      size of the inner box and fitted between sizes 12 and 60; the frame
      keeps the inner width, is at least as tall as the inner box and
      leaves room for the estimated content, and the record's rotation is
      applied when it is not negligible. */
  method LayoutItem(item: Item, sx: real, sy: real, widthAt: (string, real) -> real,
                    lineWidthAt: (string, real) -> real, boundsWidthAt: real -> real)
    returns (p: Option<Placement>)
    ensures p.None? <==> CleanText(item) == "" || DeriveCenter(item).None?
    ensures p.Some? ==> p.value.removal == CollectRemovalSegments(item).0
    ensures p.Some? ==> (DeriveCenter(item).Some? &&
                         (p.value.cx, p.value.cy) == Anchor(DeriveCenter(item).value, sx, sy))
    ensures p.Some? ==> WrapChoice(CleanText(item), WidthAtSize(widthAt, BaseSize(item)),
                                   ItemArea(item, sx, sy).innerW, ItemArea(item, sx, sy).innerH, BaseSize(item), p.value.text)
    ensures p.Some? && '\n' in CleanText(item) &&
            EstimatedSize(ManualWrap(CleanText(item)), ItemArea(item, sx, sy).innerW, ItemArea(item, sx, sy).innerH, BaseSize(item))
              >= BaseSize(item) * ManualGiveUp ==>
              p.value.text == ManualWrap(CleanText(item))
    ensures p.Some? ==> SplitWordsForLayout(p.value.text) == SplitWordsForLayout(NormalizedKeepBreaks(item.text))
    ensures p.Some? ==> MinSize as real <= p.value.size <= MaxSize as real
    ensures p.Some? ==> p.value.leading == FitLeading(p.value.size)
    ensures p.Some? ==> (DeriveCenter(item).Some? &&
                         var area := ItemArea(item, sx, sy);
                         p.value.width == area.innerW &&
                         p.value.height == Max(area.innerH, ContentHeight(p.value.size, FitLineCount(p.value.text)) as real + HeightMargin))
    ensures p.Some? ==> (DeriveCenter(item).Some? &&
                         (Monotone(ItemFits(p.value.text, lineWidthAt, boundsWidthAt, ItemArea(item, sx, sy)), MinSize, MaxSize) ==>
                            p.value.size == LargestFit(ItemFits(p.value.text, lineWidthAt, boundsWidthAt, ItemArea(item, sx, sy)),
                                                       MinSize, MaxSize) as real))
    ensures p.Some? ==> (DeriveCenter(item).Some? &&
                         var fits := ItemFits(p.value.text, lineWidthAt, boundsWidthAt, ItemArea(item, sx, sy));
                         (p.value.size == MinSize as real || fits(p.value.size)) &&
                         (MinSize as real <= BaseSize(item) <= MaxSize as real && fits(BaseSize(item)) ==> fits(p.value.size)))
    ensures p.Some? ==> p.value.rotation == AppliedRotation(item)
  {
    var normalized := NormalizeWSKeepBreaks(item.text);
    var raw := SafeTrim(normalized);
    if raw == "" {
      return None;
    }
    var c := DeriveCenter(item);
    if c.None? {
      return None;
    }
    var (cx, cy) := Anchor(c.value, sx, sy);
    var (removal, _) := CollectRemovalSegments(item);
    var phys := PhysicalBox(DeriveBox(item), sx, sy, cx, cy);
    var area := InnerBox(phys);
    var baseSize := BaseSize(item);
    var wrapped;
    ghost var forced, freeTried, free;
    wrapped, forced, freeTried, free := ChooseWrap(raw, WidthAtSize(widthAt, baseSize), area.innerW, area.innerH, baseSize);
    var finalSize := baseSize;
    var size, leading, width, height := FitText(wrapped, area, finalSize, lineWidthAt, boundsWidthAt);
    p := Some(Placement(removal, cx, cy, wrapped, size, leading, width, height, AppliedRotation(item)));
    TrimKeepsWords(normalized);
  }

  /** Trimming keeps the words. */
  lemma TrimKeepsWords(s: string)
    ensures SplitWordsForLayout(SafeTrim(s)) == SplitWordsForLayout(s)
  {
    WordsOfTrim(s);
    SplitWordsIsWords(SafeTrim(s));
    SplitWordsIsWords(s);
  }
}
