# Bubble text layout of `make_manga_text.jsx`, in Dafny

`make_manga_text.jsx` is a Photoshop script. It reads a list of speech-bubble
records (text, optional polygon, boxes, rotation, writing mode, size) and
typesets each text into its bubble. This project models the layout engine
inside the script and proves properties of it:

- **Text** (`text.dfy`): the string helpers, written out character by
  character. This covers `safeTrim`, `collapseWhitespace`,
  `normalizeWSKeepBreaks` (CRLF, CR and the literal escape backslash-`n`
  become line feeds, and runs of space, tab and NBSP collapse within each
  line), `splitWordsForLayout` and `normalizeLinesForAutoFit`. `Words` is an
  independent reference definition of "the words of a text". The lemmas tie
  the split, trim and collapse pipeline to it.
- **Geometry** (`geometry.dfy`):
  - the shoelace centroid with its vertex-mean fallback;
  - the anchor, box and rotation selectors;
  - the removal-region helpers;
  - the scale factors;
  - the inner text box of a bubble.
- **Wrap** (`wrap.dfy`):
  - the measured greedy wrap;
  - the two rebalancing passes, which edit an `array<seq<string>>` of
    word lists in place;
  - `layoutBubble`.

  Pixel widths come from an oracle `m: string -> real`. The empty text
  measures 0 without calling it.
- **Fit** (`fit.dfy`):
  - the closed-form starting-size estimate;
  - the auto-fit binary search over whole sizes, proved against a
    reference "largest size that fits";
  - the paragraph frame (`TextFrame`), whose size, leading and height
    the fit updates.
- **Layout** (`layout.dfy`): one pass of the main loop over a record. It
  cleans the text, skips records without text or anchor, and anchors the
  rest. It computes the inner box and the base size. It then chooses
  between the manual line breaks and a free reflow, and fits the result.

Numbers are `real`. `Math.floor` is `.Floor` and `Math.round(x)` is
`floor(x + 1/2)`. The host's `\s` class is the explicit set of ES5 whitespace
and line-terminator characters (`Text.IsSpace`).

Points of the script's behaviour that the model keeps as written:

- The fit test allows one pixel over the inner box (`innerW + 1`, `innerH + 1`).
- The height half of the fit test is arithmetic: `max(1, floor(1.18 * size))`
  per line, times the line count.
- After the manual-versus-free choice, the starting size is always the base
  size. The estimate chooses the wrap, not the size.
- `collapseWhitespace` and the word split use the full `\s` class.
  `normalizeWSKeepBreaks` collapses only space, tab and NBSP within a line.

## Model

| member | source | states |
|---|---|---|
| Text.SafeTrim | make_manga_text.jsx:76 | the result is the infix of the input after its leading whitespace; what is cut on either side is all whitespace, and neither end of the result is whitespace |
| Text.CollapseWhitespace | make_manga_text.jsx:77 | every whitespace character left is a single space, and no two spaces are adjacent |
| Text.CollapseIdempotent | make_manga_text.jsx:77 | collapsing runs twice is the same as once |
| Text.ReplaceCR | make_manga_text.jsx:83 | every CR becomes LF, every other character is kept, and the length is unchanged |
| Text.UnescapeNewlines | make_manga_text.jsx:84 | no backslash-`n` pair remains, every character is a line feed or comes from the input, and the first character is the input's first, or a line feed for a leading escape |
| Text.UnescapeAroundPair | make_manga_text.jsx:84 | around any escape the text is unescaped piecewise: the parts before and after are unescaped on their own and the escape becomes one line feed |
| Text.UnescapeNoPair | make_manga_text.jsx:84 | a text without an escape is unchanged |
| Text.NormalizeWSKeepBreaks | make_manga_text.jsx:80-91 | the in-place per-line rewrite returns the normal form; its output has no CR, tab, NBSP, backslash-`n` pair or double space; it is empty exactly when the input is |
| Text.NormalizedKeepBreaksNormal | make_manga_text.jsx:80-91 | the normalised text has no CR, tab, NBSP, backslash-`n` pair or two adjacent spaces |
| Text.NormalizedKeepBreaksEmpty | make_manga_text.jsx:80-82 | the normalised text is empty if and only if the input is |
| Text.NormalizeIdempotent | make_manga_text.jsx:80-91 | normalising twice gives the same text as normalising once |
| Text.SplitWordsForLayout | make_manga_text.jsx:554-563 | every word is non-empty and free of whitespace |
| Text.SplitWordsIsWords | make_manga_text.jsx:554-563 | trimming, splitting on whitespace runs and dropping empty pieces yields exactly the maximal whitespace-free runs of the text |
| Text.WordsOfTrim | make_manga_text.jsx:76 | trimming keeps the words |
| Text.WordsCollapse | make_manga_text.jsx:77 | collapsing runs of any whitespace class keeps the words |
| Text.JoinSplitRuns | make_manga_text.jsx:956-957 | joining the pieces of a split on runs with single spaces is the same as collapsing those runs |
| Text.WordsJoin | make_manga_text.jsx:957 | joining pieces with a whitespace character concatenates their words |
| Text.NormalizeLinesForAutoFit | make_manga_text.jsx:738-749 | every line read back is non-empty, has no CR or LF, and has no two adjacent spaces |
| Text.AutoFitLinesOfJoin | make_manga_text.jsx:738-749 | lines joined with CR read back as exactly the non-empty ones, when each is already collapsed and break-free |
| Geometry.PolygonCentroid | make_manga_text.jsx:381-400 | the accumulation loops compute `Centroid`: none below three vertices, the vertex mean when the area is below 1e-6, otherwise the shoelace centroid |
| Geometry.CentroidShort | make_manga_text.jsx:382-383 | there is no centroid if and only if there are fewer than three vertices |
| Geometry.CentroidDegenerate | make_manga_text.jsx:393-397 | a polygon with area below 1e-6 gets the mean of its vertices |
| Geometry.TriangleCentroid | make_manga_text.jsx:381-400 | a non-degenerate triangle's centroid is the mean of its vertices |
| Geometry.RectangleCentroid | make_manga_text.jsx:381-400 | an axis-aligned rectangle's centroid is its middle |
| Geometry.CollinearCentroid | make_manga_text.jsx:393-397 | three evenly spaced collinear points fall back to the middle one |
| Geometry.DeriveCenter | make_manga_text.jsx:401-417 | the anchor is the polygon centroid (three or more points), else the center, else the text-box midpoint, else the bubble-box midpoint; it is absent exactly when all four are |
| Geometry.DeriveBox | make_manga_text.jsx:418-424 | the text box when present, else the bubble box |
| Geometry.DeriveRotationDeg | make_manga_text.jsx:513-517 | the explicit angle, else 90 exactly for the two vertical modes, else 0 |
| Geometry.AppliedRotation | make_manga_text.jsx:1005-1009 | a rotation is applied only when its size exceeds a thousandth of a degree, and it is the derived angle |
| Geometry.VerticalTurnsQuarter | make_manga_text.jsx:513-517 | vertical writing with no angle turns the layer by 90 degrees |
| Geometry.HorizontalStaysUpright | make_manga_text.jsx:513-517 | other writing with no angle is not rotated |
| Geometry.PolygonToBox | make_manga_text.jsx:296-309 | no box for no points; otherwise the box of the running min/max scan is `BoundsOf` the points |
| Geometry.BoundsOfPrefixTight | make_manga_text.jsx:296-309 | the box contains every point, and each of its sides is touched by one |
| Geometry.BoxToSegment | make_manga_text.jsx:285-294 | the segment's extent is the box grown by the padding on every side |
| Geometry.BuildRegionFromSegment | make_manga_text.jsx:230-268 | the point loop computes `Region`: the scaled points when at least three are present, else the ordered scaled extent when both sides are at least one pixel |
| Geometry.Region | make_manga_text.jsx:230-268 | a region always has at least three points |
| Geometry.ExtentRegionOrderFree | make_manga_text.jsx:254-257 | swapping an extent's ends gives the same rectangle |
| Geometry.ExtentRegionShape | make_manga_text.jsx:254-267 | the extent region is an axis-aligned rectangle of at least one pixel per side, whose sides are the scaled extent |
| Geometry.CollectRemovalSegments | make_manga_text.jsx:311-343 | the record's own segments when it has any; otherwise one segment around the text polygon's bounds when it has at least three vertices, else around the text box, else around the bubble box, each padded by 2 pixels and tagged with its source; no segments, tagged "none", when there is no box |
| Geometry.RemovalSourcePriority | make_manga_text.jsx:318-337 | without own segments the source is the text polygon, then the text box, then the bubble box |
| Geometry.PolygonRemovalCovers | make_manga_text.jsx:311-343 | the segment derived from a text polygon contains every vertex with 2 pixels to spare, and it always yields a region at a scale of at least 1/4 |
| Geometry.ScaleFactor | make_manga_text.jsx:905-906 | with a positive source size the factor maps it onto the document size, else it is 1 |
| Geometry.ScaleMapsEdge | make_manga_text.jsx:905-906 | the far edge of the source maps to the far edge of the document; equal sizes give factor 1 |
| Geometry.Anchor | make_manga_text.jsx:929 | each anchor coordinate is the scaled center rounded to the nearest pixel, halves rounding up (more than half a pixel below, at most half a pixel above) |
| Geometry.PhysicalBox | make_manga_text.jsx:937-939 | the scaled record box, or a 240 by 200 area centred on the anchor |
| Geometry.InnerBox | make_manga_text.jsx:941-946 | the bubble is floored at 70 by 60; the padding is a tenth of its smaller side, rounded to the nearest pixel with halves up; each inner side is at least 20 and at least the bubble side less twice the padding |
| Geometry.InnerFloorSlack | make_manga_text.jsx:941-946 | the floor of 20 never takes effect: the inner box is at least 55 by 47 |
| Geometry.InnerBoxExample | make_manga_text.jsx:934-946 | the box (0,0,100,80) at scale 1 gives padding 8 and an 84 by 64 inner box |
| Geometry.SyntheticInnerBox | make_manga_text.jsx:937-946 | without a box the padding is 20 and the inner box is 200 by 160 |
| Geometry.BubbleBoxAnchor | make_manga_text.jsx:412-415 | a record with only a bubble box (0,0)-(100,80) anchors at (50,40) |
| Wrap.MeasureWidth | make_manga_text.jsx:541-542 | the empty text measures 0 |
| Wrap.GreedyWrapWordsPixels | make_manga_text.jsx:565-585 | the result has the greedy shape: its lines flatten to the input words, none is empty, every prefix of two or more words fits, and no line could take the next line's first word |
| Wrap.GreedyLinesFit | make_manga_text.jsx:565-585 | every greedy line is non-empty, and only a single-word line may exceed the limit |
| Wrap.GreedyUnique | make_manga_text.jsx:565-585 | the greedy shape determines the lines: two wraps of the same words that have it are equal |
| Wrap.RebalanceFirstLineStrict | make_manga_text.jsx:587-611 | the in-place pass leaves the array equal to `RebalanceFirstLine` of its old contents |
| Wrap.RebalanceFirstLineKeeps | make_manga_text.jsx:587-611 | the first-line pass keeps every word in order and every line after the second |
| Wrap.RebalanceFirstLineShape | make_manga_text.jsx:587-611 | line 0 keeps a non-empty prefix of itself; the rest of it, at most the move limit of words, goes to the front of line 1; a line 1 that received words fits |
| Wrap.FirstLineNarrowerStays | make_manga_text.jsx:596 | nothing moves when line 0 is already narrower than line 1 |
| Wrap.RebalanceMiddleLines | make_manga_text.jsx:613-640 | the in-place passes leave the array equal to `RebalanceMiddle` of its old contents, after at most the pass limit of passes |
| Wrap.MiddleScanInPlace | make_manga_text.jsx:617-637 | one pass with the width cache computes `MiddleScan` and its changed flag |
| Wrap.MiddleScanKeeps | make_manga_text.jsx:622-636 | a scan keeps every word in order and line 0; a scan that reports no change changed nothing |
| Wrap.MiddleScanReceiversFit | make_manga_text.jsx:626-635 | after a scan each line is unchanged, has lost its first word to the line above, or fits the limit |
| Wrap.RebalanceMiddleKeeps | make_manga_text.jsx:613-640 | the middle pass keeps every word in order, the line count and line 0, and leaves lists of fewer than three lines alone |
| Wrap.MiddleIdleAfterFirstLine | make_manga_text.jsx:658-659 | when putting words in front of a line never makes it narrower, the middle pass moves nothing after the greedy wrap and the first-line pass |
| Wrap.LayoutLinesFit | make_manga_text.jsx:642-662 | under the same oracle condition, the layout has as many lines as the greedy wrap, none empty, and every line of two or more words fits |
| Wrap.WidthLimit | make_manga_text.jsx:643 | the width limit is at least 1, and is the given width when that is at least 1 |
| Wrap.LayoutBubbleLines | make_manga_text.jsx:642-662 | the lines are the greedy wrap of the text's words at the width limit after the first-line pass (5 moves) and the middle pass (4 passes); they flatten back to the words |
| Wrap.LayoutBubble | make_manga_text.jsx:664-672 | the wrapped text is `BubbleText` of the input: the greedy wrap of its words after both passes, each line joined with spaces and the lines with CRs; it has exactly the words of the input and is empty exactly when there are none |
| Wrap.BubbleLinesUnique | make_manga_text.jsx:642-662 | a text, oracle and width have exactly one layout |
| Wrap.BubbleTextUnique | make_manga_text.jsx:664-672 | the result of `layoutBubble` is a function of the text, oracle and width |
| Wrap.LayoutKeepsWords | make_manga_text.jsx:664-672 | joining layout lines keeps exactly their words |
| Fit.TrimmedLengths | make_manga_text.jsx:685-689 | one trimmed length per line |
| Fit.MaxOf | make_manga_text.jsx:684-690 | the running maximum bounds every length and is one of them, or 0 |
| Fit.LongestTrimmedLine | make_manga_text.jsx:684-690 | the loop computes the longest trimmed line length |
| Fit.MaxSizesFit | make_manga_text.jsx:696-697 | each size limit is the largest whole size whose width, or height, fits the inner box |
| Fit.UpperBound | make_manga_text.jsx:699 | at least 6 and at least the smaller limit, at most the larger of 6 and each limit, and equal to 6 or one of the limits |
| Fit.SafeSize | make_manga_text.jsx:700-711 | from 6 to 60 and never above the upper bound; when the bound does not exceed the base it is the bound capped at 60; otherwise it is at least the base and at least the smaller of the bound and floor(2 x base), each capped at 60, and at most the largest of 6, the base and floor(2 x base) |
| Fit.EstimateSafeFontSizeForWrapped | make_manga_text.jsx:675-716 | the method returns `EstimatedSize`: the base for an empty text, else the size for its CR/LF lines |
| Fit.SizeForLinesCases | make_manga_text.jsx:686-711 | all-blank lines keep the base size; otherwise the estimate is from 6 to 60 and at most the upper bound |
| Fit.SafeSizeMonotone | make_manga_text.jsx:700-711 | a larger upper bound never gives a smaller safe size |
| Fit.UpperBoundMonotone | make_manga_text.jsx:696-699 | a larger inner box never lowers the upper bound |
| Fit.EstimateGrowsWithBox | make_manga_text.jsx:675-716 | a larger inner box never gives a smaller estimate |
| Fit.LineHeight | make_manga_text.jsx:800 | the estimated line height is at least 1 and is 1.18 of the size, rounded down |
| Fit.ContentHeightMonotone | make_manga_text.jsx:799-802 | the estimated content height never decreases as the size grows |
| Fit.HeightTestMonotone | make_manga_text.jsx:815-816 | the height half of the fit test passes at every size below one where it passes |
| Fit.FitLeading | make_manga_text.jsx:806 | the leading the fit test sets is a whole number, at least 1, and is 1.12 of the size rounded down |
| Fit.LargestFit | make_manga_text.jsx:828-846 | the reference answer is in range, nothing above it fits, and it fits unless nothing fits and it is the minimum |
| Fit.SearchBestSize | make_manga_text.jsx:828-846 | at most 10 probes; the result stays in [min, max] and fits unless it is the minimum; a starting size in range that fits gives a result that fits; for a fit test monotone over at most 1023 sizes it is the largest size that fits, or the minimum when none does |
| Fit.Longest | make_manga_text.jsx:789-792 | the first line of greatest length, or the empty text when there are no lines |
| Fit.LongestLine | make_manga_text.jsx:789-792 | the loop finds `Longest` |
| Fit.TextFrame.constructor | make_manga_text.jsx:719-735 | a frame the size of the inner box at the given size, with leading 1.18 of the size rounded down, at least 1 |
| Fit.TextFrame.AutoFit | make_manga_text.jsx:784-863 | the size becomes the search result, which fits unless it is the minimum and fits whenever the frame's starting size is in range and fits; the leading is the fit test's leading for it, the width is unchanged, and the height becomes the larger of the old height and max(innerH, content height + 20), so it is never lowered |
| Layout.BaseSize | make_manga_text.jsx:949 | the record's size when positive, else 28 |
| Layout.ManualKeepsWords | make_manga_text.jsx:955-962 | the manual lines and the joined seed both hold exactly the words of the text |
| Layout.BuildManualWrap | make_manga_text.jsx:956-962 | the loop collapses each piece between line-feed runs and joins them with CRs |
| Layout.ForcedWrap | make_manga_text.jsx:953-967 | the first wrap is `ForcedOf` the text: the manual lines when it has line feeds, else the bubble layout of the collapsed text, or that text itself when the layout is empty; the seed and the first wrap hold exactly the input's words |
| Layout.TryFreeReflow | make_manga_text.jsx:977-982 | the free reflow is the bubble layout of the seed, and the result is `Adopt` of it: it replaces the forced wrap exactly when its estimate is strictly larger |
| Layout.ChooseWrap | make_manga_text.jsx:953-983 | the result is `WrapChoice` of the text; a free reflow is tried exactly when there are manual breaks and the forced estimate is below 0.7 of the base, and then the bubble layout of the joined pieces is adopted exactly when its estimate is strictly larger; the chosen estimate is never below the forced one; the placed text has exactly the input's words |
| Layout.Adopt | make_manga_text.jsx:980-982 | the free reflow or the forced wrap, never with a lower estimate; the free one exactly when its estimate is strictly larger |
| Layout.ForcedOfUnique | make_manga_text.jsx:953-967 | the first wrap is a function of the text, oracle and width |
| Layout.ChoiceFromUnique | make_manga_text.jsx:975-983 | given the first wrap, the second pass determines the wrap placed |
| Layout.WrapChoiceUnique | make_manga_text.jsx:953-983 | the wrap placed is a function of the text, oracle, inner box and base size |
| Layout.FitText | make_manga_text.jsx:985-1003 | the frame starts at the base size and is fitted between 12 and 60; the size fits unless it is 12, and fits whenever the base size is in range and fits; it keeps the inner width and becomes as tall as the larger of the inner box and the content plus 20 |
| Layout.LayoutItem | make_manga_text.jsx:910-1009 | a record is skipped exactly when its cleaned text is empty or it has no center; otherwise its old text is removed over `CollectRemovalSegments` of the record, it is anchored at the rounded scaled center; its text is `WrapChoice` of the cleaned text at the base size, and is the manual lines when the text has line feeds and their estimate is at least 0.7 of the base; it keeps the normalised words; its size is in [12, 60], fits unless it is 12, fits whenever the base size is in range and fits, and is the largest fitting size for a monotone fit test; the leading, frame and rotation are as above |

## Left out

- Photoshop host calls are not modelled: layer creation, bounds, translation, rotation, RTL paragraph direction, the every-line composer, the cleanup layer, selections and content-aware fill. The model returns what they would be given (`Layout.Placement`): for the removal of the old text, the segments `removeOldTextSegments` selects (`Placement.removal`), whose selectable regions at the document scale are `Geometry.Region`; whether the selection and the fill then succeed is not modelled.
- The measuring layers are abstract functions of the text and the size (`m`, `widthAt`, `lineWidthAt`, `boundsWidthAt`). `TextMeasureContext` and the measure-layer helpers are not part of this model. When the measure layer for the longest line cannot be built, the script's fit test uses the text layer's bounds width, and a failed measurement counts as width 0. The model takes both only as values `lineWidthAt` may return.
- File I/O, logging, the JSON reader with its `eval` fallback, `toStr`, `segmentPoints` duck typing and the batch driver are not modelled. Records are typed (`Geometry.Item`, `Geometry.Segment`), and the document and source image sizes are parameters.
- IEEE floating point is modelled as exact reals; NaN inputs are not modelled. String lengths count Dafny characters, not UTF-16 code units.
- `getFontForType` and `forceRTL` are not modelled: the font name and the RTL marks only reach the host.
- The `maxHeight` branch of `layoutBubbleLines` has no effect and is not modelled. Neither is the `lineCount < 1` branch of `estimateSafeFontSizeForWrapped`: `split` always returns at least one piece (`Text.SplitOn`).
- Wrap.RebalanceMiddleLines: the middle pass can leave a line empty, when a line of one word hands its only word up. The model follows the code there. That every line stays non-empty and every line of two or more words fits is proved only for oracles that grow with prefixes (`Wrap.LayoutLinesFit`). The receiving-line condition is stated per scan (`Wrap.MiddleScanReceiversFit`).
- Fit.TextFrame.constructor: the paragraph's position, justification, font and colour are host state and are not modelled. The frame keeps its size, leading, width and height.
- Fit.SizeForLinesCases: the range and bound of the estimate are stated over the trimmed line lengths rather than over the text. `Fit.EstimateSafeFontSizeForWrapped` ties the two together.
- Layout.LayoutItem: the size searched for is the fit test on the whole wrapped text. The layer's own re-measurement after each size change is the `boundsWidthAt` oracle.
