/**
 * The joining step of format in Ranger.php: given the pattern mask, its
 * precision, the comparator's result and the two points' tokens, it keeps
 * the shared leading and trailing pieces once and puts the range separator
 * between the two differing middles.
 *
 * RangeText is the specification; JoinRange is format's three loops, proved
 * to compute it.
 */
module Stitch {

  import opened Wrappers
  import opened Categories
  import opened Pattern
  import opened Tokenizer

  /** The content of token k, or the empty string when there is none (PHP's null). */
  function Content(tokens: seq<Token>, k: int): string {
    if 0 <= k < |tokens| then tokens[k].content else ""
  }

  /** A field segment finer than the shared level: the left part stops there. */
  predicate Breaks(seg: Segment, best: int) {
    seg.Field? && seg.category > best
  }

  /** Token k is a field token of a category finer than the shared level. */
  predicate FinerToken(tokens: seq<Token>, k: int, best: int) {
    0 <= k < |tokens| && tokens[k].FieldToken? && tokens[k].kind.Some? && tokens[k].kind.value > best
  }

  /** The index of the first segment from k on that breaks the left part, or |mask|. */
  function LeftEndFrom(mask: seq<Segment>, best: int, k: nat): (r: nat)
    requires k <= |mask|
    ensures k <= r <= |mask|
    ensures forall q :: k <= q < r ==> !Breaks(mask[q], best)
    ensures r < |mask| ==> Breaks(mask[r], best)
    decreases |mask| - k
  {
    if k == |mask| || Breaks(mask[k], best) then k else LeftEndFrom(mask, best, k + 1)
  }

  function LeftEnd(mask: seq<Segment>, best: int): (r: nat)
    ensures r <= |mask|
    ensures forall q :: 0 <= q < r ==> !Breaks(mask[q], best)
    ensures r < |mask| ==> Breaks(mask[r], best)
  {
    LeftEndFrom(mask, best, 0)
  }

  /** What the left loop appends for segment k: a literal's text, or the start's token. */
  function Piece(mask: seq<Segment>, start: seq<Token>, k: nat): string
    requires k < |mask|
  {
    if mask[k].Literal? then mask[k].text else Content(start, k)
  }

  function Pieces(mask: seq<Segment>, start: seq<Token>, hi: nat): string
    requires hi <= |mask|
    decreases hi
  {
    if hi == 0 then "" else Pieces(mask, start, hi - 1) + Piece(mask, start, hi - 1)
  }

  /** The contents of tokens lo .. hi - 1, absent ones counting as empty. */
  function Contents(tokens: seq<Token>, lo: int, hi: int): string
    decreases hi - lo
  {
    if hi <= lo then "" else Contents(tokens, lo, hi - 1) + Content(tokens, hi - 1)
  }

  /**
   * The right loop walks down from j while j >= i and stops at the first
   * end token finer than the shared level; the result is where it stopped.
   */
  function RightStop(end: seq<Token>, best: int, i: int, j: int): (r: int)
    ensures r <= j
    ensures j >= i - 1 ==> r >= i - 1
    ensures forall q :: r < q <= j ==> !FinerToken(end, q, best)
    ensures r >= i ==> FinerToken(end, r, best)
    decreases j - i + 1
  {
    if j < i then j else if FinerToken(end, j, best) then j else RightStop(end, best, i, j - 1)
  }

  /**
   * format without its preparation: the shared left part alone when the
   * range is collapsed (format's test of the comparator's result against
   * the precision), and otherwise left, start middle, separator, end
   * middle, shared right part.
   */
  function RangeText(mask: seq<Segment>, collapsed: bool, best: int, start: seq<Token>, end: seq<Token>,
                     separator: string): string
  {
    var e := LeftEnd(mask, best);
    var left := Pieces(mask, start, e);
    if collapsed then left
    else
      var i := if e < |mask| then e else |mask| - 1;
      var j := RightStop(end, best, i, |mask| - 1);
      left + Contents(start, i, j + 1) + separator + Contents(end, i, j + 1) + Contents(end, j + 1, |mask|)
  }

  lemma {:induction false} ContentsSplit(tokens: seq<Token>, lo: int, mid: int, hi: int)
    requires lo <= mid <= hi
    ensures Contents(tokens, lo, hi) == Contents(tokens, lo, mid) + Contents(tokens, mid, hi)
    decreases hi - mid
  {
    if hi > mid {
      ContentsSplit(tokens, lo, mid, hi - 1);
    }
  }

  lemma ContentsOne(tokens: seq<Token>, k: int)
    ensures Contents(tokens, k, k + 1) == Content(tokens, k)
  {
    assert Contents(tokens, k, k) == "";
  }

  lemma ContentsSnoc(tokens: seq<Token>, lo: int, hi: int)
    requires lo <= hi
    ensures Contents(tokens, lo, hi + 1) == Contents(tokens, lo, hi) + Content(tokens, hi)
  {
  }

  lemma ContentsCons(tokens: seq<Token>, lo: int, hi: int)
    requires lo < hi
    ensures Contents(tokens, lo, hi) == Content(tokens, lo) + Contents(tokens, lo + 1, hi)
  {
    ContentsSplit(tokens, lo, lo + 1, hi);
    ContentsOne(tokens, lo);
  }

  /** The left loop of format: the shared left part, and the index i where it stopped. */
  method LeftPart(mask: seq<Segment>, best: int, start: seq<Token>) returns (left: string, i: int)
    ensures left == Pieces(mask, start, LeftEnd(mask, best))
    ensures i == if LeftEnd(mask, best) < |mask| then LeftEnd(mask, best) else |mask| - 1
  {
    left := "";
    i := -1;
    var k := 0;
    while k < |mask|
      invariant 0 <= k <= LeftEnd(mask, best)
      invariant i == k - 1
      invariant left == Pieces(mask, start, k)
    {
      i := k;
      var part := mask[k];
      if part.Literal? {
        left := left + part.text;
      } else {
        if part.category > best {
          break;
        }
        left := left + Content(start, k);
      }
      k := k + 1;
    }
  }

  /** The right loop of format: from the last segment down to i, up to the first finer end token. */
  method RightPart(n: int, best: int, end: seq<Token>, i: int) returns (right: string, j: int)
    requires i - 1 <= n - 1
    ensures j == RightStop(end, best, i, n - 1)
    ensures right == Contents(end, j + 1, n)
  {
    right := "";
    j := n - 1;
    while j + 1 > i
      invariant i - 1 <= j <= n - 1
      invariant RightStop(end, best, i, j) == RightStop(end, best, i, n - 1)
      invariant right == Contents(end, j + 1, n)
    {
      if FinerToken(end, j, best) {
        break;
      }
      ContentsCons(end, j, n);
      right := Content(end, j) + right;
      j := j - 1;
    }
  }

  /** The middle loop of format: the two points' tokens i .. j. */
  method Middles(start: seq<Token>, end: seq<Token>, i: int, j: int) returns (leftMiddle: string, rightMiddle: string)
    requires i <= j + 1
    ensures leftMiddle == Contents(start, i, j + 1) && rightMiddle == Contents(end, i, j + 1)
  {
    leftMiddle, rightMiddle := "", "";
    var k := i;
    while k <= j
      invariant i <= k <= j + 1
      invariant leftMiddle == Contents(start, i, k) && rightMiddle == Contents(end, i, k)
    {
      ContentsSnoc(start, i, k);
      ContentsSnoc(end, i, k);
      leftMiddle := leftMiddle + Content(start, k);
      rightMiddle := rightMiddle + Content(end, k);
      k := k + 1;
    }
  }

  /** The loops of format after the memoized parse and the two tokenizations. */
  method JoinRange(mask: seq<Segment>, collapsed: bool, best: int, start: seq<Token>, end: seq<Token>,
                   separator: string) returns (r: string)
    ensures r == RangeText(mask, collapsed, best, start, end, separator)
  {
    var left, i := LeftPart(mask, best, start);
    if collapsed {
      return left;
    }
    var right, j := RightPart(|mask|, best, end, i);
    var leftMiddle, rightMiddle := Middles(start, end, i, j);
    r := left + leftMiddle + separator + rightMiddle + right;
  }

  // ---------------------------------------------------------------------------
  // Properties

  lemma {:induction false} PiecesAreTokens(mask: seq<Segment>, start: seq<Token>, k: nat)
    requires Aligned(mask, start) && k <= |mask|
    ensures Pieces(mask, start, k) == Concat(start[..k])
    ensures Pieces(mask, start, k) == Contents(start, 0, k)
    decreases k
  {
    if k > 0 {
      PiecesAreTokens(mask, start, k - 1);
      assert start[..k][..k - 1] == start[..k - 1];
      assert TokenFits(mask[k - 1], start[k - 1]);
    }
  }

  /**
   * When the range is collapsed and no field is finer than the shared
   * level, the range is rendered as the start point alone: the tokens of the start, joined.
   */
  lemma CollapsedRangeIsStart(mask: seq<Segment>, best: int, start: seq<Token>, end: seq<Token>, separator: string)
    requires Aligned(mask, start)
    requires forall k :: 0 <= k < |mask| && mask[k].Field? ==> mask[k].category <= best
    ensures RangeText(mask, true, best, start, end, separator) == Concat(start)
  {
    NothingBreaks(mask, best);
    PiecesAreTokens(mask, start, |mask|);
    assert start[..|mask|] == start;
  }

  /** The points agree on every token that is not finer than the shared level. */
  predicate SharedUpTo(mask: seq<Segment>, start: seq<Token>, end: seq<Token>, best: int) {
    forall k :: 0 <= k < |mask| && !Breaks(mask[k], best) ==> Content(start, k) == Content(end, k)
  }

  lemma {:induction false} SharedContents(mask: seq<Segment>, start: seq<Token>, end: seq<Token>, best: int, lo: int, hi: int)
    requires Aligned(mask, start) && Aligned(mask, end) && SharedUpTo(mask, start, end, best)
    requires 0 <= lo && hi <= |mask|
    requires forall q :: lo <= q < hi ==> !Breaks(mask[q], best)
    ensures Contents(start, lo, hi) == Contents(end, lo, hi)
    decreases hi - lo
  {
    if hi > lo {
      SharedContents(mask, start, end, best, lo, hi - 1);
    }
  }

  /** RangeText when the range is not collapsed, cut at the left end e, the index i and the right stop j. */
  lemma SplitRangeTextAt(mask: seq<Segment>, collapsed: bool, best: int, start: seq<Token>, end: seq<Token>,
                         separator: string, e: int, i: int, j: int)
    requires !collapsed && e == LeftEnd(mask, best)
    requires i == (if e < |mask| then e else |mask| - 1) && j == RightStop(end, best, i, |mask| - 1)
    ensures RangeText(mask, collapsed, best, start, end, separator) ==
            Pieces(mask, start, e) + Contents(start, i, j + 1) + separator + Contents(end, i, j + 1) + Contents(end, j + 1, |mask|)
  {
  }

  /** RangeText when the range is not collapsed and some field is finer than best. */
  lemma SplitRangeText(mask: seq<Segment>, collapsed: bool, best: int, start: seq<Token>, end: seq<Token>,
                       separator: string)
    requires !collapsed && LeftEnd(mask, best) < |mask|
    ensures var i := LeftEnd(mask, best);
            var j := RightStop(end, best, i, |mask| - 1);
            RangeText(mask, collapsed, best, start, end, separator) ==
              Pieces(mask, start, i) + Contents(start, i, j + 1) + separator + Contents(end, i, j + 1) + Contents(end, j + 1, |mask|)
  {
    var i := LeftEnd(mask, best);
    SplitRangeTextAt(mask, collapsed, best, start, end, separator, i, i, RightStop(end, best, i, |mask| - 1));
  }

  /** Aligned tokens cut in three give back the point's text. */
  lemma PointInThree(mask: seq<Segment>, tokens: seq<Token>, i: int, j: int)
    requires Aligned(mask, tokens) && 0 <= i <= j + 1 <= |mask|
    ensures Concat(tokens) == Contents(tokens, 0, i) + Contents(tokens, i, j + 1) + Contents(tokens, j + 1, |mask|)
  {
    var n := |mask|;
    PiecesAreTokens(mask, tokens, n);
    assert tokens[..n] == tokens;
    ContentsSplit(tokens, 0, i, j + 1);
    ContentsSplit(tokens, 0, j + 1, n);
  }

  /** The end tokens after the right stop are on segments not finer than the shared level. */
  lemma RightOfStopIsShared(mask: seq<Segment>, end: seq<Token>, best: int, i: int)
    requires Aligned(mask, end) && 0 <= i < |mask|
    ensures forall q :: RightStop(end, best, i, |mask| - 1) + 1 <= q < |mask| ==> !Breaks(mask[q], best)
  {
    var j := RightStop(end, best, i, |mask| - 1);
    forall q | j + 1 <= q < |mask| ensures !Breaks(mask[q], best) {
      assert TokenFits(mask[q], end[q]) && !FinerToken(end, q, best);
    }
  }

  /**
   * Cut at i and j + 1 with the outer parts shared, each point's text is
   * the shared left, its own middle and the shared right.
   */
  lemma TwoPointsInThree(mask: seq<Segment>, start: seq<Token>, end: seq<Token>, best: int, i: int, j: int)
    requires Aligned(mask, start) && Aligned(mask, end) && SharedUpTo(mask, start, end, best)
    requires 0 <= i <= j + 1 <= |mask|
    requires forall q :: 0 <= q < i ==> !Breaks(mask[q], best)
    requires forall q :: j + 1 <= q < |mask| ==> !Breaks(mask[q], best)
    ensures Concat(start) == Contents(start, 0, i) + Contents(start, i, j + 1) + Contents(end, j + 1, |mask|)
    ensures Concat(end) == Contents(start, 0, i) + Contents(end, i, j + 1) + Contents(end, j + 1, |mask|)
  {
    PointInThree(mask, start, i, j);
    PointInThree(mask, end, i, j);
    SharedContents(mask, start, end, best, 0, i);
    SharedContents(mask, start, end, best, j + 1, |mask|);
  }

  /** The three texts of a range that is not collapsed, each cut at the left end and the right stop. */
  lemma SplitRangeAt(mask: seq<Segment>, collapsed: bool, best: int, start: seq<Token>, end: seq<Token>,
                     separator: string, i: int, j: int)
    requires Aligned(mask, start) && Aligned(mask, end) && SharedUpTo(mask, start, end, best)
    requires !collapsed && i == LeftEnd(mask, best) < |mask| && j == RightStop(end, best, i, |mask| - 1)
    ensures RangeText(mask, collapsed, best, start, end, separator) ==
            Contents(start, 0, i) + Contents(start, i, j + 1) + separator + Contents(end, i, j + 1) + Contents(end, j + 1, |mask|)
    ensures Concat(start) == Contents(start, 0, i) + Contents(start, i, j + 1) + Contents(end, j + 1, |mask|)
    ensures Concat(end) == Contents(start, 0, i) + Contents(end, i, j + 1) + Contents(end, j + 1, |mask|)
  {
    SplitRangeTextAt(mask, collapsed, best, start, end, separator, i, i, j);
    PiecesAreTokens(mask, start, i);
    RightOfStopIsShared(mask, end, best, i);
    TwoPointsInThree(mask, start, end, best, i, j);
  }

  /**
   * When the range is not collapsed, the result is
   * shared left, start middle, separator, end middle, shared right, where
   * the shared parts around the start middle give back the start's text and
   * the same parts around the end middle give back the end's.
   */
  lemma SplitRangeRebuildsBothPoints(mask: seq<Segment>, collapsed: bool, best: int, start: seq<Token>, end: seq<Token>,
                                     separator: string)
    requires Aligned(mask, start) && Aligned(mask, end) && SharedUpTo(mask, start, end, best)
    requires !collapsed
    requires exists q :: 0 <= q < |mask| && Breaks(mask[q], best)
    ensures exists left, startMiddle, endMiddle, right ::
      && RangeText(mask, collapsed, best, start, end, separator) == left + startMiddle + separator + endMiddle + right
      && left + startMiddle + right == Concat(start)
      && left + endMiddle + right == Concat(end)
  {
    var i := LeftEnd(mask, best);
    assert i < |mask|;
    var j := RightStop(end, best, i, |mask| - 1);
    SplitRangeAt(mask, collapsed, best, start, end, separator, i, j);
    var left, startMiddle, endMiddle, right := Contents(start, 0, i), Contents(start, i, j + 1), Contents(end, i, j + 1), Contents(end, j + 1, |mask|);
    assert && RangeText(mask, collapsed, best, start, end, separator) == left + startMiddle + separator + endMiddle + right
           && left + startMiddle + right == Concat(start)
           && left + endMiddle + right == Concat(end);
  }

  /**
   * A point joined with itself when the range is not collapsed: every
   * piece is shared, so the result is the point's text, the separator and
   * the content of the last token once more.
   */
  lemma UncollapsedSamePoint(mask: seq<Segment>, best: int, tokens: seq<Token>, separator: string)
    requires Aligned(mask, tokens) && mask != []
    requires forall k :: 0 <= k < |mask| && mask[k].Field? ==> mask[k].category <= best
    ensures RangeText(mask, false, best, tokens, tokens, separator) ==
            Concat(tokens) + separator + tokens[|mask| - 1].content
  {
    var n := |mask|;
    NothingBreaks(mask, best);
    assert TokenFits(mask[n - 1], tokens[n - 1]);
    LastTokenStops(tokens, best, n - 1);
    SplitRangeTextAt(mask, false, best, tokens, tokens, separator, n, n - 1, n - 2);
    PiecesAreTokens(mask, tokens, n);
    assert tokens[..n] == tokens;
    ContentsOne(tokens, n - 1);
  }

  lemma NothingBreaks(mask: seq<Segment>, best: int)
    requires forall k :: 0 <= k < |mask| && mask[k].Field? ==> mask[k].category <= best
    ensures LeftEnd(mask, best) == |mask|
  {
  }

  lemma LastTokenStops(tokens: seq<Token>, best: int, k: int)
    requires !FinerToken(tokens, k, best)
    ensures RightStop(tokens, best, k, k) == k - 1
  {
  }

  /** A rendering joined with itself by the corrected tokens, collapsed, is that rendering. */
  lemma CollapsedSameText(mask: seq<Segment>, text: string, separator: string)
    requires WellFormed(mask) && Fits(mask, text)
    requires forall k :: 0 <= k < |mask| && mask[k].Field? ==> mask[k].category <= SECOND
    requires (mask != [] && mask[|mask| - 1].Field?) || WalkAligned(mask, text).rest == ""
    ensures var tokens := AlignedTokensOf(mask, text);
            RangeText(mask, true, SECOND, tokens, tokens, separator) == text
  {
    FitsIsFound(mask, text);
    AlignedTokensAlign(mask, text);
    AlignedTokensRoundTrip(mask, text);
    var tokens := AlignedTokensOf(mask, text);
    CollapsedRangeIsStart(mask, SECOND, tokens, tokens, separator);
  }

  /**
   * A rendering joined with itself by the tokens as written on an
   * alternating mask, not collapsed: the rendering, the separator and its
   * last token again.
   */
  lemma UncollapsedSameText(mask: seq<Segment>, text: string, separator: string)
    requires WellFormed(mask) && Alternating(mask) && mask != [] && Fits(mask, text)
    requires forall k :: 0 <= k < |mask| && mask[k].Field? ==> mask[k].category <= SECOND
    requires mask[|mask| - 1].Field? || WalkAligned(mask, text).rest == ""
    ensures var tokens := TokensOf(mask, text);
            RangeText(mask, false, SECOND, tokens, tokens, separator) == text + separator + Content(tokens, |mask| - 1)
  {
    var tokens := TokensOf(mask, text);
    FitsIsFound(mask, text);
    AlignedTokensAlign(mask, text);
    AlignedTokensRoundTrip(mask, text);
    CorrectionAgreesOnAlternatingMasks(mask, text);
    assert Aligned(mask, tokens) && Concat(tokens) == text;
    UncollapsedSamePoint(mask, SECOND, tokens, separator);
    assert Content(tokens, |mask| - 1) == tokens[|mask| - 1].content;
  }
}
