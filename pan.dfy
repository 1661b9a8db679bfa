/**
 * The pan offset of the bubble map (the motion value `x` the map container
 * is translated by) and the rules that write or read it: the clamp applied
 * when a drag ends, the centring offset after a layout pass, the scroll
 * indicator that reads the offset, and the thumb drag that writes it back.
 *
 * The offset is never positive when it is in bounds: 0 shows the left end
 * of the map and -(mapWidth - screenWidth) shows its right end.
 */
module PanOffset {
  import opened Numeric

  /** The scroll track is 16rem = 256 px wide. */
  const TrackWidth: real := 256.0

  /** The drag constraints of the map container: left -(mapWidth - screenWidth), right 0. */
  predicate InBounds(offset: real, mapWidth: real, screenWidth: real)
  {
    -(mapWidth - screenWidth) <= offset <= 0.0
  }

  // ---------------------------------------------------------------------
  // Clamping and centring
  // ---------------------------------------------------------------------

  /**
   * `Math.max(maxOffset, Math.min(0, offset))` with maxOffset = -(mapWidth - screenWidth):
   * an offset past either end is moved to the nearest end, one in bounds is kept.
   */
  function ClampOffset(offset: real, mapWidth: real, screenWidth: real): (r: real)
    ensures mapWidth >= screenWidth ==> InBounds(r, mapWidth, screenWidth)
    ensures InBounds(offset, mapWidth, screenWidth) ==> r == offset
    ensures mapWidth >= screenWidth && offset > 0.0 ==> r == 0.0
    ensures mapWidth >= screenWidth && offset < -(mapWidth - screenWidth) ==> r == -(mapWidth - screenWidth)
  {
    Max(-(mapWidth - screenWidth), Min(0.0, offset))
  }

  /** Clamping a clamped offset changes nothing, whatever the widths. */
  lemma ClampOffsetIdempotent(offset: real, mapWidth: real, screenWidth: real)
    ensures ClampOffset(ClampOffset(offset, mapWidth, screenWidth), mapWidth, screenWidth)
            == ClampOffset(offset, mapWidth, screenWidth)
  {
  }

  /**
   * The offset set after every layout pass: the one that puts the middle of
   * the map on the middle of the screen, clamped like a drag end.
   */
  function CenteringOffset(mapWidth: real, screenWidth: real): (offset: real)
    ensures mapWidth >= screenWidth ==> InBounds(offset, mapWidth, screenWidth)
    ensures mapWidth >= screenWidth ==> offset + mapWidth / 2.0 == screenWidth / 2.0
  {
    var mapCenter := mapWidth / 2.0;
    var screenCenter := screenWidth / 2.0;
    ClampOffset(screenCenter - mapCenter, mapWidth, screenWidth)
  }

  // ---------------------------------------------------------------------
  // Scroll indicator (offset -> thumb)
  // ---------------------------------------------------------------------

  /** How far the map is scrolled, as a fraction of the scrollable distance; 0 when the map fits. */
  function ScrollProgress(offset: real, mapWidth: real, screenWidth: real): (p: real)
    ensures mapWidth <= screenWidth ==> p == 0.0
  {
    if mapWidth > screenWidth then -offset / (mapWidth - screenWidth) else 0.0
  }

  /**
   * The thumb's width in percent of the track: the visible share of the
   * map, which is at most the whole track when the map is at least as
   * wide as the screen, and the whole track when the two are equal.
   */
  function ThumbWidthPercent(mapWidth: real, screenWidth: real): (percent: real)
    ensures 0.0 <= screenWidth <= mapWidth ==> 0.0 <= percent <= 100.0
    ensures 0.0 < screenWidth == mapWidth ==> percent == 100.0
  {
    if mapWidth > 0.0 then
      var share := screenWidth / mapWidth;
      if 0.0 <= screenWidth <= mapWidth then
        FractionOfWhole(screenWidth, mapWidth);
        share * 100.0
      else
        share * 100.0
    else
      0.0
  }

  /** The thumb's left edge in percent of the track: the progress, spread over the track the thumb leaves free. */
  function ScrollThumbLeft(progress: real, mapWidth: real, screenWidth: real): (left: real)
    requires screenWidth >= 0.0
    ensures mapWidth <= screenWidth ==> left == 0.0
  {
    if mapWidth > screenWidth then progress * (100.0 - (screenWidth / mapWidth) * 100.0) else 0.0
  }

  /** Progress runs from 0 at the left end of the map to 1 at its right end. */
  lemma ScrollProgressInUnit(offset: real, mapWidth: real, screenWidth: real)
    requires mapWidth > screenWidth && InBounds(offset, mapWidth, screenWidth)
    ensures 0.0 <= ScrollProgress(offset, mapWidth, screenWidth) <= 1.0
    ensures offset == 0.0 ==> ScrollProgress(offset, mapWidth, screenWidth) == 0.0
    ensures offset == -(mapWidth - screenWidth) ==> ScrollProgress(offset, mapWidth, screenWidth) == 1.0
  {
    FractionOfWhole(-offset, mapWidth - screenWidth);
  }

  /** For an offset in bounds the whole thumb, left edge plus width, stays on the track. */
  lemma ScrollThumbOnTrack(offset: real, mapWidth: real, screenWidth: real)
    requires 0.0 <= screenWidth < mapWidth && InBounds(offset, mapWidth, screenWidth)
    ensures var left := ScrollThumbLeft(ScrollProgress(offset, mapWidth, screenWidth), mapWidth, screenWidth);
      && 0.0 <= left
      && left <= 100.0 - ThumbWidthPercent(mapWidth, screenWidth)
  {
    var p := ScrollProgress(offset, mapWidth, screenWidth);
    var free := 100.0 - ThumbWidthPercent(mapWidth, screenWidth);
    ScrollProgressInUnit(offset, mapWidth, screenWidth);
    MulMonotone(p, 1.0, free);
    MulNonNegative(p, free);
    assert ScrollThumbLeft(p, mapWidth, screenWidth) == p * free <= free;
  }

  // ---------------------------------------------------------------------
  // Thumb drag (thumb -> offset)
  // ---------------------------------------------------------------------

  /** The thumb's width in pixels: the indicator's percentage of the 256 px track. */
  function ThumbWidth(mapWidth: real, screenWidth: real): (width: real)
    requires mapWidth > 0.0
    ensures width == ThumbWidthPercent(mapWidth, screenWidth) * TrackWidth / 100.0
    ensures 0.0 <= screenWidth <= mapWidth ==> 0.0 <= width <= TrackWidth
  {
    (screenWidth / mapWidth) * TrackWidth
  }

  /** How far the thumb's left edge can travel; its sign is the sign of mapWidth - screenWidth. */
  function MaxThumbLeft(mapWidth: real, screenWidth: real): (m: real)
    requires mapWidth > 0.0
    ensures screenWidth < mapWidth ==> m > 0.0
    ensures screenWidth > mapWidth ==> m < 0.0
    ensures screenWidth >= 0.0 ==> m <= TrackWidth
  {
    RatioAgainstOne(screenWidth, mapWidth);
    TrackWidth - ThumbWidth(mapWidth, screenWidth)
  }

  /**
   * The thumb's left edge in pixels for the current offset, as the drag
   * handler computes it: for an offset in bounds it lies on the thumb's
   * free track, at 0 when the map shows its left end.
   */
  function CurrentThumbLeft(offset: real, mapWidth: real, screenWidth: real): (left: real)
    requires mapWidth > 0.0 && mapWidth != screenWidth
    ensures screenWidth < mapWidth && InBounds(offset, mapWidth, screenWidth)
            ==> 0.0 <= left <= MaxThumbLeft(mapWidth, screenWidth)
    ensures offset == 0.0 ==> left == 0.0
    ensures screenWidth < mapWidth && offset == -(mapWidth - screenWidth) ==> left == MaxThumbLeft(mapWidth, screenWidth)
  {
    var currentProgress := -offset / (mapWidth - screenWidth);
    var maxThumbLeft := MaxThumbLeft(mapWidth, screenWidth);
    if screenWidth < mapWidth && InBounds(offset, mapWidth, screenWidth) then
      FractionOfWhole(-offset, mapWidth - screenWidth);
      if offset == -(mapWidth - screenWidth) then
        DivMulCancel(1.0, mapWidth - screenWidth);
        ProgressOnTrack(currentProgress, maxThumbLeft)
      else
        ProgressOnTrack(currentProgress, maxThumbLeft)
    else
      ProgressOnTrack(currentProgress, maxThumbLeft)
  }

  /** A progress in [0, 1] carried onto a track of the given length never leaves the track. */
  function ProgressOnTrack(progress: real, track: real): (left: real)
    ensures 0.0 <= progress <= 1.0 && track >= 0.0 ==> 0.0 <= left <= track
    ensures progress == 0.0 ==> left == 0.0
    ensures progress == 1.0 ==> left == track
  {
    if 0.0 <= progress <= 1.0 && track >= 0.0 then
      MulNonNegative(progress, track);
      MulMonotone(progress, 1.0, track);
      progress * track
    else
      progress * track
  }

  /**
   * The offset written when the thumb is dragged by `delta` pixels: the
   * thumb moves by delta, kept on its free track, and the map follows in
   * proportion. Whatever the offset and the delta the result is in bounds;
   * when the map is narrower than the screen the thumb has no room and the
   * offset is pinned to 0.
   */
  function ScrollDragOffset(offset: real, mapWidth: real, screenWidth: real, delta: real): (newOffset: real)
    requires mapWidth > 0.0 && mapWidth != screenWidth
    ensures screenWidth < mapWidth ==> InBounds(newOffset, mapWidth, screenWidth)
    ensures mapWidth < screenWidth ==> newOffset == 0.0
  {
    var maxThumbLeft := MaxThumbLeft(mapWidth, screenWidth);
    var newThumbLeft := Max(0.0, Min(maxThumbLeft, CurrentThumbLeft(offset, mapWidth, screenWidth) + delta));
    var scrollRatio := newThumbLeft / maxThumbLeft;
    if screenWidth < mapWidth then
      FractionOfWhole(newThumbLeft, maxThumbLeft);
      OffsetForRatio(scrollRatio, mapWidth, screenWidth)
    else
      assert newThumbLeft == 0.0;
      OffsetForRatio(scrollRatio, mapWidth, screenWidth)
  }

  /**
   * A scroll ratio turned back into an offset: that share of the
   * scrollable distance, leftwards. A ratio in [0, 1] gives an offset in
   * bounds, ratio 0 the left end and ratio 1 the right end.
   */
  function OffsetForRatio(ratio: real, mapWidth: real, screenWidth: real): (offset: real)
    ensures screenWidth < mapWidth && 0.0 <= ratio <= 1.0 ==> InBounds(offset, mapWidth, screenWidth)
    ensures ratio == 0.0 ==> offset == 0.0
    ensures ratio == 1.0 ==> offset == -(mapWidth - screenWidth)
  {
    if screenWidth < mapWidth && 0.0 <= ratio <= 1.0 then
      MulNonNegative(ratio, mapWidth - screenWidth);
      MulMonotone(ratio, 1.0, mapWidth - screenWidth);
      assert -(mapWidth - screenWidth) * ratio == -(ratio * (mapWidth - screenWidth));
      -(mapWidth - screenWidth) * ratio
    else
      -(mapWidth - screenWidth) * ratio
  }

  /**
   * Reading the thumb back from the new offset gives exactly the old thumb
   * position moved by delta and kept on its free track.
   */
  lemma ScrollDragMovesThumbByDelta(offset: real, mapWidth: real, screenWidth: real, delta: real)
    requires 0.0 < mapWidth && screenWidth < mapWidth
    ensures CurrentThumbLeft(ScrollDragOffset(offset, mapWidth, screenWidth, delta), mapWidth, screenWidth)
            == Max(0.0, Min(MaxThumbLeft(mapWidth, screenWidth), CurrentThumbLeft(offset, mapWidth, screenWidth) + delta))
  {
    var range := mapWidth - screenWidth;
    var maxThumbLeft := MaxThumbLeft(mapWidth, screenWidth);
    var newThumbLeft := Max(0.0, Min(maxThumbLeft, CurrentThumbLeft(offset, mapWidth, screenWidth) + delta));
    var ratio := newThumbLeft / maxThumbLeft;
    var newOffset := ScrollDragOffset(offset, mapWidth, screenWidth, delta);
    assert -newOffset == range * ratio;
    MulDivCancel(ratio, range);
    DivMulCancel(newThumbLeft, maxThumbLeft);
  }

  /** A drag by zero pixels leaves an in-bounds offset where it was. */
  lemma ScrollDragZeroDelta(offset: real, mapWidth: real, screenWidth: real)
    requires 0.0 < mapWidth && screenWidth < mapWidth && InBounds(offset, mapWidth, screenWidth)
    ensures ScrollDragOffset(offset, mapWidth, screenWidth, 0.0) == offset
  {
    var range := mapWidth - screenWidth;
    var maxThumbLeft := MaxThumbLeft(mapWidth, screenWidth);
    var p := -offset / range;
    FractionOfWhole(-offset, range);
    MulMonotone(p, 1.0, maxThumbLeft);
    MulNonNegative(p, maxThumbLeft);
    assert CurrentThumbLeft(offset, mapWidth, screenWidth) == p * maxThumbLeft;
    MulDivCancel(p, maxThumbLeft);
    DivMulCancel(-offset, range);
  }

  /**
   * The drag handler and the indicator agree on where the thumb is: the
   * handler's pixel position is the indicator's percentage of the track.
   */
  lemma ThumbPixelsMatchIndicator(offset: real, mapWidth: real, screenWidth: real)
    requires 0.0 <= screenWidth < mapWidth
    ensures CurrentThumbLeft(offset, mapWidth, screenWidth)
            == ScrollThumbLeft(ScrollProgress(offset, mapWidth, screenWidth), mapWidth, screenWidth) * TrackWidth / 100.0
  {
    var p := ScrollProgress(offset, mapWidth, screenWidth);
    var r := screenWidth / mapWidth;
    assert MaxThumbLeft(mapWidth, screenWidth) == (100.0 - r * 100.0) * TrackWidth / 100.0;
  }
}
