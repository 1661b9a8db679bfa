/**
 * The bubble map component: its state (screen width, map width, pan
 * offset and the two lists of placed bubbles), the layout pass that
 * rebuilds the lists, the handlers that write the pan offset, and the
 * hand-off of each placed filter bubble to its renderer.
 */
module BubbleMap {
  import opened BubbleLayout
  import opened PanOffset

  datatype Option<T> = None | Some(value: T)

  /** A filter offered on the map; only its position in the list and its id matter here. */
  datatype FilterOption = FilterOption(id: string, labelText: string, category: string, color: string)

  /** What a rendered filter bubble is given. */
  datatype FilterBubbleProps = FilterBubbleProps(
    id: string, labelText: string, category: string,
    x: real, y: real, size: real, color: string, isSelected: bool)

  // ---------------------------------------------------------------------
  // The two loops of the layout pass
  // ---------------------------------------------------------------------

  /** Push one placement for each of the first `count` spots, in order. */
  method PlaceSpots(screenWidth: real, screenHeight: real, designed: seq<DesignSpot>, count: nat)
    returns (positions: seq<Placement>)
    requires screenWidth >= 0.0 && count <= |designed|
    ensures positions == PlaceAll(screenWidth, screenHeight, designed[..count])
  {
    positions := [];
    var i := 0;
    while i < count
      invariant 0 <= i <= count
      invariant |positions| == i
      invariant forall k :: 0 <= k < i ==> positions[k] == PlaceInteractive(screenWidth, screenHeight, designed[k])
    {
      var design := designed[i];
      var actualX := InteractiveX(screenWidth, design.x);
      var actualY := SpreadY(screenWidth, screenHeight, actualX, design.y);
      var responsiveSize := ResponsiveSize(screenWidth, design.size);
      var adjustedY := ClampY(screenHeight, responsiveSize, actualY);
      positions := positions + [Placement(actualX, adjustedY, responsiveSize)];
      i := i + 1;
    }
  }

  /** Place one filter bubble per filter, for as many filters as there are authored spots. */
  method BuildInteractive(screenWidth: real, screenHeight: real, filterCount: nat)
    returns (positions: seq<Placement>)
    requires screenWidth >= 0.0
    ensures positions == InteractiveLayout(screenWidth, screenHeight, filterCount)
  {
    var designed := DesignedPositions();
    var count := if |designed| <= filterCount then |designed| else filterCount;
    positions := PlaceSpots(screenWidth, screenHeight, designed, count);
  }

  /** Push one coloured decoration per spot, in order, cycling through the palette. */
  method DecorateSpots(screenWidth: real, screenHeight: real, spots: seq<DesignSpot>)
    returns (decoratives: seq<Decoration>)
    requires screenWidth >= 0.0
    ensures decoratives == DecorateAll(screenWidth, screenHeight, spots)
  {
    decoratives := [];
    var i := 0;
    while i < |spots|
      invariant 0 <= i <= |spots|
      invariant |decoratives| == i
      invariant forall k :: 0 <= k < i ==> decoratives[k] == PlaceDecorative(screenWidth, screenHeight, spots[k], k)
    {
      var decor := spots[i];
      var actualX := DecorativeX(screenWidth, decor.x);
      var actualY := SpreadY(screenWidth, screenHeight, actualX, decor.y);
      var responsiveSize := ResponsiveSize(screenWidth, decor.size);
      var adjustedY := ClampY(screenHeight, responsiveSize, actualY);
      var colorIndex := i % |Palette|;
      decoratives := decoratives + [Decoration(actualX, adjustedY, responsiveSize, Palette[colorIndex])];
      i := i + 1;
    }
  }

  /** Decorate every authored decorative spot. */
  method BuildDecorative(screenWidth: real, screenHeight: real)
    returns (decoratives: seq<Decoration>)
    requires screenWidth >= 0.0
    ensures decoratives == DecorativeLayout(screenWidth, screenHeight)
  {
    decoratives := DecorateSpots(screenWidth, screenHeight, DecorativePositions());
  }

  // ---------------------------------------------------------------------
  // Component state
  // ---------------------------------------------------------------------

  class BubbleMapView {
    var screenWidth: real
    var mapWidth: real
    /** The shared pan offset every bubble's spring and the scroll indicator follow. */
    var offset: real
    var bubblePositions: seq<Placement>
    var decorativeBubbles: seq<Decoration>

    predicate Valid()
      reads this
    {
      screenWidth >= 0.0
    }

    /** The map shows its whole width with the pan offset inside the drag constraints. */
    predicate Settled()
      reads this
    {
      mapWidth >= screenWidth && InBounds(offset, mapWidth, screenWidth)
    }

    /** Before the first layout pass: a 430 px screen, an empty map and no bubbles. */
    constructor()
      ensures Valid()
      ensures screenWidth == ReferenceWidth && mapWidth == 0.0 && offset == 0.0
      ensures bubblePositions == [] && decorativeBubbles == []
    {
      screenWidth := ReferenceWidth;
      mapWidth := 0.0;
      offset := 0.0;
      bubblePositions := [];
      decorativeBubbles := [];
    }

    /** The window was resized to `width`; the layout pass follows. */
    method Resize(width: real)
      requires width >= 0.0
      modifies this
      ensures Valid() && screenWidth == width
      ensures mapWidth == old(mapWidth) && offset == old(offset)
      ensures bubblePositions == old(bubblePositions) && decorativeBubbles == old(decorativeBubbles)
    {
      screenWidth := width;
    }

    /**
     * The layout pass, run whenever the filter list or the screen width
     * changes: rebuild both bubble lists, widen the map and re-centre it.
     */
    method Relayout(filters: seq<FilterOption>, screenHeight: real)
      requires Valid()
      modifies this
      ensures Valid() && Settled() && screenWidth == old(screenWidth)
      ensures bubblePositions == InteractiveLayout(screenWidth, screenHeight, |filters|)
      ensures decorativeBubbles == DecorativeLayout(screenWidth, screenHeight)
      ensures mapWidth == MapWidth(screenWidth)
      ensures offset == CenteringOffset(mapWidth, screenWidth)
      ensures offset + mapWidth / 2.0 == screenWidth / 2.0
    {
      var positions := BuildInteractive(screenWidth, screenHeight, |filters|);
      var decoratives := BuildDecorative(screenWidth, screenHeight);
      var newMapWidth := MapWidth(screenWidth);
      bubblePositions := positions;
      decorativeBubbles := decoratives;
      mapWidth := newMapWidth;
      offset := CenteringOffset(newMapWidth, screenWidth);
    }

    /** A drag or its momentum moved the map; the library writes any value. */
    method Drag(newOffset: real)
      modifies this
      ensures offset == newOffset
      ensures screenWidth == old(screenWidth) && mapWidth == old(mapWidth)
      ensures bubblePositions == old(bubblePositions) && decorativeBubbles == old(decorativeBubbles)
    {
      offset := newOffset;
    }

    /** When a drag ends the offset is clamped back into the drag constraints. */
    method DragEnd()
      modifies this
      ensures offset == ClampOffset(old(offset), mapWidth, screenWidth)
      ensures mapWidth >= screenWidth ==> Settled()
      ensures old(Settled()) ==> offset == old(offset)
      ensures screenWidth == old(screenWidth) && mapWidth == old(mapWidth)
      ensures bubblePositions == old(bubblePositions) && decorativeBubbles == old(decorativeBubbles)
    {
      var currentX := offset;
      offset := ClampOffset(currentX, mapWidth, screenWidth);
    }

    /** The scroll thumb was dragged by `delta` pixels; the map follows. */
    method ScrollDrag(delta: real)
      requires 0.0 < mapWidth && mapWidth != screenWidth
      modifies this
      ensures screenWidth == old(screenWidth) && mapWidth == old(mapWidth)
      ensures offset == ScrollDragOffset(old(offset), mapWidth, screenWidth, delta)
      ensures screenWidth < mapWidth ==> Settled()
      ensures mapWidth < screenWidth ==> offset == 0.0
      ensures bubblePositions == old(bubblePositions) && decorativeBubbles == old(decorativeBubbles)
    {
      var newMapX := ScrollDragOffset(offset, mapWidth, screenWidth, delta);
      offset := newMapX;
    }

    /** The scroll indicator's progress for the current offset: a fraction while settled, 0 when the map fits. */
    function Progress(): (p: real)
      reads this
      ensures Settled() && mapWidth > screenWidth ==> 0.0 <= p <= 1.0
      ensures mapWidth <= screenWidth ==> p == 0.0
    {
      if Settled() && mapWidth > screenWidth then
        ScrollProgressInUnit(offset, mapWidth, screenWidth);
        ScrollProgress(offset, mapWidth, screenWidth)
      else
        ScrollProgress(offset, mapWidth, screenWidth)
    }

    /**
     * The scroll thumb's left edge, in percent of the track, for the
     * current offset: while settled the whole thumb stays on the track.
     */
    function ThumbLeft(): (left: real)
      requires Valid()
      reads this
      ensures Settled() && mapWidth > screenWidth ==> 0.0 <= left <= 100.0 - ThumbWidthPercent(mapWidth, screenWidth)
      ensures mapWidth <= screenWidth ==> left == 0.0
    {
      if Settled() && mapWidth > screenWidth then
        ScrollThumbOnTrack(offset, mapWidth, screenWidth);
        ScrollThumbLeft(Progress(), mapWidth, screenWidth)
      else
        ScrollThumbLeft(Progress(), mapWidth, screenWidth)
    }
  }

  // ---------------------------------------------------------------------
  // Handing placements to the filter bubbles
  // ---------------------------------------------------------------------

  /**
   * One entry per filter: the filter's bubble when the layout placed it,
   * nothing when the layout ran out of spots.
   */
  function RenderFilters(filters: seq<FilterOption>, positions: seq<Placement>, selected: seq<string>)
    : (r: seq<Option<FilterBubbleProps>>)
    ensures |r| == |filters|
    ensures forall i :: 0 <= i < |r| ==> (r[i].Some? <==> i < |positions|)
    ensures forall i :: 0 <= i < |r| && r[i].Some? ==>
      && r[i].value.id == filters[i].id
      && r[i].value.x == positions[i].x && r[i].value.y == positions[i].y && r[i].value.size == positions[i].size
      && r[i].value.color == Palette[i % |Palette|]
      && (r[i].value.isSelected <==> filters[i].id in selected)
  {
    seq(|filters|, i requires 0 <= i < |filters| =>
      if i < |positions| then
        var f := filters[i];
        var p := positions[i];
        Some(FilterBubbleProps(f.id, f.labelText, f.category, p.x, p.y, p.size, Palette[i % |Palette|], f.id in selected))
      else None)
  }

  /** How many entries are rendered. */
  function CountShown<T>(r: seq<Option<T>>): (n: nat)
    ensures n <= |r|
  {
    if r == [] then 0 else CountShown(r[..|r| - 1]) + (if r[|r| - 1].Some? then 1 else 0)
  }

  /** When exactly the first k entries are present, exactly k are rendered. */
  lemma {:induction false} CountShownPrefix<T>(r: seq<Option<T>>, k: nat)
    requires k <= |r|
    requires forall i :: 0 <= i < |r| ==> (r[i].Some? <==> i < k)
    ensures CountShown(r) == k
    decreases |r|
  {
    if r != [] {
      var front := r[..|r| - 1];
      if k == |r| {
        CountShownPrefix(front, k - 1);
      } else {
        CountShownPrefix(front, k);
      }
    }
  }

  /**
   * After a layout pass exactly min(20, number of filters) filter bubbles
   * are rendered: the first ones, each at its placement.
   */
  lemma RenderedAfterLayout(filters: seq<FilterOption>, selected: seq<string>, screenWidth: real, screenHeight: real)
    requires screenWidth >= 0.0
    ensures var shown := RenderFilters(filters, InteractiveLayout(screenWidth, screenHeight, |filters|), selected);
      CountShown(shown) == PlacedCount(|filters|)
  {
    var positions := InteractiveLayout(screenWidth, screenHeight, |filters|);
    var shown := RenderFilters(filters, positions, selected);
    assert |positions| == PlacedCount(|filters|);
    CountShownPrefix(shown, |positions|);
  }

  /** On the 430 px reference screen the 1135 px map starts panned 352.5 px left, its middle on the screen's middle. */
  lemma ReferenceScreenCentring()
    ensures MapWidth(ReferenceWidth) == 1135.0
    ensures CenteringOffset(MapWidth(ReferenceWidth), ReferenceWidth) == -352.5
  {
    MapWidthAtReference();
  }
}
