/**
 * The layout projector of the bubble map: the authored design tables and
 * the closed-form arithmetic that turns them into absolute screen
 * positions and sizes for a screen of a given width and height, together
 * with the width of the draggable map.
 *
 * All screen quantities are exact reals (pixels).  `screenWidth` is a
 * window width, so it is never negative.
 */
module BubbleLayout {
  import opened Numeric

  // ---------------------------------------------------------------------
  // Constants of the authored design
  // ---------------------------------------------------------------------

  /** Width of the design canvas the positions were authored on. */
  const DesignCanvasWidth: real := 1338.0
  /** Leftmost and rightmost authored marker centres on that canvas. */
  const FigmaLeftEdge: real := 30.0
  const FigmaRightEdge: real := 1308.0
  /** The horizontal span the authored markers cover (1308 - 30). */
  const FigmaContentSpan: real := 1278.0
  /** The content is stretched to this many screen widths. */
  const ContentScreens: real := 2.5
  const LeftPadding: real := 30.0
  const RightPadding: real := 30.0
  /** Screen width the authored bubble sizes are meant for. */
  const ReferenceWidth: real := 430.0
  /** Distance every circle keeps from the top and bottom of the screen. */
  const EdgeInset: real := 50.0

  /** The ten colours shared by decorative and filter bubbles. */
  const Palette: seq<string> := [
    "#FF6B6B", "#4ECDC4", "#45B7D1", "#96CEB4", "#FFEAA7",
    "#DDA0DD", "#98D8C8", "#F7DC6F", "#BB8FCE", "#85C1E9"
  ]

  /** An authored marker: centre as fractions of the design canvas, base size in design units. */
  datatype DesignSpot = DesignSpot(x: real, y: real, size: real)

  /** A projected interactive marker: absolute centre and diameter in pixels. */
  datatype Placement = Placement(x: real, y: real, size: real)

  /** A projected decorative marker, which also carries its colour. */
  datatype Decoration = Decoration(x: real, y: real, size: real, color: string)

  /** The 20 authored filter-bubble positions, in the order of the filter list. */
  function DesignedPositions(): seq<DesignSpot>
  {
    [
      DesignSpot(669.0 / 1338.0, 466.0 / 932.0, 132.0),
      DesignSpot(438.0 / 1338.0, 559.0 / 932.0, 132.0),
      DesignSpot(870.0 / 1338.0, 376.0 / 932.0, 132.0),
      DesignSpot(492.0 / 1338.0, 308.0 / 932.0, 108.0),
      DesignSpot(1007.0 / 1338.0, 520.0 / 932.0, 108.0),
      DesignSpot(213.0 / 1338.0, 517.0 / 932.0, 108.0),
      DesignSpot(789.0 / 1338.0, 645.0 / 932.0, 108.0),
      DesignSpot(627.0 / 1338.0, 350.0 / 932.0, 84.0),
      DesignSpot(828.0 / 1338.0, 520.0 / 932.0, 84.0),
      DesignSpot(1214.0 / 1338.0, 436.0 / 932.0, 84.0),
      DesignSpot(1061.0 / 1338.0, 379.0 / 932.0, 84.0),
      DesignSpot(406.0 / 1338.0, 418.0 / 932.0, 84.0),
      DesignSpot(113.0 / 1338.0, 421.0 / 932.0, 84.0),
      DesignSpot(603.0 / 1338.0, 604.0 / 932.0, 60.0),
      DesignSpot(936.0 / 1338.0, 621.0 / 932.0, 60.0),
      DesignSpot(267.0 / 1338.0, 382.0 / 932.0, 60.0),
      DesignSpot(756.0 / 1338.0, 263.0 / 932.0, 60.0),
      DesignSpot(1308.0 / 1338.0, 502.0 / 932.0, 60.0),
      DesignSpot(1184.0 / 1338.0, 553.0 / 932.0, 60.0),
      DesignSpot(30.0 / 1338.0, 493.0 / 932.0, 60.0)
    ]
  }

  /** The 29 decorative positions, as fractions of the content width and of the vertical band. */
  function DecorativePositions(): seq<DesignSpot>
  {
    [
      DesignSpot(0.05, 0.45, 55.0), DesignSpot(0.15, 0.35, 52.0),
      DesignSpot(0.25, 0.68, 48.0), DesignSpot(0.35, 0.25, 50.0),
      DesignSpot(0.45, 0.55, 53.0), DesignSpot(0.55, 0.72, 49.0),
      DesignSpot(0.65, 0.42, 51.0), DesignSpot(0.75, 0.48, 47.0),
      DesignSpot(0.85, 0.58, 54.0), DesignSpot(0.95, 0.38, 46.0),

      DesignSpot(0.08, 0.48, 35.0), DesignSpot(0.18, 0.52, 32.0),
      DesignSpot(0.28, 0.35, 38.0), DesignSpot(0.38, 0.48, 34.0),
      DesignSpot(0.48, 0.48, 36.0), DesignSpot(0.58, 0.65, 33.0),
      DesignSpot(0.68, 0.62, 37.0), DesignSpot(0.78, 0.58, 31.0),
      DesignSpot(0.88, 0.28, 39.0), DesignSpot(0.92, 0.38, 35.0),

      DesignSpot(0.12, 0.35, 22.0), DesignSpot(0.22, 0.52, 25.0),
      DesignSpot(0.32, 0.38, 23.0), DesignSpot(0.42, 0.42, 24.0),
      DesignSpot(0.52, 0.48, 21.0), DesignSpot(0.62, 0.58, 26.0),
      DesignSpot(0.72, 0.28, 20.0), DesignSpot(0.82, 0.38, 25.0),
      DesignSpot(0.92, 0.52, 22.0)
    ]
  }

  /** An authored filter spot lies between the two authored edges, inside the canvas height. */
  predicate WithinDesignSpan(d: DesignSpot)
  {
    FigmaLeftEdge <= d.x * DesignCanvasWidth <= FigmaRightEdge && 0.0 <= d.y <= 1.0 && d.size > 0.0
  }

  /** A decorative spot lies inside the unit square. */
  predicate WithinUnitSquare(d: DesignSpot)
  {
    0.0 <= d.x <= 1.0 && 0.0 <= d.y <= 1.0 && d.size > 0.0
  }

  /**
   * The authored table spans exactly the constant span: every spot lies
   * between the two edges, spot 19 sits on the left edge and spot 17 on
   * the right edge.
   */
  lemma DesignTableSpan()
    ensures |DesignedPositions()| == 20
    ensures forall i :: 0 <= i < 20 ==> WithinDesignSpan(DesignedPositions()[i])
    ensures DesignedPositions()[19].x * DesignCanvasWidth == FigmaLeftEdge
    ensures DesignedPositions()[17].x * DesignCanvasWidth == FigmaRightEdge
    ensures FigmaRightEdge - FigmaLeftEdge == FigmaContentSpan
  {
    var d := DesignedPositions();
    forall i | 0 <= i < 20 ensures WithinDesignSpan(d[i]) {
      assert d[i] in d;
    }
  }

  lemma DecorativeTableInUnitSquare()
    ensures |DecorativePositions()| == 29
    ensures forall i :: 0 <= i < 29 ==> WithinUnitSquare(DecorativePositions()[i])
  {
    var d := DecorativePositions();
    forall i | 0 <= i < 29 ensures WithinUnitSquare(d[i]) {
      assert d[i] in d;
    }
  }

  // ---------------------------------------------------------------------
  // Horizontal mapping
  // ---------------------------------------------------------------------

  function TargetContentWidth(screenWidth: real): real
  {
    screenWidth * ContentScreens
  }

  function ScaleFactor(screenWidth: real): real
  {
    TargetContentWidth(screenWidth) / FigmaContentSpan
  }

  /** Content plus the padding on both sides. */
  function TargetMapWidth(screenWidth: real): (w: real)
    requires screenWidth >= 0.0
    ensures w >= LeftPadding + RightPadding && w > screenWidth
  {
    TargetContentWidth(screenWidth) + LeftPadding + RightPadding
  }

  /**
   * Absolute x of a filter bubble whose design x (a canvas fraction) is
   * `designX`. Every authored x lands in the content strip: the leftmost
   * authored marker on the left padding, the rightmost on the end of the
   * stretched content.
   */
  function InteractiveX(screenWidth: real, designX: real): (x: real)
    ensures screenWidth >= 0.0 && FigmaLeftEdge <= designX * DesignCanvasWidth <= FigmaRightEdge
            ==> InContentStrip(screenWidth, x)
    ensures designX * DesignCanvasWidth == FigmaLeftEdge ==> x == LeftPadding
    ensures designX * DesignCanvasWidth == FigmaRightEdge ==> x == LeftPadding + TargetContentWidth(screenWidth)
  {
    var relative := designX * DesignCanvasWidth - FigmaLeftEdge;
    var scale := ScaleFactor(screenWidth);
    if screenWidth >= 0.0 && 0.0 <= relative <= FigmaContentSpan then
      MulNonNegative(relative, scale);
      MulMonotone(relative, FigmaContentSpan, scale);
      LeftPadding + relative * scale
    else
      LeftPadding + relative * scale
  }

  /**
   * Absolute x of a decorative bubble whose x is a fraction of the content
   * width: fractions 0 and 1 are the two ends of the content strip.
   */
  function DecorativeX(screenWidth: real, decorX: real): (x: real)
    ensures screenWidth >= 0.0 && 0.0 <= decorX <= 1.0 ==> InContentStrip(screenWidth, x)
    ensures decorX == 0.0 ==> x == LeftPadding
    ensures decorX == 1.0 ==> x == LeftPadding + TargetContentWidth(screenWidth)
  {
    var contentWidth := TargetContentWidth(screenWidth);
    if screenWidth >= 0.0 && 0.0 <= decorX <= 1.0 then
      MulNonNegative(decorX, contentWidth);
      MulMonotone(decorX, 1.0, contentWidth);
      LeftPadding + decorX * contentWidth
    else
      LeftPadding + decorX * contentWidth
  }

  /** The mapping keeps the left-to-right order of design x, strictly on a non-empty screen. */
  lemma InteractiveXMonotone(screenWidth: real, a: real, b: real)
    requires screenWidth >= 0.0 && a <= b
    ensures InteractiveX(screenWidth, a) <= InteractiveX(screenWidth, b)
    ensures screenWidth > 0.0 && a < b ==> InteractiveX(screenWidth, a) < InteractiveX(screenWidth, b)
  {
    var s := ScaleFactor(screenWidth);
    assert InteractiveX(screenWidth, b) - InteractiveX(screenWidth, a)
        == (b - a) * DesignCanvasWidth * s;
  }

  // ---------------------------------------------------------------------
  // Vertical mapping ("bowtie")
  // ---------------------------------------------------------------------

  /**
   * The vertical range allowed at a horizontal position given as a
   * fraction of the map width: the full screen height at the centre of
   * the map, shrinking linearly to half of it at either edge and beyond.
   */
  function VerticalRange(mapWidth: real, screenHeight: real, normalizedX: real): (range: real)
    requires mapWidth > 0.0
    ensures screenHeight >= 0.0 ==> screenHeight * 0.5 <= range <= screenHeight
    ensures normalizedX == 0.5 ==> range == screenHeight
    ensures Abs(normalizedX - 0.5) >= 0.5 ==> range == screenHeight * 0.5
  {
    var edgeness := NormalizedDistance(mapWidth, normalizedX);
    Bowtie(screenHeight, edgeness)
  }

  /**
   * The bowtie profile: the full screen height at edgeness 0 (the map's
   * centre), narrowing linearly to half of it at edgeness 1 (its ends).
   */
  function Bowtie(screenHeight: real, edgeness: real): (range: real)
    ensures screenHeight >= 0.0 && 0.0 <= edgeness <= 1.0 ==> screenHeight * 0.5 <= range <= screenHeight
    ensures edgeness == 0.0 ==> range == screenHeight
    ensures edgeness == 1.0 ==> range == screenHeight * 0.5
  {
    var maxVerticalRange := screenHeight * 1.0;
    var minVerticalRange := screenHeight * 0.5;
    var range := maxVerticalRange - edgeness * (maxVerticalRange - minVerticalRange);
    if screenHeight >= 0.0 && 0.0 <= edgeness <= 1.0 then
      BowtieBetween(screenHeight, edgeness, range);
      range
    else
      range
  }

  /**
   * Distance of a map position from the map centre, relative to half the
   * map width, capped at 1: twice the distance of the fraction from 1/2,
   * whatever the map width.
   */
  function NormalizedDistance(mapWidth: real, normalizedX: real): (d: real)
    requires mapWidth > 0.0
    ensures d == Min(2.0 * Abs(normalizedX - 0.5), 1.0)
    ensures 0.0 <= d <= 1.0
  {
    var mapCenterX := mapWidth / 2.0;
    var distanceFromCenter := Abs(normalizedX * mapWidth - mapCenterX);
    var maxDistance := mapWidth / 2.0;
    CentreDistanceRatio(normalizedX, mapWidth);
    Min(distanceFromCenter / maxDistance, 1.0)
  }

  /** On a map of width m, the distance of x*m from the centre is 2|x - 1/2| half-widths. */
  lemma CentreDistanceRatio(x: real, m: real)
    requires m > 0.0
    ensures Abs(x * m - m / 2.0) / (m / 2.0) == 2.0 * Abs(x - 0.5)
  {
    var a := x - 0.5;
    var distance := x * m - m / 2.0;
    assert distance == a * m;
    AbsScale(a, m);
    DivideByHalf(Abs(distance), Abs(a), m);
  }

  /** Moving away from the centre never widens the range. */
  lemma VerticalRangeNarrowsOutward(mapWidth: real, screenHeight: real, nearX: real, farX: real)
    requires mapWidth > 0.0 && screenHeight >= 0.0
    requires Abs(nearX - 0.5) <= Abs(farX - 0.5)
    ensures VerticalRange(mapWidth, screenHeight, nearX) >= VerticalRange(mapWidth, screenHeight, farX)
  {
    NormalizedDistanceMonotone(mapWidth, nearX, farX);
    BowtieNarrows(screenHeight, NormalizedDistance(mapWidth, nearX), NormalizedDistance(mapWidth, farX));
  }

  lemma NormalizedDistanceMonotone(mapWidth: real, nearX: real, farX: real)
    requires mapWidth > 0.0
    requires Abs(nearX - 0.5) <= Abs(farX - 0.5)
    ensures NormalizedDistance(mapWidth, nearX) <= NormalizedDistance(mapWidth, farX)
  {
    CappedDoubleMonotone(Abs(nearX - 0.5), Abs(farX - 0.5));
  }

  lemma CappedDoubleMonotone(a: real, b: real)
    requires a <= b
    ensures Min(2.0 * a, 1.0) <= Min(2.0 * b, 1.0)
  {
  }

  lemma BowtieBetween(h: real, e: real, range: real)
    requires h >= 0.0 && 0.0 <= e <= 1.0
    requires range == h * 1.0 - e * (h * 1.0 - h * 0.5)
    ensures h * 0.5 <= range <= h
  {
    MulNonNegative(e, h * 0.5);
    MulMonotone(e, 1.0, h * 0.5);
  }

  lemma BowtieCompare(h: real, nearE: real, farE: real, nearRange: real, farRange: real)
    requires h >= 0.0 && nearE <= farE
    requires nearRange == h * 1.0 - nearE * (h * 1.0 - h * 0.5)
    requires farRange == h * 1.0 - farE * (h * 1.0 - h * 0.5)
    ensures nearRange >= farRange
  {
    MulMonotone(nearE, farE, h * 0.5);
  }

  /** A larger edgeness never gives a wider band. */
  lemma BowtieNarrows(screenHeight: real, nearE: real, farE: real)
    requires screenHeight >= 0.0 && nearE <= farE
    ensures Bowtie(screenHeight, nearE) >= Bowtie(screenHeight, farE)
  {
    BowtieCompare(screenHeight, nearE, farE, Bowtie(screenHeight, nearE), Bowtie(screenHeight, farE));
  }

  /**
   * Spread a design y over the vertical band centred on the screen at
   * absolute x. Before clamping, a design y in [0, 1] stays inside that
   * band, whose height is the vertical range at x, and so on the screen:
   * design y 0 is the band's top, 1 its bottom and 1/2 the middle of the
   * screen.
   */
  function SpreadY(screenWidth: real, screenHeight: real, x: real, designY: real): (y: real)
    requires screenWidth >= 0.0
    ensures screenHeight >= 0.0 && 0.0 <= designY <= 1.0 ==> 0.0 <= y <= screenHeight
    ensures designY == 0.5 ==> y == screenHeight / 2.0
    ensures screenHeight >= 0.0 && 0.0 <= designY <= 1.0 ==>
      Abs(y - screenHeight / 2.0) <= VerticalRange(TargetMapWidth(screenWidth), screenHeight, x / TargetMapWidth(screenWidth)) / 2.0
    ensures designY == 0.0 ==>
      y == screenHeight / 2.0 - VerticalRange(TargetMapWidth(screenWidth), screenHeight, x / TargetMapWidth(screenWidth)) / 2.0
    ensures designY == 1.0 ==>
      y == screenHeight / 2.0 + VerticalRange(TargetMapWidth(screenWidth), screenHeight, x / TargetMapWidth(screenWidth)) / 2.0
  {
    var mapWidth := TargetMapWidth(screenWidth);
    var verticalRange := VerticalRange(mapWidth, screenHeight, x / mapWidth);
    BandPosition(screenHeight, verticalRange, designY)
  }

  /**
   * The y at `fraction` of the band of height r centred on the screen's
   * middle h/2: fraction 0 is the band's top, 1 its bottom, linearly in
   * between; within r/2 of the middle, on screen when the band fits.
   */
  function BandPosition(h: real, r: real, fraction: real): (y: real)
    ensures 0.0 <= r <= h && 0.0 <= fraction <= 1.0 ==> 0.0 <= y <= h
    ensures 0.0 <= r && 0.0 <= fraction <= 1.0 ==> Abs(y - h / 2.0) <= r / 2.0
    ensures fraction == 0.5 ==> y == h / 2.0
    ensures fraction == 0.0 ==> y == h / 2.0 - r / 2.0
    ensures fraction == 1.0 ==> y == h / 2.0 + r / 2.0
  {
    var minY := h / 2.0 - r / 2.0;
    var maxY := h / 2.0 + r / 2.0;
    if 0.0 <= r && 0.0 <= fraction <= 1.0 then
      BandAround(h, r, fraction);
      if r <= h then
        BandContains(h, r, fraction);
        minY + fraction * (maxY - minY)
      else
        minY + fraction * (maxY - minY)
    else
      minY + fraction * (maxY - minY)
  }

  /** A larger fraction never lands higher up the band: design y order is kept. */
  lemma BandOrder(h: real, r: real, f: real, g: real)
    requires 0.0 <= r && f <= g
    ensures BandPosition(h, r, f) <= BandPosition(h, r, g)
  {
    MulMonotone(f, g, r);
    assert (h / 2.0 + r / 2.0) - (h / 2.0 - r / 2.0) == r;
  }

  /** A fraction of a band of height r centred on h/2 lies within r/2 of h/2. */
  lemma BandAround(h: real, r: real, fraction: real)
    requires 0.0 <= r && 0.0 <= fraction <= 1.0
    ensures Abs((h / 2.0 - r / 2.0) + fraction * ((h / 2.0 + r / 2.0) - (h / 2.0 - r / 2.0)) - h / 2.0) <= r / 2.0
  {
    var e := (h / 2.0 - r / 2.0) + fraction * ((h / 2.0 + r / 2.0) - (h / 2.0 - r / 2.0)) - h / 2.0;
    assert (h / 2.0 + r / 2.0) - (h / 2.0 - r / 2.0) == r;
    assert e == (fraction - 0.5) * r;
    AbsScale(fraction - 0.5, r);
    MulMonotone(Abs(fraction - 0.5), 0.5, r);
    assert Abs(e) == Abs((fraction - 0.5) * r);
    assert Abs((fraction - 0.5) * r) == Abs(fraction - 0.5) * r;
    assert Abs(fraction - 0.5) * r <= 0.5 * r;
  }

  /** A fraction of a band of height r centred in [0, h], with r <= h, stays in [0, h]. */
  lemma BandContains(h: real, r: real, fraction: real)
    requires 0.0 <= r <= h && 0.0 <= fraction <= 1.0
    ensures 0.0 <= (h / 2.0 - r / 2.0) + fraction * ((h / 2.0 + r / 2.0) - (h / 2.0 - r / 2.0)) <= h
  {
    assert (h / 2.0 + r / 2.0) - (h / 2.0 - r / 2.0) == r;
    MulNonNegative(fraction, r);
    MulMonotone(fraction, 1.0, r);
  }

  // ---------------------------------------------------------------------
  // Size and clamping
  // ---------------------------------------------------------------------

  /**
   * A design size scaled by the screen width against the 430 px reference:
   * unchanged on the reference screen, positive on any non-empty screen.
   */
  function ResponsiveSize(screenWidth: real, designSize: real): (size: real)
    ensures screenWidth == ReferenceWidth ==> size == designSize
    ensures screenWidth > 0.0 && designSize > 0.0 ==> size > 0.0
  {
    var scale := screenWidth / ReferenceWidth;
    if screenWidth > 0.0 && designSize > 0.0 then
      MulPositive(designSize, scale);
      designSize * scale
    else
      designSize * scale
  }

  /** An authored 132-unit bubble is 264 px wide on an 860 px screen. */
  lemma ResponsiveSizeDoubles()
    ensures ResponsiveSize(860.0, 132.0) == 264.0
  {
  }

  /** On a non-empty screen a bigger design size gives a strictly bigger circle. */
  lemma ResponsiveSizeMonotone(screenWidth: real, smaller: real, bigger: real)
    requires screenWidth > 0.0 && smaller < bigger
    ensures ResponsiveSize(screenWidth, smaller) < ResponsiveSize(screenWidth, bigger)
  {
    var scale := screenWidth / ReferenceWidth;
    assert ResponsiveSize(screenWidth, bigger - smaller) > 0.0;
    assert (bigger - smaller) * scale == bigger * scale - smaller * scale;
  }

  /**
   * Keep a circle of diameter `size` centred at y at least `EdgeInset`
   * away from the top of the screen, and from the bottom when it fits.
   */
  function ClampY(screenHeight: real, size: real, y: real): (r: real)
    ensures r >= size / 2.0 + EdgeInset
    ensures screenHeight >= size + 2.0 * EdgeInset ==> r <= screenHeight - size / 2.0 - EdgeInset
    ensures size / 2.0 + EdgeInset <= y <= screenHeight - size / 2.0 - EdgeInset ==> r == y
  {
    Max(size / 2.0 + EdgeInset, Min(screenHeight - size / 2.0 - EdgeInset, y))
  }

  // ---------------------------------------------------------------------
  // Placing one marker, and the whole layout
  // ---------------------------------------------------------------------

  /**
   * Project one authored filter spot: its x lands in the content strip and
   * its circle keeps the inset from the edges of the screen.
   */
  function PlaceInteractive(screenWidth: real, screenHeight: real, d: DesignSpot): (p: Placement)
    requires screenWidth >= 0.0
    ensures WithinDesignSpan(d) ==> InContentStrip(screenWidth, p.x)
    ensures KeptInsideInset(screenHeight, p.size, p.y)
    ensures p.size == ResponsiveSize(screenWidth, d.size)
  {
    var x := InteractiveX(screenWidth, d.x);
    var size := ResponsiveSize(screenWidth, d.size);
    Placement(x, ClampY(screenHeight, size, SpreadY(screenWidth, screenHeight, x, d.y)), size)
  }

  /**
   * Project one decorative spot, the `i`-th: its x lands in the content
   * strip, its circle keeps the inset, and it takes the `i`-th palette
   * colour, cycling.
   */
  function PlaceDecorative(screenWidth: real, screenHeight: real, d: DesignSpot, i: nat): (p: Decoration)
    requires screenWidth >= 0.0
    ensures WithinUnitSquare(d) ==> InContentStrip(screenWidth, p.x)
    ensures KeptInsideInset(screenHeight, p.size, p.y)
    ensures p.size == ResponsiveSize(screenWidth, d.size)
    ensures p.color == Palette[i % 10]
  {
    var x := DecorativeX(screenWidth, d.x);
    var size := ResponsiveSize(screenWidth, d.size);
    Decoration(x, ClampY(screenHeight, size, SpreadY(screenWidth, screenHeight, x, d.y)), size,
               Palette[i % |Palette|])
  }

  /** How many filter bubbles get a position: no more than there are authored spots. */
  function PlacedCount(filterCount: nat): (n: nat)
    ensures n <= filterCount && n <= |DesignedPositions()|
    ensures n == filterCount || n == |DesignedPositions()|
  {
    if filterCount < |DesignedPositions()| then filterCount else |DesignedPositions()|
  }

  /** One placement per spot, in order. */
  function PlaceAll(screenWidth: real, screenHeight: real, spots: seq<DesignSpot>): seq<Placement>
    requires screenWidth >= 0.0
  {
    seq(|spots|, i requires 0 <= i < |spots| => PlaceInteractive(screenWidth, screenHeight, spots[i]))
  }

  /** One decoration per spot, in order, the i-th taking palette colour i. */
  function DecorateAll(screenWidth: real, screenHeight: real, spots: seq<DesignSpot>): seq<Decoration>
    requires screenWidth >= 0.0
  {
    seq(|spots|, i requires 0 <= i < |spots| => PlaceDecorative(screenWidth, screenHeight, spots[i], i))
  }

  /**
   * The positions of the filter bubbles for a list of `filterCount`
   * filters: one per filter, up to the number of authored spots, each in
   * the content strip, sized from its authored spot and kept inside the
   * inset.
   */
  function InteractiveLayout(screenWidth: real, screenHeight: real, filterCount: nat): (layout: seq<Placement>)
    requires screenWidth >= 0.0
    ensures |layout| == PlacedCount(filterCount)
    ensures forall i :: 0 <= i < |layout| ==>
      && InContentStrip(screenWidth, layout[i].x)
      && layout[i].size == ResponsiveSize(screenWidth, DesignedPositions()[i].size)
      && KeptInsideInset(screenHeight, layout[i].size, layout[i].y)
  {
    var layout := PlaceAll(screenWidth, screenHeight, DesignedPositions()[..PlacedCount(filterCount)]);
    assert forall i :: 0 <= i < |layout| ==> InContentStrip(screenWidth, layout[i].x) by {
      DesignTableSpan();
      forall i | 0 <= i < |layout| ensures InContentStrip(screenWidth, layout[i].x) {
        assert WithinDesignSpan(DesignedPositions()[i]);
      }
    }
    layout
  }

  /**
   * The 29 decorative bubbles, each in the content strip, sized from its
   * spot, kept inside the inset and coloured from the palette by index.
   */
  function DecorativeLayout(screenWidth: real, screenHeight: real): (layout: seq<Decoration>)
    requires screenWidth >= 0.0
    ensures |layout| == 29
    ensures forall i :: 0 <= i < 29 ==>
      && layout[i].color == Palette[i % 10]
      && InContentStrip(screenWidth, layout[i].x)
      && layout[i].size == ResponsiveSize(screenWidth, DecorativePositions()[i].size)
      && KeptInsideInset(screenHeight, layout[i].size, layout[i].y)
  {
    var layout := DecorateAll(screenWidth, screenHeight, DecorativePositions());
    assert forall i :: 0 <= i < |layout| ==> InContentStrip(screenWidth, layout[i].x) by {
      DecorativeTableInUnitSquare();
      forall i | 0 <= i < |layout| ensures InContentStrip(screenWidth, layout[i].x) {
        assert WithinUnitSquare(DecorativePositions()[i]);
      }
    }
    layout
  }

  /** x lies in the content strip between the left padding and the end of the stretched content. */
  predicate InContentStrip(screenWidth: real, x: real)
  {
    LeftPadding <= x <= LeftPadding + TargetContentWidth(screenWidth)
  }

  /**
   * A circle of diameter `size` centred at height y keeps the inset from
   * the top of the screen, and from the bottom whenever the screen is tall
   * enough for that.
   */
  predicate KeptInsideInset(screenHeight: real, size: real, y: real)
  {
    && y >= size / 2.0 + EdgeInset
    && (screenHeight >= size + 2.0 * EdgeInset ==> y <= screenHeight - size / 2.0 - EdgeInset)
  }

  /** Placed filter bubbles keep the authored left-to-right order. */
  lemma InteractiveLayoutKeepsOrder(screenWidth: real, screenHeight: real, filterCount: nat, i: nat, j: nat)
    requires screenWidth > 0.0
    requires i < PlacedCount(filterCount) && j < PlacedCount(filterCount)
    requires DesignedPositions()[i].x < DesignedPositions()[j].x
    ensures InteractiveLayout(screenWidth, screenHeight, filterCount)[i].x
            < InteractiveLayout(screenWidth, screenHeight, filterCount)[j].x
  {
    InteractiveXMonotone(screenWidth, DesignedPositions()[i].x, DesignedPositions()[j].x);
  }

  // ---------------------------------------------------------------------
  // Map width and centring
  // ---------------------------------------------------------------------

  /** The width of the draggable map: the screen width or the rounded-up target, whichever is larger. */
  function MapWidth(screenWidth: real): (w: real)
    requires screenWidth >= 0.0
    ensures w >= screenWidth && w >= TargetMapWidth(screenWidth)
  {
    Max(screenWidth, Ceil(TargetMapWidth(screenWidth)) as real)
  }

  /** The map is always wider than the screen, by less than one pixel of rounding above the target. */
  lemma MapWidthIsRoundedTarget(screenWidth: real)
    requires screenWidth >= 0.0
    ensures MapWidth(screenWidth) == Ceil(TargetMapWidth(screenWidth)) as real
    ensures TargetMapWidth(screenWidth) <= MapWidth(screenWidth) < TargetMapWidth(screenWidth) + 1.0
    ensures MapWidth(screenWidth) > screenWidth
  {
  }

  /** On the 430 px reference screen the map is 2.5 * 430 + 60 = 1135 px wide. */
  lemma MapWidthAtReference()
    ensures MapWidth(430.0) == 1135.0
  {
    assert TargetMapWidth(430.0) == 1135.0;
    assert (1135.0).Floor == 1135;
  }
}
