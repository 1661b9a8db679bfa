/**
 * A filter bubble's secondary motion: its inertial factor and spring
 * parameters, derived from its size, and the spring target it sets each
 * time the shared pan offset changes.
 */
module InertialBubbleFilter {
  import opened Numeric
  import opened Spring
  import opened BubbleLayout

  /**
   * The inertial factor as the component computes it, 1 - 0.4 * size / 200.
   * It reaches 0 at size 500 and is negative beyond.
   */
  function InertialFactor(size: real): (f: real)
    ensures 0.0 <= size < 500.0 ==> 0.0 < f <= 1.0
    ensures size > 500.0 ==> f < 0.0
  {
    1.0 - (size / 200.0) * 0.4
  }

  /** Bigger bubbles get a strictly smaller factor. */
  lemma InertialFactorDecreasing(smaller: real, bigger: real)
    requires smaller < bigger
    ensures InertialFactor(smaller) > InertialFactor(bigger)
  {
  }

  /**
   * A 132-unit bubble on a 1920 px screen is 589.4 px wide, and its factor
   * as written is negative: its spring target moves against the pan.
   */
  lemma InertialFactorNegativeOnWideScreen()
    ensures ResponsiveSize(1920.0, 132.0) > 500.0
    ensures InertialFactor(ResponsiveSize(1920.0, 132.0)) < 0.0
  {
  }

  /**
   * Beyond size 500 the spring target as written points against the pan:
   * a map panned left (a negative offset) pulls the bubble to the right
   * inside the map, and the other way round.
   */
  lemma WrittenTargetAgainstPan(latest: real, size: real)
    requires size > 500.0
    ensures latest < 0.0 ==> ScaledTarget(latest, InertialFactor(size)) > 0.0
    ensures latest > 0.0 ==> ScaledTarget(latest, InertialFactor(size)) < 0.0
  {
  }

  /**
   * On screen the bubble as written moves by the pan plus its spring target:
   * below size 1000 (factor above -1) it still follows the pan, more
   * slowly; beyond size 1000 it moves against the pan.
   */
  lemma WrittenScreenShift(latest: real, size: real)
    ensures size < 1000.0 ==> (ScreenShift(latest, InertialFactor(size)) > 0.0 <==> latest > 0.0)
    ensures size < 1000.0 ==> (ScreenShift(latest, InertialFactor(size)) < 0.0 <==> latest < 0.0)
    ensures size > 1000.0 ==> (ScreenShift(latest, InertialFactor(size)) > 0.0 <==> latest < 0.0)
  {
  }

  /** The factor the bubble uses: the written one, kept from falling below 0. */
  function TargetFactor(size: real): (f: real)
    ensures f >= 0.0 && (size >= 0.0 ==> f <= 1.0)
    ensures size <= 500.0 ==> f == InertialFactor(size)
    ensures size >= 500.0 ==> f == 0.0
  {
    Max(0.0, InertialFactor(size))
  }

  /**
   * With the corrected factor the spring target never points against the
   * pan. The price: every bubble from size 500 up gets the same target, 0.
   */
  lemma CorrectedTargetFollowsPan(latest: real, size: real)
    ensures latest > 0.0 ==> ScaledTarget(latest, TargetFactor(size)) >= 0.0
    ensures latest < 0.0 ==> ScaledTarget(latest, TargetFactor(size)) <= 0.0
    ensures size >= 500.0 ==> ScaledTarget(latest, TargetFactor(size)) == 0.0
  {
  }

  /** The corrected factor never grows with size, and strictly falls below size 500. */
  lemma TargetFactorNonIncreasing(smaller: real, bigger: real)
    requires smaller <= bigger
    ensures TargetFactor(smaller) >= TargetFactor(bigger)
    ensures smaller < bigger && smaller < 500.0 ==> TargetFactor(smaller) > TargetFactor(bigger)
  {
  }

  /** Stiffness max(20, 120 - size / 2), damping 8 + size / 8, mass 0.3 + size / 50. */
  function ConfigFor(size: real): (c: SpringConfig)
    ensures c.stiffness >= 20.0
    ensures size >= 0.0 ==> c.stiffness <= 120.0 && c.mass > 0.0
    ensures size >= 200.0 ==> c.stiffness == 20.0
  {
    SpringConfig(Max(20.0, 120.0 - size / 2.0), 8.0 + size / 8.0, 0.3 + size / 50.0)
  }

  /** A bigger bubble gets a spring no stiffer, strictly more damped and strictly heavier. */
  lemma ConfigMonotone(smaller: real, bigger: real)
    requires smaller < bigger
    ensures ConfigFor(smaller).stiffness >= ConfigFor(bigger).stiffness
    ensures ConfigFor(smaller).damping < ConfigFor(bigger).damping
    ensures ConfigFor(smaller).mass < ConfigFor(bigger).mass
  {
  }

  /** One filter bubble: its placement, its spring parameters and its spring's current target. */
  class FilterBubble {
    const x: real
    const y: real
    const size: real
    const config: SpringConfig
    var springTarget: real

    /** The spring starts at 0 with the parameters for the bubble's size. */
    constructor(x: real, y: real, size: real)
      ensures this.x == x && this.y == y && this.size == size
      ensures config == ConfigFor(size) && springTarget == 0.0
    {
      this.x := x;
      this.y := y;
      this.size := size;
      config := ConfigFor(size);
      springTarget := 0.0;
    }

    /** The shared pan offset changed to `latest`: retarget the spring. */
    method OnMapChange(latest: real)
      modifies this
      ensures springTarget == ScaledTarget(latest, TargetFactor(size))
      ensures size < 500.0 ==> springTarget == latest * InertialFactor(size)
      ensures size >= 500.0 ==> springTarget == 0.0
    {
      springTarget := ScaledTarget(latest, TargetFactor(size));
    }

    /** The square the bubble is drawn in, centred on its placement. */
    function Bounds(): (b: Box)
      reads this
      ensures b.width == size && b.height == size
      ensures b.left + b.width / 2.0 == x && b.top + b.height / 2.0 == y
    {
      CenteredBox(x, y, size)
    }
  }
}
