/**
 * A decorative bubble's secondary motion: its inertial factor and spring
 * parameters, derived from its size, and the spring target it sets each
 * time the shared pan offset changes.
 */
module InertialDecorativeBubble {
  import opened Numeric
  import opened Spring
  import opened BubbleLayout

  /**
   * The inertial factor as the component computes it, 0.7 - 0.5 * size / 100.
   * It is positive exactly below size 140.
   */
  function InertialFactor(size: real): (f: real)
    ensures f > 0.0 <==> size < 140.0
    ensures size >= 0.0 ==> f <= 0.7
  {
    0.7 - (size / 100.0) * 0.5
  }

  /** Bigger decorations get a strictly smaller factor. */
  lemma InertialFactorDecreasing(smaller: real, bigger: real)
    requires smaller < bigger
    ensures InertialFactor(smaller) > InertialFactor(bigger)
  {
  }

  /**
   * The biggest decoration (55 units) is 163.7 px wide on a 1280 px screen,
   * and its factor as written is negative: its spring target moves against
   * the pan. Every screen wider than 1094.5 px does this to it.
   */
  lemma InertialFactorNegativeOnLaptopScreen()
    ensures ResponsiveSize(1280.0, 55.0) > 140.0
    ensures InertialFactor(ResponsiveSize(1280.0, 55.0)) < 0.0
  {
  }

  /**
   * Beyond size 140 the spring target as written points against the pan:
   * a map panned left (a negative offset) pulls the decoration to the right
   * inside the map, and the other way round.
   */
  lemma WrittenTargetAgainstPan(latest: real, size: real)
    requires size > 140.0
    ensures latest < 0.0 ==> ScaledTarget(latest, InertialFactor(size)) > 0.0
    ensures latest > 0.0 ==> ScaledTarget(latest, InertialFactor(size)) < 0.0
  {
  }

  /**
   * On screen the decoration as written moves by the pan plus its spring target:
   * below size 340 (factor above -1) it still follows the pan, more
   * slowly; beyond size 340 it moves against the pan.
   */
  lemma WrittenScreenShift(latest: real, size: real)
    ensures size < 340.0 ==> (ScreenShift(latest, InertialFactor(size)) > 0.0 <==> latest > 0.0)
    ensures size < 340.0 ==> (ScreenShift(latest, InertialFactor(size)) < 0.0 <==> latest < 0.0)
    ensures size > 340.0 ==> (ScreenShift(latest, InertialFactor(size)) > 0.0 <==> latest < 0.0)
  {
  }

  /** The factor the decoration uses: the written one, kept from falling below 0. */
  function TargetFactor(size: real): (f: real)
    ensures f >= 0.0 && (size >= 0.0 ==> f <= 0.7)
    ensures size <= 140.0 ==> f == InertialFactor(size)
    ensures size >= 140.0 ==> f == 0.0
  {
    Max(0.0, InertialFactor(size))
  }

  /**
   * With the corrected factor the spring target never points against the
   * pan. The price: every decoration from size 140 up gets the same target, 0.
   */
  lemma CorrectedTargetFollowsPan(latest: real, size: real)
    ensures latest > 0.0 ==> ScaledTarget(latest, TargetFactor(size)) >= 0.0
    ensures latest < 0.0 ==> ScaledTarget(latest, TargetFactor(size)) <= 0.0
    ensures size >= 140.0 ==> ScaledTarget(latest, TargetFactor(size)) == 0.0
  {
  }

  /** The corrected factor never grows with size, and strictly falls below size 140. */
  lemma TargetFactorNonIncreasing(smaller: real, bigger: real)
    requires smaller <= bigger
    ensures TargetFactor(smaller) >= TargetFactor(bigger)
    ensures smaller < bigger && smaller < 140.0 ==> TargetFactor(smaller) > TargetFactor(bigger)
  {
  }

  /** Stiffness max(15, 100 - size / 1.2), damping 6 + size / 6, mass 0.2 + size / 40. */
  function ConfigFor(size: real): (c: SpringConfig)
    ensures c.stiffness >= 15.0
    ensures size >= 0.0 ==> c.stiffness <= 100.0 && c.mass > 0.0
    ensures size >= 102.0 ==> c.stiffness == 15.0
  {
    SpringConfig(Max(15.0, 100.0 - size / 1.2), 6.0 + size / 6.0, 0.2 + size / 40.0)
  }

  /** A bigger decoration gets a spring no stiffer, strictly more damped and strictly heavier. */
  lemma ConfigMonotone(smaller: real, bigger: real)
    requires smaller < bigger
    ensures ConfigFor(smaller).stiffness >= ConfigFor(bigger).stiffness
    ensures ConfigFor(smaller).damping < ConfigFor(bigger).damping
    ensures ConfigFor(smaller).mass < ConfigFor(bigger).mass
  {
  }

  /** One decorative bubble: its placement, colour, spring parameters and its spring's current target. */
  class DecorativeBubble {
    const x: real
    const y: real
    const size: real
    const color: string
    const config: SpringConfig
    var springTarget: real

    /** The spring starts at 0 with the parameters for the decoration's size. */
    constructor(x: real, y: real, size: real, color: string)
      ensures this.x == x && this.y == y && this.size == size && this.color == color
      ensures config == ConfigFor(size) && springTarget == 0.0
    {
      this.x := x;
      this.y := y;
      this.size := size;
      this.color := color;
      config := ConfigFor(size);
      springTarget := 0.0;
    }

    /** The shared pan offset changed to `latest`: retarget the spring. */
    method OnMapChange(latest: real)
      modifies this
      ensures springTarget == ScaledTarget(latest, TargetFactor(size))
      ensures size < 140.0 ==> springTarget == latest * InertialFactor(size)
      ensures size >= 140.0 ==> springTarget == 0.0
    {
      springTarget := ScaledTarget(latest, TargetFactor(size));
    }

    /** The square the decoration is drawn in, centred on its placement. */
    function Bounds(): (b: Box)
      reads this
      ensures b.width == size && b.height == size
      ensures b.left + b.width / 2.0 == x && b.top + b.height / 2.0 == y
    {
      CenteredBox(x, y, size)
    }
  }
}
