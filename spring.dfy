/**
 * What the two inertial bubble components share: the parameters they hand
 * to their spring, and the square box a bubble is drawn in.
 */
module Spring {
  import opened Numeric

  /** The parameters of a damped spring: stiffness, damping and mass. */
  datatype SpringConfig = SpringConfig(stiffness: real, damping: real, mass: real)

  /** An absolutely positioned box: left and top edges, width and height. */
  datatype Box = Box(left: real, top: real, width: real, height: real)

  /** The square of side `size` a bubble at (x, y) is drawn in: it is centred on (x, y). */
  function CenteredBox(x: real, y: real, size: real): (b: Box)
    ensures b.width == size && b.height == size
    ensures b.left + b.width / 2.0 == x && b.top + b.height / 2.0 == y
  {
    Box(x - size / 2.0, y - size / 2.0, size, size)
  }

  /**
   * The spring target `latest * factor` for a pan offset `latest`: it is 0
   * exactly when the offset or the factor is, it has the offset's sign when
   * the factor is positive, and the opposite sign when the factor is negative.
   */
  function ScaledTarget(latest: real, factor: real): (t: real)
    ensures t == 0.0 <==> latest == 0.0 || factor == 0.0
    ensures factor > 0.0 ==> (t > 0.0 <==> latest > 0.0) && (t < 0.0 <==> latest < 0.0)
    ensures factor < 0.0 ==> (t > 0.0 <==> latest < 0.0) && (t < 0.0 <==> latest > 0.0)
  {
    ProductSign(latest, factor);
    latest * factor
  }

  /**
   * A bubble is drawn inside the map container, which is itself shifted by
   * the pan offset, so once its spring comes to rest the bubble sits on
   * screen at the offset plus its spring target. At rest it has followed
   * the pan while the factor is above -1 and gone against it once the
   * factor is below -1. The spring's motion on the way is not modelled.
   */
  function ScreenShift(latest: real, factor: real): (s: real)
    ensures factor > -1.0 ==> (s > 0.0 <==> latest > 0.0) && (s < 0.0 <==> latest < 0.0)
    ensures factor < -1.0 ==> (s > 0.0 <==> latest < 0.0) && (s < 0.0 <==> latest > 0.0)
    ensures factor == -1.0 ==> s == 0.0
  {
    ProductSign(latest, 1.0 + factor);
    latest + ScaledTarget(latest, factor)
  }
}
