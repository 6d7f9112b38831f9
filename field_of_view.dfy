/** The zoom level of the camera. The navigator stores it as a vertical field
    of view in degrees and does its arithmetic in radians; a pinch divides the
    radian value by the pinch ratio and clamps the quotient into a fixed
    range (CameraNavigator.swift, lines 36-43, 58-59 and 99-108). */
module FieldOfView {

  /** π as the shortest decimal that rounds to the 64-bit `CGFloat.pi`. */
  const PI: real := 3.141592653589793

  /** The widest and the narrowest field of view a pinch can reach, in radians. */
  const MAX_FIELD_OF_VIEW_IN_RADIAN: real := 2.0
  const MIN_FIELD_OF_VIEW_IN_RADIAN: real := 0.1

  function DegreesToRadians(degrees: real): real {
    degrees * PI / 180.0
  }

  /** The inverse of `DegreesToRadians`. */
  function RadiansToDegrees(radians: real): (degrees: real)
    ensures DegreesToRadians(degrees) == radians
  {
    radians * 180.0 / PI
  }

  /** Converting to radians and back gives the degrees one started from. */
  lemma DegreesRoundTrip(degrees: real)
    ensures RadiansToDegrees(DegreesToRadians(degrees)) == degrees
  {
  }

  predicate InRange(radians: real) {
    MIN_FIELD_OF_VIEW_IN_RADIAN <= radians <= MAX_FIELD_OF_VIEW_IN_RADIAN
  }

  function Distance(a: real, b: real): real {
    if a <= b then b - a else a - b
  }

  /** The field of view (radians) after a pinch by `ratio` from `radians`:
      the quotient `radians / ratio` when it lies in the range, and otherwise
      the nearest bound. A ratio above 1 narrows the view (zooms in). */
  function Zoomed(radians: real, ratio: real): (r: real)
    requires ratio != 0.0
    ensures InRange(r)
    ensures r == radians / ratio <==> InRange(radians / ratio)
    ensures forall v :: InRange(v) ==> Distance(r, radians / ratio) <= Distance(v, radians / ratio)
  {
    var target := radians / ratio;
    if target > MAX_FIELD_OF_VIEW_IN_RADIAN then
      MAX_FIELD_OF_VIEW_IN_RADIAN
    else if target < MIN_FIELD_OF_VIEW_IN_RADIAN then
      MIN_FIELD_OF_VIEW_IN_RADIAN
    else
      target
  }

  /** A pinch by ratio 1 leaves an in-range field of view as it is, so
      pinching by 1 again after any pinch changes nothing. */
  lemma ZoomByOne(radians: real, ratio: real)
    requires ratio != 0.0
    ensures InRange(radians) ==> Zoomed(radians, 1.0) == radians
    ensures Zoomed(Zoomed(radians, ratio), 1.0) == Zoomed(radians, ratio)
  {
  }

  /** Two pinches that both stay inside the range amount to one pinch by
      the product of their ratios. */
  lemma {:induction false} ZoomsCompose(radians: real, ratio1: real, ratio2: real)
    requires ratio1 != 0.0 && ratio2 != 0.0
    requires InRange(radians / ratio1) && InRange(radians / ratio1 / ratio2)
    ensures Zoomed(Zoomed(radians, ratio1), ratio2) == Zoomed(radians, ratio1 * ratio2)
  {
    assert radians / ratio1 / ratio2 == radians / (ratio1 * ratio2) by {
      QuotientOfQuotient(radians, ratio1, ratio2);
    }
  }

  lemma QuotientOfQuotient(a: real, b: real, c: real)
    requires b != 0.0 && c != 0.0
    ensures a / b / c == a / (b * c)
  {
    var q := a / b / c;
    assert q * c == a / b;
    assert q * c * b == a;
    assert q * (b * c) == a;
  }

  /** A wider pinch never leaves a wider field of view: for positive
      ratios, the result is antitone in the ratio. */
  lemma {:induction false} ZoomIsAntitone(radians: real, ratio1: real, ratio2: real)
    requires 0.0 < ratio1 <= ratio2
    ensures Zoomed(radians, ratio2) <= Zoomed(radians, ratio1)
  {
    if radians < 0.0 {
      // Both quotients are negative, so both pinches stop at the narrow bound.
      QuotientNegative(radians, ratio1);
      QuotientNegative(radians, ratio2);
    } else {
      QuotientAntitone(radians, ratio1, ratio2);
    }
  }

  lemma QuotientAntitone(a: real, b: real, c: real)
    requires 0.0 <= a && 0.0 < b <= c
    ensures a / c <= a / b
  {
    assert a / c * c == a;
    assert a / b * b == a;
    assert a / c * b <= a / c * c;
  }

  lemma QuotientNegative(a: real, b: real)
    requires a < 0.0 < b
    ensures a / b < 0.0
  {
    assert a / b * b == a;
  }

  /** A pinch of ratio 2 from 60 degrees halves the view to 30 degrees (the
      quotient, about 0.52 rad, is inside the range); a pinch of ratio 20
      from 60 degrees would reach about 0.05 rad and stops at the narrow
      bound, 0.1 rad, about 5.73 degrees. */
  lemma PinchFromSixtyDegrees()
    ensures Zoomed(DegreesToRadians(60.0), 2.0) == DegreesToRadians(30.0)
    ensures Zoomed(DegreesToRadians(60.0), 20.0) == MIN_FIELD_OF_VIEW_IN_RADIAN
    ensures 5.72 < RadiansToDegrees(MIN_FIELD_OF_VIEW_IN_RADIAN) < 5.73
  {
  }
}
