/** The camera navigator (CameraNavigator.swift): an object that owns a
    camera orientation and a zoom level, turns pan, twist and pinch gestures
    into updates of both, switches between gesture control and device-motion
    control, and reports every assignment of either value to an optional
    delegate.

    The value-level rules (`CameraState` and its step functions) say what
    each entry point does to the state; the class `CameraNavigator` performs
    those steps in place and keeps the log of reports its delegate receives. */
module Navigation {
  import opened Quaternions
  import opened FieldOfView

  /** The rotation of a pan by (dx, dy) at `anglePerDistance` radians per
      unit of distance: both distances become negated angles, and the turn
      about the y axis (horizontal) is composed on the left of the turn
      about the x axis (vertical). */
  function PanRotation(t: Trig, dx: real, dy: real, anglePerDistance: real): Quaternion {
    var horizontalAngle := -(dx * anglePerDistance);
    var verticalAngle := -(dy * anglePerDistance);
    Mul(AngleAxis(t, horizontalAngle, 0.0, 1.0, 0.0), AngleAxis(t, verticalAngle, 1.0, 0.0, 0.0))
  }

  /** The rotation of a twist by `angle`: a turn by `-angle` about the
      forward (z) axis. */
  function TwistRotation(t: Trig, angle: real): Quaternion {
    AngleAxis(t, -angle, 0.0, 0.0, 1.0)
  }

  /** What the navigator holds: the orientation, the vertical field of view
      in degrees, and whether the gesture controller is enabled. */
  datatype CameraState = CameraState(orientation: Quaternion, verticalFieldOfView: real, gestureEnabled: bool) {

    function FieldOfViewInRadian(): real {
      DegreesToRadians(verticalFieldOfView)
    }

    /** Radians of turn per unit of pan distance: a pan across the whole
        view height turns the camera by the whole vertical field of view. */
    function AnglePerDistance(viewHeight: real): (angle: real)
      requires viewHeight > 0.0
      ensures angle * viewHeight == FieldOfViewInRadian()
    {
      FieldOfViewInRadian() / viewHeight
    }

    /** A pan by (dx, dy): both distances are turned into angles at the
        current angle per distance, negated, and the pan rotation is
        multiplied onto the orientation from the left. */
    function Panned(t: Trig, dx: real, dy: real, viewHeight: real): CameraState
      requires viewHeight > 0.0
    {
      this.(orientation := Mul(PanRotation(t, dx, dy, AnglePerDistance(viewHeight)), orientation))
    }

    /** A twist by `angle`: the twist rotation is multiplied onto the
        orientation from the left. */
    function Rotated(t: Trig, angle: real): CameraState {
      this.(orientation := Mul(TwistRotation(t, angle), orientation))
    }

    /** A pinch by `ratio`: the radian field of view is zoomed and stored
        back in degrees. */
    function Scaled(ratio: real): CameraState
      requires ratio != 0.0
    {
      this.(verticalFieldOfView := RadiansToDegrees(Zoomed(FieldOfViewInRadian(), ratio)))
    }

    function InGestureMode(): CameraState {
      this.(gestureEnabled := true)
    }

    /** Device-motion mode disables the gestures and takes the supplied
        orientation as it is. */
    function InDeviceMotionMode(initialOrientation: Quaternion): CameraState {
      this.(gestureEnabled := false, orientation := initialOrientation)
    }
  }

  /** The entry points of the navigator that change its state. */
  datatype Command =
    | Pan(dx: real, dy: real)
    | Rotate(angle: real)
    | Scale(ratio: real)
    | GestureMode
    | DeviceMotionMode(initialOrientation: Quaternion)

  predicate WellFormed(c: Command) {
    c.Scale? ==> c.ratio != 0.0
  }

  function Apply(s: CameraState, c: Command, t: Trig, viewHeight: real): CameraState
    requires viewHeight > 0.0 && WellFormed(c)
  {
    match c
    case Pan(dx, dy) => s.Panned(t, dx, dy, viewHeight)
    case Rotate(angle) => s.Rotated(t, angle)
    case Scale(ratio) => s.Scaled(ratio)
    case GestureMode => s.InGestureMode()
    case DeviceMotionMode(q) => s.InDeviceMotionMode(q)
  }

  /** The state after the commands, applied in order. */
  function Run(s: CameraState, cs: seq<Command>, t: Trig, viewHeight: real): CameraState
    requires viewHeight > 0.0 && forall i :: 0 <= i < |cs| ==> WellFormed(cs[i])
    decreases |cs|
  {
    if cs == [] then s else Run(Apply(s, cs[0], t, viewHeight), cs[1..], t, viewHeight)
  }

  /** The reports a navigator sends its delegate. */
  datatype Event =
    | OrientationUpdated(orientation: Quaternion)
    | VerticalFieldOfViewUpdated(verticalFieldOfView: real)

  /** An object that receives the navigator's reports. What it does with a
      report is not part of this model. */
  class NavigatorDelegate {
    constructor () {
    }
  }

  datatype Notification = Notification(recipient: NavigatorDelegate, event: Event)

  /** One report to the delegate if there is one, nothing otherwise. */
  function Notify(delegate: NavigatorDelegate?, event: Event): seq<Notification> {
    if delegate == null then [] else [Notification(delegate, event)]
  }

  class CameraNavigator {
    const viewWidth: real
    const viewHeight: real
    var verticalFieldOfView: real
    var orientation: Quaternion
    var delegate: NavigatorDelegate?
    /** The `enabled` flag of the navigator's gesture controller. */
    var gestureEnabled: bool
    /** Every report delivered to a delegate, in order. */
    ghost var notifications: seq<Notification>

    predicate Valid() {
      viewHeight > 0.0
    }

    function State(): CameraState
      reads this
    {
      CameraState(orientation, verticalFieldOfView, gestureEnabled)
    }

    /** The stored degrees read as radians; assigning the result back
        through `SetVerticalFieldOfViewInRadian` restores the degrees. */
    function VerticalFieldOfViewInRadian(): (radians: real)
      reads this
      ensures RadiansToDegrees(radians) == verticalFieldOfView
    {
      State().FieldOfViewInRadian()
    }

    /** Recomputed from the current field of view on every read. */
    function AnglePerDistance(): (angle: real)
      reads this
      requires Valid()
      ensures angle * viewHeight == VerticalFieldOfViewInRadian()
    {
      State().AnglePerDistance(viewHeight)
    }

    /** The initial orientation and field of view are stored as given (the
        field of view is not clamped); property observers do not run during
        initialisation, and there is no delegate yet, so nothing is
        reported. */
    constructor (viewWidth: real, viewHeight: real, initialOrientation: Quaternion,
                 verticalFieldOfView: real, gestureEnabled: bool)
      requires viewHeight > 0.0
      ensures Valid()
      ensures this.viewWidth == viewWidth && this.viewHeight == viewHeight
      ensures State() == CameraState(initialOrientation, verticalFieldOfView, gestureEnabled)
      ensures delegate == null && notifications == []
    {
      this.viewWidth := viewWidth;
      this.viewHeight := viewHeight;
      orientation := initialOrientation;
      this.verticalFieldOfView := verticalFieldOfView;
      this.gestureEnabled := gestureEnabled;
      delegate := null;
      notifications := [];
    }

    /** Later reports go to `d`, or nowhere when `d` is null. */
    method SetDelegate(d: NavigatorDelegate?)
      modifies this`delegate
      ensures delegate == d
    {
      delegate := d;
    }

    /** Assigning the field of view (degrees) reports the new value once. */
    method SetVerticalFieldOfView(degrees: real)
      modifies this`verticalFieldOfView, this`notifications
      ensures verticalFieldOfView == degrees
      ensures notifications == old(notifications) + Notify(delegate, VerticalFieldOfViewUpdated(degrees))
    {
      verticalFieldOfView := degrees;
      notifications := notifications + Notify(delegate, VerticalFieldOfViewUpdated(degrees));
    }

    /** Assigning the field of view in radians stores the degrees and reads
        back as the radians assigned; one report carries the degrees. */
    method SetVerticalFieldOfViewInRadian(radians: real)
      modifies this`verticalFieldOfView, this`notifications
      ensures VerticalFieldOfViewInRadian() == radians
      ensures verticalFieldOfView == RadiansToDegrees(radians)
      ensures notifications == old(notifications) + Notify(delegate, VerticalFieldOfViewUpdated(verticalFieldOfView))
    {
      SetVerticalFieldOfView(radians * 180.0 / PI);
    }

    /** Assigning the orientation reports the new orientation once. */
    method SetOrientation(q: Quaternion)
      modifies this`orientation, this`notifications
      ensures orientation == q
      ensures notifications == old(notifications) + Notify(delegate, OrientationUpdated(q))
    {
      orientation := q;
      notifications := notifications + Notify(delegate, OrientationUpdated(q));
    }

    /** Enables the gesture controller; nothing else changes and nothing is
        reported. */
    method SetModeToGesture()
      modifies this`gestureEnabled
      ensures State() == old(State()).InGestureMode()
      ensures notifications == old(notifications)
    {
      gestureEnabled := true;
    }

    /** Disables the gesture controller and replaces the orientation by the
        device's, reporting it once; the field of view is untouched. */
    method SetModeToDeviceMotion(initialOrientation: Quaternion)
      modifies this`gestureEnabled, this`orientation, this`notifications
      ensures State() == old(State()).InDeviceMotionMode(initialOrientation)
      ensures notifications == old(notifications) + Notify(delegate, OrientationUpdated(initialOrientation))
    {
      gestureEnabled := false;
      SetOrientation(initialOrientation);
    }

    /** A pan multiplies the pan rotation onto the orientation from the left
        and reports the new orientation once. */
    method DidPan(t: Trig, dx: real, dy: real)
      requires Valid()
      modifies this`orientation, this`notifications
      ensures State() == old(State()).Panned(t, dx, dy, viewHeight)
      ensures orientation == Mul(PanRotation(t, dx, dy, old(AnglePerDistance())), old(orientation))
      ensures notifications == old(notifications) + Notify(delegate, OrientationUpdated(orientation))
    {
      var anglePerDistance := AnglePerDistance();
      var horizontalAngle := -(dx * anglePerDistance);
      var verticalAngle := -(dy * anglePerDistance);
      var horizontalRotation := AngleAxis(t, horizontalAngle, 0.0, 1.0, 0.0);
      var verticalRotation := AngleAxis(t, verticalAngle, 1.0, 0.0, 0.0);
      var totalRotation := Mul(horizontalRotation, verticalRotation);
      PanRotationFactors(t, dx, dy, anglePerDistance);
      SetOrientation(Mul(totalRotation, orientation));
    }

    /** A twist multiplies the twist rotation onto the orientation from the
        left and reports the new orientation once. */
    method DidRotate(t: Trig, angle: real)
      modifies this`orientation, this`notifications
      ensures State() == old(State()).Rotated(t, angle)
      ensures notifications == old(notifications) + Notify(delegate, OrientationUpdated(orientation))
    {
      var rotationAngle := -angle;
      var rotation := AngleAxis(t, rotationAngle, 0.0, 0.0, 1.0);
      SetOrientation(Mul(rotation, orientation));
    }

    /** A pinch leaves the radian field of view inside the range whatever it
        was before, and reports the new degrees exactly once, even when the
        value did not change. */
    method DidScale(ratio: real)
      requires ratio != 0.0
      modifies this`verticalFieldOfView, this`notifications
      ensures State() == old(State()).Scaled(ratio)
      ensures VerticalFieldOfViewInRadian() == Zoomed(old(VerticalFieldOfViewInRadian()), ratio)
      ensures MIN_FIELD_OF_VIEW_IN_RADIAN <= VerticalFieldOfViewInRadian() <= MAX_FIELD_OF_VIEW_IN_RADIAN
      ensures notifications == old(notifications) + Notify(delegate, VerticalFieldOfViewUpdated(verticalFieldOfView))
    {
      var newFieldOfView := VerticalFieldOfViewInRadian() / ratio;
      if newFieldOfView > MAX_FIELD_OF_VIEW_IN_RADIAN {
        SetVerticalFieldOfViewInRadian(MAX_FIELD_OF_VIEW_IN_RADIAN);
      } else if newFieldOfView < MIN_FIELD_OF_VIEW_IN_RADIAN {
        SetVerticalFieldOfViewInRadian(MIN_FIELD_OF_VIEW_IN_RADIAN);
      } else {
        SetVerticalFieldOfViewInRadian(newFieldOfView);
      }
    }
  }

  /* `PanRotation` unfolded into its two factors. The verifier does not unfold
     the function by itself where a pan's result is compared with a product
     built from the same angles (in `DidPan` and `ApplyKeepsUnit`), so those
     proofs call this lemma. */
  lemma PanRotationFactors(t: Trig, dx: real, dy: real, anglePerDistance: real)
    ensures PanRotation(t, dx, dy, anglePerDistance)
         == Mul(AngleAxis(t, -(dx * anglePerDistance), 0.0, 1.0, 0.0), AngleAxis(t, -(dy * anglePerDistance), 1.0, 0.0, 0.0))
  {
  }

  // Properties of the state rules.

  /** A pinch sets the radian field of view to the zoomed value, inside the
      range, and leaves the orientation and the mode alone; the angle per
      distance follows the new field of view. */
  lemma ScaledState(s: CameraState, ratio: real, viewHeight: real)
    requires ratio != 0.0 && viewHeight > 0.0
    ensures s.Scaled(ratio).FieldOfViewInRadian() == Zoomed(s.FieldOfViewInRadian(), ratio)
    ensures InRange(s.Scaled(ratio).FieldOfViewInRadian())
    ensures s.Scaled(ratio).orientation == s.orientation
    ensures s.Scaled(ratio).gestureEnabled == s.gestureEnabled
    ensures InRange(s.FieldOfViewInRadian() / ratio) ==>
              s.Scaled(ratio).AnglePerDistance(viewHeight) * ratio == s.AnglePerDistance(viewHeight)
  {
  }

  /** Pans and twists change only the orientation. */
  lemma TurnsKeepZoomAndMode(s: CameraState, t: Trig, dx: real, dy: real, angle: real, viewHeight: real)
    requires viewHeight > 0.0
    ensures s.Panned(t, dx, dy, viewHeight).verticalFieldOfView == s.verticalFieldOfView
    ensures s.Panned(t, dx, dy, viewHeight).gestureEnabled == s.gestureEnabled
    ensures s.Rotated(t, angle).verticalFieldOfView == s.verticalFieldOfView
    ensures s.Rotated(t, angle).gestureEnabled == s.gestureEnabled
  {
  }

  /** With sin 0 = 0 and cos 0 = 1, a pan by (0, 0) and a twist by 0 leave
      the orientation as it was (they are still reported). */
  lemma ZeroTurnsKeepOrientation(s: CameraState, t: Trig, viewHeight: real)
    requires viewHeight > 0.0 && ZeroAngleLaw(t)
    ensures s.Panned(t, 0.0, 0.0, viewHeight).orientation == s.orientation
    ensures s.Rotated(t, 0.0).orientation == s.orientation
  {
    var a := s.AnglePerDistance(viewHeight);
    assert -(0.0 * a) == 0.0;
    assert PanRotation(t, 0.0, 0.0, a) == Identity by {
      MulIdentity(Identity);
    }
    assert TwistRotation(t, 0.0) == Identity;
    MulIdentity(s.orientation);
  }

  /** The order of the two pan rotations matters: unless one of the two half
      angles has sine zero, swapping them gives a different quaternion, so a
      different orientation is stored and reported. When in addition one of
      the half-angle cosines is nonzero, the two orders are also different
      rotations (the quaternions are not negations of each other). */
  lemma PanOrderMatters(t: Trig, dx: real, dy: real, anglePerDistance: real)
    requires t.sin(-(dx * anglePerDistance) * 0.5) != 0.0 && t.sin(-(dy * anglePerDistance) * 0.5) != 0.0
    ensures var horizontal := AngleAxis(t, -(dx * anglePerDistance), 0.0, 1.0, 0.0);
            var vertical := AngleAxis(t, -(dy * anglePerDistance), 1.0, 0.0, 0.0);
            PanRotation(t, dx, dy, anglePerDistance) != Mul(vertical, horizontal)
    ensures var horizontal := AngleAxis(t, -(dx * anglePerDistance), 0.0, 1.0, 0.0);
            var vertical := AngleAxis(t, -(dy * anglePerDistance), 1.0, 0.0, 0.0);
            t.cos(-(dx * anglePerDistance) * 0.5) != 0.0 || t.cos(-(dy * anglePerDistance) * 0.5) != 0.0 ==>
              !SameRotation(PanRotation(t, dx, dy, anglePerDistance), Mul(vertical, horizontal))
  {
    var sh, sv := t.sin(-(dx * anglePerDistance) * 0.5), t.sin(-(dy * anglePerDistance) * 0.5);
    var ch, cv := t.cos(-(dx * anglePerDistance) * 0.5), t.cos(-(dy * anglePerDistance) * 0.5);
    var pan := PanRotation(t, dx, dy, anglePerDistance);
    var swapped := Mul(AngleAxis(t, -(dy * anglePerDistance), 1.0, 0.0, 0.0), AngleAxis(t, -(dx * anglePerDistance), 0.0, 1.0, 0.0));
    assert sh * sv != 0.0;
    assert pan.z == -(sh * sv) && swapped.z == sv * sh;
    if ch != 0.0 {
      // The x components are ch·sv in both orders, so they differ from the
      // negation.
      assert ch * sv != 0.0;
      assert pan.x == ch * sv && swapped.x == sv * ch;
    }
    if cv != 0.0 {
      assert sh * cv != 0.0;
      assert pan.y == sh * cv && swapped.y == cv * sh;
    }
  }

  /** Two twists amount to one twist by the sum of the angles, when the
      angle-sum formulas hold at the two half angles. */
  lemma {:induction false} TwistsCompose(s: CameraState, t: Trig, angle1: real, angle2: real)
    requires AngleSumAt(t, -angle2 * 0.5, -angle1 * 0.5)
    ensures s.Rotated(t, angle1).Rotated(t, angle2).orientation == s.Rotated(t, angle1 + angle2).orientation
  {
    AngleAxisSumZ(t, -angle1, -angle2);
    assert -angle1 + -angle2 == -(angle1 + angle2);
    MulAssociative(TwistRotation(t, angle2), TwistRotation(t, angle1), s.orientation);
  }

  /** A twist followed by the opposite twist restores the orientation. */
  lemma {:induction false} TwistUndone(s: CameraState, t: Trig, angle: real)
    requires ZeroAngleLaw(t) && AngleSumAt(t, angle * 0.5, -angle * 0.5)
    ensures s.Rotated(t, angle).Rotated(t, -angle).orientation == s.orientation
  {
    assert -(-angle) * 0.5 == angle * 0.5;
    TwistsCompose(s, t, angle, -angle);
    assert angle + -angle == 0.0;
    MulIdentity(s.orientation);
  }

  /** Leaving device-motion mode for gesture mode keeps the device's
      orientation and the zoom, and re-enables the gestures. */
  lemma ModeRoundTrip(s: CameraState, q: Quaternion)
    ensures s.InDeviceMotionMode(q).InGestureMode() == CameraState(q, s.verticalFieldOfView, true)
    ensures s.InDeviceMotionMode(q).verticalFieldOfView == s.verticalFieldOfView
  {
  }

  /** One command keeps a unit orientation a unit, when sine and cosine
      satisfy the Pythagorean identity and a device orientation is a unit. */
  lemma {:induction false} ApplyKeepsUnit(s: CameraState, c: Command, t: Trig, viewHeight: real)
    requires viewHeight > 0.0 && WellFormed(c)
    requires Pythagorean(t) && IsUnit(s.orientation)
    requires c.DeviceMotionMode? ==> IsUnit(c.initialOrientation)
    ensures IsUnit(Apply(s, c, t, viewHeight).orientation)
  {
    match c
    case Pan(dx, dy) =>
      var a := s.AnglePerDistance(viewHeight);
      var h, v := -(dx * a), -(dy * a);
      assert PythagoreanAt(t, h * 0.5) && PythagoreanAt(t, v * 0.5);
      var rh, rv := AngleAxis(t, h, 0.0, 1.0, 0.0), AngleAxis(t, v, 1.0, 0.0, 0.0);
      assert IsUnit(rh) && IsUnit(rv);
      MulNorm(rh, rv);
      PanRotationFactors(t, dx, dy, a);
      MulNorm(Mul(rh, rv), s.orientation);
    case Rotate(angle) =>
      assert PythagoreanAt(t, -angle * 0.5);
      MulNorm(TwistRotation(t, angle), s.orientation);
    case Scale(_) =>
    case GestureMode =>
    case DeviceMotionMode(_) =>
  }

  /** Any sequence of pans, twists, pinches and mode switches keeps the
      orientation a rotation (a unit quaternion), provided it starts as one
      and every device orientation supplied is one. */
  lemma {:induction false} RunKeepsUnit(s: CameraState, cs: seq<Command>, t: Trig, viewHeight: real)
    requires viewHeight > 0.0 && forall i :: 0 <= i < |cs| ==> WellFormed(cs[i])
    requires Pythagorean(t) && IsUnit(s.orientation)
    requires forall i :: 0 <= i < |cs| && cs[i].DeviceMotionMode? ==> IsUnit(cs[i].initialOrientation)
    ensures IsUnit(Run(s, cs, t, viewHeight).orientation)
    decreases |cs|
  {
    if cs != [] {
      ApplyKeepsUnit(s, cs[0], t, viewHeight);
      RunKeepsUnit(Apply(s, cs[0], t, viewHeight), cs[1..], t, viewHeight);
    }
  }

  /** The radian field of view is in range at the end of a run when it was
      in range at the start or when the run contains a pinch; only a pinch
      changes it. The constructor does not clamp, so without a pinch an
      out-of-range start stays as it is. */
  lemma {:induction false} RunFieldOfView(s: CameraState, cs: seq<Command>, t: Trig, viewHeight: real)
    requires viewHeight > 0.0 && forall i :: 0 <= i < |cs| ==> WellFormed(cs[i])
    ensures (InRange(s.FieldOfViewInRadian()) || exists i :: 0 <= i < |cs| && cs[i].Scale?) ==>
              InRange(Run(s, cs, t, viewHeight).FieldOfViewInRadian())
    ensures (forall i :: 0 <= i < |cs| ==> !cs[i].Scale?) ==>
              Run(s, cs, t, viewHeight).verticalFieldOfView == s.verticalFieldOfView
    decreases |cs|
  {
    if cs != [] {
      var next := Apply(s, cs[0], t, viewHeight);
      if cs[0].Scale? {
        ScaledState(s, cs[0].ratio, viewHeight);
      } else {
        assert next.verticalFieldOfView == s.verticalFieldOfView;
      }
      RunFieldOfView(next, cs[1..], t, viewHeight);
      if exists i :: 0 <= i < |cs| && cs[i].Scale? {
        var i :| 0 <= i < |cs| && cs[i].Scale?;
        if i > 0 {
          assert cs[1..][i - 1].Scale?;
        }
      }
      if forall i :: 0 <= i < |cs| ==> !cs[i].Scale? {
        assert forall i :: 0 <= i < |cs[1..]| ==> !cs[1..][i].Scale? by {
          forall i | 0 <= i < |cs[1..]| ensures !cs[1..][i].Scale? {
            assert cs[1..][i] == cs[i + 1];
          }
        }
      }
    }
  }
}
