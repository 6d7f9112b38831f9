# CameraNavigator in Dafny

A model of the camera navigator of the Pulsars app
(`CameraNavigator/CameraNavigator/CameraNavigator.swift`). The navigator owns
the orientation of a camera, a quaternion, and its zoom level, a vertical
field of view stored in degrees and computed in radians. Pan and twist
gestures become rotations that are multiplied onto the orientation from the
left. A pinch divides the radian field of view by the pinch ratio and clamps
the quotient into [0.1, 2] rad. Two mode switches toggle the gesture
controller's `enabled` flag, and entering device-motion mode also replaces the
orientation. Every assignment of the orientation or of the field of view is
reported to the optional delegate.

Files:

- `quaternions.dfy` (module `Quaternions`): quaternions in GLKit's component
  order (x, y, z, w), the Hamilton product and the angle-axis constructor.
  Sine and cosine come from the platform's maths library, so they are a
  `Trig` value: a pair of total functions on reals. Each lemma requires
  exactly the trigonometric laws it uses (sin 0 = 0 and cos 0 = 1,
  sin² + cos² = 1, the angle-sum formulas).
- `field_of_view.dfy` (module `FieldOfView`): π, the two zoom bounds, the
  degree/radian conversions and the zoom rule of a pinch.
- `navigator.dfy` (module `Navigation`): `CameraState` has one step function
  per entry point. `Run` applies a sequence of commands. The class
  `CameraNavigator` has the source's stored fields and performs those steps
  in place. Each property observer is an explicit setter method that appends
  one report to the ghost log `notifications` when a delegate is set.

The navigator does not itself ignore pans or twists in device-motion mode. It
only clears the gesture controller's flag, and pinch zoom stays active in both
modes. The constructor stores the initial field of view unclamped. Only a
pinch brings it into range (`RunFieldOfView`). A pinch always reports, even
when the clamped value equals the old one.

## Model

| member | source | states |
|---|---|---|
| `Quaternions.Mul` | CameraNavigator/CameraNavigator/CameraNavigator.swift:89-90 | GLKQuaternionMultiply: the Hamilton product in GLKit's (x, y, z, w) order, with the left factor applied last; its properties are stated by MulNorm, MulAssociative and MulIdentity |
| `Quaternions.MulNorm` | CameraNavigator/CameraNavigator/CameraNavigator.swift:89-90 | the Hamilton product's squared norm is the product of the factors' squared norms, so a product of rotations is a rotation |
| `Quaternions.MulAssociative` | CameraNavigator/CameraNavigator/CameraNavigator.swift:89-90 | composing rotations does not depend on grouping |
| `Quaternions.MulIdentity` | CameraNavigator/CameraNavigator/CameraNavigator.swift:90 | the zero rotation is a two-sided unit of the product |
| `Quaternions.AngleAxis` | CameraNavigator/CameraNavigator/CameraNavigator.swift:87-88 | for a unit axis where sin² + cos² = 1 at the half angle, the result is a unit quaternion; the turn by angle 0 is the identity; the vector part's squared length is sin² of the half angle times the axis's squared length |
| `Quaternions.AngleAxisSumZ` | CameraNavigator/CameraNavigator/CameraNavigator.swift:95 | two turns about the z axis make one turn by the sum of the angles |
| `FieldOfView.RadiansToDegrees` | CameraNavigator/CameraNavigator/CameraNavigator.swift:36-43 | converting radians to degrees and back gives the radians |
| `FieldOfView.DegreesRoundTrip` | CameraNavigator/CameraNavigator/CameraNavigator.swift:36-43 | converting degrees to radians and back gives the degrees |
| `FieldOfView.Zoomed` | CameraNavigator/CameraNavigator/CameraNavigator.swift:99-108 | for any nonzero ratio, the result lies in [0.1, 2]; it equals fov/ratio exactly when that quotient is in range; otherwise it is the bound nearest the quotient |
| `FieldOfView.ZoomByOne` | CameraNavigator/CameraNavigator/CameraNavigator.swift:99-108 | a pinch by 1 keeps an in-range field of view, so a pinch by 1 after any pinch changes nothing |
| `FieldOfView.ZoomsCompose` | CameraNavigator/CameraNavigator/CameraNavigator.swift:100-106 | two pinches that both stay in range equal one pinch by the product of the ratios |
| `FieldOfView.ZoomIsAntitone` | CameraNavigator/CameraNavigator/CameraNavigator.swift:100 | for any field of view, a larger positive ratio never gives a wider result (division, not multiplication) |
| `FieldOfView.PinchFromSixtyDegrees` | CameraNavigator/CameraNavigator/CameraNavigator.swift:58-59 | a pinch of 2 from 60° gives 30°; a pinch of 20 from 60° clamps to 0.1 rad, between 5.72° and 5.73° |
| `Navigation.CameraState.AnglePerDistance` | CameraNavigator/CameraNavigator/CameraNavigator.swift:52-56 | a pan across the whole view height turns the camera by the whole radian field of view |
| `Navigation.CameraNavigator.VerticalFieldOfViewInRadian` | CameraNavigator/CameraNavigator/CameraNavigator.swift:36-39 | the radian getter, converted back to degrees, gives the stored degrees |
| `Navigation.CameraNavigator.AnglePerDistance` | CameraNavigator/CameraNavigator/CameraNavigator.swift:52-56 | recomputed from the current field of view on every read: angle × view height = radian field of view |
| `Navigation.CameraNavigator.constructor` | CameraNavigator/CameraNavigator/CameraNavigator.swift:61-67 | the initial orientation, field of view (unclamped) and flag are stored as given; there is no delegate and no report |
| `Navigation.CameraNavigator.SetDelegate` | CameraNavigator/CameraNavigator/CameraNavigator.swift:51 | later reports go to the new delegate |
| `Navigation.CameraNavigator.SetVerticalFieldOfView` | CameraNavigator/CameraNavigator/CameraNavigator.swift:29-35 | stores the degrees and reports them once when a delegate is set |
| `Navigation.CameraNavigator.SetVerticalFieldOfViewInRadian` | CameraNavigator/CameraNavigator/CameraNavigator.swift:40-42 | stores r·180/π degrees; reading radians afterwards gives r; one report carrying the degrees |
| `Navigation.CameraNavigator.SetOrientation` | CameraNavigator/CameraNavigator/CameraNavigator.swift:44-50 | stores the orientation and reports it once when a delegate is set |
| `Navigation.CameraNavigator.SetModeToGesture` | CameraNavigator/CameraNavigator/CameraNavigator.swift:71-73 | sets the gesture flag; orientation, field of view and reports are untouched |
| `Navigation.CameraNavigator.SetModeToDeviceMotion` | CameraNavigator/CameraNavigator/CameraNavigator.swift:77-80 | clears the flag, sets the orientation to exactly the given one, reports it once, keeps the field of view |
| `Navigation.CameraNavigator.DidPan` | CameraNavigator/CameraNavigator/CameraNavigator.swift:84-91 | orientation becomes Ry(−dx·a) · Rx(−dy·a) · old orientation, with a the angle per distance before the pan; field of view and flag unchanged; one orientation report |
| `Navigation.CameraNavigator.DidRotate` | CameraNavigator/CameraNavigator/CameraNavigator.swift:93-97 | orientation becomes Rz(−angle) · old orientation; field of view and flag unchanged; one orientation report |
| `Navigation.CameraNavigator.DidScale` | CameraNavigator/CameraNavigator/CameraNavigator.swift:99-108 | the radian field of view becomes the zoomed value, which lies in [0.1, 2] whatever it was before; orientation unchanged; one report carrying the new degrees when a delegate is set, even when the value did not change |
| `Navigation.PanRotation` | CameraNavigator/CameraNavigator/CameraNavigator.swift:85-89 | the pan's turn: Ry(−dx·a) composed on the left of Rx(−dy·a); a unit quaternion under sin² + cos² = 1 (ApplyKeepsUnit), the identity for a zero pan (ZeroTurnsKeepOrientation), and order-sensitive (PanOrderMatters) |
| `Navigation.TwistRotation` | CameraNavigator/CameraNavigator/CameraNavigator.swift:94-95 | the twist's turn Rz(−angle); twists add up (TwistsCompose) and cancel (TwistUndone) |
| `Navigation.CameraState.Panned` | CameraNavigator/CameraNavigator/CameraNavigator.swift:84-91 | a pan multiplies the pan rotation onto the orientation from the left and changes nothing else (TurnsKeepZoomAndMode, DidPan) |
| `Navigation.CameraState.Rotated` | CameraNavigator/CameraNavigator/CameraNavigator.swift:93-97 | a twist multiplies the twist rotation onto the orientation from the left and changes nothing else (TurnsKeepZoomAndMode, DidRotate) |
| `Navigation.CameraState.Scaled` | CameraNavigator/CameraNavigator/CameraNavigator.swift:99-108 | a pinch stores the zoomed radian field of view back in degrees; in range, orientation and mode kept (ScaledState) |
| `Navigation.CameraState.InGestureMode` | CameraNavigator/CameraNavigator/CameraNavigator.swift:71-73 | gesture mode sets only the flag (SetModeToGesture, ModeRoundTrip) |
| `Navigation.CameraState.InDeviceMotionMode` | CameraNavigator/CameraNavigator/CameraNavigator.swift:77-80 | device-motion mode clears the flag and takes the given orientation (SetModeToDeviceMotion, ModeRoundTrip) |
| `Navigation.Apply` | CameraNavigator/CameraNavigator/CameraNavigator.swift:71-108 | one entry point applied to the state; keeps a unit orientation a unit (ApplyKeepsUnit) |
| `Navigation.Run` | CameraNavigator/CameraNavigator/CameraNavigator.swift:71-108 | the entry points applied in order; the orientation stays a unit (RunKeepsUnit) and the field of view ends in range after a pinch (RunFieldOfView) |
| `Navigation.ScaledState` | CameraNavigator/CameraNavigator/CameraNavigator.swift:99-108 | a pinch sets the radian field of view to the zoomed, in-range value and keeps orientation and mode; without clamping, the angle per distance is divided by the ratio |
| `Navigation.TurnsKeepZoomAndMode` | CameraNavigator/CameraNavigator/CameraNavigator.swift:84-97 | pans and twists change only the orientation |
| `Navigation.ZeroTurnsKeepOrientation` | CameraNavigator/CameraNavigator/CameraNavigator.swift:84-97 | a pan by (0, 0) and a twist by 0 leave the orientation as it was |
| `Navigation.PanOrderMatters` | CameraNavigator/CameraNavigator/CameraNavigator.swift:87-89 | when both half-angle sines are nonzero, swapping the horizontal and vertical pan rotations gives a different quaternion (a different stored and reported orientation); when also one half-angle cosine is nonzero, it is a different rotation, not the negated quaternion |
| `Navigation.TwistsCompose` | CameraNavigator/CameraNavigator/CameraNavigator.swift:93-97 | a twist by a1 then by a2 gives the same orientation as one twist by a1 + a2 |
| `Navigation.TwistUndone` | CameraNavigator/CameraNavigator/CameraNavigator.swift:93-97 | a twist followed by the opposite twist restores the orientation |
| `Navigation.ModeRoundTrip` | CameraNavigator/CameraNavigator/CameraNavigator.swift:71-80 | device-motion mode followed by gesture mode keeps the device orientation and the zoom, and re-enables gestures |
| `Navigation.ApplyKeepsUnit` | CameraNavigator/CameraNavigator/CameraNavigator.swift:77-108 | each entry point keeps a unit orientation a unit, given sin² + cos² = 1 and a unit device orientation |
| `Navigation.RunKeepsUnit` | CameraNavigator/CameraNavigator/CameraNavigator.swift:77-108 | any sequence of pans, twists, pinches and mode switches keeps the orientation a unit quaternion |
| `Navigation.RunFieldOfView` | CameraNavigator/CameraNavigator/CameraNavigator.swift:61-108 | after a run the radian field of view is in range if it started in range or the run contains a pinch; a run without a pinch leaves it unchanged |

## Left out

- `GestureController` is not part of this model. That covers gesture recognition, how its `enabled` flag gates pans and twists, and the `gestureController.delegate = self` wiring in `init`. The model keeps only the flag. The flag's value at construction is not visible in the source, so it is a constructor parameter.
- `UIView` is reduced to its bounds size, given as `viewWidth` and `viewHeight`. `viewWidth` is stored and never read, as in the source.
- `Navigation.CameraNavigator.constructor`: requires a positive view height. The source does not check it. A zero height would make `anglePerDistance` an IEEE infinity or NaN, which reals cannot express.
- `FieldOfView.Zoomed` and `Navigation.CameraNavigator.DidScale`: require a nonzero ratio. With a zero ratio, IEEE division gives +∞ for a positive field of view (clamped to 2), −∞ for a negative one (clamped to 0.1), or a NaN for a zero one (stored as is). Pinch ratios from the recognizer are positive.
- Floating point is not modelled. That covers the `Float(...)` narrowing in `didPan` and `didRotate`, rounding in the degree/radian conversion, and the unit-norm drift of repeated products. All arithmetic is on exact reals. π is 3.141592653589793, the shortest decimal that rounds to the 64-bit `CGFloat.pi`. The double itself differs from it by about 1.2e-16.
- The GLKit and SceneKit library functions are modelled from their documented behaviour, not from their source. `GLKQuaternionMultiply` is the Hamilton product. `GLKQuaternionMakeWithAngleAndAxis` scales the axis, unnormalised, by the half-angle sine. Sine and cosine are a parameter. The `SCNQuaternion`/`GLKQuaternion` conversions are the identity on components.
- `Quaternions.AngleAxisSumZ`: the angle-sum law is proved for the z axis only, the one axis whose turns are composed with each other (twists).
- The delegate's own behaviour is not modelled. The model records which delegate received which report, in order.
- `SoundOfPulsars/SoundOfPulsars/CelestialSphere/Nodes/PulsarNode.swift` and `SphereNode.swift` are not part of this model. They build the SceneKit node graph, start AudioKit oscillators and run glow animations. All of that work happens inside libraries.
