/** The face-to-joystick mapper (JoystickControl.py): the centre of a detected
    face and a reference centre become a pair of joystick axes in [-1, 1].
    Arithmetic is exact over `real`; frame sizes and pixel coordinates are `int`. */
module JoystickControl {
  import opened Wrappers

  // Module constants read by the six-parameter definition.
  const DEADZONE_THRESHOLD_X: int := 25
  const DEADZONE_THRESHOLD_Y: int := 25
  const SENSITIVITY_Y: int := 10
  const SENSITIVITY_X: int := 5

  const MAX_JOYSTICK_VALUE: real := 1.0

  /** The only failure of the mapper: Python's `ZeroDivisionError` when a
      frame dimension halves to 0. */
  datatype MapError = ZeroDivisionError

  function Abs(x: real): real {
    if x < 0.0 then -x else x
  }

  /** Python's `min(a, b)`: the first argument unless the second is smaller. */
  function Min(a: real, b: real): real {
    if b < a then b else a
  }

  /** Python's `max(a, b)`: the first argument unless the second is larger. */
  function Max(a: real, b: real): real {
    if b > a then b else a
  }

  /** `max(min(v, 1.0), -1.0)`: saturation to the joystick's range. */
  function Clip(v: real): (r: real)
    ensures -1.0 <= r <= 1.0
    ensures -1.0 <= v <= 1.0 ==> r == v
    ensures v > 1.0 ==> r == 1.0
    ensures v < -1.0 ==> r == -1.0
  {
    Max(Min(v, 1.0), -1.0)
  }

  /** The joystick centre along one axis: `size // 2`. */
  function AxisCenter(size: nat): (c: nat)
    ensures 2 * c <= size <= 2 * c + 1
  {
    size / 2
  }

  /** Displacement from the reference, normalised by the axis centre and
      scaled by the sensitivity (before dead zone and clipping). */
  function RawAxis(displacement: int, center: nat, sensitivity: real): real
    requires center > 0
  {
    displacement as real / center as real * MAX_JOYSTICK_VALUE * sensitivity
  }

  /** The strict-`<` dead zone: a raw value whose magnitude is below
      `threshold / center` becomes exactly 0. */
  function DeadZone(raw: real, threshold: real, center: nat): real
    requires center > 0
  {
    if Abs(raw) < threshold / center as real then 0.0 else raw
  }

  /** One output axis: raw value, dead zone, then clipping. */
  function AxisValue(displacement: int, center: nat, deadzone: real, sensitivity: real): (v: real)
    requires center > 0
    ensures -1.0 <= v <= 1.0
    ensures displacement == 0 ==> v == 0.0
  {
    Clip(DeadZone(RawAxis(displacement, center, sensitivity), deadzone, center))
  }

  /** The mapper with the dead zones and sensitivities as parameters, in the
      argument order the caller in helpers.py uses (reference Y before X).
      When either reference coordinate is `None` the face itself is the
      reference. A frame dimension below 2 halves to 0 and the division raises. */
  function MapFaceToJoystick(
    frameWidth: nat, frameHeight: nat, faceX: int, faceY: int,
    initialFaceY: Option<int>, initialFaceX: Option<int>,
    deadzoneX: real, deadzoneY: real, sensitivityX: real, sensitivityY: real
  ): (r: Result<(real, real), MapError>)
    ensures r.Success? <==> frameWidth >= 2 && frameHeight >= 2
    ensures r.Success? ==> -1.0 <= r.value.0 <= 1.0 && -1.0 <= r.value.1 <= 1.0
    ensures r.Success? && (initialFaceX.None? || initialFaceY.None?) ==> r.value == (0.0, 0.0)
  {
    var centerX := AxisCenter(frameWidth);
    var centerY := AxisCenter(frameHeight);
    var refX := if initialFaceX.None? || initialFaceY.None? then faceX else initialFaceX.value;
    var refY := if initialFaceX.None? || initialFaceY.None? then faceY else initialFaceY.value;
    if centerX == 0 || centerY == 0 then
      Failure(ZeroDivisionError)
    else
      Success((AxisValue(faceX - refX, centerX, deadzoneX, sensitivityX),
               AxisValue(refY - faceY, centerY, deadzoneY, sensitivityY)))
  }

  /** The six-parameter definition as written: dead zones and sensitivities
      are the module constants 25, 25, 5 and 10. With these constants the X
      axis moves only for a displacement of at least 5 pixels and the Y axis
      for one of at least 3 pixels, whatever the frame size. */
  function MapFaceToJoystickDefaults(
    frameWidth: nat, frameHeight: nat, faceX: int, faceY: int,
    initialFaceY: Option<int>, initialFaceX: Option<int>
  ): (r: Result<(real, real), MapError>)
    ensures r.Success? <==> frameWidth >= 2 && frameHeight >= 2
    ensures r.Success? ==> -1.0 <= r.value.0 <= 1.0 && -1.0 <= r.value.1 <= 1.0
    ensures r.Success? && initialFaceX.Some? && initialFaceY.Some? ==>
      (r.value.0 == 0.0 <==> -5 < faceX - initialFaceX.value < 5) &&
      (r.value.1 == 0.0 <==> -3 < initialFaceY.value - faceY < 3)
  {
    var r := MapFaceToJoystick(frameWidth, frameHeight, faceX, faceY, initialFaceY, initialFaceX,
                               DEADZONE_THRESHOLD_X as real, DEADZONE_THRESHOLD_Y as real,
                               SENSITIVITY_X as real, SENSITIVITY_Y as real);
    if r.Success? && initialFaceX.Some? && initialFaceY.Some? then
      DeadZoneInPixels(faceX - initialFaceX.value, AxisCenter(frameWidth), 25.0, 5.0);
      DeadZoneInPixels(initialFaceY.value - faceY, AxisCenter(frameHeight), 25.0, 10.0);
      r
    else
      r
  }

  // ---------------------------------------------------------------------
  // Properties of one axis

  /** The raw value times the centre is displacement times sensitivity. */
  lemma RawAxisScaled(displacement: int, center: nat, sensitivity: real)
    requires center > 0
    ensures RawAxis(displacement, center, sensitivity) * center as real == displacement as real * sensitivity
  {
    var c := center as real;
    var q := displacement as real / c;
    assert q * c == displacement as real;
    calc {
      RawAxis(displacement, center, sensitivity) * c;
      q * sensitivity * c;
      (q * c) * sensitivity;
    }
  }

  /** The output is exactly 0 if and only if the raw value is 0 or lies
      strictly inside the dead zone; a raw value whose magnitude equals the
      threshold is kept. */
  lemma DeadZoneExact(displacement: int, center: nat, deadzone: real, sensitivity: real)
    requires center > 0
    ensures var raw := RawAxis(displacement, center, sensitivity);
      AxisValue(displacement, center, deadzone, sensitivity) == 0.0 <==>
        raw == 0.0 || Abs(raw) < deadzone / center as real
    ensures var raw := RawAxis(displacement, center, sensitivity);
      Abs(raw) == deadzone / center as real && deadzone > 0.0 ==>
        AxisValue(displacement, center, deadzone, sensitivity) == Clip(raw) != 0.0
  {
    var raw := RawAxis(displacement, center, sensitivity);
    if Abs(raw) < deadzone / center as real {
    } else if raw > 1.0 {
    } else if raw < -1.0 {
    }
  }

  /** The dead zone measured in pixels: for a positive sensitivity an axis is
      0 exactly when |displacement| * sensitivity < threshold, independent of
      the frame size. */
  lemma DeadZoneInPixels(displacement: int, center: nat, deadzone: real, sensitivity: real)
    requires center > 0 && sensitivity > 0.0
    ensures AxisValue(displacement, center, deadzone, sensitivity) == 0.0 <==>
      displacement == 0 || Abs(displacement as real) * sensitivity < deadzone
  {
    var c := center as real;
    var raw := RawAxis(displacement, center, sensitivity);
    RawAxisScaled(displacement, center, sensitivity);
    DeadZoneExact(displacement, center, deadzone, sensitivity);
    assert Abs(raw) * c == Abs(displacement as real) * sensitivity;
    assert Abs(raw) < deadzone / c <==> Abs(raw) * c < deadzone;
    assert raw == 0.0 <==> displacement == 0;
  }

  /** Outside the dead zone and inside the range the output is the scaled
      displacement itself: output times centre is displacement times
      sensitivity. */
  lemma AxisLinear(displacement: int, center: nat, deadzone: real, sensitivity: real)
    requires center > 0
    requires deadzone / center as real <= Abs(RawAxis(displacement, center, sensitivity)) <= 1.0
    ensures AxisValue(displacement, center, deadzone, sensitivity) * center as real ==
      displacement as real * sensitivity
  {
    RawAxisScaled(displacement, center, sensitivity);
  }

  /** A raw value beyond the range saturates to exactly +1 or -1, unless a
      dead zone wider than the range swallows it. */
  lemma AxisSaturates(displacement: int, center: nat, deadzone: real, sensitivity: real)
    requires center > 0
    ensures var raw := RawAxis(displacement, center, sensitivity);
      raw > 1.0 ==>
        AxisValue(displacement, center, deadzone, sensitivity) ==
          (if raw < deadzone / center as real then 0.0 else 1.0)
    ensures var raw := RawAxis(displacement, center, sensitivity);
      raw < -1.0 ==>
        AxisValue(displacement, center, deadzone, sensitivity) ==
          (if -raw < deadzone / center as real then 0.0 else -1.0)
  {
  }

  /** For a non-negative sensitivity the output has the sign of the displacement. */
  lemma AxisSign(displacement: int, center: nat, deadzone: real, sensitivity: real)
    requires center > 0 && sensitivity >= 0.0
    ensures displacement >= 0 ==> AxisValue(displacement, center, deadzone, sensitivity) >= 0.0
    ensures displacement <= 0 ==> AxisValue(displacement, center, deadzone, sensitivity) <= 0.0
  {
    var c := center as real;
    var q := displacement as real / c;
    assert displacement >= 0 ==> q >= 0.0;
    assert displacement <= 0 ==> q <= 0.0;
    assert RawAxis(displacement, center, sensitivity) == q * sensitivity;
  }

  /** Opposite displacements give opposite outputs. */
  lemma AxisAntisymmetric(displacement: int, center: nat, deadzone: real, sensitivity: real)
    requires center > 0
    ensures AxisValue(-displacement, center, deadzone, sensitivity) ==
      -AxisValue(displacement, center, deadzone, sensitivity)
  {
    var c := center as real;
    assert (-displacement) as real / c == -(displacement as real / c);
    assert RawAxis(-displacement, center, sensitivity) == -RawAxis(displacement, center, sensitivity);
  }

  /** A sensitivity of 0 switches the axis off. */
  lemma ZeroSensitivityIsNeutral(displacement: int, center: nat, deadzone: real)
    requires center > 0
    ensures AxisValue(displacement, center, deadzone, 0.0) == 0.0
  {
    assert RawAxis(displacement, center, 0.0) == 0.0;
  }

  /** For a non-negative sensitivity a larger displacement never gives a
      smaller output: the dead zone and the clipping do not reverse motion. */
  lemma AxisMonotone(d1: int, d2: int, center: nat, deadzone: real, sensitivity: real)
    requires center > 0 && sensitivity >= 0.0 && d1 <= d2
    ensures AxisValue(d1, center, deadzone, sensitivity) <= AxisValue(d2, center, deadzone, sensitivity)
  {
    var c := center as real;
    QuotientMonotone(d1 as real, d2 as real, c);
    ProductMonotone(d1 as real / c, d2 as real / c, MAX_JOYSTICK_VALUE);
    ProductMonotone(d1 as real / c * MAX_JOYSTICK_VALUE, d2 as real / c * MAX_JOYSTICK_VALUE, sensitivity);
    var r1, r2 := RawAxis(d1, center, sensitivity), RawAxis(d2, center, sensitivity);
    DeadZoneMonotone(r1, r2, deadzone, center);
    ClipMonotone(DeadZone(r1, deadzone, center), DeadZone(r2, deadzone, center));
  }

  // Monotonicity of each stage, over plain values.

  lemma QuotientMonotone(a: real, b: real, c: real)
    requires a <= b && c > 0.0
    ensures a / c <= b / c
  {
    assert b / c - a / c == (b - a) / c;
  }

  lemma ProductMonotone(a: real, b: real, k: real)
    requires a <= b && k >= 0.0
    ensures a * k <= b * k
  {
    assert b * k - a * k == (b - a) * k;
  }

  lemma DeadZoneMonotone(r1: real, r2: real, threshold: real, center: nat)
    requires center > 0 && r1 <= r2
    ensures DeadZone(r1, threshold, center) <= DeadZone(r2, threshold, center)
  {
  }

  lemma ClipMonotone(a: real, b: real)
    requires a <= b
    ensures Clip(a) <= Clip(b)
  {
  }

  // ---------------------------------------------------------------------
  // Properties of the whole mapper

  /** Per axis the output follows the displacement from the reference, with
      the Y axis inverted: moving the face up (smaller y) raises `jy`. */
  lemma MapSignPerAxis(
    frameWidth: nat, frameHeight: nat, faceX: int, faceY: int, refX: int, refY: int,
    deadzoneX: real, deadzoneY: real, sensitivityX: real, sensitivityY: real)
    requires frameWidth >= 2 && frameHeight >= 2
    requires sensitivityX >= 0.0 && sensitivityY >= 0.0
    ensures var r := MapFaceToJoystick(frameWidth, frameHeight, faceX, faceY, Some(refY), Some(refX),
                                       deadzoneX, deadzoneY, sensitivityX, sensitivityY);
      r.Success? &&
      (faceX >= refX ==> r.value.0 >= 0.0) && (faceX <= refX ==> r.value.0 <= 0.0) &&
      (faceY <= refY ==> r.value.1 >= 0.0) && (faceY >= refY ==> r.value.1 <= 0.0)
  {
    AxisSign(faceX - refX, AxisCenter(frameWidth), deadzoneX, sensitivityX);
    AxisSign(refY - faceY, AxisCenter(frameHeight), deadzoneY, sensitivityY);
  }

  /** Displacements of +d and -d from the reference give opposite outputs on both axes. */
  lemma MapAntisymmetric(
    frameWidth: nat, frameHeight: nat, refX: int, refY: int, dx: int, dy: int,
    deadzoneX: real, deadzoneY: real, sensitivityX: real, sensitivityY: real)
    requires frameWidth >= 2 && frameHeight >= 2
    ensures var plus := MapFaceToJoystick(frameWidth, frameHeight, refX + dx, refY + dy, Some(refY), Some(refX),
                                          deadzoneX, deadzoneY, sensitivityX, sensitivityY);
      var minus := MapFaceToJoystick(frameWidth, frameHeight, refX - dx, refY - dy, Some(refY), Some(refX),
                                     deadzoneX, deadzoneY, sensitivityX, sensitivityY);
      plus.Success? && minus.Success? &&
      minus.value.0 == -plus.value.0 && minus.value.1 == -plus.value.1
  {
    var cx, cy := AxisCenter(frameWidth), AxisCenter(frameHeight);
    AxisAntisymmetric(dx, cx, deadzoneX, sensitivityX);
    AxisAntisymmetric(-dy, cy, deadzoneY, sensitivityY);
    assert (refX - dx) - refX == -dx && (refX + dx) - refX == dx;
    assert refY - (refY + dy) == -dy && refY - (refY - dy) == dy;
  }

  /** The strict comparison, on a 640-pixel-wide frame (centre 320): with a
      dead zone of 20 and sensitivity 5, a 4-pixel displacement gives a raw
      value of exactly 20/320, which is kept rather than zeroed. */
  lemma BoundaryDisplacementIsKept()
    ensures AxisValue(4, 320, 20.0, 5.0) == 0.0625
  {
  }
}
