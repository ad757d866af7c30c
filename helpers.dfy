/** The per-frame logic of helpers.py: the centre of each detected face box,
    the set-once capture of the reference centre, the mapping to joystick
    values and their exponential smoothing, applied to every box the
    detector reports, in the detector's order. */
module Helpers {
  import opened Wrappers
  import opened JoystickControl
  import opened Constants

  /** A detector box `(x, y, w, h)` in pixels. */
  datatype Box = Box(x: int, y: int, w: int, h: int)

  /** One captured frame: its size and the boxes the face detector reports
      on it (the detector itself is not modelled). */
  datatype Frame = Frame(width: nat, height: nat, faces: seq<Box>)

  /** The result of processing the faces of one frame: the new tracking
      state, and whether the frame was processed without an exception. */
  datatype FrameOutcome = FrameOutcome(track: TrackState, ok: bool)

  /** The centre `(x + w // 2, y + h // 2)` computed in `draw_face`: the
      lower midpoint of the box along each axis, inside any non-empty box. */
  function FaceCenter(b: Box): (c: (int, int))
    ensures 2 * (c.0 - b.x) <= b.w <= 2 * (c.0 - b.x) + 1
    ensures 2 * (c.1 - b.y) <= b.h <= 2 * (c.1 - b.y) + 1
    ensures b.w > 0 ==> b.x <= c.0 < b.x + b.w
    ensures b.h > 0 ==> b.y <= c.1 < b.y + b.h
  {
    (b.x + b.w / 2, b.y + b.h / 2)
  }

  /** `update_initial_face_position`: the reference becomes the given centre
      when either coordinate is missing, and is left alone otherwise. */
  function CaptureReference(t: TrackState, faceX: int, faceY: int): (r: TrackState)
    ensures HasReference(r)
    ensures HasReference(t) ==> r == t
    ensures !HasReference(t) ==> r.initialFaceX == Some(faceX) && r.initialFaceY == Some(faceY)
    ensures r.smoothedX == t.smoothedX && r.smoothedY == t.smoothedY
  {
    if t.initialFaceX.None? || t.initialFaceY.None? then
      t.(initialFaceX := Some(faceX), initialFaceY := Some(faceY))
    else
      t
  }

  /** One exponential-moving-average step `alpha * raw + (1 - alpha) * prev`:
      the distance to the new sample shrinks by the factor `1 - alpha`. */
  function Smooth(alpha: real, raw: real, prev: real): (s: real)
    ensures s - raw == (1.0 - alpha) * (prev - raw)
    ensures alpha == 1.0 ==> s == raw
  {
    alpha * raw + (1.0 - alpha) * prev
  }

  /** A smoothing factor in [0, 1] makes the step a convex combination, so a
      sample and a previous value in [-1, 1] give a new value in [-1, 1]. */
  lemma SmoothStaysInRange(alpha: real, raw: real, prev: real)
    requires 0.0 <= alpha <= 1.0 && -1.0 <= raw <= 1.0 && -1.0 <= prev <= 1.0
    ensures -1.0 <= Smooth(alpha, raw, prev) <= 1.0
  {
    var beta := 1.0 - alpha;
    MulNonNegative(alpha, 1.0 - raw);
    MulNonNegative(alpha, raw + 1.0);
    MulNonNegative(beta, 1.0 - prev);
    MulNonNegative(beta, prev + 1.0);
  }

  lemma MulNonNegative(a: real, b: real)
    requires a >= 0.0 && b >= 0.0
    ensures a * b >= 0.0
  {
  }

  /** The frame size the mapper sees: a frame rotated by 90 degrees swaps
      its width and height. */
  function ProcessedSize(c: Config, f: Frame): (size: (nat, nat))
    ensures c.rotateCamera ==> size == (f.height, f.width)
    ensures !c.rotateCamera ==> size == (f.width, f.height)
  {
    if c.rotateCamera then (f.height, f.width) else (f.width, f.height)
  }

  /** The value `update_joystick_values` computes: map the face against the
      stored reference with the live settings, then smooth each axis
      independently. `None` when the mapper raises. */
  function UpdateJoystick(c: Config, width: nat, height: nat, t: TrackState, faceX: int, faceY: int)
    : (r: Option<TrackState>)
    ensures r.Some? <==> width >= 2 && height >= 2
    ensures r.Some? ==> r.value.initialFaceX == t.initialFaceX && r.value.initialFaceY == t.initialFaceY
    ensures r.Some? && 0.0 <= c.smoothingFactor <= 1.0 && InRange(t) ==> InRange(r.value)
  {
    match MapFaceToJoystick(width, height, faceX, faceY, t.initialFaceY, t.initialFaceX,
                            c.deadzoneX as real, c.deadzoneY as real,
                            c.sensitivityX as real, c.sensitivityY as real)
    case Failure(_) => None
    case Success((jx, jy)) =>
      var next := t.(smoothedX := Smooth(c.smoothingFactor, jx, t.smoothedX),
                     smoothedY := Smooth(c.smoothingFactor, jy, t.smoothedY));
      assert 0.0 <= c.smoothingFactor <= 1.0 && InRange(t) ==> InRange(next) by {
        if 0.0 <= c.smoothingFactor <= 1.0 && InRange(t) {
          SmoothStaysInRange(c.smoothingFactor, jx, t.smoothedX);
          SmoothStaysInRange(c.smoothingFactor, jy, t.smoothedY);
        }
      }
      Some(next)
  }

  /** The loop of `process_frame`: for each box in detector order, capture the
      reference from its centre, then map and smooth. The first exception
      stops the loop, keeping the reference captured just before it. */
  function ProcessFaces(c: Config, width: nat, height: nat, t: TrackState, faces: seq<Box>)
    : (r: FrameOutcome)
    ensures faces == [] ==> r == FrameOutcome(t, true)
    ensures r.ok <==> faces == [] || (width >= 2 && height >= 2)
    ensures faces != [] ==> HasReference(r.track)
    decreases |faces|
  {
    if faces == [] then
      FrameOutcome(t, true)
    else
      var center := FaceCenter(faces[0]);
      var captured := CaptureReference(t, center.0, center.1);
      match UpdateJoystick(c, width, height, captured, center.0, center.1)
      case None => FrameOutcome(captured, false)
      case Some(next) => ProcessFaces(c, width, height, next, faces[1..])
  }

  /** `update_initial_face_position`, changing the globals in place. */
  method UpdateInitialFacePosition(s: Settings, faceX: int, faceY: int)
    modifies s
    ensures s.Configuration() == old(s.Configuration())
    ensures s.Tracking() == CaptureReference(old(s.Tracking()), faceX, faceY)
  {
    if s.initialFaceX.None? || s.initialFaceY.None? {
      s.initialFaceX := Some(faceX);
      s.initialFaceY := Some(faceY);
    }
  }

  /** `update_joystick_values` without the gamepad output; `ok` is false when
      the mapper raised, in which case nothing was changed. */
  method UpdateJoystickValues(s: Settings, width: nat, height: nat, faceX: int, faceY: int)
    returns (ok: bool)
    modifies s
    ensures s.Configuration() == old(s.Configuration())
    ensures var u := UpdateJoystick(old(s.Configuration()), width, height, old(s.Tracking()), faceX, faceY);
      ok == u.Some? && s.Tracking() == if ok then u.value else old(s.Tracking())
  {
    var mapped := MapFaceToJoystick(width, height, faceX, faceY, s.initialFaceY, s.initialFaceX,
                                    s.deadzoneX as real, s.deadzoneY as real,
                                    s.sensitivityX as real, s.sensitivityY as real);
    if mapped.Failure? {
      return false;
    }
    var (jx, jy) := mapped.value;
    s.smoothedX := s.smoothingFactor * jx + (1.0 - s.smoothingFactor) * s.smoothedX;
    s.smoothedY := s.smoothingFactor * jy + (1.0 - s.smoothingFactor) * s.smoothedY;
    ok := true;
  }

  /** `process_frame` without the image work (rotation, drawing, overlay): every
      detected box updates the reference and the smoothed pair in turn. */
  method ProcessFrame(s: Settings, frame: Frame) returns (ok: bool)
    modifies s
    ensures s.Configuration() == old(s.Configuration())
    ensures var size := ProcessedSize(old(s.Configuration()), frame);
      FrameOutcome(s.Tracking(), ok) ==
        ProcessFaces(old(s.Configuration()), size.0, size.1, old(s.Tracking()), frame.faces)
  {
    var width, height := frame.width, frame.height;
    if s.rotateCamera {
      width, height := frame.height, frame.width;
    }
    ghost var c := s.Configuration();
    ghost var goal := ProcessFaces(c, width, height, s.Tracking(), frame.faces);
    var i := 0;
    while i < |frame.faces|
      invariant 0 <= i <= |frame.faces|
      invariant s.Configuration() == c
      invariant ProcessFaces(c, width, height, s.Tracking(), frame.faces[i..]) == goal
    {
      var faces := frame.faces[i..];
      assert faces[0] == frame.faces[i] && faces[1..] == frame.faces[i + 1..];
      var (faceX, faceY) := FaceCenter(frame.faces[i]);
      UpdateInitialFacePosition(s, faceX, faceY);
      ok := UpdateJoystickValues(s, width, height, faceX, faceY);
      if !ok {
        return;
      }
      i := i + 1;
    }
    ok := true;
  }

  // ---------------------------------------------------------------------
  // Properties of the per-frame loop

  /** Once a reference is held, processing faces never changes it. */
  lemma {:induction false} ProcessFacesKeepsReference(
    c: Config, width: nat, height: nat, t: TrackState, faces: seq<Box>)
    requires HasReference(t)
    ensures var r := ProcessFaces(c, width, height, t, faces);
      r.track.initialFaceX == t.initialFaceX && r.track.initialFaceY == t.initialFaceY
    decreases |faces|
  {
    if faces != [] {
      var center := FaceCenter(faces[0]);
      var captured := CaptureReference(t, center.0, center.1);
      var u := UpdateJoystick(c, width, height, captured, center.0, center.1);
      if u.Some? {
        ProcessFacesKeepsReference(c, width, height, u.value, faces[1..]);
      }
    }
  }

  /** With several faces the reference comes from the first box in detector
      order, unless one was already held. */
  lemma ReferenceFromFirstFace(c: Config, width: nat, height: nat, t: TrackState, faces: seq<Box>)
    requires faces != []
    ensures var r := ProcessFaces(c, width, height, t, faces);
      var center := FaceCenter(faces[0]);
      if HasReference(t) then
        r.track.initialFaceX == t.initialFaceX && r.track.initialFaceY == t.initialFaceY
      else
        r.track.initialFaceX == Some(center.0) && r.track.initialFaceY == Some(center.1)
  {
    var center := FaceCenter(faces[0]);
    var captured := CaptureReference(t, center.0, center.1);
    var u := UpdateJoystick(c, width, height, captured, center.0, center.1);
    if u.Some? {
      ProcessFacesKeepsReference(c, width, height, u.value, faces[1..]);
    }
  }

  /** With a smoothing factor in [0, 1], a smoothed pair in range stays in
      range however many faces a frame holds. */
  lemma {:induction false} ProcessFacesStaysInRange(
    c: Config, width: nat, height: nat, t: TrackState, faces: seq<Box>)
    requires 0.0 <= c.smoothingFactor <= 1.0 && InRange(t)
    ensures InRange(ProcessFaces(c, width, height, t, faces).track)
    decreases |faces|
  {
    if faces != [] {
      var center := FaceCenter(faces[0]);
      var captured := CaptureReference(t, center.0, center.1);
      var u := UpdateJoystick(c, width, height, captured, center.0, center.1);
      if u.Some? {
        ProcessFacesStaysInRange(c, width, height, u.value, faces[1..]);
      }
    }
  }

  /** The boxes are handled one after another: processing `a + b` is
      processing `a` and then, if no exception occurred, `b`. */
  lemma {:induction false} ProcessFacesSplit(
    c: Config, width: nat, height: nat, t: TrackState, a: seq<Box>, b: seq<Box>)
    ensures var first := ProcessFaces(c, width, height, t, a);
      ProcessFaces(c, width, height, t, a + b) ==
        if first.ok then ProcessFaces(c, width, height, first.track, b) else first
    decreases |a|
  {
    if a == [] {
      assert a + b == b;
    } else {
      assert (a + b)[0] == a[0] && (a + b)[1..] == a[1..] + b;
      var center := FaceCenter(a[0]);
      var captured := CaptureReference(t, center.0, center.1);
      var u := UpdateJoystick(c, width, height, captured, center.0, center.1);
      if u.Some? {
        ProcessFacesSplit(c, width, height, u.value, a[1..], b);
      }
    }
  }

  /** With the default smoothing factor 1.0 the smoothed pair after a frame
      is the mapped value of the frame's last face against the reference. */
  lemma {:induction false} PassThroughAtFullSmoothing(
    c: Config, width: nat, height: nat, t: TrackState, faces: seq<Box>)
    requires c.smoothingFactor == 1.0 && faces != [] && width >= 2 && height >= 2
    ensures var r := ProcessFaces(c, width, height, t, faces);
      var last := FaceCenter(faces[|faces| - 1]);
      MapFaceToJoystick(width, height, last.0, last.1, r.track.initialFaceY, r.track.initialFaceX,
                        c.deadzoneX as real, c.deadzoneY as real,
                        c.sensitivityX as real, c.sensitivityY as real)
        == Success((r.track.smoothedX, r.track.smoothedY))
    decreases |faces|
  {
    var center := FaceCenter(faces[0]);
    var captured := CaptureReference(t, center.0, center.1);
    var u := UpdateJoystick(c, width, height, captured, center.0, center.1);
    if |faces| == 1 {
      assert faces[1..] == [];
    } else {
      assert faces[1..][|faces[1..]| - 1] == faces[|faces| - 1];
      PassThroughAtFullSmoothing(c, width, height, u.value, faces[1..]);
    }
  }

  /** After a reset, the first face seen becomes the reference and, with the
      default smoothing factor, the joystick is centred. */
  lemma FirstFaceAfterResetIsNeutral(c: Config, width: nat, height: nat, t: TrackState, b: Box)
    requires !HasReference(t) && c.smoothingFactor == 1.0 && width >= 2 && height >= 2
    ensures var r := ProcessFaces(c, width, height, t, [b]);
      r.ok && r.track.initialFaceX == Some(FaceCenter(b).0) && r.track.initialFaceY == Some(FaceCenter(b).1) &&
      r.track.smoothedX == 0.0 && r.track.smoothedY == 0.0
  {
    PassThroughAtFullSmoothing(c, width, height, t, [b]);
    ReferenceFromFirstFace(c, width, height, t, [b]);
  }

  // ---------------------------------------------------------------------
  // Properties of the smoothing

  function Pow(b: real, n: nat): real {
    if n == 0 then 1.0 else b * Pow(b, n - 1)
  }

  /** The smoothed value after the same raw sample was applied `n` times:
      the gap to the sample is `(1 - alpha)^n` times the initial gap. */
  function SmoothRepeated(alpha: real, raw: real, s0: real, n: nat): (s: real)
    ensures s - raw == Pow(1.0 - alpha, n) * (s0 - raw)
  {
    if n == 0 then s0
    else
      var prev := SmoothRepeated(alpha, raw, s0, n - 1);
      ScaleTwice(Smooth(alpha, raw, prev) - raw, prev - raw, s0 - raw, 1.0 - alpha, Pow(1.0 - alpha, n - 1));
      Smooth(alpha, raw, prev)
  }

  /** For a smoothing factor in [0, 1] each step moves no further from the
      sample: the smoothed value approaches it monotonically. */
  lemma {:induction false} SmoothApproachesMonotonically(alpha: real, raw: real, s0: real, n: nat)
    requires 0.0 <= alpha <= 1.0
    ensures Abs(SmoothRepeated(alpha, raw, s0, n + 1) - raw) <= Abs(SmoothRepeated(alpha, raw, s0, n) - raw)
  {
    Contraction(SmoothRepeated(alpha, raw, s0, n + 1) - raw, SmoothRepeated(alpha, raw, s0, n) - raw, 1.0 - alpha);
  }

  // Arithmetic steps over plain values, kept apart from the recursive
  // definitions so that each proof above needs only linear reasoning.

  lemma ScaleTwice(a: real, b: real, c: real, x: real, y: real)
    requires a == x * b && b == y * c
    ensures a == (x * y) * c
  {
  }

  lemma AbsProduct(a: real, b: real)
    ensures Abs(a * b) == Abs(a) * Abs(b)
  {
    if a < 0.0 && b < 0.0 {
      assert a * b == (-a) * (-b);
    } else if a < 0.0 {
      assert -(a * b) == (-a) * b;
    } else if b < 0.0 {
      assert -(a * b) == a * (-b);
    }
  }

  lemma Contraction(next: real, prev: real, b: real)
    requires next == b * prev && 0.0 <= b <= 1.0
    ensures Abs(next) <= Abs(prev)
  {
    AbsProduct(b, prev);
    MulNonNegative(1.0 - b, Abs(prev));
  }

  /** A face box held in place for `n` boxes in a row drives both smoothed
      axes by `n` smoothing steps towards that box's mapped value. With no
      reference held the box becomes its own reference, and that value is
      (0, 0). */
  lemma {:induction false} RepeatedFaceIsRepeatedSmoothing(
    c: Config, width: nat, height: nat, t: TrackState, b: Box, n: nat)
    requires width >= 2 && height >= 2
    ensures var center := FaceCenter(b);
      var m := MapFaceToJoystick(width, height, center.0, center.1, t.initialFaceY, t.initialFaceX,
                                 c.deadzoneX as real, c.deadzoneY as real,
                                 c.sensitivityX as real, c.sensitivityY as real);
      var r := ProcessFaces(c, width, height, t, seq(n, _ => b));
      r.ok && m.Success? &&
      r.track.smoothedX == SmoothRepeated(c.smoothingFactor, m.value.0, t.smoothedX, n) &&
      r.track.smoothedY == SmoothRepeated(c.smoothingFactor, m.value.1, t.smoothedY, n)
  {
    if n > 0 {
      var center := FaceCenter(b);
      var faces := seq(n, _ => b);
      var rest := seq(n - 1, _ => b);
      assert faces == rest + [b];
      ProcessFacesSplit(c, width, height, t, rest, [b]);
      RepeatedFaceIsRepeatedSmoothing(c, width, height, t, b, n - 1);
      var before := ProcessFaces(c, width, height, t, rest).track;
      var captured := CaptureReference(before, center.0, center.1);
      if HasReference(t) {
        ProcessFacesKeepsReference(c, width, height, t, rest);
      } else {
        if n > 1 {
          ReferenceFromFirstFace(c, width, height, t, rest);
        }
        assert captured.initialFaceX == Some(center.0) && captured.initialFaceY == Some(center.1);
        assert AxisValue(0, AxisCenter(width), c.deadzoneX as real, c.sensitivityX as real) == 0.0;
        assert AxisValue(0, AxisCenter(height), c.deadzoneY as real, c.sensitivityY as real) == 0.0;
      }
    }
  }

  /** The six-parameter definition ignores the trackbar settings: at the
      initial settings (dead zone 20, sensitivity 5 on both axes) a 4-pixel
      move to the right on a 640x480 frame gives 0.0625 through the live
      settings but 0 through the definition's own constants, and a 4-pixel
      move up gives 20/240 and 40/240. */
  lemma DefaultsIgnoreTrackbarSettings()
    ensures var c := InitialConfig();
      MapFaceToJoystick(640, 480, 324, 240, Some(240), Some(320),
                        c.deadzoneX as real, c.deadzoneY as real,
                        c.sensitivityX as real, c.sensitivityY as real) == Success((0.0625, 0.0))
    ensures MapFaceToJoystickDefaults(640, 480, 324, 240, Some(240), Some(320)) == Success((0.0, 0.0))
    ensures var c := InitialConfig();
      MapFaceToJoystick(640, 480, 320, 236, Some(240), Some(320),
                        c.deadzoneX as real, c.deadzoneY as real,
                        c.sensitivityX as real, c.sensitivityY as real) == Success((0.0, 20.0 / 240.0))
    ensures MapFaceToJoystickDefaults(640, 480, 320, 236, Some(240), Some(320)) == Success((0.0, 40.0 / 240.0))
  {
  }
}
