/** The module-level state of constants.py: the live configuration, the
    reference face centre and the smoothed joystick pair, all changed in
    place by the trackbar callbacks and the helpers. */
module Constants {
  import opened Wrappers

  /** The configuration part of the state. */
  datatype Config = Config(
    deadzoneX: int,
    deadzoneY: int,
    sensitivityY: int,
    sensitivityX: int,
    smoothingFactor: real,
    rotateCamera: bool)

  /** The tracking part of the state: the reference centre (either
      coordinate may be `None`) and the smoothed joystick pair. */
  datatype TrackState = TrackState(
    initialFaceX: Option<int>,
    initialFaceY: Option<int>,
    smoothedX: real,
    smoothedY: real)

  /** The configuration the program starts with. */
  function InitialConfig(): (c: Config)
    ensures c.smoothingFactor == 1.0 && !c.rotateCamera
  {
    Config(20, 20, 5, 5, 1.0, false)
  }

  /** The tracking state the program starts with: no reference, joystick centred. */
  function InitialTrack(): (t: TrackState)
    ensures !HasReference(t) && t.smoothedX == 0.0 && t.smoothedY == 0.0
  {
    TrackState(None, None, 0.0, 0.0)
  }

  /** Both reference coordinates are set. */
  predicate HasReference(t: TrackState) {
    t.initialFaceX.Some? && t.initialFaceY.Some?
  }

  /** The smoothed pair lies in the joystick's range. */
  predicate InRange(t: TrackState) {
    -1.0 <= t.smoothedX <= 1.0 && -1.0 <= t.smoothedY <= 1.0
  }

  /** The module's globals as one object. */
  class Settings {
    var deadzoneX: int
    var deadzoneY: int
    var sensitivityY: int
    var sensitivityX: int
    var smoothingFactor: real
    var rotateCamera: bool
    var initialFaceX: Option<int>
    var initialFaceY: Option<int>
    var smoothedX: real
    var smoothedY: real

    /** The configuration fields as a value. */
    function Configuration(): Config
      reads this
    {
      Config(deadzoneX, deadzoneY, sensitivityY, sensitivityX, smoothingFactor, rotateCamera)
    }

    /** The tracking fields as a value. */
    function Tracking(): TrackState
      reads this
    {
      TrackState(initialFaceX, initialFaceY, smoothedX, smoothedY)
    }

    /** The smoothing factor is a weight in [0, 1] and the smoothed pair is
        a joystick position. */
    ghost predicate Valid()
      reads this
    {
      0.0 <= smoothingFactor <= 1.0 && InRange(Tracking())
    }

    /** The values the module is loaded with. */
    constructor ()
      ensures Valid()
      ensures Configuration() == InitialConfig() && Tracking() == InitialTrack()
    {
      deadzoneX, deadzoneY := 20, 20;
      sensitivityY, sensitivityX := 5, 5;
      smoothingFactor := 1.0;
      rotateCamera := false;
      initialFaceX, initialFaceY := None, None;
      smoothedX, smoothedY := 0.0, 0.0;
    }

    /** Trackbar callback `on_change_deadzone_x`. */
    method OnChangeDeadzoneX(val: int)
      modifies this
      ensures Configuration() == old(Configuration()).(deadzoneX := val)
      ensures Tracking() == old(Tracking())
    {
      deadzoneX := val;
    }

    /** Trackbar callback `on_change_deadzone_y`. */
    method OnChangeDeadzoneY(val: int)
      modifies this
      ensures Configuration() == old(Configuration()).(deadzoneY := val)
      ensures Tracking() == old(Tracking())
    {
      deadzoneY := val;
    }

    /** Trackbar callback `on_change_sensitivity_x`. */
    method OnChangeSensitivityX(val: int)
      modifies this
      ensures Configuration() == old(Configuration()).(sensitivityX := val)
      ensures Tracking() == old(Tracking())
    {
      sensitivityX := val;
    }

    /** Trackbar callback `on_change_sensitivity_y`. */
    method OnChangeSensitivityY(val: int)
      modifies this
      ensures Configuration() == old(Configuration()).(sensitivityY := val)
      ensures Tracking() == old(Tracking())
    {
      sensitivityY := val;
    }
  }
}
