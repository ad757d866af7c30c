# FaceToJoystick in Dafny

FaceToJoystick turns the position of a face in a webcam stream into the right
stick of a virtual gamepad. Each frame goes through the same steps:

- The program reads the frame and optionally rotates it.
- It asks a cascade detector for face boxes.
- For every box, in detector order, it:
  - takes the box centre;
  - stores that centre as the reference position if none is held yet;
  - maps the displacement from the reference to a joystick pair in [-1, 1] (dead zone, sensitivity, clipping);
  - smooths the pair with an exponential moving average and hands it to the gamepad.
- Between frames, four trackbars change the dead zones and sensitivities.
- The keys work as follows:
  - `r` forgets the reference;
  - `q` quits;
  - `s` restarts the process.

This project models that logic and proves properties of it:

- `JoystickControl` (joystick_control.dfy) is the pure mapper of JoystickControl.py, over exact `real` arithmetic.
- `Constants` (constants.dfy) holds the module globals of constants.py. They are kept as a `Settings` class, because the source changes them in place. It also holds their initial values and the four trackbar callbacks.
- `Helpers` (helpers.dfy) covers the following:
  - the face centre;
  - the capture of the reference, which is set once;
  - the smoothing step;
  - the per-frame face loop. This is a function `ProcessFaces` and an imperative `ProcessFrame` proved against it.
- `MainLoop` (main_loop.dfy) models the `while True` loop of `main()`:
  - The camera is a sequence of captures. A `None` capture is a failed read, and so is a read past the end.
  - The window system is a sequence of per-iteration events: trackbar callbacks, then a key code. Past the end there are no callbacks and the key is -1.
  - `RunLoop` is the imperative loop. It is proved equal to the function `Session`.
- `Wrappers` (wrappers.dfy) defines `Option` for Python's `None` and `Result` for an exception.

Integers are unbounded, as in Python. `//` by 2 is Dafny's `/` (floor division for a positive divisor). `key & 0xFF` is `key % 256`, which also holds for the "no key" code -1 (it gives 255). The mapper's `ZeroDivisionError` occurs when a frame dimension is below 2. It is modelled as `Failure(ZeroDivisionError)`. In `process_frame` that exception ends the program, which the loop models as `Exit.Crashed`.

Two consequences of the code are worth stating:

- The dead-zone comparison in JoystickControl.py is strict `<`. A raw value exactly at `threshold / center` is therefore kept, not zeroed; see `DeadZoneExact` and `BoundaryDisplacementIsKept`.
- The code keeps no tracker state between frames. Every frame is detected afresh, and every box the detector reports is processed.

## Model

| member | source | states |
|---|---|---|
| JoystickControl.Clip | JoystickControl.py:28-29 | the result lies in [-1, 1], equals the input inside that range and saturates to exactly 1 or -1 outside it |
| JoystickControl.AxisCenter | JoystickControl.py:8-9 | `size // 2`: twice the centre is the size, rounded down to even |
| JoystickControl.AxisValue | JoystickControl.py:16-29 | one axis lies in [-1, 1], and a zero displacement gives exactly 0 |
| JoystickControl.MapFaceToJoystick | JoystickControl.py:7-31 | the mapper with the live dead zones and sensitivities, in the argument order used by the caller (reference y before x). It succeeds iff width and height are at least 2, otherwise it raises `ZeroDivisionError`. Both axes lie in [-1, 1]. A missing reference coordinate makes the face its own reference, so the output is (0, 0) |
| JoystickControl.MapFaceToJoystickDefaults | JoystickControl.py:1-31 | the six-parameter definition as written, with the constants 25, 25, 5 and 10. It succeeds iff both dimensions are at least 2, and both axes lie in [-1, 1]. With a reference held, x is 0 iff the pixel displacement is under 5 and y is 0 iff it is under 3, for any frame size |
| JoystickControl.RawAxis | JoystickControl.py:16-21 | the displacement divided by the axis centre, times the sensitivity; `RawAxisScaled` proves raw times centre equals displacement times sensitivity |
| JoystickControl.DeadZone | JoystickControl.py:23-26 | the strict-`<` dead zone; `DeadZoneExact` proves the output is 0 iff the raw value is 0 or strictly inside `threshold / center`, and the boundary value is kept |
| JoystickControl.RawAxisScaled | JoystickControl.py:16-21 | the raw value times the axis centre equals displacement times sensitivity |
| JoystickControl.DeadZoneExact | JoystickControl.py:23-26 | an axis is 0 iff its raw value is 0 or strictly inside `threshold / center`. A raw value exactly at the threshold is kept, as its clipped non-zero value |
| JoystickControl.DeadZoneInPixels | JoystickControl.py:23-26 | for a positive sensitivity an axis is 0 iff the displacement is 0 or abs(displacement) times sensitivity is below the threshold, whatever the frame size |
| JoystickControl.AxisLinear | JoystickControl.py:16-29 | outside the dead zone and inside [-1, 1], the output is the scaled displacement itself: output times centre equals displacement times sensitivity |
| JoystickControl.AxisSaturates | JoystickControl.py:23-29 | a raw value above 1 gives exactly 1 and one below -1 gives exactly -1, unless the dead zone covers it |
| JoystickControl.AxisSign | JoystickControl.py:16-29 | for a non-negative sensitivity the output has the sign of the displacement |
| JoystickControl.AxisAntisymmetric | JoystickControl.py:16-29 | opposite displacements give opposite outputs |
| JoystickControl.ZeroSensitivityIsNeutral | JoystickControl.py:16-21 | sensitivity 0 gives output 0 |
| JoystickControl.AxisMonotone | JoystickControl.py:16-29 | for a non-negative sensitivity the output is monotone in the displacement: the dead zone and clipping never reverse motion |
| JoystickControl.MapSignPerAxis | JoystickControl.py:16-21 | x follows `face_x - ref_x` and y follows `ref_y - face_y`: moving the face up raises y |
| JoystickControl.MapAntisymmetric | JoystickControl.py:7-31 | displacements of +d and -d from the reference give opposite outputs on both axes |
| JoystickControl.BoundaryDisplacementIsKept | JoystickControl.py:23-24 | on a 640-pixel frame with dead zone 20 and sensitivity 5, a 4-pixel move gives exactly 20/320, which is kept, not zeroed |
| Helpers.DefaultsIgnoreTrackbarSettings | helpers.py:69-80 | at the initial trackbar settings of `InitialConfig` (constants.py:2-5), the live-settings mapper and the six-parameter definition disagree on both axes |
| Constants.InitialConfig | constants.py:2-7 | the program starts with smoothing factor 1.0 and no rotation |
| Constants.InitialTrack | constants.py:10-15 | the program starts with no reference and the smoothed pair at (0, 0) |
| Constants.Settings.constructor | constants.py:2-15 | the globals start at their initial values, in a valid state |
| Constants.Settings.OnChangeDeadzoneX | constants.py:17-19 | the x dead zone becomes the new value; every other global is unchanged |
| Constants.Settings.OnChangeDeadzoneY | constants.py:21-23 | the y dead zone becomes the new value; every other global is unchanged |
| Constants.Settings.OnChangeSensitivityX | constants.py:25-27 | the x sensitivity becomes the new value; every other global is unchanged |
| Constants.Settings.OnChangeSensitivityY | constants.py:29-31 | the y sensitivity becomes the new value; every other global is unchanged |
| Helpers.FaceCenter | helpers.py:42-43 | the centre is the lower midpoint of the box on each axis, and it lies inside any box of positive size |
| Helpers.CaptureReference | helpers.py:59-63 | afterwards a reference is always held. An existing one is kept. Otherwise the given centre becomes the reference. The smoothed pair is untouched |
| Helpers.UpdateInitialFacePosition | helpers.py:59-63 | the globals change exactly as `CaptureReference` says, and the configuration is unchanged |
| Helpers.Smooth | helpers.py:83-92 | one smoothing step shrinks the gap to the sample by the factor `1 - alpha`. Factor 1.0 passes the sample through |
| Helpers.SmoothStaysInRange | helpers.py:83-92 | for a factor in [0, 1], a sample and a previous value in [-1, 1] give a new value in [-1, 1] |
| Helpers.ProcessedSize | helpers.py:105-106 | the size the mapper sees is the frame's size, with width and height swapped when the camera is rotated |
| Helpers.UpdateJoystick | helpers.py:66-92 | succeeds iff both dimensions are at least 2. It leaves the reference unchanged, and it keeps the smoothed pair in [-1, 1] for a factor in [0, 1] |
| Helpers.UpdateJoystickValues | helpers.py:66-92 | the globals change exactly as `UpdateJoystick` says. When the mapper raises, nothing changes |
| Helpers.ProcessFaces | helpers.py:115-118 | no faces leaves the state unchanged. The frame raises iff there are faces and a dimension is below 2. Any face leaves a reference held |
| Helpers.ProcessFrame | helpers.py:102-120 | the loop over the boxes, on the globals, ends in the state `ProcessFaces` gives for the rotated size, and the configuration is unchanged |
| Helpers.ProcessFacesKeepsReference | helpers.py:115-118 | once a reference is held, no face changes it |
| Helpers.ReferenceFromFirstFace | helpers.py:115-118 | with several faces the reference comes from the first box in detector order, unless one was already held |
| Helpers.ProcessFacesStaysInRange | helpers.py:115-118 | for a factor in [0, 1] the smoothed pair stays in [-1, 1] for any number of faces |
| Helpers.ProcessFacesSplit | helpers.py:115-118 | processing `a + b` is processing `a`, then, unless it raised, `b` |
| Helpers.PassThroughAtFullSmoothing | helpers.py:83-92 | with factor 1.0 the smoothed pair after a frame is the mapped value of its last face |
| Helpers.FirstFaceAfterResetIsNeutral | helpers.py:115-118 | with no reference held, a single face becomes the reference and, at factor 1.0, the pair is (0, 0) |
| Helpers.SmoothRepeated | helpers.py:83-92 | after n steps towards the same sample, the gap is `(1 - alpha)^n` times the initial gap |
| Helpers.SmoothApproachesMonotonically | helpers.py:83-92 | for a factor in [0, 1] each step never moves further from the sample |
| Helpers.RepeatedFaceIsRepeatedSmoothing | helpers.py:115-118 | n copies of one box apply n smoothing steps towards that box's mapped value on each axis. With no reference held, the box becomes its own reference and that value is (0, 0) |
| MainLoop.KeyCode | main.py:45 | `key & 0xFF` lies in 0..255, agrees with the key modulo 256 and is the key itself when it is already a byte |
| MainLoop.Dispatch | main.py:45-52 | reset iff the low byte is `r`, quit iff `q`, restart iff `s` |
| MainLoop.ApplyKey | main.py:46-48 | `r` clears both reference coordinates and keeps the smoothed pair. Every other action changes nothing |
| MainLoop.KeyEffects | main.py:45-52 | pressing `r` twice is pressing it once. A key other than `r`, `q` and `s`, and no key (-1), continues the loop |
| MainLoop.ApplyChange | constants.py:17-31 | a trackbar callback never changes the smoothing factor or the rotation flag |
| MainLoop.ApplyChanges | constants.py:17-31 | a sequence of callbacks never changes the smoothing factor or the rotation flag |
| MainLoop.DeliverTrackbarEvents | main.py:21-28 | running the callbacks one by one on the globals gives `ApplyChanges` of the old configuration, and the tracking state is unchanged |
| MainLoop.Session | main.py:30-52 | the loop from iteration i stops at an iteration no earlier than i, and no later than the last recorded capture |
| MainLoop.RunLoop | main.py:30-52 | the imperative loop ends with the state, exit cause and iteration that `Session` gives, and keeps the globals valid |
| MainLoop.SessionStopsOnlyForCause | main.py:30-52 | the loop stops only on a failed read, on `q`, on `s` or on a frame that raised. In every earlier iteration the read succeeded, the frame raised nothing (no faces, or both dimensions at least 2) and the key was neither `q` nor `s` |
| MainLoop.SessionKeepsFixedSettings | constants.py:6-7 | the smoothing factor and the rotation flag keep their initial values for the whole session |
| MainLoop.SessionStaysInRange | main.py:30-52 | for a factor in [0, 1] the smoothed pair stays in [-1, 1] for the whole session |

## Left out

- Every OpenCV call is left out: capture, rotation of the pixels, drawing, blur, `imshow`, full-screen mode and trackbar creation. A frame is its size plus the detector's boxes.
- The face detector (FaceDetection.py) is a cascade classifier over pixels. Its output is an input of the model.
- The gamepad (`vgamepad`) is left out. The value it receives is the smoothed pair in the tracking state.
- `display_joystick_info` and `display_text` only draw text.
- `os.execv` on `s` replaces the process. The model ends the session with `Exit.Restarted`. A new process would start again from the initial values of `Constants`.
- Floating point is left out. All arithmetic is exact over `real`, so rounding of the mapper and of the smoother is not modelled.
- `SMOOTHING = 0.5` in JoystickControl.py is never read and is not modelled.
- The trackbar ranges (0..100 and 0..20) are enforced by the window system. The callbacks accept any integer, and so does the model.
- JoystickControl.MapFaceToJoystickDefaults: the call in helpers.py passes ten arguments to this six-parameter definition. As written, that call raises `TypeError` for every detected face. The model does not reproduce the `TypeError`. The caller uses the ten-parameter mapper instead; see Findings.
- Helpers.SmoothApproachesMonotonically: states monotone approach only. It does not state convergence to the sample in the limit.

## Findings

| source | as written | input that shows it | evidently intended | confidence | as-written member | corrected member |
|---|---|---|---|---|---|---|
| helpers.py:69-80, JoystickControl.py:7 | `update_joystick_values` passes the four trackbar settings as extra arguments to a six-parameter `map_face_to_joystick`. The definition reads its own constants 25/25/5/10, so the trackbars have no effect (and the call as written raises `TypeError`) | 640x480 frame, reference (320, 240), face (324, 240), initial settings 20/20/5/5: live settings give x = 0.0625; the definition gives 0. Face (320, 236): y = 20/240 against 40/240 | the mapper takes the dead zones and sensitivities as parameters, in the caller's order | not executed | JoystickControl.MapFaceToJoystickDefaults, Helpers.DefaultsIgnoreTrackbarSettings | JoystickControl.MapFaceToJoystick |
