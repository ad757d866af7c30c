/** The frame loop of `main()` in main.py: read a frame, process it, let
    the window system run the trackbar callbacks and return a key, then
    dispatch on the key. The camera and the window system are inputs: a
    sequence of frame captures (`None` for a failed read) and a sequence of
    per-iteration window events. */
module MainLoop {
  import opened Wrappers
  import opened Constants
  import opened Helpers

  /** A trackbar movement, delivered to its `on_change_*` callback. */
  datatype TrackbarChange =
    | DeadzoneX(val: int)
    | DeadzoneY(val: int)
    | SensitivityX(val: int)
    | SensitivityY(val: int)

  /** What one key wait delivers: the trackbar callbacks it runs, in order,
      then the key code it returns (-1 when no key was pressed). */
  datatype UiEvents = UiEvents(changes: seq<TrackbarChange>, key: int)

  datatype KeyAction = ResetReference | Quit | Restart | Continue

  /** Why the loop stopped: a failed frame read, `q`, `s` (the process
      replaces itself), or an exception raised while processing a frame. */
  datatype Exit = ReadFailed | QuitPressed | Restarted | Crashed

  /** The state when the loop stops, why it stopped, and the index of the
      iteration in which it stopped. */
  datatype SessionEnd = SessionEnd(config: Config, track: TrackState, exit: Exit, iteration: nat)

  /** `key & 0xFF`: the low 8 bits of the key code (Python's `&` on a
      negative integer acts on its two's complement). */
  function KeyCode(raw: int): (k: int)
    ensures 0 <= k < 256
    ensures (raw - k) % 256 == 0
    ensures 0 <= raw < 256 ==> k == raw
  {
    raw % 256
  }

  /** The key dispatch: `r` resets, `q` quits, `s` restarts, any other code continues. */
  function Dispatch(raw: int): (a: KeyAction)
    ensures a == ResetReference <==> KeyCode(raw) == 'r' as int
    ensures a == Quit <==> KeyCode(raw) == 'q' as int
    ensures a == Restart <==> KeyCode(raw) == 's' as int
  {
    var key := KeyCode(raw);
    if key == 'r' as int then ResetReference
    else if key == 'q' as int then Quit
    else if key == 's' as int then Restart
    else Continue
  }

  /** The effect of a key on the tracking state: `r` forgets the reference,
      so the next face seen becomes the new one; nothing else changes it. */
  function ApplyKey(t: TrackState, a: KeyAction): (r: TrackState)
    ensures a == ResetReference ==>
      r.initialFaceX.None? && r.initialFaceY.None? &&
      r.smoothedX == t.smoothedX && r.smoothedY == t.smoothedY
    ensures a != ResetReference ==> r == t
  {
    if a == ResetReference then t.(initialFaceX := None, initialFaceY := None) else t
  }

  /** The effect of one trackbar callback on the configuration. */
  function ApplyChange(c: Config, ch: TrackbarChange): (r: Config)
    ensures r.smoothingFactor == c.smoothingFactor && r.rotateCamera == c.rotateCamera
  {
    match ch
    case DeadzoneX(v) => c.(deadzoneX := v)
    case DeadzoneY(v) => c.(deadzoneY := v)
    case SensitivityX(v) => c.(sensitivityX := v)
    case SensitivityY(v) => c.(sensitivityY := v)
  }

  /** The callbacks of one key wait, in order. */
  function ApplyChanges(c: Config, changes: seq<TrackbarChange>): (r: Config)
    ensures r.smoothingFactor == c.smoothingFactor && r.rotateCamera == c.rotateCamera
    decreases |changes|
  {
    if changes == [] then c else ApplyChanges(ApplyChange(c, changes[0]), changes[1..])
  }

  /** `cap.read()` in iteration `i`; a read past the recorded frames fails. */
  function CameraRead(captures: seq<Option<Frame>>, i: nat): Option<Frame> {
    if i < |captures| then captures[i] else None
  }

  /** The window events of iteration `i`; past the recorded ones, no
      trackbar moves and no key is pressed. */
  function EventsAt(ui: seq<UiEvents>, i: nat): UiEvents {
    if i < |ui| then ui[i] else UiEvents([], -1)
  }

  /** The loop from iteration `i` on, as a function of its inputs. */
  function Session(c: Config, t: TrackState, captures: seq<Option<Frame>>, ui: seq<UiEvents>, i: nat)
    : (r: SessionEnd)
    ensures i <= r.iteration
    ensures i <= |captures| ==> r.iteration <= |captures|
    decreases |captures| - i
  {
    match CameraRead(captures, i)
    case None => SessionEnd(c, t, ReadFailed, i)
    case Some(frame) =>
      var size := ProcessedSize(c, frame);
      var out := ProcessFaces(c, size.0, size.1, t, frame.faces);
      if !out.ok then
        SessionEnd(c, out.track, Crashed, i)
      else
        var events := EventsAt(ui, i);
        var c' := ApplyChanges(c, events.changes);
        var action := Dispatch(events.key);
        var t' := ApplyKey(out.track, action);
        if action == Quit then SessionEnd(c', t', QuitPressed, i)
        else if action == Restart then SessionEnd(c', t', Restarted, i)
        else Session(c', t', captures, ui, i + 1)
  }

  /** The window system delivering the trackbar callbacks of one key wait. */
  method DeliverTrackbarEvents(s: Settings, changes: seq<TrackbarChange>)
    modifies s
    ensures s.Configuration() == ApplyChanges(old(s.Configuration()), changes)
    ensures s.Tracking() == old(s.Tracking())
  {
    ghost var goal := ApplyChanges(s.Configuration(), changes);
    var i := 0;
    while i < |changes|
      invariant 0 <= i <= |changes|
      invariant ApplyChanges(s.Configuration(), changes[i..]) == goal
      invariant s.Tracking() == old(s.Tracking())
    {
      assert changes[i..][0] == changes[i] && changes[i..][1..] == changes[i + 1..];
      match changes[i] {
        case DeadzoneX(v) => s.OnChangeDeadzoneX(v);
        case DeadzoneY(v) => s.OnChangeDeadzoneY(v);
        case SensitivityX(v) => s.OnChangeSensitivityX(v);
        case SensitivityY(v) => s.OnChangeSensitivityY(v);
      }
      i := i + 1;
    }
  }

  /** The `while True` loop of `main()`, on the module state `s`. */
  method RunLoop(s: Settings, captures: seq<Option<Frame>>, ui: seq<UiEvents>)
    returns (exit: Exit, iteration: nat)
    requires s.Valid()
    modifies s
    ensures s.Valid()
    ensures SessionEnd(s.Configuration(), s.Tracking(), exit, iteration) ==
      Session(old(s.Configuration()), old(s.Tracking()), captures, ui, 0)
  {
    ghost var goal := Session(s.Configuration(), s.Tracking(), captures, ui, 0);
    var i := 0;
    while true
      invariant i <= |captures|
      invariant s.Valid()
      invariant Session(s.Configuration(), s.Tracking(), captures, ui, i) == goal
      decreases |captures| - i
    {
      var read := CameraRead(captures, i);
      if read.None? {
        return ReadFailed, i;
      }
      var frame := read.value;
      ghost var size := ProcessedSize(s.Configuration(), frame);
      ProcessFacesStaysInRange(s.Configuration(), size.0, size.1, s.Tracking(), frame.faces);
      var ok := ProcessFrame(s, frame);
      if !ok {
        return Crashed, i;
      }
      var events := EventsAt(ui, i);
      DeliverTrackbarEvents(s, events.changes);
      var action := Dispatch(events.key);
      if action == ResetReference {
        s.initialFaceX := None;
        s.initialFaceY := None;
      } else if action == Quit {
        return QuitPressed, i;
      } else if action == Restart {
        return Restarted, i;
      }
      i := i + 1;
    }
  }

  // ---------------------------------------------------------------------
  // Properties of the loop

  /** The loop stops only for a reason it observed in the stopping
      iteration, and in every earlier iteration the read succeeded, the
      frame was processed without an exception (it had no faces, or both
      dimensions were at least 2) and the key was neither `q` nor `s`. */
  lemma {:induction false} SessionStopsOnlyForCause(
    c: Config, t: TrackState, captures: seq<Option<Frame>>, ui: seq<UiEvents>, i: nat)
    ensures var r := Session(c, t, captures, ui, i);
      (r.exit == ReadFailed <==> CameraRead(captures, r.iteration).None?) &&
      (r.exit == QuitPressed ==> Dispatch(EventsAt(ui, r.iteration).key) == Quit) &&
      (r.exit == Restarted ==> Dispatch(EventsAt(ui, r.iteration).key) == Restart) &&
      (r.exit == Crashed ==>
        CameraRead(captures, r.iteration).Some? &&
        CameraRead(captures, r.iteration).value.faces != [] &&
        (CameraRead(captures, r.iteration).value.width < 2 || CameraRead(captures, r.iteration).value.height < 2)) &&
      (forall j :: i <= j < r.iteration ==>
        CameraRead(captures, j).Some? &&
        (CameraRead(captures, j).value.faces == [] ||
         (CameraRead(captures, j).value.width >= 2 && CameraRead(captures, j).value.height >= 2)) &&
        Dispatch(EventsAt(ui, j).key) != Quit && Dispatch(EventsAt(ui, j).key) != Restart)
    decreases |captures| - i
  {
    match CameraRead(captures, i)
    case None =>
    case Some(frame) =>
      var size := ProcessedSize(c, frame);
      var out := ProcessFaces(c, size.0, size.1, t, frame.faces);
      if out.ok {
        var events := EventsAt(ui, i);
        var action := Dispatch(events.key);
        if action != Quit && action != Restart {
          SessionStopsOnlyForCause(ApplyChanges(c, events.changes), ApplyKey(out.track, action), captures, ui, i + 1);
        }
      }
  }

  /** No callback and no key changes the smoothing factor or the rotation
      flag: they keep their initial values for the whole session. */
  lemma {:induction false} SessionKeepsFixedSettings(
    c: Config, t: TrackState, captures: seq<Option<Frame>>, ui: seq<UiEvents>, i: nat)
    ensures var r := Session(c, t, captures, ui, i);
      r.config.smoothingFactor == c.smoothingFactor && r.config.rotateCamera == c.rotateCamera
    decreases |captures| - i
  {
    match CameraRead(captures, i)
    case None =>
    case Some(frame) =>
      var size := ProcessedSize(c, frame);
      var out := ProcessFaces(c, size.0, size.1, t, frame.faces);
      if out.ok {
        var events := EventsAt(ui, i);
        var action := Dispatch(events.key);
        if action != Quit && action != Restart {
          SessionKeepsFixedSettings(ApplyChanges(c, events.changes), ApplyKey(out.track, action), captures, ui, i + 1);
        }
      }
  }

  /** With a smoothing factor in [0, 1], the joystick values handed to the
      gamepad stay in [-1, 1] for the whole session. */
  lemma {:induction false} SessionStaysInRange(
    c: Config, t: TrackState, captures: seq<Option<Frame>>, ui: seq<UiEvents>, i: nat)
    requires 0.0 <= c.smoothingFactor <= 1.0 && InRange(t)
    ensures InRange(Session(c, t, captures, ui, i).track)
    decreases |captures| - i
  {
    match CameraRead(captures, i)
    case None =>
    case Some(frame) =>
      var size := ProcessedSize(c, frame);
      var out := ProcessFaces(c, size.0, size.1, t, frame.faces);
      ProcessFacesStaysInRange(c, size.0, size.1, t, frame.faces);
      if out.ok {
        var events := EventsAt(ui, i);
        var action := Dispatch(events.key);
        if action != Quit && action != Restart {
          SessionStaysInRange(ApplyChanges(c, events.changes), ApplyKey(out.track, action), captures, ui, i + 1);
        }
      }
  }

  /** Pressing `r` twice has the effect of pressing it once, and a key other
      than `r`, `q` and `s` (also no key at all, code -1) changes nothing. */
  lemma KeyEffects(t: TrackState, raw: int)
    ensures ApplyKey(ApplyKey(t, ResetReference), ResetReference) == ApplyKey(t, ResetReference)
    ensures KeyCode(raw) !in {'r' as int, 'q' as int, 's' as int} ==> Dispatch(raw) == Continue
    ensures Dispatch(-1) == Continue
  {
  }
}
