/**
 * The camera hook of `src/hooks/useCameraControls.js`: timed flights of the rendered camera
 * (progress clamped to 1, eased, written back to the store when they land), focusing on a planet
 * or on the origin, the keyboard shortcuts, and the per-frame write-back of the camera position.
 *
 * The rendered camera is a `RenderedCamera` object whose fields the hook updates in place; the
 * wall clock (`Date.now()`) is a parameter.
 */
module CameraControls {
  import opened Wrappers
  import opened Geometry
  import opened Constants
  import opened UniverseStore

  /** The three.js camera: where it is and the point it was last told to look at. */
  class RenderedCamera {
    var position: Vec3
    var lookTarget: Vec3

    constructor (position: Vec3, lookTarget: Vec3)
      ensures this.position == position && this.lookTarget == lookTarget
    {
      this.position := position;
      this.lookTarget := lookTarget;
    }

    /**
     * The effect on `[camera, cameraState]`: the camera is put where the store says, looking at the
     * stored target. It re-runs after every write to the stored camera, including a flight's final
     * write-back and a focus's target write, so between flight frames the camera is re-aimed at the
     * stored target; when it runs is the caller's choice here.
     */
    method SyncFromStore(s: State)
      modifies this
      ensures position == s.camera.position && lookTarget == s.camera.target
    {
      position := s.camera.position;
      lookTarget := s.camera.target;
    }
  }

  /** The default flight time, in milliseconds. */
  const FlightDuration: real := 2000.0

  /** `Math.min(elapsed / duration, 1)`. */
  function Progress(elapsed: real, duration: real): (p: real)
    requires 0.0 < duration
    ensures 0.0 <= elapsed ==> 0.0 <= p <= 1.0
    ensures p == 1.0 <==> elapsed >= duration
    ensures p < 1.0 <==> elapsed < duration
  {
    if elapsed / duration < 1.0 then elapsed / duration else 1.0
  }

  /** Progress never goes back as time goes on. */
  lemma ProgressMonotone(e1: real, e2: real, duration: real)
    requires 0.0 < duration && e1 <= e2
    ensures Progress(e1, duration) <= Progress(e2, duration)
  {
    assert e1 / duration <= e2 / duration by {
      MulMono(e1, e2, 1.0 / duration);
    }
  }

  /**
   * What a flight's `animate` closure captured: the start and end positions, the start time, the
   * duration and the target it keeps looking at (the one the hook held when the flight was created).
   */
  datatype Flight = Flight(start: Vec3, end: Vec3, startTime: real, duration: real, look: Vec3)

  /** The eased fraction of the way a flight has come at wall-clock time `now`. */
  function EasedProgress(f: Flight, now: real): real
    requires 0.0 < f.duration
  {
    EaseInOut(Progress(now - f.startTime, f.duration))
  }

  /** Where the camera is put by the `animate` call at time `now`. */
  function FlightPosition(f: Flight, now: real): Vec3
    requires 0.0 < f.duration
  {
    Lerp(f.start, f.end, EasedProgress(f, now))
  }

  /**
   * A flight starts where it was launched, lands exactly on its end once its duration has passed,
   * and its eased fraction only grows, within [0, 1], so the camera never overshoots.
   */
  lemma FlightPath(f: Flight, t1: real, t2: real)
    requires 0.0 < f.duration && f.startTime <= t1 <= t2
    ensures FlightPosition(f, f.startTime) == f.start
    ensures t2 - f.startTime >= f.duration ==> FlightPosition(f, t2) == f.end
    ensures 0.0 <= EasedProgress(f, t1) <= EasedProgress(f, t2) <= 1.0
  {
    EaseInOutFixedPoints();
    assert Progress(f.startTime - f.startTime, f.duration) == 0.0;
    ProgressMonotone(t1 - f.startTime, t2 - f.startTime, f.duration);
    EaseInOutMonotone(Progress(t1 - f.startTime, f.duration), Progress(t2 - f.startTime, f.duration));
  }

  /**
   * One call of a flight's `animate` at time `now`: the camera moves to the eased point and looks
   * at the captured target; the result says whether another frame is requested. The store receives
   * the end position only on the call where progress reaches 1.
   */
  method Animate(camera: RenderedCamera, store: Store, f: Flight, now: real) returns (again: bool)
    requires 0.0 < f.duration
    modifies camera, store
    ensures camera.position == FlightPosition(f, now) && camera.lookTarget == f.look
    ensures again <==> now - f.startTime < f.duration
    ensures store.state == (if again then old(store.state) else WithCamera(old(store.state), CameraPatch(Some(f.end), None, None)))
  {
    var progress := Progress(now - f.startTime, f.duration);
    camera.position := Lerp(f.start, f.end, EaseInOut(progress));
    camera.lookTarget := f.look;
    if progress < 1.0 {
      again := true;
    } else {
      again := false;
      store.SetCamera(CameraPatch(Some(f.end), None, None));
    }
  }

  /**
   * `flyToObject(target)`: the flight is created and animated once at its own start time, which
   * leaves the camera where it was and the store untouched.
   */
  method FlyTo(camera: RenderedCamera, store: Store, target: Vec3, now: real, look: Vec3) returns (f: Flight)
    modifies camera, store
    ensures f == Flight(old(camera.position), target, now, FlightDuration, look)
    ensures camera.position == old(camera.position) && camera.lookTarget == look
    ensures store.state == old(store.state)
  {
    f := Flight(camera.position, target, now, FlightDuration, look);
    EaseInOutFixedPoints();
    assert Progress(now - now, FlightDuration) == 0.0;
    var again := Animate(camera, store, f, now);
  }

  /** The offset from a planet at which a focused camera settles. */
  const FocusOffset: Vec3 := Vec3(5.0, 3.0, 5.0)

  /** The camera's resting place after `resetCamera`. */
  const HomePosition: Vec3 := Vec3(0.0, 5.0, 20.0)

  /** The store after `focusOnPlanet(name)`: the target becomes the planet's position; an unknown name changes nothing. */
  function AfterFocus(s: State, name: string): (r: State)
    ensures FindPlanet(s.Planets(), name).None? ==> r == s
    ensures FindPlanet(s.Planets(), name).Some? ==>
      r == WithCamera(s, CameraPatch(None, Some(FindPlanet(s.Planets(), name).value.position), None))
    ensures FindPlanet(s.Planets(), name).Some? ==> r.camera.target == FindPlanet(s.Planets(), name).value.position
    ensures r.camera.position == s.camera.position && r.camera.mode == s.camera.mode
    ensures r.(camera := s.camera) == s
  {
    match FindPlanet(s.Planets(), name)
    case Some(p) => WithCamera(s, CameraPatch(None, Some(p.position), None))
    case None => s
  }

  /** The store after `resetCamera`: the target is the origin. */
  function AfterReset(s: State): (r: State)
    ensures r.camera.target == Origin
    ensures r.camera.position == s.camera.position && r.camera.mode == s.camera.mode
    ensures r.(camera := s.camera) == s
  {
    WithCamera(s, CameraPatch(None, Some(Origin), None))
  }

  /**
   * `focusOnPlanet(name)`: for a planet the store knows, a flight to its position plus (5, 3, 5)
   * starts and the stored target becomes the planet's position; for an unknown name nothing happens.
   */
  method FocusOnPlanet(camera: RenderedCamera, store: Store, name: string, now: real, look: Vec3) returns (f: Option<Flight>)
    modifies camera, store
    ensures FindPlanet(old(store.state).Planets(), name).None? ==> f == None && camera.lookTarget == old(camera.lookTarget)
    ensures FindPlanet(old(store.state).Planets(), name).Some? ==>
      f == Some(Flight(old(camera.position), Add(FindPlanet(old(store.state).Planets(), name).value.position, FocusOffset), now, FlightDuration, look))
    ensures FindPlanet(old(store.state).Planets(), name).Some? ==> camera.lookTarget == look
    ensures store.state == AfterFocus(old(store.state), name)
    ensures camera.position == old(camera.position)
  {
    var planet := store.GetPlanet(name);
    if planet.Some? {
      var flight := FlyTo(camera, store, Add(planet.value.position, FocusOffset), now, look);
      store.SetCamera(CameraPatch(None, Some(planet.value.position), None));
      f := Some(flight);
    } else {
      f := None;
    }
  }

  /** `resetCamera()`: a flight to (0, 5, 20) starts and the stored target becomes the origin. */
  method ResetCamera(camera: RenderedCamera, store: Store, now: real, look: Vec3) returns (f: Flight)
    modifies camera, store
    ensures f == Flight(old(camera.position), HomePosition, now, FlightDuration, look)
    ensures store.state == AfterReset(old(store.state))
    ensures camera.position == old(camera.position) && camera.lookTarget == look
  {
    f := FlyTo(camera, store, HomePosition, now, look);
    store.SetCamera(CameraPatch(None, Some(Origin), None));
  }

  // ----- keyboard -----

  /** What a key press does. */
  datatype KeyCommand = FocusPlanet(planet: string) | Reset | ToggleHUDKey | ToggleInfoKey | NoCommand

  /** `toLowerCase` on the ASCII letters; every other character is kept. */
  function LowerAscii(s: string): (r: string)
    ensures |r| == |s|
    ensures forall i :: 0 <= i < |s| ==> r[i] == (if 'A' <= s[i] <= 'Z' then (s[i] as int + 32) as char else s[i])
  {
    seq(|s|, i requires 0 <= i < |s| => if 'A' <= s[i] <= 'Z' then (s[i] as int + 32) as char else s[i])
  }

  /** The `switch` on the lower-cased key. */
  function Command(key: string): (c: KeyCommand)
    ensures c == FocusPlanet("Mercury") <==> LowerAscii(key) == "1"
    ensures c == FocusPlanet("Venus") <==> LowerAscii(key) == "2"
    ensures c == FocusPlanet("Earth") <==> LowerAscii(key) == "3"
    ensures c == FocusPlanet("Mars") <==> LowerAscii(key) == "4"
    ensures c == Reset <==> LowerAscii(key) == "0"
    ensures c == ToggleHUDKey <==> LowerAscii(key) == "h"
    ensures c == ToggleInfoKey <==> LowerAscii(key) == "i"
    ensures c.FocusPlanet? ==> c.planet in {"Mercury", "Venus", "Earth", "Mars"}
  {
    var k := LowerAscii(key);
    if k == "1" then FocusPlanet("Mercury")
    else if k == "2" then FocusPlanet("Venus")
    else if k == "3" then FocusPlanet("Earth")
    else if k == "4" then FocusPlanet("Mars")
    else if k == "0" then Reset
    else if k == "h" then ToggleHUDKey
    else if k == "i" then ToggleInfoKey
    else NoCommand
  }

  /** Shift does not matter: `H` and `h` do the same, and so do `I` and `i`. */
  lemma CommandIgnoresCase()
    ensures Command("H") == Command("h") == ToggleHUDKey
    ensures Command("I") == Command("i") == ToggleInfoKey
    ensures Command("5") == NoCommand
  {
    assert LowerAscii("H") == "h";
    assert LowerAscii("I") == "i";
    assert LowerAscii("h") == "h";
    assert LowerAscii("i") == "i";
    assert LowerAscii("5") == "5";
  }

  /** The store after a key press. */
  function AfterKey(s: State, key: string): State {
    match Command(key)
    case FocusPlanet(name) => AfterFocus(s, name)
    case Reset => AfterReset(s)
    case ToggleHUDKey => WithHUDToggled(s)
    case ToggleInfoKey => WithInfoToggled(s)
    case NoCommand => s
  }

  /**
   * The camera keys touch only the stored camera, and only its target; `h` and `i` flip one flag
   * each and pressing either twice restores the store; any other key changes nothing.
   */
  lemma KeyEffects(s: State, key: string)
    ensures Command(key).FocusPlanet? || Command(key).Reset? ==>
      && AfterKey(s, key).(camera := s.camera) == s
      && AfterKey(s, key).camera.position == s.camera.position
      && AfterKey(s, key).camera.mode == s.camera.mode
    ensures Command(key).Reset? ==> AfterKey(s, key).camera.target == Origin
    ensures Command(key).FocusPlanet? ==>
      match FindPlanet(s.Planets(), Command(key).planet)
      case Some(p) => AfterKey(s, key).camera.target == p.position
      case None => AfterKey(s, key) == s
    ensures Command(key).ToggleHUDKey? ==> AfterKey(s, key).showHUD != s.showHUD && AfterKey(AfterKey(s, key), key) == s
    ensures Command(key).ToggleInfoKey? ==> AfterKey(s, key).showInfo != s.showInfo && AfterKey(AfterKey(s, key), key) == s
    ensures Command(key).NoCommand? ==> AfterKey(s, key) == s
  {
    TogglesAreInvolutions(s);
  }

  /** The `keydown` handler; the result is the flight it started, if any. */
  method HandleKey(camera: RenderedCamera, store: Store, key: string, now: real, look: Vec3) returns (f: Option<Flight>)
    modifies camera, store
    ensures store.state == AfterKey(old(store.state), key)
    ensures camera.position == old(camera.position)
    ensures f.Some? ==> Command(key).FocusPlanet? || Command(key).Reset?
    ensures Command(key).Reset? ==> f == Some(Flight(old(camera.position), HomePosition, now, FlightDuration, look))
    ensures Command(key).FocusPlanet? ==>
      match FindPlanet(old(store.state).Planets(), Command(key).planet)
      case Some(p) => f == Some(Flight(old(camera.position), Add(p.position, FocusOffset), now, FlightDuration, look))
      case None => f == None
    ensures f.Some? ==> camera.lookTarget == look
    ensures f.None? ==> camera.lookTarget == old(camera.lookTarget)
  {
    match Command(key)
    case FocusPlanet(name) =>
      f := FocusOnPlanet(camera, store, name, now, look);
    case Reset =>
      var flight := ResetCamera(camera, store, now, look);
      f := Some(flight);
    case ToggleHUDKey =>
      store.ToggleHUD();
      f := None;
    case ToggleInfoKey =>
      store.ToggleInfo();
      f := None;
    case NoCommand =>
      f := None;
  }

  // ----- per-frame write-back -----

  /** The change threshold of the write-back. */
  const Threshold: real := 0.1

  function Abs(x: real): real {
    if x < 0.0 then -x else x
  }

  /** `some` coordinate differs from the stored one by strictly more than the threshold. */
  predicate Moved(current: Vec3, stored: Vec3) {
    Abs(current.x - stored.x) > Threshold || Abs(current.y - stored.y) > Threshold || Abs(current.z - stored.z) > Threshold
  }

  /** The store after one frame's write-back. */
  function AfterFrameSync(s: State, current: Vec3): State {
    if Moved(current, s.camera.position) then WithCamera(s, CameraPatch(Some(current), None, None)) else s
  }

  /**
   * After the write-back the stored position is within the threshold of the camera in every
   * coordinate, only the stored position can have changed, and a second write-back in the same
   * place changes nothing.
   */
  lemma FrameSyncSettles(s: State, current: Vec3)
    ensures !Moved(current, AfterFrameSync(s, current).camera.position)
    ensures AfterFrameSync(s, current).camera.(position := s.camera.position) == s.camera
    ensures AfterFrameSync(s, current).(camera := s.camera) == s
    ensures AfterFrameSync(AfterFrameSync(s, current), current) == AfterFrameSync(s, current)
    ensures !Moved(current, s.camera.position) <==> AfterFrameSync(s, current) == s
  {}

  /** The `useFrame` callback. */
  method SyncToStore(camera: RenderedCamera, store: Store)
    modifies store
    ensures store.state == AfterFrameSync(old(store.state), camera.position)
  {
    var current := camera.position;
    var stored := store.state.camera.position;
    if Abs(current.x - stored.x) > Threshold || Abs(current.y - stored.y) > Threshold || Abs(current.z - stored.z) > Threshold {
      store.SetCamera(CameraPatch(Some(current), None, None));
    }
  }
}
