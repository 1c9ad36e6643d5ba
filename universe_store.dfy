/**
 * The application store of `src/store/universeStore.js`: one state record, the actions that
 * replace it (each a merge of the old record with new values), the name lookup and the
 * orbital position update.
 *
 * The pure part of every action is a function `With...` from the old state to the new one;
 * the class `Store` holds the current state and its methods replace it, as the store's `set` does.
 */
module UniverseStore {
  import opened Wrappers
  import opened Geometry
  import opened Constants

  datatype CameraMode = Orbit | Free

  datatype Camera = Camera(position: Vec3, target: Vec3, mode: CameraMode)

  /** An argument of `setCamera`: the keys it supplies. */
  datatype CameraPatch = CameraPatch(position: Option<Vec3>, target: Option<Vec3>, mode: Option<CameraMode>)

  datatype Performance = Performance(
    quality: Tier,
    enableLOD: bool,
    maxParticles: nat,
    enableBloom: bool,
    enableParticles: bool,
    enableSoundEffects: bool)

  /** An argument of `setPerformance`: the keys it supplies. */
  datatype PerformancePatch = PerformancePatch(
    quality: Option<Tier>,
    enableLOD: Option<bool>,
    maxParticles: Option<nat>,
    enableBloom: Option<bool>,
    enableParticles: Option<bool>,
    enableSoundEffects: Option<bool>)

  datatype Effects = Effects(
    showNebula: bool,
    showComets: bool,
    showSolarWind: bool,
    showLensFlare: bool,
    cameraShake: bool,
    warpSpeed: bool,
    enableParticles: bool)

  /** An argument of `setEffects`: the keys it supplies. */
  datatype EffectsPatch = EffectsPatch(
    showNebula: Option<bool>,
    showComets: Option<bool>,
    showSolarWind: Option<bool>,
    showLensFlare: Option<bool>,
    cameraShake: Option<bool>,
    warpSpeed: Option<bool>,
    enableParticles: Option<bool>)

  const NoPerformanceChange := PerformancePatch(None, None, None, None, None, None)
  const NoEffectsChange := EffectsPatch(None, None, None, None, None, None, None)

  /** A value shown in the information panel. */
  datatype DataValue = Number(n: real) | Text(s: string) | Point(p: Vec3)

  datatype ObjectKind = PlanetKind | StarKind

  /** A selected or hovered object: its type, name and the ordered entries of its `data`. */
  datatype SceneObject = SceneObject(kind: ObjectKind, name: string, data: seq<(string, DataValue)>)

  datatype Planet = Planet(
    name: string,
    position: Vec3,
    radius: real,
    orbitRadius: real,
    rotationSpeed: real,
    orbitSpeed: real,
    hasRings: Option<bool>,
    moons: Option<seq<string>>,
    tilt: Option<real>,
    hasStorms: Option<bool>)

  datatype Sun = Sun(position: Vec3, radius: real, temperature: real)

  datatype SolarSystem = SolarSystem(sun: Sun, planets: seq<Planet>)

  datatype UniverseData = UniverseData(solarSystem: SolarSystem)

  datatype State = State(
    camera: Camera,
    selectedObject: Option<SceneObject>,
    hoveredObject: Option<SceneObject>,
    showHUD: bool,
    showInfo: bool,
    showControls: bool,
    performance: Performance,
    effects: Effects,
    currentScene: string,
    universeData: UniverseData)
  {
    function Planets(): seq<Planet> {
      universeData.solarSystem.planets
    }
  }

  /** A planet with no optional attributes, sitting at `[orbitRadius, 0, 0]`. */
  function PlainPlanet(name: string, radius: real, orbitRadius: real, rotationSpeed: real, orbitSpeed: real): Planet {
    Planet(name, Vec3(orbitRadius, 0.0, 0.0), radius, orbitRadius, rotationSpeed, orbitSpeed, None, None, None, None)
  }

  const InitialPlanets: seq<Planet> := [
    PlainPlanet("Mercury", 0.2, 5.0, 0.01, 0.02),
    PlainPlanet("Venus", 0.3, 7.0, 0.008, 0.015),
    PlainPlanet("Earth", 0.4, 10.0, 0.01, 0.01),
    PlainPlanet("Mars", 0.25, 15.0, 0.01, 0.008),
    PlainPlanet("Jupiter", 1.2, 25.0, 0.02, 0.005).(hasRings := Some(false), moons := Some(["Io", "Europa", "Ganymede", "Callisto"])),
    PlainPlanet("Saturn", 1.0, 35.0, 0.018, 0.003).(hasRings := Some(true), moons := Some(["Titan", "Enceladus"])),
    PlainPlanet("Uranus", 0.6, 45.0, 0.015, 0.002).(hasRings := Some(true), tilt := Some(98.0)),
    PlainPlanet("Neptune", 0.58, 55.0, 0.016, 0.001).(hasStorms := Some(true))
  ]

  /** The state the store is created with. */
  function InitialState(): State {
    State(
      Camera(Vec3(0.0, 0.0, 10.0), Origin, Orbit),
      None,
      None,
      true,
      false,
      true,
      Performance(Medium, true, 500, false, true, false),
      Effects(false, false, false, true, false, false, true),
      "solar-system",
      UniverseData(SolarSystem(Sun(Origin, 2.0, 5778.0), InitialPlanets)))
  }

  /** The initial data: eight planets with distinct names, each at `[orbitRadius, 0, 0]`, orbit radii rising strictly from 5 to 55. */
  lemma InitialPlanetsWellFormed()
    ensures |InitialState().Planets()| == 8
    ensures forall i, j :: 0 <= i < j < 8 ==> InitialPlanets[i].name != InitialPlanets[j].name
    ensures forall i, j :: 0 <= i < j < 8 ==> InitialPlanets[i].orbitRadius < InitialPlanets[j].orbitRadius
    ensures InitialPlanets[0].orbitRadius == 5.0 && InitialPlanets[7].orbitRadius == 55.0
    ensures forall i :: 0 <= i < 8 ==> InitialPlanets[i].position == Vec3(InitialPlanets[i].orbitRadius, 0.0, 0.0)
  {
    forall i, j | 0 <= i < j < 8
      ensures InitialPlanets[i].name != InitialPlanets[j].name
    {
      assert InitialPlanets[i].name[0] != InitialPlanets[j].name[0] || |InitialPlanets[i].name| != |InitialPlanets[j].name|;
    }
  }

  /** The store starts at medium quality with particles enabled and sound effects off. */
  lemma InitialSettings()
    ensures InitialState().performance.quality == Medium
    ensures InitialState().performance.enableParticles && InitialState().effects.enableParticles
    ensures !InitialState().performance.enableSoundEffects
  {}

  // ----- merge-style record updates -----

  /** `{ ...camera, ...patch }`: the supplied keys take the patch's values, the others keep theirs. */
  function MergeCamera(c: Camera, patch: CameraPatch): (r: Camera)
    ensures patch.position.Some? ==> r.position == patch.position.value
    ensures patch.position.None? ==> r.position == c.position
    ensures patch.target.Some? ==> r.target == patch.target.value
    ensures patch.target.None? ==> r.target == c.target
    ensures patch.mode.Some? ==> r.mode == patch.mode.value
    ensures patch.mode.None? ==> r.mode == c.mode
  {
    Camera(patch.position.GetOr(c.position), patch.target.GetOr(c.target), patch.mode.GetOr(c.mode))
  }

  /** `{ ...performance, ...patch }`. */
  function MergePerformance(p: Performance, patch: PerformancePatch): (r: Performance)
    ensures patch.quality.Some? ==> r.quality == patch.quality.value
    ensures patch.quality.None? ==> r.quality == p.quality
    ensures patch.enableLOD.Some? ==> r.enableLOD == patch.enableLOD.value
    ensures patch.enableLOD.None? ==> r.enableLOD == p.enableLOD
    ensures patch.maxParticles.Some? ==> r.maxParticles == patch.maxParticles.value
    ensures patch.maxParticles.None? ==> r.maxParticles == p.maxParticles
    ensures patch.enableBloom.Some? ==> r.enableBloom == patch.enableBloom.value
    ensures patch.enableBloom.None? ==> r.enableBloom == p.enableBloom
    ensures patch.enableParticles.Some? ==> r.enableParticles == patch.enableParticles.value
    ensures patch.enableParticles.None? ==> r.enableParticles == p.enableParticles
    ensures patch.enableSoundEffects.Some? ==> r.enableSoundEffects == patch.enableSoundEffects.value
    ensures patch.enableSoundEffects.None? ==> r.enableSoundEffects == p.enableSoundEffects
  {
    Performance(
      patch.quality.GetOr(p.quality),
      patch.enableLOD.GetOr(p.enableLOD),
      patch.maxParticles.GetOr(p.maxParticles),
      patch.enableBloom.GetOr(p.enableBloom),
      patch.enableParticles.GetOr(p.enableParticles),
      patch.enableSoundEffects.GetOr(p.enableSoundEffects))
  }

  /** `{ ...effects, ...patch }`. */
  function MergeEffects(e: Effects, patch: EffectsPatch): (r: Effects)
    ensures patch.showNebula.Some? ==> r.showNebula == patch.showNebula.value
    ensures patch.showNebula.None? ==> r.showNebula == e.showNebula
    ensures patch.showComets.Some? ==> r.showComets == patch.showComets.value
    ensures patch.showComets.None? ==> r.showComets == e.showComets
    ensures patch.showSolarWind.Some? ==> r.showSolarWind == patch.showSolarWind.value
    ensures patch.showSolarWind.None? ==> r.showSolarWind == e.showSolarWind
    ensures patch.showLensFlare.Some? ==> r.showLensFlare == patch.showLensFlare.value
    ensures patch.showLensFlare.None? ==> r.showLensFlare == e.showLensFlare
    ensures patch.cameraShake.Some? ==> r.cameraShake == patch.cameraShake.value
    ensures patch.cameraShake.None? ==> r.cameraShake == e.cameraShake
    ensures patch.warpSpeed.Some? ==> r.warpSpeed == patch.warpSpeed.value
    ensures patch.warpSpeed.None? ==> r.warpSpeed == e.warpSpeed
    ensures patch.enableParticles.Some? ==> r.enableParticles == patch.enableParticles.value
    ensures patch.enableParticles.None? ==> r.enableParticles == e.enableParticles
  {
    Effects(
      patch.showNebula.GetOr(e.showNebula),
      patch.showComets.GetOr(e.showComets),
      patch.showSolarWind.GetOr(e.showSolarWind),
      patch.showLensFlare.GetOr(e.showLensFlare),
      patch.cameraShake.GetOr(e.cameraShake),
      patch.warpSpeed.GetOr(e.warpSpeed),
      patch.enableParticles.GetOr(e.enableParticles))
  }

  /** Merging two patches in turn: the later patch's keys win. */
  function ThenPerformance(first: PerformancePatch, second: PerformancePatch): PerformancePatch {
    PerformancePatch(
      if second.quality.Some? then second.quality else first.quality,
      if second.enableLOD.Some? then second.enableLOD else first.enableLOD,
      if second.maxParticles.Some? then second.maxParticles else first.maxParticles,
      if second.enableBloom.Some? then second.enableBloom else first.enableBloom,
      if second.enableParticles.Some? then second.enableParticles else first.enableParticles,
      if second.enableSoundEffects.Some? then second.enableSoundEffects else first.enableSoundEffects)
  }

  /**
   * `setPerformance` merges: an empty argument changes nothing, repeating an argument changes
   * nothing more, and two calls in a row act as one call with the later call's keys winning.
   */
  lemma MergePerformanceLaws(p: Performance, a: PerformancePatch, b: PerformancePatch)
    ensures MergePerformance(p, NoPerformanceChange) == p
    ensures MergePerformance(MergePerformance(p, a), a) == MergePerformance(p, a)
    ensures MergePerformance(MergePerformance(p, a), b) == MergePerformance(p, ThenPerformance(a, b))
  {}

  /** `setEffects` merges the same way: empty is the identity, repetition changes nothing more. */
  lemma MergeEffectsLaws(e: Effects, a: EffectsPatch)
    ensures MergeEffects(e, NoEffectsChange) == e
    ensures MergeEffects(MergeEffects(e, a), a) == MergeEffects(e, a)
  {}

  /** `setCamera`: only the camera changes. */
  function WithCamera(s: State, patch: CameraPatch): (r: State)
    ensures r.(camera := s.camera) == s
    ensures r.camera == MergeCamera(s.camera, patch)
  {
    s.(camera := MergeCamera(s.camera, patch))
  }

  /** `setPerformance`: only the performance settings change. */
  function WithPerformance(s: State, patch: PerformancePatch): (r: State)
    ensures r.(performance := s.performance) == s
    ensures r.performance == MergePerformance(s.performance, patch)
  {
    s.(performance := MergePerformance(s.performance, patch))
  }

  /** `setEffects`: only the effect toggles change. */
  function WithEffects(s: State, patch: EffectsPatch): (r: State)
    ensures r.(effects := s.effects) == s
    ensures r.effects == MergeEffects(s.effects, patch)
  {
    s.(effects := MergeEffects(s.effects, patch))
  }

  /** `toggleHUD`. */
  function WithHUDToggled(s: State): (r: State)
    ensures r.showHUD != s.showHUD && r.(showHUD := s.showHUD) == s
  {
    s.(showHUD := !s.showHUD)
  }

  /** `toggleInfo`. */
  function WithInfoToggled(s: State): (r: State)
    ensures r.showInfo != s.showInfo && r.(showInfo := s.showInfo) == s
  {
    s.(showInfo := !s.showInfo)
  }

  /** `toggleControls`. */
  function WithControlsToggled(s: State): (r: State)
    ensures r.showControls != s.showControls && r.(showControls := s.showControls) == s
  {
    s.(showControls := !s.showControls)
  }

  /** Each toggle undoes itself. */
  lemma TogglesAreInvolutions(s: State)
    ensures WithHUDToggled(WithHUDToggled(s)) == s
    ensures WithInfoToggled(WithInfoToggled(s)) == s
    ensures WithControlsToggled(WithControlsToggled(s)) == s
  {}

  // ----- lookup by name -----

  /** Index of the first planet called `name`, or `|planets|` when there is none. */
  function FirstNamed(planets: seq<Planet>, name: string): (i: nat)
    ensures i <= |planets|
    ensures i < |planets| ==> planets[i].name == name
    ensures forall j :: 0 <= j < i ==> planets[j].name != name
  {
    if planets == [] then 0
    else if planets[0].name == name then 0
    else 1 + FirstNamed(planets[1..], name)
  }

  /** `planets.find(p => p.name === name)`. */
  function FindPlanet(planets: seq<Planet>, name: string): (r: Option<Planet>)
    ensures r.None? <==> forall p :: p in planets ==> p.name != name
    ensures r.Some? ==> r.value in planets && r.value.name == name
  {
    var i := FirstNamed(planets, name);
    if i < |planets| then Some(planets[i]) else None
  }

  /** `find` stops at the first match: what follows it, and what the earlier planets hold besides their names, does not matter. */
  lemma {:induction false} FindPlanetStopsAtFirstMatch(before: seq<Planet>, p: Planet, after: seq<Planet>)
    requires forall q :: q in before ==> q.name != p.name
    ensures FindPlanet(before + [p] + after, p.name) == Some(p)
  {
    var ps := before + [p] + after;
    assert ps[|before|] == p;
    var i := FirstNamed(ps, p.name);
    assert i == |before|;
  }

  // ----- orbital animation -----

  /** A planet's position at wall-clock time `nowMs`: on its orbit circle, at angle `nowMs * orbitSpeed / 1000`. */
  function OrbitPosition(trig: Trig, p: Planet, nowMs: real): Vec3 {
    var angle := nowMs * p.orbitSpeed * 0.001;
    Vec3(Cos(trig, angle) * p.orbitRadius, 0.0, Sin(trig, angle) * p.orbitRadius)
  }

  /** Every computed position lies in the orbital plane, on the circle of radius `orbitRadius`. */
  lemma OrbitPositionOnCircle(trig: Trig, p: Planet, nowMs: real)
    requires Sound(trig)
    ensures OrbitPosition(trig, p, nowMs).y == 0.0
    ensures HorizontalNorm2(OrbitPosition(trig, p, nowMs)) == p.orbitRadius * p.orbitRadius
  {
    OnCircle(trig, nowMs * p.orbitSpeed * 0.001, p.orbitRadius);
  }

  /**
   * `updatePlanetPositions(deltaTime)` with `Date.now()` as `nowMs`: every planet keeps its place
   * in the list and every field except `position`; nothing outside the planet list changes.
   * `deltaTime` is accepted and ignored.
   */
  function WithPlanetPositions(trig: Trig, s: State, nowMs: real, deltaTime: real): (r: State)
    ensures r == s.(universeData := UniverseData(s.universeData.solarSystem.(planets := r.Planets())))
    ensures |r.Planets()| == |s.Planets()|
    ensures forall i :: 0 <= i < |s.Planets()| ==>
      r.Planets()[i] == s.Planets()[i].(position := OrbitPosition(trig, s.Planets()[i], nowMs))
  {
    var ps := s.Planets();
    var moved := seq(|ps|, i requires 0 <= i < |ps| => ps[i].(position := OrbitPosition(trig, ps[i], nowMs)));
    s.(universeData := s.universeData.(solarSystem := s.universeData.solarSystem.(planets := moved)))
  }

  /** After an update every planet sits on its orbit circle, and the result does not depend on `deltaTime`. */
  lemma PlanetPositionsOnOrbits(trig: Trig, s: State, nowMs: real, d1: real, d2: real)
    requires Sound(trig)
    ensures WithPlanetPositions(trig, s, nowMs, d1) == WithPlanetPositions(trig, s, nowMs, d2)
    ensures forall i :: 0 <= i < |s.Planets()| ==>
      var p := WithPlanetPositions(trig, s, nowMs, d1).Planets()[i];
      p.name == s.Planets()[i].name && p.position.y == 0.0 && HorizontalNorm2(p.position) == p.orbitRadius * p.orbitRadius
  {
    forall i | 0 <= i < |s.Planets()|
      ensures HorizontalNorm2(OrbitPosition(trig, s.Planets()[i], nowMs)) == s.Planets()[i].orbitRadius * s.Planets()[i].orbitRadius
    {
      OrbitPositionOnCircle(trig, s.Planets()[i], nowMs);
    }
  }

  // ----- the store object -----

  /** The live store: one state record, replaced by every action. */
  class Store {
    var state: State

    constructor ()
      ensures state == InitialState()
    {
      state := InitialState();
    }

    method SetCamera(patch: CameraPatch)
      modifies this
      ensures state == WithCamera(old(state), patch)
    {
      state := WithCamera(state, patch);
    }

    method SetSelectedObject(obj: Option<SceneObject>)
      modifies this
      ensures state == old(state).(selectedObject := obj)
    {
      state := state.(selectedObject := obj);
    }

    method SetHoveredObject(obj: Option<SceneObject>)
      modifies this
      ensures state == old(state).(hoveredObject := obj)
    {
      state := state.(hoveredObject := obj);
    }

    method ToggleHUD()
      modifies this
      ensures state == WithHUDToggled(old(state))
    {
      state := WithHUDToggled(state);
    }

    method ToggleInfo()
      modifies this
      ensures state == WithInfoToggled(old(state))
    {
      state := WithInfoToggled(state);
    }

    method ToggleControls()
      modifies this
      ensures state == WithControlsToggled(old(state))
    {
      state := WithControlsToggled(state);
    }

    method SetPerformance(patch: PerformancePatch)
      modifies this
      ensures state == WithPerformance(old(state), patch)
    {
      state := WithPerformance(state, patch);
    }

    method SetEffects(patch: EffectsPatch)
      modifies this
      ensures state == WithEffects(old(state), patch)
    {
      state := WithEffects(state, patch);
    }

    method SetCurrentScene(scene: string)
      modifies this
      ensures state == old(state).(currentScene := scene)
    {
      state := state.(currentScene := scene);
    }

    /** `getPlanet(name)`: reads the store and changes nothing. */
    method GetPlanet(name: string) returns (r: Option<Planet>)
      ensures r.None? <==> forall p :: p in state.Planets() ==> p.name != name
      ensures r.Some? ==> r.value in state.Planets() && r.value.name == name
      ensures r == FindPlanet(state.Planets(), name)
    {
      r := FindPlanet(state.Planets(), name);
    }

    method UpdatePlanetPositions(trig: Trig, nowMs: real, deltaTime: real)
      modifies this
      ensures state == WithPlanetPositions(trig, old(state), nowMs, deltaTime)
    {
      state := WithPlanetPositions(trig, state, nowMs, deltaTime);
    }
  }
}
