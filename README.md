# Solar-system explorer: frame bookkeeping, in Dafny

This project models the logic behind the interactive 3D solar system, not its scene graph.
That logic covers:

- the application store and its reducers;
- the adaptive quality monitor, which samples frames per second and moves the quality tier;
- the particle emitters (nebula and solar wind), the comet trail and the wormhole tunnel, whose fixed buffers are updated in place every frame;
- the scene's frame callback and its mount rules;
- the camera hook: timed flights, keyboard shortcuts and write-back of the camera position;
- the navigation bar's selection records;
- the loading screen's progress ticker;
- the overlay (HUD): its panels, its data-key labels and the payloads its controls send.

Each source file has its own module, written in the form of the code it models:

- `universe_store.dfy` (`UniverseStore`): the zustand store. The reducers are pure functions on a `State` record. The store itself is a `Store` class whose action methods replace `state`.
- `performance_monitor.dfy` (`PerformanceMonitor`): the monitor's refs form a `Monitor` class. `OnFrame` is one `useFrame` call. The tier decision is the function `Adjustment`. Frame rates are whole numbers, so "average below 30" is stated exactly as `Sum(history) < 30 * |history|`.
- `particle_system.dfy`, `comet.dfy`, `wormhole.dfy`: each component's buffers are arrays of an `Emitter`, `CometView` or `Tunnel` object, written by loops. Every loop is proved against a function that gives each slot's new value, and the properties are proved about those functions. The emitters' loops follow `Spawn`, `SolarWindStep`, `NebulaStep` and `Fade`. The comet's loops follow `InitialSize`, `TrailColour` and the trail entry `trail[i]`; `InitEntry` and `SetSlot` state what one slot write does. The tunnel's loops follow `SpiralPoint` and `TunnelStep`. The comet's trail itself is a sequence field updated by `PushTrail`, and `TrailAfterKeepsNewest` describes its history.
- `solar_system_scene.dfy` (`SolarSystemScene`): counts and mount rules are functions. The frame callback is `Scene.Frame`.
- `constants.dfy` (`Constants`): scaling, the formatters' branch choice, the quality presets and the easing polynomials.
- `camera_controls.dfy` (`CameraControls`): the three.js camera is a `RenderedCamera` object. A flight's `animate` closure is the `Flight` value it captured, and each `Animate` call is one animation frame.
- `navigation.dfy`, `loading_screen.dfy`, `hud.dfy`: the selection builders, the loading ticker (the `Loader` class) and the overlay.
- `geometry.dfy` (`Geometry`): vectors, `Lerp` and JavaScript's `%`. It also holds `Trig`, which carries `Math.cos`, `Math.sin`, `Math.sqrt` and `Math.atan2` as opaque functions. `Sound(trig)` states the only facts used about them: the ranges of cosine and sine, cos² + sin² = 1, and that `sqrt` is the non-negative square root.
- `wrappers.dfy`: `Option`.

Time is explicit. `Date.now()`, `performance.now()` and the render clock are parameters. So is each `Math.random()` result: a draw in [0, 1).

## Behaviour as written

The model keeps the following behaviours of the code as they are. They are stated by the members named.

- **A low-quality switch writes a flag the emitters' frame gate does not read.** The switch writes `performance.enableParticles := false`, but an emitter's frame gate tests `effects.enableParticles`, which the switch leaves alone (`PerformanceMonitor.DowngradeLeavesEffectsParticlesOn`, `ParticleSystem.UpdateRuns`). The nebula and solar-wind emitters stop at low quality only because the scene mounts them only at high quality (`SolarSystemScene.MountedEmitters`).
- **The two update gates point opposite ways.** The particle emitters *skip* their update when `elapsed % 0.2 < delta` (`ParticleSystem.UpdateRuns`). The scene *runs* the planet update when `elapsed % 0.1 < delta` (`SolarSystemScene.UpdateDue`).
- **No automatic path leads to high quality.** Low recovers only to medium, and only when the average exceeds 55 (`PerformanceMonitor.AdjustmentNeverPromotesToHigh`). So a `[50, 50, 50]` window leaves low unchanged (`PerformanceMonitor.SampleScenarios`).
- **The medium-to-low scenario turns the wrong flag off.** The medium-to-low switch sets `performance.enableParticles` to false, not the `effects.enableParticles` flag the emitters read.
- **Quality has two writers and no precedence.** The HUD's quality select and the monitor both write `performance.quality`.
- **The HUD's effect controls send every key of the effects they were drawn with.** A store changed since that render is overwritten (`HUD.WarpPatchOverwrites`, `HUD.CheckboxPatchOverwrites`). When the overlay is current, each control changes only its own key.
- **The performance monitor is remounted on every store write.** `UniverseCanvas.jsx` subscribes to the whole store and defines its `PerformanceMonitor` component inside its own render. So every store write, including the scene's planet update about every 0.1 s, remounts the monitor and resets its frame counter, clock and window. Reading the code, the monitor's 1000 ms sample is then never reached in the running app, and the automatic quality adjustment never fires. `UniverseCanvas.jsx` is not part of this model; `PerformanceMonitor.Monitor` is the hook as one mounted instance sees it.
- **The keyboard handler is registered once.** Its flights keep looking at the camera target from the render that registered it. That target is the `look` value a `Flight` captures. The planet lookup reads the live store.

## Model

| member | source | states |
|---|---|---|
| PerformanceMonitor.PushSampleKeepsNewest | src/hooks/usePerformanceMonitor.js:17-23 | the window grows by one up to 5 entries and then stays at 5; the newest sample is last; the window is the latest stretch of the pushed samples, in arrival order |
| PerformanceMonitor.SevenSamplesKeepLastFive | src/hooks/usePerformanceMonitor.js:18-23 | pushing 1..7 into an empty window leaves [3, 4, 5, 6, 7] |
| PerformanceMonitor.Adjustment | src/hooks/usePerformanceMonitor.js:29-55 | switches to the low bundle iff there are at least 3 samples, the average is below 30 and the tier is not low; switches to the medium bundle iff there are at least 3 samples and either (30 ≤ avg < 45 and high) or (avg > 55 and low); otherwise makes no call |
| PerformanceMonitor.AdjustmentNeverPromotesToHigh | src/hooks/usePerformanceMonitor.js:29-55 | with fewer than 3 samples nothing changes; no switch selects high; from medium the only switch is to low |
| PerformanceMonitor.AdjustmentIdempotent | src/hooks/usePerformanceMonitor.js:30-54 | after a switch, re-evaluating the same window against the new tier makes no call |
| PerformanceMonitor.DowngradeLeavesEffectsParticlesOn | src/hooks/usePerformanceMonitor.js:32-37 | the low bundle sets `maxParticles` 100 and `performance.enableParticles` false and leaves `effects` unchanged |
| PerformanceMonitor.SampleScenarios | src/hooks/usePerformanceMonitor.js:26-55 | [20,20,20] from high and [28,29,27] from medium go to low; [50,50,50] from low stays; [60,60,60] from low goes to medium; two samples never switch |
| PerformanceMonitor.Monitor.constructor | src/hooks/usePerformanceMonitor.js:6-8 | counter 0, clock at the given time, empty window |
| PerformanceMonitor.Monitor.OnFrame | src/hooks/usePerformanceMonitor.js:11-60 | within 1000 ms only the counter moves, by one; otherwise the count is pushed, the store gets exactly the `Adjustment` patch (if any), the counter is 0 and the clock is the current time; the window never exceeds 5 |
| UniverseStore.InitialPlanetsWellFormed | src/store/universeStore.js:46-118 | eight planets with distinct names; orbit radii strictly increase from 5 to 55; each starts at [orbitRadius, 0, 0] |
| UniverseStore.InitialSettings | src/store/universeStore.js:21-39 | quality medium, particles enabled in both records, sound effects off |
| UniverseStore.MergeCamera | src/store/universeStore.js:123-125 | each supplied key takes the patch's value; each other key keeps its old value |
| UniverseStore.MergePerformance | src/store/universeStore.js:134-136 | each supplied key takes the patch's value; each other key keeps its old value |
| UniverseStore.MergeEffects | src/store/universeStore.js:138-140 | each supplied key takes the patch's value; each other key keeps its old value |
| UniverseStore.MergePerformanceLaws | src/store/universeStore.js:134-136 | an empty patch is the identity; a repeated patch changes nothing more; two patches act as one in which the later patch's keys win |
| UniverseStore.MergeEffectsLaws | src/store/universeStore.js:138-140 | an empty patch is the identity; a repeated patch changes nothing more |
| UniverseStore.WithCamera | src/store/universeStore.js:123-125 | only `camera` changes, and it becomes the merge |
| UniverseStore.WithPerformance | src/store/universeStore.js:134-136 | only `performance` changes, and it becomes the merge |
| UniverseStore.WithEffects | src/store/universeStore.js:138-140 | only `effects` changes, and it becomes the merge |
| UniverseStore.WithHUDToggled | src/store/universeStore.js:130 | `showHUD` is negated; nothing else changes |
| UniverseStore.WithInfoToggled | src/store/universeStore.js:131 | `showInfo` is negated; nothing else changes |
| UniverseStore.WithControlsToggled | src/store/universeStore.js:132 | `showControls` is negated; nothing else changes |
| UniverseStore.TogglesAreInvolutions | src/store/universeStore.js:130-132 | applying any toggle twice restores the state |
| UniverseStore.FirstNamed | src/store/universeStore.js:147 | the index found holds the name and no earlier planet does; the list length means none |
| UniverseStore.FindPlanet | src/store/universeStore.js:145-148 | undefined iff no planet has the name; otherwise a planet of the list with that name |
| UniverseStore.FindPlanetStopsAtFirstMatch | src/store/universeStore.js:147 | the first planet with the name is returned, whatever follows it |
| UniverseStore.OrbitPositionOnCircle | src/store/universeStore.js:153-160 | a computed position has y = 0 and x² + z² = orbitRadius² |
| UniverseStore.WithPlanetPositions | src/store/universeStore.js:151-173 | the planet count and order are kept; every planet keeps every field but `position`, which becomes its orbit position for `Date.now()`; nothing outside the planet list changes |
| UniverseStore.PlanetPositionsOnOrbits | src/store/universeStore.js:151-160 | the result does not depend on `deltaTime`; each planet keeps its name and lies on its orbit circle in the plane y = 0 |
| UniverseStore.Store.constructor | src/store/universeStore.js:3-120 | the store starts in the initial state |
| UniverseStore.Store.SetCamera | src/store/universeStore.js:123-125 | the state becomes `WithCamera` of the old state |
| UniverseStore.Store.SetSelectedObject | src/store/universeStore.js:127 | only `selectedObject` changes |
| UniverseStore.Store.SetHoveredObject | src/store/universeStore.js:128 | only `hoveredObject` changes |
| UniverseStore.Store.ToggleHUD | src/store/universeStore.js:130 | the state becomes `WithHUDToggled` of the old state |
| UniverseStore.Store.ToggleInfo | src/store/universeStore.js:131 | the state becomes `WithInfoToggled` of the old state |
| UniverseStore.Store.ToggleControls | src/store/universeStore.js:132 | the state becomes `WithControlsToggled` of the old state |
| UniverseStore.Store.SetPerformance | src/store/universeStore.js:134-136 | the state becomes `WithPerformance` of the old state |
| UniverseStore.Store.SetEffects | src/store/universeStore.js:138-140 | the state becomes `WithEffects` of the old state |
| UniverseStore.Store.SetCurrentScene | src/store/universeStore.js:142 | only `currentScene` changes |
| UniverseStore.Store.GetPlanet | src/store/universeStore.js:145-148 | undefined iff no planet of the current state has the name; otherwise a planet with that name, the first one |
| UniverseStore.Store.UpdatePlanetPositions | src/store/universeStore.js:151-173 | the state becomes `WithPlanetPositions` of the old state |
| ParticleSystem.InitialParticle | src/components/ParticleSystem.jsx:19-87 | particles of every type but solar wind have zero velocity |
| ParticleSystem.NebulaParticleRanges | src/components/ParticleSystem.jsx:20-36 | nebula red in [0.5, 1), green in [0.2, 0.5), blue in [0.8, 1), size in [2, 10) |
| ParticleSystem.SolarWindParticleRanges | src/components/ParticleSystem.jsx:38-59 | solar-wind red is exactly 1, green in [0.8, 1), blue in [0.2, 0.5); horizontal distance in [5, 205); height in [-10, 10) |
| ParticleSystem.Spawn | src/components/ParticleSystem.jsx:16-88 | particle `i` takes its own seven draws; only solar wind gets a velocity |
| ParticleSystem.SolarWindStepRecycles | src/components/ParticleSystem.jsx:105-123 | a particle whose advanced distance is at most 200 keeps the advanced position; one strictly beyond 200 is reset to horizontal radius 5 with height in [-1, 1) |
| ParticleSystem.NebulaStepKeepsRadius | src/components/ParticleSystem.jsx:124-132 | the rotation keeps y and the horizontal radius |
| ParticleSystem.PulseRange | src/components/ParticleSystem.jsx:135 | the colour pulse lies in [0.6, 1] |
| ParticleSystem.FadeKeepsColourRange | src/components/ParticleSystem.jsx:135-138 | scaling by a factor in [0, 1] never raises a non-negative channel and keeps it non-negative |
| ParticleSystem.RendersUnlessLowWithoutParticles | src/components/ParticleSystem.jsx:146 | the emitter renders nothing iff `effects.enableParticles` is off and quality is low |
| ParticleSystem.Fill | src/components/ParticleSystem.jsx:16-88 | after the construction loop every slot of all four buffers holds its spawned particle |
| ParticleSystem.Emitter.constructor | src/components/ParticleSystem.jsx:10-91 | `count` particles of the type, particle `i` being `Spawn(i)` |
| ParticleSystem.Emitter.Frame | src/components/ParticleSystem.jsx:93-144 | nothing is written unless the ref is attached, `effects.enableParticles` holds and `elapsed % 0.2 >= delta`, nor for types other than solar wind and nebula; otherwise every solar-wind slot takes its step (colours untouched), or every nebula slot rotates and fades |
| ParticleSystem.Emitter.AdvanceSolarWind | src/components/ParticleSystem.jsx:102-123 | every slot becomes `SolarWindStep` of its old value |
| ParticleSystem.Emitter.RotateNebula | src/components/ParticleSystem.jsx:102-139 | every slot's position becomes `NebulaStep` of its old value and its colour is faded by its pulse |
| Comet.CometPositionBounds | src/components/Comet.jsx:47-55 | for 0 ≤ e < 1 the semi-minor axis lies in [0, a]; the comet's height lies in [-5, 5] |
| Comet.PushTrail | src/components/Comet.jsx:61-64 | the trail is non-empty, at most 100 long, and the new position is first |
| Comet.PushTrailShifts | src/components/Comet.jsx:61-64 | the length grows by one up to 100 and then stays; older entries shift back by one and the oldest is dropped |
| Comet.TrailAfterKeepsNewest | src/components/Comet.jsx:61-64 | after n frames the trail holds the last min(n, 100) positions, newest first |
| Comet.TrailColourRanges | src/components/Comet.jsx:78-81 | alpha lies in (0, 1] and mirrors the initial gradient; red lies in (0.5, 1], green in (0.7, 1], blue is 1 |
| Comet.InitialSizeRange | src/components/Comet.jsx:36 | initial sizes lie in (0, 3] |
| Comet.SetSlot | src/components/Comet.jsx:73-75 | slots 3i..3i+2 take the vector; all others are unchanged |
| Comet.InitEntry | src/components/Comet.jsx:25-36 | entry `i` gets zero position, the initial-gradient colour and the tapering size; other entries are unchanged |
| Comet.CometView.constructor | src/components/Comet.jsx:18-42 | positions are zero, colours follow alpha = i/100, sizes are (1 − i/100)·3, and the trail is empty |
| Comet.CometView.Frame | src/components/Comet.jsx:44-94 | with comets off or refs detached nothing changes; otherwise the comet moves to its orbit point, which is pushed onto the trail; slots below the trail length hold the trail and its fade; the other slots are unchanged; the nucleus spins by 0.01 and 0.02 |
| Comet.CometView.CopyTrail | src/components/Comet.jsx:69-83 | for i < trail length, slots 3i..3i+2 hold `trail[i]` and its fade colour; the other slots are unchanged |
| Wormhole.ParticleCount | src/components/Wormhole.jsx:19 | 2000 iff quality is high, 1000 otherwise |
| Wormhole.FractionRange | src/components/Wormhole.jsx:28-30 | i/count lies in [0, 1) |
| Wormhole.InitialLayout | src/components/Wormhole.jsx:28-40 | initial depth lies in [-10, 10); the spiral radius lies in (0.2r, r]; red in [0.5, 1), green in [0.2, 0.5), blue 1 |
| Wormhole.TunnelStepKeepsDepth | src/components/Wormhole.jsx:63-73 | a particle not past 10 keeps x and y and gains 0.2 of depth; one past 10 is reset to depth -10 on its spiral point; depth stays in [-10, 10] |
| Wormhole.PulseScaleRange | src/components/Wormhole.jsx:80 | the ring's scale lies in [0.9, 1.1] |
| Wormhole.Tunnel.constructor | src/components/Wormhole.jsx:18-46 | `ParticleCount(quality)` particles on their spiral points at their initial depths, with the colour gradient; all depths lie in the tunnel |
| Wormhole.Tunnel.Frame | src/components/Wormhole.jsx:48-82 | without warp speed or refs nothing changes; otherwise the ring turns and pulses and every particle takes its tunnel step; depths stay in [-10, 10] on every frame |
| SolarSystemScene.StarCount | src/scenes/SolarSystemScene.jsx:37 | 3000, 1500 or 800 for high, medium or low |
| SolarSystemScene.AsteroidCount | src/scenes/SolarSystemScene.jsx:83-84 | 100, 50 or 25 for high, medium or low |
| SolarSystemScene.CountsFollowQuality | src/scenes/SolarSystemScene.jsx:37 | a better tier never draws fewer stars or asteroids; there is always an asteroid |
| SolarSystemScene.AsteroidInBelt | src/scenes/SolarSystemScene.jsx:85-89 | every asteroid lies at horizontal radius in [20, 25) with height in [-1, 1) |
| SolarSystemScene.MountedEmitters | src/scenes/SolarSystemScene.jsx:103-133 | nebula, solar wind and comet are mounted iff their toggle is on and quality is high; the wormhole iff warp speed is on |
| SolarSystemScene.MountedEmittersRender | src/scenes/SolarSystemScene.jsx:103-133 | every mounted emitter passes its own render gate; the wormhole is mounted iff it renders |
| SolarSystemScene.PlanetKeys | src/scenes/SolarSystemScene.jsx:52-54 | one key per planet, its name, in list order |
| SolarSystemScene.OrbitKeys | src/scenes/SolarSystemScene.jsx:69-70 | one key per planet, "orbit-" followed by its name, in list order |
| SolarSystemScene.OrbitKeysDistinct | src/scenes/SolarSystemScene.jsx:52-79 | the orbit keys are distinct iff the planet keys are |
| SolarSystemScene.InitialKeysDistinct | src/scenes/SolarSystemScene.jsx:52-79 | for the initial planets both key lists are distinct |
| SolarSystemScene.OrbitRing | src/scenes/SolarSystemScene.jsx:71 | the ring is 0.1 wide and straddles the orbit radius |
| SolarSystemScene.LongFramesAlwaysUpdate | src/scenes/SolarSystemScene.jsx:19 | a frame of at least 0.1 s always opens the planet-update gate |
| SolarSystemScene.Scene.constructor | src/scenes/SolarSystemScene.jsx:13 | the group starts unrotated |
| SolarSystemScene.Scene.Frame | src/scenes/SolarSystemScene.jsx:17-27 | the planets are updated once iff `elapsed % 0.1 < delta`, otherwise the store is unchanged; the group turns by `delta*0.005` whenever attached, independent of the gate |
| Constants.ScaleDistanceLinear | src/utils/constants.js:64-66 | `scaleDistance` is linear, maps 0 to 0 and one AU to 0.1 |
| Constants.ScaleSizeLinear | src/utils/constants.js:68-70 | `scaleSize` is linear and maps one Earth radius to 0.001 |
| Constants.FormatNumber | src/utils/constants.js:72-81 | suffix B iff ≥ 1e9, M iff in [1e6, 1e9), K iff in [1e3, 1e6), none iff below 1e3; the printed value times the unit is the input; one decimal except for the plain `toString` |
| Constants.FormatDistance | src/utils/constants.js:83-92 | " AU" iff ≥ 1 AU, " million km" iff in [1e6, AU), " thousand km" iff in [1e3, 1e6), " km" iff below 1e3; value times unit is the input; 2, 1 or 0 decimals |
| Constants.PerformancePreset | src/utils/constants.js:95-117 | every preset has the five fields, and its quality equals its key |
| Constants.PresetBudgetIncreases | src/utils/constants.js:95-117 | `maxParticles` strictly increases from low to medium to high |
| Constants.EaseInOutFixedPoints | src/utils/constants.js:120-122 | 0, 0.5 and 1 are fixed points of the curve |
| Constants.EaseInOutContinuousAtHalf | src/utils/constants.js:120-122 | the two branches meet at 0.5 without a jump: within distance d of 0.5 on either side the curve stays within 2d of its value there |
| Constants.EaseInOutMonotone | src/utils/constants.js:120-122 | on [0, 1] the easing is monotone with values in [0, 1] |
| Constants.EaseEndpoints | src/utils/constants.js:124-130 | `easeIn` and `easeOut` fix 0 and 1 |
| Constants.EaseInRange | src/utils/constants.js:128-130 | `easeIn` is monotone on [0, 1] with values in [0, 1] |
| Constants.EaseOutRange | src/utils/constants.js:124-126 | `easeOut` is monotone on [0, 1] with values in [0, 1] |
| Geometry.Lerp | src/hooks/useCameraControls.js:33 | fraction 0 gives the start and fraction 1 the end |
| Geometry.Remainder | src/scenes/SolarSystemScene.jsx:19 | for a non-negative dividend the remainder lies in [0, divisor) |
| CameraControls.RenderedCamera.SyncFromStore | src/hooks/useCameraControls.js:12-17 | the camera is put at the stored position, looking at the stored target; this re-runs after each write to the stored camera |
| CameraControls.Progress | src/hooks/useCameraControls.js:27 | progress lies in [0, 1] for elapsed ≥ 0; it is 1 iff the duration has passed and below 1 iff it has not |
| CameraControls.ProgressMonotone | src/hooks/useCameraControls.js:26-27 | progress never decreases as time goes on |
| CameraControls.FlightPath | src/hooks/useCameraControls.js:20-44 | a flight starts at its start, lands exactly on its end once the duration has passed, and its eased fraction grows monotonically within [0, 1] |
| CameraControls.Animate | src/hooks/useCameraControls.js:25-41 | the camera is at the eased point and looks at the captured target; another frame is requested iff progress < 1; the store gets the end position only on the frame where progress reaches 1 |
| CameraControls.FlyTo | src/hooks/useCameraControls.js:20-44 | the flight starts from the current position with duration 2000; its first frame leaves the camera in place and the store untouched |
| CameraControls.AfterFocus | src/hooks/useCameraControls.js:46-57 | a known planet's position becomes the camera target, and the camera's position and mode are kept; an unknown name changes nothing |
| CameraControls.AfterReset | src/hooks/useCameraControls.js:59-62 | the target becomes the origin; the camera's position and mode and the rest of the store are kept |
| CameraControls.FocusOnPlanet | src/hooks/useCameraControls.js:46-57 | for a known planet a flight to its position + (5, 3, 5) starts, the camera looks at the captured target and the stored target becomes the planet's position; for an unknown name no flight starts and the camera's look target and the store are unchanged |
| CameraControls.ResetCamera | src/hooks/useCameraControls.js:59-62 | a flight to (0, 5, 20) starts, the camera looks at the captured target and the stored target becomes the origin |
| CameraControls.LowerAscii | src/hooks/useCameraControls.js:67 | same length; capitals A–Z are lowered and every other character is kept |
| CameraControls.Command | src/hooks/useCameraControls.js:66-91 | '1'–'4' focus Mercury, Venus, Earth or Mars; '0' resets; 'h' and 'i' toggle the HUD and the info panel; each iff the lowered key is that character; any other key does nothing |
| CameraControls.CommandIgnoresCase | src/hooks/useCameraControls.js:67 | 'H' acts as 'h', 'I' as 'i', and '5' does nothing |
| CameraControls.KeyEffects | src/hooks/useCameraControls.js:66-91 | camera keys change only the stored target, keeping position and mode: '0' sets it to the origin, '1' to '4' for a known planet sets it to that planet's position, and one for an unknown planet changes nothing; 'h' and 'i' flip one flag and pressing either twice restores the store; other keys change nothing |
| CameraControls.HandleKey | src/hooks/useCameraControls.js:66-92 | the store becomes `AfterKey` of the old store; the camera stays put; '0' starts the flight home, '1' to '4' start a flight to the planet + (5, 3, 5) exactly when the store knows the planet, and no other key starts one; a started flight points the camera at the captured target, otherwise its look target is kept |
| CameraControls.FrameSyncSettles | src/hooks/useCameraControls.js:99-113 | the store is written iff some coordinate differs by more than 0.1; afterwards none does; only the stored position changes; a second write-back changes nothing |
| CameraControls.SyncToStore | src/hooks/useCameraControls.js:99-114 | the store becomes `AfterFrameSync` of the old store and the camera position |
| Navigation.AfterFocusOnPlanet | src/components/Navigation.jsx:6-19 | an unknown name changes nothing; a known one selects the planet record built from the first match |
| Navigation.FocusSelectsFirstMatch | src/components/Navigation.jsx:7-17 | the selection is of type planet, has the requested name, and holds position, radius and orbit radius from the first planet of that name; nothing else changes |
| Navigation.FocusOnUnknownIsIgnored | src/components/Navigation.jsx:7-8 | an unknown name leaves the store unchanged |
| Navigation.AfterFocusOnSun | src/components/Navigation.jsx:21-31 | the selection is always the Sun record of type star (radius 696340, temperature 5778, the mass text); nothing else changes |
| Navigation.FocusIdempotent | src/components/Navigation.jsx:6-31 | clicking a button twice selects what clicking once does |
| Navigation.ButtonsResolveInitially | src/components/Navigation.jsx:44-89 | every planet button finds its planet in the initial store |
| Navigation.FocusOnPlanet | src/components/Navigation.jsx:6-19 | the store becomes `AfterFocusOnPlanet` of the old store |
| Navigation.FocusOnSun | src/components/Navigation.jsx:21-31 | the store becomes `AfterFocusOnSun` of the old store |
| LoadingScreen.NextProgressBounds | src/components/LoadingScreen.jsx:24-28 | progress never decreases, never exceeds 100, and grows by less than 20 per tick; it is exactly 100 iff the sum reaches 100 |
| LoadingScreen.StepIndexInRange | src/components/LoadingScreen.jsx:30-31 | below 100 the step index lies in 0..9, so the length guard never rejects |
| LoadingScreen.StepIndexMonotone | src/components/LoadingScreen.jsx:30 | more progress never gives an earlier step |
| LoadingScreen.PercentRange | src/components/LoadingScreen.jsx:73 | the displayed percentage lies in 0..100, is within half a unit of the progress, and shows 0 and 100 at the ends |
| LoadingScreen.Loader.constructor | src/components/LoadingScreen.jsx:4-21 | progress 0, the first caption, step 0, interval running |
| LoadingScreen.Loader.Tick | src/components/LoadingScreen.jsx:22-38 | a cleared interval changes nothing; otherwise progress takes the next value; the caption and current step change iff progress is below 100 and the step index differs, and then follow it; the interval stops exactly at 100 |
| HUD.Visible | src/components/HUD.jsx:21-214 | with the HUD hidden nothing shows; the settings, info and hover panels and the performance hint appear iff their conditions hold; hover needs a hovered object and no selection; the hint needs low quality |
| HUD.InfoAndHoverExclusive | src/components/HUD.jsx:183 | the info panel and the hover hint never show together |
| HUD.SpaceBeforeCapitals | src/components/HUD.jsx:173 | the replacement never shortens the key |
| HUD.Leading | src/components/HUD.jsx:173 | counts exactly the leading run of blanks |
| HUD.Trailing | src/components/HUD.jsx:173 | counts exactly the trailing run of blanks |
| HUD.TrimBy | src/components/HUD.jsx:173 | the result is a slice of the input; only blanks are cut at either end; the result neither starts nor ends with a blank |
| HUD.SpacedKeyRestores | src/components/HUD.jsx:173 | deleting spaces from the replacement of a space-free key gives the key back |
| HUD.SpacedKeyBlanks | src/components/HUD.jsx:173 | the only blanks in the replacement of a blank-free key are the inserted spaces |
| HUD.SpacedKeyCapitals | src/components/HUD.jsx:173 | after the replacement every capital is preceded by a space |
| HUD.TrimRemovesOnlySpaces | src/components/HUD.jsx:173 | when all blanks are plain spaces, trimming removes only spaces |
| HUD.TrimKeepsSpaceBeforeCapitals | src/components/HUD.jsx:173 | trimming keeps the space before each capital that is not first |
| HUD.LabelShape | src/components/HUD.jsx:173 | for a key without white space, deleting the label's spaces gives the key back, and every capital after position 0 is preceded by a space |
| HUD.TwoWordLabel | src/components/HUD.jsx:173 | a lower-case word followed by one capitalised word (`orbitRadius`) is shown as the two words separated by a space |
| HUD.InfoRows | src/components/HUD.jsx:170-177 | one row per data entry, in order, with its label and value |
| HUD.WarpPatchOverwrites | src/components/HUD.jsx:46-49 | the new effects are the shown effects with `warpSpeed` flipped, whatever the store held |
| HUD.CheckboxPatchOverwrites | src/components/HUD.jsx:115-144 | the new effects are the shown effects with the box's field set to the checkbox value |
| HUD.WarpFlipsOnlyWarp | src/components/HUD.jsx:46-49 | with a current overlay the warp button flips `warpSpeed` alone |
| HUD.CheckboxSetsOnlyItsField | src/components/HUD.jsx:115-144 | with a current overlay each of the Nebula, Comets and Solar Wind boxes sets exactly its own field |
| HUD.QualityChangesOneKey | src/components/HUD.jsx:72 | the quality select changes `performance.quality` alone |
| HUD.LODChangesOneKey | src/components/HUD.jsx:85 | the LOD box changes `performance.enableLOD` alone |
| HUD.SoundChangesOneKey | src/components/HUD.jsx:95 | the sound box changes `performance.enableSoundEffects` alone |
| HUD.WarpTwiceRestores | src/components/HUD.jsx:46-49 | pressing warp on two successive renders restores the store |
| HUD.Use | src/components/HUD.jsx:38-163 | the store becomes `AfterControl` of the old store for the control used |

## Left out

- **Floating point.** All arithmetic is on exact reals. The model says nothing about IEEE rounding, so it does not capture the drift of the repeated `+0.2` steps or of `% 0.1` / `% 0.2` on float time, or how `Float32Array` stores values.
- **Trigonometry.** `Math.cos`, `Math.sin`, `Math.sqrt` and `Math.atan2` are constrained only by `Geometry.Sound`: ranges, the Pythagorean identity and the square-root law. Claims that need actual angles are not made. Examples are the nebula's rotation angle, or that an orbit reaches (0, 0, 10) a quarter period later.
- **Randomness.** `Math.random()` is a parameter in [0, 1). It is a bounded input, not a distribution.
- **The React / three.js runtime** is not modelled:
  - `useFrame` subscription, `requestAnimationFrame` recursion, `setInterval` and `keydown` listeners appear only as the individual calls they make;
  - overlapping camera flights, which could interleave, are not modelled as interleaved;
  - whether a ref is attached is the `mounted` parameter;
  - re-running a `useMemo` when its dependencies change (for example the wormhole's quality) is left to the caller, who builds a new object;
  - React's double invocation of updater functions in development mode is not modelled.
- **Render lag.** Components read the store as of their last render. The model reads the current store, except in two places where the lag is visible: the HUD's effect controls (`shown`) and a flight's captured `look` target. The camera write-back therefore compares against the current stored position.
- **Flat buffers.** The particle and wormhole buffers are arrays of per-particle vectors, not flat `Float32Array`s of three slots each. The comet's trail buffers stay flat, as in the source.
- **Unknown keys.** The store's patches carry only the keys the record has. JavaScript spreads would also copy unknown keys.
- **Rendering-only code.** Mesh rotation speeds of planets, the sun's shader and field lines, the rings and moons, and all JSX layout are not modelled. `Sun.jsx`, `Planet.jsx`, `SoundSystem.jsx` (Web Audio), `UniverseCanvas.jsx`, `TestScene.jsx` and `App.jsx` are not part of this model. The remount of the performance monitor on every store write (see "Behaviour as written") is not modelled either: the monitor is a standalone object.
- **Camera re-sync.** `RenderedCamera.SyncFromStore` re-runs whenever the stored camera changes, including between the frames of a flight. The model does not schedule it: the caller decides when it runs, so the model does not capture the interleaving of a flight's frames with these re-syncs.
- **Logging and styling.** `console.log`, the cursor style and `window.location` in the HUD's title link are not modelled. Neither is the CSS `capitalize` applied to labels, which changes only how the first letter of each word is drawn.
- **Monitor clock.** The monitor's initial clock reading comes from `performance.now()` at mount. It is the constructor's argument.
- **Cosmic dust and star field.** `ParticleSystem.InitialParticle` gives the initial layouts of the cosmic-dust and star-field types without range lemmas; the solar-system scene never mounts those types.
- **Comet spin.** The rotation the comet's nucleus gets from its child mesh is modelled as two numbers; the `children[0]` check is folded into `mounted`.
- CameraControls.LowerAscii: lowers only A–Z, while `toLowerCase` also lowers other scripts. No non-ASCII key lowers to one of the characters the switch compares, so `Command` is unaffected.
- Constants.FormatNumber: states the value, the number of decimals and the suffix, not the text that `toFixed` or `toString` produce from them.
- Constants.FormatDistance: states the value, the number of decimals and the suffix, not the text that `toFixed` produces from them.
- Geometry.Remainder: bounds the result only for a non-negative dividend; the render clock is never negative.
