/**
 * The scene of `src/scenes/SolarSystemScene.jsx`: quality-dependent counts of background stars
 * and asteroids, the rules for which emitters are mounted, the keys of the planet and orbit
 * elements, and the frame callback that refreshes planet positions and turns the whole system.
 */
module SolarSystemScene {
  import opened Geometry
  import opened Constants
  import opened UniverseStore
  import ParticleSystem
  import Comet
  import Wormhole

  /** Background stars: 3000, 1500 or 800 for high, medium or any other quality. */
  function StarCount(q: Tier): (n: nat)
    ensures q == High ==> n == 3000
    ensures q == Medium ==> n == 1500
    ensures q == Low ==> n == 800
  {
    if q == High then 3000 else if q == Medium then 1500 else 800
  }

  /** Asteroids in the belt: 100, 50 or 25. */
  function AsteroidCount(q: Tier): (n: nat)
    ensures q == High ==> n == 100
    ensures q == Medium ==> n == 50
    ensures q == Low ==> n == 25
  {
    if q == High then 100 else if q == Medium then 50 else 25
  }

  /** Better quality never draws fewer stars or asteroids. */
  lemma CountsFollowQuality(s: Tier, t: Tier)
    requires Rank(s) <= Rank(t)
    ensures StarCount(s) <= StarCount(t) && AsteroidCount(s) <= AsteroidCount(t)
    ensures 0 < AsteroidCount(s)
  {}

  /** `(i / total) * PI * 2`: asteroids are spread evenly around the belt. */
  function AsteroidAngle(i: nat, total: nat): real
    requires 0 < total
  {
    (i as real) / (total as real) * Pi * 2.0
  }

  /** Asteroid `i` of `total`, given its radius draw and its height draw. */
  function Asteroid(trig: Trig, i: nat, total: nat, radiusDraw: real, heightDraw: real): Vec3
    requires 0 < total
  {
    Vec3(Cos(trig, AsteroidAngle(i, total)) * BeltRadius(radiusDraw),
         (heightDraw - 0.5) * 2.0,
         Sin(trig, AsteroidAngle(i, total)) * BeltRadius(radiusDraw))
  }

  /** `20 + random * 5`. */
  function BeltRadius(draw: real): real {
    20.0 + draw * 5.0
  }

  /** Every asteroid lies in the belt between radius 20 and 25 from the sun's axis, within 1 of the ecliptic. */
  lemma AsteroidInBelt(trig: Trig, i: nat, total: nat, radiusDraw: real, heightDraw: real)
    requires Sound(trig) && 0 < total && 0.0 <= radiusDraw < 1.0 && 0.0 <= heightDraw < 1.0
    ensures var a := Asteroid(trig, i, total, radiusDraw, heightDraw);
      && 20.0 * 20.0 <= HorizontalNorm2(a) < 25.0 * 25.0
      && -1.0 <= a.y < 1.0
  {
    var a := Asteroid(trig, i, total, radiusDraw, heightDraw);
    assert HorizontalNorm2(a) == BeltRadius(radiusDraw) * BeltRadius(radiusDraw) by {
      OnCircle(trig, AsteroidAngle(i, total), BeltRadius(radiusDraw));
    }
    SquareMono(20.0, BeltRadius(radiusDraw));
    SquareStrict(BeltRadius(radiusDraw), 25.0);
  }

  /** Which optional emitters the scene mounts. */
  datatype Mounted = Mounted(nebula: bool, solarWind: bool, comet: bool, wormhole: bool)

  function MountedEmitters(effects: Effects, performance: Performance): (m: Mounted)
    ensures m.nebula <==> effects.showNebula && performance.quality == High
    ensures m.solarWind <==> effects.showSolarWind && performance.quality == High
    ensures m.comet <==> effects.showComets && performance.quality == High
    ensures m.wormhole <==> effects.warpSpeed
  {
    Mounted(
      effects.showNebula && performance.quality == High,
      effects.showSolarWind && performance.quality == High,
      effects.showComets && performance.quality == High,
      effects.warpSpeed)
  }

  /**
   * Every emitter the scene mounts also renders: the scene's own conditions are stricter than
   * the emitters' render gates, so a mounted emitter never draws nothing.
   */
  lemma MountedEmittersRender(effects: Effects, performance: Performance)
    ensures var m := MountedEmitters(effects, performance);
      && (m.nebula || m.solarWind ==> ParticleSystem.Renders(effects, performance))
      && (m.comet ==> Comet.Renders(effects, performance))
      && (m.wormhole <==> Wormhole.Renders(effects))
  {}

  /** The React keys of the planet elements and of the orbit rings, in list order. */
  function PlanetKeys(planets: seq<Planet>): (keys: seq<string>)
    ensures |keys| == |planets|
    ensures forall i :: 0 <= i < |planets| ==> keys[i] == planets[i].name
  {
    seq(|planets|, i requires 0 <= i < |planets| => planets[i].name)
  }

  function OrbitKeys(planets: seq<Planet>): (keys: seq<string>)
    ensures |keys| == |planets|
    ensures forall i :: 0 <= i < |planets| ==> keys[i] == "orbit-" + planets[i].name
  {
    seq(|planets|, i requires 0 <= i < |planets| => "orbit-" + planets[i].name)
  }

  predicate Distinct(keys: seq<string>) {
    forall i, j :: 0 <= i < j < |keys| ==> keys[i] != keys[j]
  }

  /**
   * One planet element and one orbit ring per planet; the orbit keys are distinct exactly when
   * the planet keys are, since the `orbit-` prefix is shared.
   */
  lemma OrbitKeysDistinct(planets: seq<Planet>)
    ensures Distinct(OrbitKeys(planets)) <==> Distinct(PlanetKeys(planets))
  {
    var ok, pk := OrbitKeys(planets), PlanetKeys(planets);
    if Distinct(pk) {
      forall i, j | 0 <= i < j < |ok|
        ensures ok[i] != ok[j]
      {
        if ok[i] == ok[j] {
          PrefixCancels("orbit-", pk[i], pk[j]);
        }
      }
    }
    if Distinct(ok) {
      forall i, j | 0 <= i < j < |pk|
        ensures pk[i] != pk[j]
      {
        assert ok[i] == "orbit-" + pk[i] && ok[j] == "orbit-" + pk[j];
      }
    }
  }

  lemma PrefixCancels(p: string, a: string, b: string)
    requires p + a == p + b
    ensures a == b
  {
    assert a == (p + a)[|p|..];
    assert b == (p + b)[|p|..];
  }

  /** The store's initial planets give distinct keys to all elements. */
  lemma InitialKeysDistinct()
    ensures Distinct(PlanetKeys(InitialPlanets)) && Distinct(OrbitKeys(InitialPlanets))
  {
    InitialPlanetsWellFormed();
    OrbitKeysDistinct(InitialPlanets);
  }

  /** The orbit ring of a planet spans `orbitRadius - 0.05` to `orbitRadius + 0.05`. */
  function OrbitRing(p: Planet): (r: (real, real))
    ensures r.0 < p.orbitRadius < r.1 && r.1 - r.0 == 0.1
  {
    (p.orbitRadius - 0.05, p.orbitRadius + 0.05)
  }

  /** The planet-update gate `elapsedTime % 0.1 < delta`. */
  predicate UpdateDue(elapsed: real, delta: real) {
    Remainder(elapsed, 0.1) < delta
  }

  /** With time running forward and a positive frame time of at least a tenth of a second, every frame updates. */
  lemma LongFramesAlwaysUpdate(elapsed: real, delta: real)
    requires 0.0 <= elapsed && 0.1 <= delta
    ensures UpdateDue(elapsed, delta)
  {}

  /** The scene's group; only its rotation about the vertical axis changes. */
  class Scene {
    var rotationY: real

    constructor ()
      ensures rotationY == 0.0
    {
      rotationY := 0.0;
    }

    /**
     * One `useFrame` call: when the gate is open the store's planets move to their orbit
     * positions for `nowMs` (once, never more); the group, when attached, turns by
     * `delta * 0.005` whether or not the gate was open.
     */
    method Frame(trig: Trig, store: Store, mounted: bool, elapsed: real, delta: real, nowMs: real)
      modifies this, store
      ensures store.state == (if UpdateDue(elapsed, delta) then WithPlanetPositions(trig, old(store.state), nowMs, delta) else old(store.state))
      ensures rotationY == (if mounted then old(rotationY) + delta * 0.005 else old(rotationY))
    {
      if Remainder(elapsed, 0.1) < delta {
        store.UpdatePlanetPositions(trig, nowMs, delta);
      }
      if mounted {
        rotationY := rotationY + delta * 0.005;
      }
    }
  }
}
