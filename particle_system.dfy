/**
 * The particle emitter of `src/components/ParticleSystem.jsx`: fixed-size buffers filled once
 * per particle type, then rewritten in place on the frames the update gate lets through.
 */
module ParticleSystem {
  import opened Geometry
  import opened Constants
  import opened UniverseStore

  /** The `type` prop; `StarField` is the `default:` branch taken for any other string. */
  datatype Kind = Nebula | SolarWind | CosmicDust | StarField

  /** One particle's slots across the four buffers. */
  datatype Particle = Particle(position: Vec3, color: Vec3, size: real, velocity: Vec3)

  /** `Math.random()` results: every draw lies in [0, 1). */
  predicate Draws(d: seq<real>) {
    forall k :: 0 <= k < |d| ==> 0.0 <= d[k] < 1.0
  }

  /**
   * The values the construction loop writes for one particle of `kind`, given its (at most
   * seven) draws in the order the source calls `Math.random()`.
   */
  function InitialParticle(trig: Trig, kind: Kind, d: seq<real>): (p: Particle)
    requires |d| == 7
    ensures kind != SolarWind ==> p.velocity == Origin
  {
    match kind
    case Nebula =>
      var radius := 50.0 + d[0] * 100.0;
      var theta := d[1] * Pi * 2.0;
      var phi := d[2] * Pi;
      Particle(
        Vec3(radius * Sin(trig, phi) * Cos(trig, theta), radius * Sin(trig, phi) * Sin(trig, theta), radius * Cos(trig, phi)),
        Vec3(0.5 + d[3] * 0.5, 0.2 + d[4] * 0.3, 0.8 + d[5] * 0.2),
        2.0 + d[6] * 8.0,
        Origin)
    case SolarWind =>
      var distance := 5.0 + d[0] * 200.0;
      var angle := d[1] * Pi * 2.0;
      var height := (d[2] - 0.5) * 20.0;
      Particle(
        Vec3(Cos(trig, angle) * distance, height, Sin(trig, angle) * distance),
        Vec3(1.0, 0.8 + d[3] * 0.2, 0.2 + d[4] * 0.3),
        0.5 + d[5] * 2.0,
        Vec3(Cos(trig, angle) * 0.1, (d[6] - 0.5) * 0.05, Sin(trig, angle) * 0.1))
    case CosmicDust =>
      var dust := 0.3 + d[3] * 0.4;
      Particle(
        Vec3((d[0] - 0.5) * 500.0, (d[1] - 0.5) * 500.0, (d[2] - 0.5) * 500.0),
        Vec3(dust, dust * 0.8, dust * 0.6),
        0.2 + d[4] * 1.0,
        Origin)
    case StarField =>
      Particle(
        Vec3((d[0] - 0.5) * 1000.0, (d[1] - 0.5) * 1000.0, (d[2] - 0.5) * 1000.0),
        Vec3(d[3], d[4], d[5]),
        d[6] * 3.0,
        Origin)
  }

  /** Initial nebula colours are purple-blue: red in [0.5, 1), green in [0.2, 0.5), blue in [0.8, 1); sizes in [2, 10). */
  lemma NebulaParticleRanges(trig: Trig, d: seq<real>)
    requires |d| == 7 && Draws(d)
    ensures var p := InitialParticle(trig, Nebula, d);
      && 0.5 <= p.color.x < 1.0 && 0.2 <= p.color.y < 0.5 && 0.8 <= p.color.z < 1.0
      && 2.0 <= p.size < 10.0
  {
    assert 0.0 <= d[3] < 1.0 && 0.0 <= d[4] < 1.0 && 0.0 <= d[5] < 1.0 && 0.0 <= d[6] < 1.0;
  }

  /**
   * A solar-wind particle starts yellow (red exactly 1, green in [0.8, 1), blue in [0.2, 0.5)),
   * at a horizontal distance in [5, 205) from the sun and within 10 of its plane.
   */
  lemma SolarWindParticleRanges(trig: Trig, d: seq<real>)
    requires |d| == 7 && Draws(d) && Sound(trig)
    ensures var p := InitialParticle(trig, SolarWind, d);
      && p.color.x == 1.0 && 0.8 <= p.color.y < 1.0 && 0.2 <= p.color.z < 0.5
      && 5.0 * 5.0 <= HorizontalNorm2(p.position) < 205.0 * 205.0
      && -10.0 <= p.position.y < 10.0
  {
    assert 0.0 <= d[0] < 1.0 && 0.0 <= d[2] < 1.0 && 0.0 <= d[3] < 1.0 && 0.0 <= d[4] < 1.0;
    var distance := 5.0 + d[0] * 200.0;
    var p := InitialParticle(trig, SolarWind, d);
    assert HorizontalNorm2(p.position) == distance * distance by {
      OnCircle(trig, d[1] * Pi * 2.0, distance);
    }
    SquareMono(5.0, distance);
    SquareStrict(distance, 205.0);
  }

  /** Particle `i` of a construction that hands each particle the next seven draws. */
  function Spawn(trig: Trig, kind: Kind, draws: seq<real>, i: nat): (p: Particle)
    requires 7 * (i + 1) <= |draws|
    ensures kind != SolarWind ==> p.velocity == Origin
  {
    InitialParticle(trig, kind, draws[7 * i..7 * (i + 1)])
  }

  // ----- per-frame rules -----

  /** `positions += velocity * delta * 60`, coordinate by coordinate. */
  function Advance(p: Vec3, v: Vec3, delta: real): Vec3 {
    Vec3(p.x + v.x * delta * 60.0, p.y + v.y * delta * 60.0, p.z + v.z * delta * 60.0)
  }

  const RecycleDistance: real := 200.0

  /**
   * One solar-wind particle on an update frame: advance it, and if it is now strictly farther
   * than 200 from the sun, respawn it on the circle of radius 5 at a random angle and height.
   */
  function SolarWindStep(trig: Trig, p: Vec3, v: Vec3, delta: real, angleDraw: real, heightDraw: real): Vec3 {
    var q := Advance(p, v, delta);
    if Sqrt(trig, Norm2(q)) > RecycleDistance then
      var angle := angleDraw * Pi * 2.0;
      Vec3(Cos(trig, angle) * 5.0, (heightDraw - 0.5) * 2.0, Sin(trig, angle) * 5.0)
    else
      q
  }

  /**
   * Recycling happens exactly when the advanced particle is strictly beyond distance 200
   * (a particle at exactly 200 keeps going); a recycled particle lands at horizontal radius 5
   * with height in [-1, 1).
   */
  lemma SolarWindStepRecycles(trig: Trig, p: Vec3, v: Vec3, delta: real, angleDraw: real, heightDraw: real)
    requires Sound(trig) && 0.0 <= heightDraw < 1.0
    ensures var q := Advance(p, v, delta);
      var r := SolarWindStep(trig, p, v, delta, angleDraw, heightDraw);
      && (Norm2(q) <= 40000.0 ==> r == q)
      && (Norm2(q) > 40000.0 ==> HorizontalNorm2(r) == 25.0 && -1.0 <= r.y < 1.0)
  {
    var q := Advance(p, v, delta);
    assert 0.0 <= Norm2(q) by {
      SquareNonneg(q.x);
      SquareNonneg(q.y);
      SquareNonneg(q.z);
    }
    SqrtExceeds(trig, Norm2(q), RecycleDistance);
    OnCircle(trig, angleDraw * Pi * 2.0, 5.0);
  }

  /** One nebula particle on an update frame: turned by `delta * 0.1` radians about the vertical axis. */
  function NebulaStep(trig: Trig, p: Vec3, delta: real): Vec3 {
    var angle := Atan2(trig, p.z, p.x) + delta * 0.1;
    var radius := Sqrt(trig, p.x * p.x + p.z * p.z);
    Vec3(Cos(trig, angle) * radius, p.y, Sin(trig, angle) * radius)
  }

  /** The rotation keeps the height and the horizontal distance from the axis. */
  lemma NebulaStepKeepsRadius(trig: Trig, p: Vec3, delta: real)
    requires Sound(trig)
    ensures NebulaStep(trig, p, delta).y == p.y
    ensures HorizontalNorm2(NebulaStep(trig, p, delta)) == HorizontalNorm2(p)
  {
    var radius := Sqrt(trig, p.x * p.x + p.z * p.z);
    SquareNonneg(p.x);
    SquareNonneg(p.z);
    OnCircle(trig, Atan2(trig, p.z, p.x) + delta * 0.1, radius);
  }

  /** The colour factor of particle `i` at time `elapsed`. */
  function Pulse(trig: Trig, elapsed: real, i: nat): real {
    Sin(trig, elapsed * 2.0 + (i as real) * 0.1) * 0.2 + 0.8
  }

  /** Every channel of colour `c` scaled by `k`. */
  function Fade(c: Vec3, k: real): Vec3 {
    Vec3(c.x * k, c.y * k, c.z * k)
  }

  /** The factor lies in [0.6, 1]. */
  lemma PulseRange(trig: Trig, elapsed: real, i: nat)
    requires Sound(trig)
    ensures 0.6 <= Pulse(trig, elapsed, i) <= 1.0
  {
    assert -1.0 <= Sin(trig, elapsed * 2.0 + (i as real) * 0.1) <= 1.0;
  }

  /**
   * Fading by a factor in [0, 1] (as `Pulse` is, by `PulseRange`) keeps every channel of a
   * colour non-negative and grows none, so a colour in [0, 1] stays there however many update
   * frames fade it.
   */
  lemma FadeKeepsColourRange(c: Vec3, k: real)
    requires 0.0 <= c.x && 0.0 <= c.y && 0.0 <= c.z && 0.0 <= k <= 1.0
    ensures 0.0 <= Fade(c, k).x <= c.x && 0.0 <= Fade(c, k).y <= c.y && 0.0 <= Fade(c, k).z <= c.z
  {
    var f := Fade(c, k);
    ScaleDown(c.x, k, f.x);
    ScaleDown(c.y, k, f.y);
    ScaleDown(c.z, k, f.z);
  }

  // ----- gates -----

  /**
   * The per-frame update does its work only when the points mesh is attached (`mounted`),
   * particles are enabled in `effects` and `elapsed % 0.2 >= delta`.
   */
  predicate UpdateRuns(mounted: bool, effects: Effects, elapsed: real, delta: real) {
    mounted && effects.enableParticles && !(Remainder(elapsed, 0.2) < delta)
  }

  /** The component renders nothing when `effects.enableParticles` is off and quality is low. */
  predicate Renders(effects: Effects, performance: Performance) {
    !(!effects.enableParticles && performance.quality == Low)
  }

  /** The render gate only hides the emitter at low quality with particles off in `effects`. */
  lemma RendersUnlessLowWithoutParticles(effects: Effects, performance: Performance)
    ensures !Renders(effects, performance) <==> !effects.enableParticles && performance.quality == Low
  {}

  /**
   * The construction loop: particle `i` of each buffer gets `spawn(i)`. Velocities are written
   * only when `writeVelocity` holds (for solar wind); otherwise the buffer keeps its zeros,
   * which is what `spawn` promises then.
   */
  method Fill(spawn: nat --> Particle, writeVelocity: bool, ps: array<Vec3>, cs: array<Vec3>, ss: array<real>, vs: array<Vec3>)
    requires ps.Length == cs.Length == ss.Length == vs.Length
    requires ps != cs && ps != vs && cs != vs
    requires forall j :: 0 <= j < ps.Length ==> spawn.requires(j)
    requires !writeVelocity ==> forall j :: 0 <= j < ps.Length ==> spawn(j).velocity == Origin
    requires forall j :: 0 <= j < vs.Length ==> vs[j] == Origin
    modifies ps, cs, ss, vs
    ensures forall j :: 0 <= j < ps.Length ==> Particle(ps[j], cs[j], ss[j], vs[j]) == spawn(j)
  {
    for i := 0 to ps.Length
      invariant forall j :: 0 <= j < i ==> Particle(ps[j], cs[j], ss[j], vs[j]) == spawn(j)
      invariant forall j :: i <= j < vs.Length ==> vs[j] == Origin
    {
      var p := spawn(i);
      ps[i] := p.position;
      cs[i] := p.color;
      ss[i] := p.size;
      if writeVelocity {
        vs[i] := p.velocity;
      }
    }
  }

  /**
   * One mounted emitter: its type, size and the four attribute buffers made at construction,
   * one entry per particle (the flat `x, y, z` float layout is not modelled).
   */
  class Emitter {
    const kind: Kind
    const count: nat
    const positions: array<Vec3>
    const colors: array<Vec3>
    const sizes: array<real>
    const velocities: array<Vec3>

    ghost predicate Valid()
      reads this
    {
      && positions.Length == count && colors.Length == count
      && sizes.Length == count && velocities.Length == count
      && positions != colors && positions != velocities && colors != velocities
    }

    /** The particle in slot `i`. */
    function ParticleAt(i: nat): Particle
      reads this, positions, colors, sizes, velocities
      requires Valid() && i < count
    {
      Particle(positions[i], colors[i], sizes[i], velocities[i])
    }

    /** The `useMemo` construction: `count` particles of `kind`, particle `i` made from its own seven draws. */
    constructor (trig: Trig, kind: Kind, count: nat, draws: seq<real>)
      requires |draws| == 7 * count
      ensures Valid() && this.kind == kind && this.count == count
      ensures fresh(positions) && fresh(colors) && fresh(sizes) && fresh(velocities)
      ensures forall i :: 0 <= i < count ==> ParticleAt(i) == Spawn(trig, kind, draws, i)
    {
      var ps := new Vec3[count](_ => Origin);
      var cs := new Vec3[count](_ => Origin);
      var ss := new real[count](_ => 0.0);
      var vs := new Vec3[count](_ => Origin);
      var spawn := (j: nat) requires 7 * (j + 1) <= |draws| => Spawn(trig, kind, draws, j);
      Fill(spawn, kind == SolarWind, ps, cs, ss, vs);
      this.kind := kind;
      this.count := count;
      positions, colors, sizes, velocities := ps, cs, ss, vs;
    }

    /**
     * One `useFrame` call; `mounted` says the points ref is attached. When the gate is shut
     * nothing is written. Otherwise solar-wind
     * particles advance and recycle, nebula particles turn and fade, and the other types are
     * left as they are; sizes and velocities are never written.
     */
    method Frame(trig: Trig, effects: Effects, mounted: bool, elapsed: real, delta: real, angleDraws: seq<real>, heightDraws: seq<real>)
      requires Valid() && |angleDraws| == count && |heightDraws| == count
      modifies positions, colors
      ensures !UpdateRuns(mounted, effects, elapsed, delta) || (kind != SolarWind && kind != Nebula) ==>
        positions[..] == old(positions[..]) && colors[..] == old(colors[..])
      ensures UpdateRuns(mounted, effects, elapsed, delta) && kind == SolarWind ==>
        && colors[..] == old(colors[..])
        && forall i :: 0 <= i < count ==>
             positions[i] == SolarWindStep(trig, old(positions[i]), velocities[i], delta, angleDraws[i], heightDraws[i])
      ensures UpdateRuns(mounted, effects, elapsed, delta) && kind == Nebula ==>
        forall i :: 0 <= i < count ==>
          && positions[i] == NebulaStep(trig, old(positions[i]), delta)
          && colors[i] == Fade(old(colors[i]), Pulse(trig, elapsed, i))
    {
      if !mounted || !effects.enableParticles {
        return;
      }
      if Remainder(elapsed, 0.2) < delta {
        return;
      }
      if kind == SolarWind {
        AdvanceSolarWind(trig, delta, angleDraws, heightDraws);
      } else if kind == Nebula {
        RotateNebula(trig, elapsed, delta);
      }
    }

    method AdvanceSolarWind(trig: Trig, delta: real, angleDraws: seq<real>, heightDraws: seq<real>)
      requires Valid() && |angleDraws| == count && |heightDraws| == count
      modifies positions
      ensures forall i :: 0 <= i < count ==>
        positions[i] == SolarWindStep(trig, old(positions[i]), velocities[i], delta, angleDraws[i], heightDraws[i])
    {
      for i := 0 to count
        invariant forall j :: 0 <= j < i ==>
          positions[j] == SolarWindStep(trig, old(positions[j]), velocities[j], delta, angleDraws[j], heightDraws[j])
        invariant forall j :: i <= j < count ==> positions[j] == old(positions[j])
      {
        positions[i] := SolarWindStep(trig, positions[i], velocities[i], delta, angleDraws[i], heightDraws[i]);
      }
    }

    method RotateNebula(trig: Trig, elapsed: real, delta: real)
      requires Valid()
      modifies positions, colors
      ensures forall i :: 0 <= i < count ==>
        && positions[i] == NebulaStep(trig, old(positions[i]), delta)
        && colors[i] == Fade(old(colors[i]), Pulse(trig, elapsed, i))
    {
      for i := 0 to count
        invariant forall j :: 0 <= j < i ==>
          && positions[j] == NebulaStep(trig, old(positions[j]), delta)
          && colors[j] == Fade(old(colors[j]), Pulse(trig, elapsed, j))
        invariant forall j :: i <= j < count ==> positions[j] == old(positions[j]) && colors[j] == old(colors[j])
      {
        positions[i] := NebulaStep(trig, positions[i], delta);
        colors[i] := Fade(colors[i], Pulse(trig, elapsed, i));
      }
    }
  }
}
