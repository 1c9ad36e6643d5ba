/**
 * The wormhole of `src/components/Wormhole.jsx`: a ring that spins and pulses, and a tunnel of
 * particles laid out on a spiral that ride a conveyor belt from depth -10 to 10 and are put back
 * at the mouth of the tunnel when they leave it.
 */
module Wormhole {
  import opened Geometry
  import opened Constants
  import opened UniverseStore

  /** Number of tunnel particles for the quality at construction time. */
  function ParticleCount(quality: Tier): (n: nat)
    ensures n == 2000 <==> quality == High
    ensures n == 1000 <==> quality != High
  {
    if quality == High then 2000 else 1000
  }

  const TunnelStart: real := -10.0
  const TunnelEnd: real := 10.0
  const DepthStep: real := 0.2

  /** `i / count`, the particle's place along the tunnel. */
  function Fraction(i: nat, count: nat): real
    requires 0 < count
  {
    (i as real) / (count as real)
  }

  lemma FractionRange(i: nat, count: nat)
    requires i < count
    ensures 0.0 <= Fraction(i, count) < 1.0
  {
    var f := Fraction(i, count);
    var n := count as real;
    assert f * n == i as real;
    if f >= 1.0 {
      MulMono(1.0, f, n);
      assert false;
    }
  }

  /** The spiral angle `(i / count) * PI * 4`: two full turns along the tunnel. */
  function SpiralAngle(i: nat, count: nat): real
    requires 0 < count
  {
    Fraction(i, count) * Pi * 4.0
  }

  /** The spiral radius `radius * (1 - (i / count) * 0.8)`: the tunnel narrows to a fifth. */
  function SpiralRadius(radius: real, i: nat, count: nat): real
    requires 0 < count
  {
    radius * (1.0 - Fraction(i, count) * 0.8)
  }

  /** Particle `i`'s point on the spiral at depth `z`. */
  function SpiralPoint(trig: Trig, radius: real, i: nat, count: nat, z: real): Vec3
    requires 0 < count
  {
    Vec3(Cos(trig, SpiralAngle(i, count)) * SpiralRadius(radius, i, count),
         Sin(trig, SpiralAngle(i, count)) * SpiralRadius(radius, i, count),
         z)
  }

  /** The initial depth `(i / count) * 20 - 10`. */
  function InitialDepth(i: nat, count: nat): real
    requires 0 < count
  {
    Fraction(i, count) * 20.0 - 10.0
  }

  /** The colour gradient: red `0.5 + f * 0.5`, green `0.2 + f * 0.3`, blue 1. */
  function TunnelColour(i: nat, count: nat): Vec3
    requires 0 < count
  {
    Vec3(0.5 + Fraction(i, count) * 0.5, 0.2 + Fraction(i, count) * 0.3, 1.0)
  }

  /**
   * Every particle starts inside the tunnel, on a spiral that narrows from `radius` to just
   * above a fifth of it, coloured from blue-purple (red in [0.5, 1), green in [0.2, 0.5), blue 1).
   */
  lemma InitialLayout(radius: real, i: nat, count: nat)
    requires 0.0 < radius && i < count
    ensures TunnelStart <= InitialDepth(i, count) < TunnelEnd
    ensures 0.2 * radius < SpiralRadius(radius, i, count) <= radius
    ensures var c := TunnelColour(i, count); 0.5 <= c.x < 1.0 && 0.2 <= c.y < 0.5 && c.z == 1.0
  {
    FractionRange(i, count);
    var g := 1.0 - Fraction(i, count) * 0.8;
    assert 0.2 < g <= 1.0;
    ScaleDown(radius, g, SpiralRadius(radius, i, count));
    MulStrict(0.2, g, radius);
    assert radius * g == g * radius;
  }

  /** The initial size `1 + random * 3`, in [1, 4). */
  function InitialSize(draw: real): real {
    1.0 + draw * 3.0
  }

  /**
   * One particle on a frame: it moves 0.2 deeper, and once past the end of the tunnel it goes
   * back to the start on its own spiral point.
   */
  function TunnelStep(trig: Trig, radius: real, i: nat, count: nat, p: Vec3): Vec3
    requires 0 < count
  {
    var z := p.z + DepthStep;
    if z > TunnelEnd then SpiralPoint(trig, radius, i, count, TunnelStart) else p.(z := z)
  }

  /**
   * A particle that stays in the tunnel keeps its x and y and gains 0.2 of depth; one that
   * leaves is reset to depth -10 on its spiral point. Either way a depth in [-10, 10] stays
   * in [-10, 10].
   */
  lemma TunnelStepKeepsDepth(trig: Trig, radius: real, i: nat, count: nat, p: Vec3)
    requires 0 < count
    ensures var q := TunnelStep(trig, radius, i, count, p);
      && (p.z + DepthStep <= TunnelEnd ==> q == Vec3(p.x, p.y, p.z + DepthStep))
      && (p.z + DepthStep > TunnelEnd ==> q == SpiralPoint(trig, radius, i, count, TunnelStart))
      && (TunnelStart <= p.z <= TunnelEnd ==> TunnelStart <= q.z <= TunnelEnd)
  {}

  /** The ring's scale `1 + sin(3t) * 0.1`, in [0.9, 1.1]. */
  function PulseScale(trig: Trig, elapsed: real): real {
    1.0 + Sin(trig, elapsed * 3.0) * 0.1
  }

  lemma PulseScaleRange(trig: Trig, elapsed: real)
    requires Sound(trig)
    ensures 0.9 <= PulseScale(trig, elapsed) <= 1.1
  {
    assert -1.0 <= Sin(trig, elapsed * 3.0) <= 1.0;
  }

  /** The component renders nothing without warp speed. */
  predicate Renders(effects: Effects) {
    effects.warpSpeed
  }

  class Tunnel {
    const radius: real
    const count: nat
    const positions: array<Vec3>
    const colors: array<Vec3>
    const sizes: array<real>
    /** The ring mesh's rotation about x and z, and its uniform scale. */
    var spinX: real
    var spinZ: real
    var scale: real

    /** The three buffers hold `count` particles, and every particle's depth lies within the tunnel. */
    ghost predicate Valid()
      reads this, positions
    {
      && 0 < count && positions.Length == count && colors.Length == count && sizes.Length == count
      && positions != colors
      && forall i :: 0 <= i < count ==> TunnelStart <= positions[i].z <= TunnelEnd
    }

    /**
     * The `useMemo` construction for the quality at hand: `count` particles on the spiral at
     * their initial depths, with the colour gradient and a random size each.
     */
    constructor (trig: Trig, radius: real, quality: Tier, draws: seq<real>)
      requires |draws| == ParticleCount(quality)
      ensures Valid() && this.radius == radius && count == ParticleCount(quality)
      ensures fresh(positions) && fresh(colors) && fresh(sizes)
      ensures forall i :: 0 <= i < count ==>
        && positions[i] == SpiralPoint(trig, radius, i, count, InitialDepth(i, count))
        && colors[i] == TunnelColour(i, count)
        && sizes[i] == InitialSize(draws[i])
    {
      var n := ParticleCount(quality);
      var ps := new Vec3[n];
      var cs := new Vec3[n];
      var ss := new real[n];
      for i := 0 to n
        invariant forall j :: 0 <= j < i ==> ps[j] == SpiralPoint(trig, radius, j, n, InitialDepth(j, n))
        invariant forall j :: 0 <= j < i ==> cs[j] == TunnelColour(j, n)
        invariant forall j :: 0 <= j < i ==> ss[j] == InitialSize(draws[j])
      {
        ps[i] := SpiralPoint(trig, radius, i, n, InitialDepth(i, n));
        cs[i] := TunnelColour(i, n);
        ss[i] := InitialSize(draws[i]);
      }
      forall j | 0 <= j < n
        ensures TunnelStart <= ps[j].z <= TunnelEnd
      {
        FractionRange(j, n);
      }
      this.radius := radius;
      count := n;
      positions, colors, sizes := ps, cs, ss;
      spinX, spinZ, scale := 0.0, 0.0, 1.0;
    }

    /**
     * One `useFrame` call; `mounted` says the ring and particle refs are attached. Without warp
     * speed nothing changes. Otherwise the ring turns, every particle takes its tunnel step, and
     * the ring's scale follows the pulse; particles stay inside the tunnel.
     */
    method Frame(trig: Trig, effects: Effects, mounted: bool, elapsed: real)
      requires Valid()
      modifies this, positions
      ensures Valid()
      ensures !mounted || !effects.warpSpeed ==>
        && positions[..] == old(positions[..])
        && spinX == old(spinX) && spinZ == old(spinZ) && scale == old(scale)
      ensures mounted && effects.warpSpeed ==>
        && spinZ == old(spinZ) + 0.02 && spinX == old(spinX) + 0.01
        && scale == PulseScale(trig, elapsed)
        && forall i :: 0 <= i < count ==> positions[i] == TunnelStep(trig, radius, i, count, old(positions[i]))
    {
      if !mounted || !effects.warpSpeed {
        return;
      }
      spinZ := spinZ + 0.02;
      spinX := spinX + 0.01;
      for i := 0 to count
        modifies positions
        invariant forall j :: 0 <= j < i ==> positions[j] == TunnelStep(trig, radius, j, count, old(positions[j]))
        invariant forall j :: i <= j < count ==> positions[j] == old(positions[j])
        invariant forall j :: 0 <= j < count ==> TunnelStart <= positions[j].z <= TunnelEnd
      {
        var p := positions[i];
        if p.z + DepthStep > TunnelEnd {
          positions[i] := SpiralPoint(trig, radius, i, count, TunnelStart);
        } else {
          positions[i] := p.(z := p.z + DepthStep);
        }
      }
      scale := PulseScale(trig, elapsed);
    }
  }
}
