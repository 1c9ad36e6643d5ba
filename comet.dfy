/**
 * The comet of `src/components/Comet.jsx`: an elliptical orbit, a bounded trail of recent
 * positions kept newest-first, and the flat position and colour buffers the trail is copied
 * into on every frame.
 */
module Comet {
  import opened Geometry
  import opened Constants
  import opened UniverseStore

  /** `trailLength`: the trail keeps at most this many positions. */
  const TrailLength: nat := 100

  /** The comet's props, with the source's defaults in `Halley`. */
  datatype Ellipse = Ellipse(name: string, orbitRadius: real, speed: real, inclination: real, eccentricity: real)

  const Halley: Ellipse := Ellipse("Halley", 80.0, 0.005, 15.0, 0.8)

  function OneMinusSquare(e: real): real {
    1.0 - e * e
  }

  /** The semi-minor axis `a * sqrt(1 - e^2)`. */
  function SemiMinor(trig: Trig, o: Ellipse): real {
    o.orbitRadius * Sqrt(trig, OneMinusSquare(o.eccentricity))
  }

  /** The nucleus position at clock time `elapsed`. */
  function CometPosition(trig: Trig, o: Ellipse, elapsed: real): Vec3 {
    var time := elapsed * o.speed;
    Vec3(o.orbitRadius * Cos(trig, time), Sin(trig, time + o.inclination) * 5.0, SemiMinor(trig, o) * Sin(trig, time))
  }

  /**
   * For an orbit of non-negative radius and eccentricity in [0, 1) the semi-minor axis lies
   * between 0 and the semi-major axis, and the inclination wobble keeps the comet within 5 of
   * the ecliptic.
   */
  lemma CometPositionBounds(trig: Trig, o: Ellipse, elapsed: real)
    requires Sound(trig) && 0.0 <= o.orbitRadius && 0.0 <= o.eccentricity < 1.0
    ensures 0.0 <= SemiMinor(trig, o) <= o.orbitRadius
    ensures -5.0 <= CometPosition(trig, o, elapsed).y <= 5.0
  {
    assert 0.0 <= OneMinusSquare(o.eccentricity) <= 1.0 by {
      SquareMono(o.eccentricity, 1.0);
      SquareNonneg(o.eccentricity);
    }
    SqrtAtMostOne(trig, OneMinusSquare(o.eccentricity));
    ScaleDown(o.orbitRadius, Sqrt(trig, OneMinusSquare(o.eccentricity)), SemiMinor(trig, o));
    assert -1.0 <= Sin(trig, elapsed * o.speed + o.inclination) <= 1.0;
  }

  /** `unshift` the newest position, then `pop` the oldest once the trail is longer than `TrailLength`. */
  function PushTrail(trail: seq<Vec3>, p: Vec3): (r: seq<Vec3>)
    requires |trail| <= TrailLength
    ensures 0 < |r| <= TrailLength && r[0] == p
  {
    var t := [p] + trail;
    if |t| > TrailLength then t[..|t| - 1] else t
  }

  /**
   * The trail grows by one per frame until it holds `TrailLength` positions and then stays
   * at that length; the new position is first and the older ones follow in order, shifted by
   * one, with the oldest dropped.
   */
  lemma PushTrailShifts(trail: seq<Vec3>, p: Vec3)
    requires |trail| <= TrailLength
    ensures var r := PushTrail(trail, p);
      && |r| == (if |trail| < TrailLength then |trail| + 1 else TrailLength)
      && r[0] == p
      && forall i :: 1 <= i < |r| ==> r[i] == trail[i - 1]
  {}

  /** A trail that starts empty holds the last `min(n, 100)` positions after `n` frames, newest first. */
  function TrailAfter(ps: seq<Vec3>): seq<Vec3> {
    if |ps| == 0 then [] else PushTrail(TrailAfter(ps[..|ps| - 1]), ps[|ps| - 1])
  }

  lemma {:induction false} TrailAfterKeepsNewest(ps: seq<Vec3>)
    ensures var r := TrailAfter(ps);
      && |r| == (if |ps| < TrailLength then |ps| else TrailLength)
      && forall i :: 0 <= i < |r| ==> r[i] == ps[|ps| - 1 - i]
  {
    if |ps| > 0 {
      var prev := ps[..|ps| - 1];
      TrailAfterKeepsNewest(prev);
      PushTrailShifts(TrailAfter(prev), ps[|ps| - 1]);
    }
  }

  /** Fade of trail slot `i` on a frame: 1 at the head down to 1/100 at the tail. */
  function FrameAlpha(i: nat): real {
    ((TrailLength - i) as real) / 100.0
  }

  /** Fade of slot `i` in the initial buffer: the opposite gradient, 0 at the head. */
  function InitialAlpha(i: nat): real {
    (i as real) / 100.0
  }

  /** Blue fading to white as `alpha` grows. */
  function TrailColour(alpha: real): Vec3 {
    Vec3(0.5 + alpha * 0.5, 0.7 + alpha * 0.3, 1.0)
  }

  /**
   * On a frame the slots of the trail get alpha in (0, 1], so red in (0.5, 1] and green in
   * (0.7, 1], blue always 1; the initial buffer uses the mirrored gradient.
   */
  lemma TrailColourRanges(i: nat)
    requires i < TrailLength
    ensures 0.0 < FrameAlpha(i) <= 1.0
    ensures FrameAlpha(i) + InitialAlpha(i) == 1.0
    ensures var c := TrailColour(FrameAlpha(i)); 0.5 < c.x <= 1.0 && 0.7 < c.y <= 1.0 && c.z == 1.0
  {}

  /** Initial point size `(1 - i/100) * 3`, in (0, 3] for every slot. */
  function InitialSize(i: nat): real {
    (1.0 - InitialAlpha(i)) * 3.0
  }

  lemma InitialSizeRange(i: nat)
    requires i < TrailLength
    ensures 0.0 < InitialSize(i) <= 3.0
  {}

  /** The three slots of trail entry `i` in a flat `x, y, z` buffer. */
  function Slot(a: array<real>, i: nat): Vec3
    reads a
    requires 3 * i + 2 < a.Length
  {
    Vec3(a[3 * i], a[3 * i + 1], a[3 * i + 2])
  }

  /** Writes trail entry `i`'s three slots of a flat buffer and nothing else. */
  method SetSlot(a: array<real>, i: nat, v: Vec3)
    requires 3 * i + 2 < a.Length
    modifies a
    ensures Slot(a, i) == v
    ensures forall k :: 0 <= k < a.Length && (k < 3 * i || 3 * i + 2 < k) ==> a[k] == old(a[k])
  {
    a[3 * i], a[3 * i + 1], a[3 * i + 2] := v.x, v.y, v.z;
  }

  /** One pass of the initialisation loop: entry `i` of all three buffers, nothing else. */
  method InitEntry(ps: array<real>, cs: array<real>, ss: array<real>, i: nat)
    requires ps.Length == cs.Length == 3 * TrailLength && ss.Length == TrailLength && i < TrailLength
    requires ps != cs && ps != ss && cs != ss
    modifies ps, cs, ss
    ensures ps[3 * i] == ps[3 * i + 1] == ps[3 * i + 2] == 0.0
    ensures Slot(cs, i) == TrailColour(InitialAlpha(i)) && ss[i] == InitialSize(i)
    ensures forall k :: 0 <= k < 3 * TrailLength && (k < 3 * i || 3 * i + 2 < k) ==> ps[k] == old(ps[k]) && cs[k] == old(cs[k])
    ensures forall k :: 0 <= k < TrailLength && k != i ==> ss[k] == old(ss[k])
  {
    var alpha := (i as real) / 100.0;
    ps[3 * i], ps[3 * i + 1], ps[3 * i + 2] := 0.0, 0.0, 0.0;
    cs[3 * i], cs[3 * i + 1], cs[3 * i + 2] := 0.5 + alpha * 0.5, 0.7 + alpha * 0.3, 1.0;
    ss[i] := (1.0 - alpha) * 3.0;
  }

  /** The component renders nothing when comets are off or quality is low. */
  predicate Renders(effects: Effects, performance: Performance) {
    effects.showComets && performance.quality != Low
  }

  class CometView {
    const orbit: Ellipse
    const positions: array<real>
    const colors: array<real>
    const sizes: array<real>
    /** `trailPositions.current`, newest first. */
    var trail: seq<Vec3>
    /** The group's position. */
    var position: Vec3
    /** The nucleus mesh's rotation about x and y. */
    var spinX: real
    var spinY: real

    ghost predicate Valid()
      reads this
    {
      && positions.Length == 3 * TrailLength && colors.Length == 3 * TrailLength && sizes.Length == TrailLength
      && positions != colors && positions != sizes && colors != sizes
      && |trail| <= TrailLength
    }

    /** The `useMemo` buffers: positions zero, colours on the initial gradient, sizes tapering; the trail starts empty. */
    constructor (orbit: Ellipse)
      ensures Valid() && this.orbit == orbit && trail == []
      ensures forall k :: 0 <= k < 3 * TrailLength ==> positions[k] == 0.0
      ensures forall i :: 0 <= i < TrailLength ==>
        && Slot(colors, i) == TrailColour(InitialAlpha(i))
        && sizes[i] == InitialSize(i)
    {
      var ps := new real[3 * TrailLength];
      var cs := new real[3 * TrailLength];
      var ss := new real[TrailLength];
      for i := 0 to TrailLength
        invariant forall k :: 0 <= k < 3 * i ==> ps[k] == 0.0
        invariant forall j :: 0 <= j < i ==> Slot(cs, j) == TrailColour(InitialAlpha(j))
        invariant forall j :: 0 <= j < i ==> ss[j] == InitialSize(j)
      {
        InitEntry(ps, cs, ss, i);
      }
      this.orbit := orbit;
      positions, colors, sizes := ps, cs, ss;
      trail := [];
      position := Origin;
      spinX, spinY := 0.0, 0.0;
    }

    /**
     * One `useFrame` call; `mounted` says the group, trail and nucleus refs are attached (they
     * are once the component has rendered). With comets off nothing changes. Otherwise the
     * comet moves to its orbit position, that position is pushed onto the trail, the trail is
     * copied into the buffers and the nucleus spins.
     */
    method Frame(trig: Trig, effects: Effects, mounted: bool, elapsed: real)
      requires Valid()
      modifies this, positions, colors
      ensures Valid()
      ensures !mounted || !effects.showComets ==>
        && trail == old(trail) && position == old(position) && spinX == old(spinX) && spinY == old(spinY)
        && positions[..] == old(positions[..]) && colors[..] == old(colors[..])
      ensures mounted && effects.showComets ==>
        && position == CometPosition(trig, orbit, elapsed)
        && trail == PushTrail(old(trail), position)
        && spinX == old(spinX) + 0.01 && spinY == old(spinY) + 0.02
        && (forall i :: 0 <= i < |trail| ==> Slot(positions, i) == trail[i] && Slot(colors, i) == TrailColour(FrameAlpha(i)))
        && (forall k :: 3 * |trail| <= k < 3 * TrailLength ==> positions[k] == old(positions[k]) && colors[k] == old(colors[k]))
    {
      if !mounted || !effects.showComets {
        return;
      }
      position := CometPosition(trig, orbit, elapsed);
      trail := [position] + trail;
      if |trail| > TrailLength {
        trail := trail[..|trail| - 1];
      }
      CopyTrail(trail);
      spinX := spinX + 0.01;
      spinY := spinY + 0.02;
    }

    /** The copy loop: entry `i` of the trail into slots `3i..3i+2`, with its fade colour. */
    method CopyTrail(t: seq<Vec3>)
      requires Valid() && |t| <= TrailLength
      modifies positions, colors
      ensures forall i :: 0 <= i < |t| ==> Slot(positions, i) == t[i] && Slot(colors, i) == TrailColour(FrameAlpha(i))
      ensures forall k :: 3 * |t| <= k < 3 * TrailLength ==> positions[k] == old(positions[k]) && colors[k] == old(colors[k])
    {
      for i := 0 to |t|
        invariant forall j :: 0 <= j < i ==> Slot(positions, j) == t[j] && Slot(colors, j) == TrailColour(FrameAlpha(j))
        invariant forall k :: 3 * i <= k < 3 * TrailLength ==> positions[k] == old(positions[k]) && colors[k] == old(colors[k])
      {
        SetSlot(positions, i, t[i]);
        SetSlot(colors, i, TrailColour(FrameAlpha(i)));
      }
    }
  }
}
