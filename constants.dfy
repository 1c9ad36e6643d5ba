/**
 * Astronomical constants, the scaling and number-formatting helpers, the quality presets
 * and the easing polynomials of `src/utils/constants.js`.
 */
module Constants {
  import opened Wrappers
  import Geometry

  const AstronomicalUnit: real := 149597870.7  // km
  const SolarRadius: real := 696340.0          // km
  const EarthRadius: real := 6371.0            // km

  const DistanceScale: real := 0.1
  const SizeScale: real := 0.001

  /** A distance in km shown in scene units: one astronomical unit becomes 0.1. */
  function ScaleDistance(realDistance: real): real {
    (realDistance / AstronomicalUnit) * DistanceScale
  }

  /** A radius in km shown in scene units: one Earth radius becomes 0.001. */
  function ScaleSize(realRadius: real): real {
    (realRadius / EarthRadius) * SizeScale
  }

  /** `scaleDistance` is linear, and maps 0 to 0 and one astronomical unit to the distance scale. */
  lemma ScaleDistanceLinear(a: real, b: real, k: real)
    ensures ScaleDistance(k * a + b) == k * ScaleDistance(a) + ScaleDistance(b)
    ensures ScaleDistance(0.0) == 0.0
    ensures ScaleDistance(AstronomicalUnit) == DistanceScale
  {}

  /** `scaleSize` is linear, and maps one Earth radius to the size scale. */
  lemma ScaleSizeLinear(a: real, b: real, k: real)
    ensures ScaleSize(k * a + b) == k * ScaleSize(a) + ScaleSize(b)
    ensures ScaleSize(EarthRadius) == SizeScale
  {}

  /**
   * The number a formatter prints, before `toFixed`/`toString` turn it into text:
   * `value` printed with `decimals` fraction digits (`None`: `toString`), then `suffix`.
   */
  datatype Formatted = Formatted(value: real, decimals: Option<nat>, suffix: string)

  /** The unit a `formatNumber` suffix stands for. */
  function NumberUnit(suffix: string): real {
    if suffix == "B" then 1000000000.0
    else if suffix == "M" then 1000000.0
    else if suffix == "K" then 1000.0
    else 1.0
  }

  /** `formatNumber`: the largest of billions, millions and thousands that `num` reaches. */
  function FormatNumber(num: real): (f: Formatted)
    ensures f.suffix == "B" <==> num >= 1000000000.0
    ensures f.suffix == "M" <==> 1000000.0 <= num < 1000000000.0
    ensures f.suffix == "K" <==> 1000.0 <= num < 1000000.0
    ensures f.suffix == "" <==> num < 1000.0
    ensures f.value * NumberUnit(f.suffix) == num
    ensures f.decimals == (if num < 1000.0 then None else Some(1))
  {
    if num >= 1000000000.0 then Formatted(num / 1000000000.0, Some(1), "B")
    else if num >= 1000000.0 then Formatted(num / 1000000.0, Some(1), "M")
    else if num >= 1000.0 then Formatted(num / 1000.0, Some(1), "K")
    else Formatted(num, None, "")
  }

  /** The unit, in km, a `formatDistance` suffix stands for. */
  function DistanceUnit(suffix: string): real {
    if suffix == " AU" then AstronomicalUnit
    else if suffix == " million km" then 1000000.0
    else if suffix == " thousand km" then 1000.0
    else 1.0
  }

  /** `formatDistance`: astronomical units from one AU up, then millions, thousands and plain km. */
  function FormatDistance(km: real): (f: Formatted)
    ensures f.suffix == " AU" <==> km >= AstronomicalUnit
    ensures f.suffix == " million km" <==> 1000000.0 <= km < AstronomicalUnit
    ensures f.suffix == " thousand km" <==> 1000.0 <= km < 1000000.0
    ensures f.suffix == " km" <==> km < 1000.0
    ensures f.value * DistanceUnit(f.suffix) == km
    ensures f.decimals == Some(if km >= AstronomicalUnit then 2 else if km < 1000.0 then 0 else 1)
  {
    if km >= AstronomicalUnit then Formatted(km / AstronomicalUnit, Some(2), " AU")
    else if km >= 1000000.0 then Formatted(km / 1000000.0, Some(1), " million km")
    else if km >= 1000.0 then Formatted(km / 1000.0, Some(1), " thousand km")
    else Formatted(km, Some(0), " km")
  }

  /** The rendering quality tier: `'low'`, `'medium'` or `'high'`. */
  datatype Tier = Low | Medium | High

  /** Position of a tier in the order low < medium < high. */
  function Rank(t: Tier): nat {
    match t
    case Low => 0
    case Medium => 1
    case High => 2
  }

  datatype ShadowQuality = ShadowOff | ShadowLow | ShadowHigh

  /** One entry of `PERFORMANCE_PRESETS`: every preset has all five fields. */
  datatype Preset = Preset(
    quality: Tier,
    enableLOD: bool,
    maxParticles: nat,
    shadowQuality: ShadowQuality,
    antialiasing: bool)

  /** `PERFORMANCE_PRESETS[t]`. */
  function PerformancePreset(t: Tier): (p: Preset)
    ensures p.quality == t
  {
    match t
    case Low => Preset(Low, true, 500, ShadowOff, false)
    case Medium => Preset(Medium, true, 1000, ShadowLow, true)
    case High => Preset(High, false, 2000, ShadowHigh, true)
  }

  /** A higher tier gets a strictly larger particle budget (500 < 1000 < 2000). */
  lemma PresetBudgetIncreases(s: Tier, t: Tier)
    requires Rank(s) < Rank(t)
    ensures PerformancePreset(s).maxParticles < PerformancePreset(t).maxParticles
  {}

  /** `easeInOut`: quadratic ease in below one half, quadratic ease out above. */
  function EaseInOut(t: real): real {
    if t < 0.5 then 2.0 * t * t else -1.0 + (4.0 - 2.0 * t) * t
  }

  /** The curve fixes 0, one half and 1. */
  lemma EaseInOutFixedPoints()
    ensures EaseInOut(0.0) == 0.0 && EaseInOut(0.5) == 0.5 && EaseInOut(1.0) == 1.0
  {}

  /**
   * The two pieces of `easeInOut` meet without a jump at one half: on either side, the curve
   * stays within twice the distance to one half of its value there.
   */
  lemma EaseInOutContinuousAtHalf(t: real)
    requires 0.0 <= t <= 1.0
    ensures t < 0.5 ==> EaseInOut(0.5) - 2.0 * (0.5 - t) <= EaseInOut(t) <= EaseInOut(0.5)
    ensures 0.5 <= t ==> EaseInOut(0.5) <= EaseInOut(t) <= EaseInOut(0.5) + 2.0 * (t - 0.5)
  {
    if t < 0.5 {
      Geometry.SquareMono(t, 0.5);
      assert EaseInOut(t) - (EaseInOut(0.5) - 2.0 * (0.5 - t)) == 2.0 * ((0.5 - t) * (0.5 - t));
      Geometry.MulNonneg(0.5 - t, 0.5 - t);
    } else {
      assert EaseInOut(t) - EaseInOut(0.5) == (t - 0.5) * (3.0 - 2.0 * t);
      Geometry.MulNonneg(t - 0.5, 3.0 - 2.0 * t);
      assert EaseInOut(0.5) + 2.0 * (t - 0.5) - EaseInOut(t) == 2.0 * ((t - 0.5) * (t - 0.5));
      Geometry.MulNonneg(t - 0.5, t - 0.5);
    }
  }

  /** On [0, 1], `easeInOut` is monotone and stays within [0, 1]. */
  lemma EaseInOutMonotone(s: real, t: real)
    requires 0.0 <= s <= t <= 1.0
    ensures 0.0 <= EaseInOut(s) <= EaseInOut(t) <= 1.0
  {
    assert 0.0 <= EaseInOut(s) by {
      if s < 0.5 { Geometry.MulNonneg(s, s); }
      else { assert EaseInOut(s) == 0.5 + (s - 0.5) * (3.0 - 2.0 * s); Geometry.MulNonneg(s - 0.5, 3.0 - 2.0 * s); }
    }
    assert EaseInOut(t) <= 1.0 by {
      if t < 0.5 { Geometry.SquareMono(t, 0.5); }
      else { assert 1.0 - EaseInOut(t) == 2.0 * ((1.0 - t) * (1.0 - t)); Geometry.MulNonneg(1.0 - t, 1.0 - t); }
    }
    if t < 0.5 {
      Geometry.SquareMono(s, t);
    } else if 0.5 <= s {
      assert EaseInOut(t) - EaseInOut(s) == (t - s) * (4.0 - 2.0 * (t + s));
      Geometry.MulNonneg(t - s, 4.0 - 2.0 * (t + s));
    } else {
      Geometry.SquareMono(s, 0.5);
      assert EaseInOut(t) - 0.5 == (t - 0.5) * (3.0 - 2.0 * t);
      Geometry.MulNonneg(t - 0.5, 3.0 - 2.0 * t);
    }
  }

  function Cube(x: real): real {
    x * x * x
  }

  /** `easeIn(t) = t * t * t`. */
  function EaseIn(t: real): real {
    Cube(t)
  }

  /** `easeOut(t) = 1 - (1 - t)^3`. */
  function EaseOut(t: real): real {
    1.0 - Cube(1.0 - t)
  }

  /** `easeIn` and `easeOut` both fix 0 and 1. */
  lemma EaseEndpoints()
    ensures EaseIn(0.0) == 0.0 && EaseIn(1.0) == 1.0
    ensures EaseOut(0.0) == 0.0 && EaseOut(1.0) == 1.0
  {
    assert Cube(0.0) == 0.0;
    assert Cube(1.0) == 1.0;
  }

  /** `easeIn` stays in [0, 1] on [0, 1] and is monotone there. */
  lemma EaseInRange(s: real, t: real)
    requires 0.0 <= s <= t <= 1.0
    ensures 0.0 <= EaseIn(s) <= EaseIn(t) <= 1.0
  {
    assert Cube(0.0) == 0.0 && Cube(1.0) == 1.0;
    assert Cube(0.0) <= Cube(s) by { CubeMonotone(0.0, s); }
    assert Cube(s) <= Cube(t) by { CubeMonotone(s, t); }
    assert Cube(t) <= Cube(1.0) by { CubeMonotone(t, 1.0); }
  }

  /** `easeOut` is `easeIn` turned half a turn about (1/2, 1/2), so it too stays in [0, 1] on [0, 1] and is monotone there. */
  lemma EaseOutRange(s: real, t: real)
    requires 0.0 <= s <= t <= 1.0
    ensures 0.0 <= EaseOut(s) <= EaseOut(t) <= 1.0
  {
    EaseInRange(1.0 - t, 1.0 - s);
    assert EaseOut(s) == 1.0 - EaseIn(1.0 - s);
    assert EaseOut(t) == 1.0 - EaseIn(1.0 - t);
  }

  lemma CubeMonotone(a: real, b: real)
    requires 0.0 <= a <= b
    ensures Cube(a) <= Cube(b)
  {
    Geometry.SquareMono(a, b);
    Geometry.MulNonneg(a, a);
    Geometry.MulMono(a * a, b * b, a);
    Geometry.MulMono(a, b, b * b);
    calc {
      a * a * a;
    <=
      b * b * a;
    ==
      a * (b * b);
    <=
      b * (b * b);
    ==
      b * b * b;
    }
  }
}
