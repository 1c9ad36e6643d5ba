/**
 * Three-component vectors (the `[x, y, z]` arrays and `THREE.Vector3` values of the scene)
 * and the host's `Math` functions.
 *
 * `Math.cos`, `Math.sin`, `Math.sqrt` and `Math.atan2` are not computed here: a `Trig` value
 * carries them as opaque functions and `Sound` states the only facts the model relies on
 * (the ranges of cosine and sine, cos^2 + sin^2 = 1, and that `sqrt` is the non-negative
 * square root on non-negative arguments).
 */
module Geometry {

  datatype Vec3 = Vec3(x: real, y: real, z: real)

  /** `Math.PI`, to double precision. */
  const Pi: real := 3.141592653589793

  const Origin: Vec3 := Vec3(0.0, 0.0, 0.0)

  function Add(a: Vec3, b: Vec3): Vec3 {
    Vec3(a.x + b.x, a.y + b.y, a.z + b.z)
  }

  /** `THREE.Vector3.lerpVectors(a, b, t)`: the point a fraction `t` of the way from `a` to `b`. */
  function Lerp(a: Vec3, b: Vec3, t: real): (r: Vec3)
    ensures t == 0.0 ==> r == a
    ensures t == 1.0 ==> r == b
  {
    Vec3(a.x + (b.x - a.x) * t, a.y + (b.y - a.y) * t, a.z + (b.z - a.z) * t)
  }

  /** `Math.trunc`: rounds toward zero. */
  function Trunc(x: real): int {
    if x >= 0.0 then x.Floor else -((-x).Floor)
  }

  /** JavaScript's `a % b` on numbers: the remainder of division truncated toward zero. */
  function Remainder(a: real, b: real): (r: real)
    requires b > 0.0
    ensures 0.0 <= a ==> 0.0 <= r < b
  {
    var q := a / b;
    var f := Trunc(q) as real;
    assert 0.0 <= a ==> 0.0 <= a - b * f < b by {
      if 0.0 <= a {
        assert a == b * q;
        assert 0.0 <= q - f < 1.0;
        MulNonneg(b, q - f);
        MulStrict(q - f, 1.0, b);
        calc {
          a - b * f;
        ==
          b * (q - f);
        ==
          (q - f) * b;
        <
          1.0 * b;
        ==
          b;
        }
      }
    }
    a - b * f
  }

  /** Squared distance from the origin in the horizontal (x, z) plane. */
  function HorizontalNorm2(v: Vec3): real {
    v.x * v.x + v.z * v.z
  }

  /** Squared distance from the origin. */
  function Norm2(v: Vec3): real {
    v.x * v.x + v.y * v.y + v.z * v.z
  }

  datatype Trig = Trig(cos: real -> real, sin: real -> real, sqrt: real -> real, atan2: (real, real) -> real)

  /** `Math.cos`, `Math.sin`, `Math.sqrt` and `Math.atan2` as supplied by `m`. */
  function Cos(m: Trig, a: real): real { m.cos(a) }
  function Sin(m: Trig, a: real): real { m.sin(a) }
  function Sqrt(m: Trig, v: real): real { m.sqrt(v) }
  function Atan2(m: Trig, y: real, x: real): real { m.atan2(y, x) }

  ghost predicate Sound(m: Trig) {
    && (forall a :: -1.0 <= Cos(m, a) <= 1.0)
    && (forall a :: -1.0 <= Sin(m, a) <= 1.0)
    && (forall a :: Cos(m, a) * Cos(m, a) + Sin(m, a) * Sin(m, a) == 1.0)
    && (forall v :: 0.0 <= v ==> 0.0 <= Sqrt(m, v) && Sqrt(m, v) * Sqrt(m, v) == v)
  }

  /** A point written as `(cos a * r, sin a * r)` lies on the circle of radius |r|. */
  lemma OnCircle(m: Trig, a: real, r: real)
    requires Sound(m)
    ensures (Cos(m, a) * r) * (Cos(m, a) * r) + (Sin(m, a) * r) * (Sin(m, a) * r) == r * r
  {
    var c, s := Cos(m, a), Sin(m, a);
    assert c * c + s * s == 1.0;
    calc {
      (c * r) * (c * r) + (s * r) * (s * r);
      (c * c + s * s) * (r * r);
      r * r;
    }
  }

  /** Comparing a square root with a bound is comparing the radicand with the bound squared. */
  lemma SqrtExceeds(m: Trig, v: real, bound: real)
    requires Sound(m) && 0.0 <= v && 0.0 <= bound
    ensures Sqrt(m, v) > bound <==> v > bound * bound
  {
    var s := Sqrt(m, v);
    assert 0.0 <= s && s * s == v;
    if s > bound {
      SquareStrict(bound, s);
    } else {
      SquareMono(s, bound);
    }
  }

  /** The square root of a number in [0, 1] is at most 1. */
  lemma SqrtAtMostOne(m: Trig, v: real)
    requires Sound(m) && 0.0 <= v <= 1.0
    ensures 0.0 <= Sqrt(m, v) <= 1.0
  {
    SqrtExceeds(m, v, 1.0);
  }

  /** Scaling a non-negative `c` by a factor in [0, 1] gives a result `r` in [0, c]. */
  lemma ScaleDown(c: real, k: real, r: real)
    requires 0.0 <= c && 0.0 <= k <= 1.0 && r == c * k
    ensures 0.0 <= r <= c
  {
    MulNonneg(c, k);
    MulMono(k, 1.0, c);
    assert c * k == k * c;
  }

  lemma MulNonneg(a: real, b: real)
    requires 0.0 <= a && 0.0 <= b
    ensures 0.0 <= a * b
  {}

  lemma SquareNonneg(a: real)
    ensures 0.0 <= a * a
  {
    if a < 0.0 {
      MulPos(-a, -a);
      assert a * a == (-a) * (-a);
    }
  }

  lemma MulPos(a: real, b: real)
    requires 0.0 < a && 0.0 < b
    ensures 0.0 < a * b
  {}

  lemma SquareStrict(a: real, b: real)
    requires 0.0 <= a < b
    ensures a * a < b * b
  {
    MulMono(a, b, a);
    MulStrict(a, b, b);
    calc {
      a * a;
    <=
      b * a;
    ==
      a * b;
    <
      b * b;
    }
  }

  lemma SquareMono(a: real, b: real)
    requires 0.0 <= a <= b
    ensures a * a <= b * b
  {
    MulMono(a, b, a);
    MulMono(a, b, b);
    calc {
      a * a;
    <=
      b * a;
    ==
      a * b;
    <=
      b * b;
    }
  }

  lemma MulStrict(a: real, b: real, c: real)
    requires 0.0 < c && a < b
    ensures a * c < b * c
  {}

  lemma MulMono(a: real, b: real, c: real)
    requires 0.0 <= c && a <= b
    ensures a * c <= b * c
  {}
}
