/**
 Plane vectors over the reals, with the origin at the centre of the orbit.
 Ball position and ball velocity are both values of this type.
 */
module Geometry {

  datatype Vec = Vec(x: real, y: real)

  const Origin: Vec := Vec(0.0, 0.0)

  function Add(a: Vec, b: Vec): Vec {
    Vec(a.x + b.x, a.y + b.y)
  }

  function Scale(k: real, v: Vec): Vec {
    Vec(k * v.x, k * v.y)
  }

  function Neg(v: Vec): Vec {
    Vec(-v.x, -v.y)
  }

  function Dot(a: Vec, b: Vec): real {
    a.x * b.x + a.y * b.y
  }

  /** Zero exactly when the two vectors lie on one line through the origin. */
  function Cross(a: Vec, b: Vec): real {
    a.x * b.y - a.y * b.x
  }

  /** Squared Euclidean length; the game takes its square root with `Math.sqrt`. */
  function SqLen(v: Vec): real {
    Dot(v, v)
  }

  /** Scaling a vector by k scales its squared length by k squared. */
  lemma SqLenScale(k: real, v: Vec)
    ensures SqLen(Scale(k, v)) == k * k * SqLen(v)
  {
    calc {
      SqLen(Scale(k, v));
      (k * v.x) * (k * v.x) + (k * v.y) * (k * v.y);
      k * k * (v.x * v.x) + k * k * (v.y * v.y);
      k * k * SqLen(v);
    }
  }

  /** A positive multiple of the negated vector points exactly the other way. */
  lemma ReversedDirection(k: real, v: Vec)
    requires 0.0 < k && 0.0 < SqLen(v)
    ensures Cross(Scale(k, Neg(v)), v) == 0.0
    ensures Dot(Scale(k, Neg(v)), v) < 0.0
  {
    assert Dot(Scale(k, Neg(v)), v) == -(k * SqLen(v));
    assert 0.0 < k * SqLen(v);
  }

  /**
   Negating a non-zero vector and multiplying it by `speed / n`, where n is its
   length, yields a vector of length |speed|.
   */
  lemma RescaledLength(v: Vec, n: real, speed: real)
    requires 0.0 < n && n * n == SqLen(v)
    ensures 0.0 < SqLen(v)
    ensures SqLen(Scale(speed / n, Neg(v))) == speed * speed
  {
    MultiplyLess(0.0, n);
    var k := speed / n;
    assert k * n == speed;
    SqLenScale(k, Neg(v));
    assert SqLen(Neg(v)) == SqLen(v);
    calc {
      SqLen(Scale(k, Neg(v)));
      k * k * (n * n);
      (k * n) * (k * n);
    }
  }

  /** Among non-negative reals, comparing squares is the same as comparing the values. */
  lemma SquareMonotone(a: real, b: real)
    requires 0.0 <= a && 0.0 <= b
    ensures a < b <==> a * a < b * b
    ensures a == b <==> a * a == b * b
  {
    if a < b {
      MultiplyLess(a, b);
    } else if b < a {
      MultiplyLess(b, a);
    }
  }

  lemma MultiplyLess(a: real, b: real)
    requires 0.0 <= a < b
    ensures a * a < b * b
  {
    var d := b - a;
    assert 0.0 < d;
    assert b * b == a * a + 2.0 * a * d + d * d;
    assert 0.0 <= a * d;
    assert 0.0 < d * d;
  }
}
