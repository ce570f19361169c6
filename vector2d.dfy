/**
 * Vector2D.java: plane vectors over exact reals. The arithmetic is immutable
 * and lives on the value type Vec; the class Vector2D keeps the one piece of
 * mutable state the source has, the lazily filled magnitude cache.
 */
module Vectors {
  import opened Common

  datatype Vec = Vec(x: real, y: real)

  const Zero := Vec(0.0, 0.0)

  function Add(a: Vec, b: Vec): Vec
  {
    Vec(a.x + b.x, a.y + b.y)
  }

  function Subtract(a: Vec, b: Vec): Vec
  {
    Vec(a.x - b.x, a.y - b.y)
  }

  function Scale(v: Vec, k: real): Vec
  {
    Vec(k * v.x, k * v.y)
  }

  function Dot(a: Vec, b: Vec): real
  {
    a.x * b.x + a.y * b.y
  }

  /** The z-component of the cross product: zero exactly when a and b are parallel. */
  function Cross(a: Vec, b: Vec): real
  {
    a.x * b.y - a.y * b.x
  }

  /** x*x + y*y, the radicand of the magnitude. */
  function NormSq(v: Vec): (r: real)
    ensures r >= 0.0
    ensures r == 0.0 <==> v == Zero
  {
    SquareZero(v.x);
    SquareZero(v.y);
    v.x * v.x + v.y * v.y
  }

  /** magnitude(): sqrt(x*x + y*y). */
  function MagnitudeOf(sqrt: real -> real, v: Vec): (m: real)
    requires IsSqrt(sqrt)
    ensures m >= 0.0 && m * m == NormSq(v)
    ensures m == 0.0 <==> v == Zero
  {
    var d := NormSq(v);
    SqrtFacts(sqrt, d);
    sqrt(d)
  }

  /** distance(other): the magnitude of the difference of the two points. */
  function Distance(sqrt: real -> real, a: Vec, b: Vec): (d: real)
    requires IsSqrt(sqrt)
    ensures d >= 0.0
    ensures d == 0.0 <==> a == b
  {
    var v := Subtract(a, b);
    assert v == Zero <==> a == b;
    MagnitudeOf(sqrt, v)
  }

  /** equals(o): componentwise comparison, which is value equality. */
  function Equals(a: Vec, b: Vec): (r: bool)
    ensures r <==> a == b
  {
    a.x == b.x && a.y == b.y
  }

  /**
   * normalized(): throws when the magnitude is zero, otherwise scale(1/magnitude).
   * The magnitude is zero exactly for the zero vector, which is the test made here.
   */
  function NormalizedOf(sqrt: real -> real, v: Vec): (r: Result<Vec>)
    requires IsSqrt(sqrt)
    ensures v == Zero ==> r == Err(ZeroVector)
    ensures v != Zero ==> r.Ok?
  {
    if v == Zero then Err(ZeroVector) else Ok(Scale(v, 1.0 / MagnitudeOf(sqrt, v)))
  }

  /** A normalized vector has magnitude 1 and points the same way as the original. */
  lemma NormalizedIsUnit(sqrt: real -> real, v: Vec)
    requires IsSqrt(sqrt) && v != Zero
    ensures NormalizedOf(sqrt, v).Ok?
    ensures var n := NormalizedOf(sqrt, v).value;
      NormSq(n) == 1.0 && Cross(n, v) == 0.0 && Dot(n, v) > 0.0
  {
    var mag := MagnitudeOf(sqrt, v);
    UnitScaling(v, mag);
  }

  /** Scaling a non-zero vector by the inverse of its magnitude gives a unit vector along it. */
  lemma UnitScaling(v: Vec, mag: real)
    requires mag > 0.0 && mag * mag == NormSq(v)
    ensures NormSq(Scale(v, 1.0 / mag)) == 1.0
    ensures Cross(Scale(v, 1.0 / mag), v) == 0.0
    ensures Dot(Scale(v, 1.0 / mag), v) > 0.0
  {
    var k := 1.0 / mag;
    var n := Scale(v, k);
    assert k * mag == 1.0;
    calc {
      NormSq(n);
      (k * v.x) * (k * v.x) + (k * v.y) * (k * v.y);
      (k * k) * (v.x * v.x + v.y * v.y);
      (k * k) * (mag * mag);
      (k * mag) * (k * mag);
    }
    calc {
      Dot(n, v);
      (k * v.x) * v.x + (k * v.y) * v.y;
      k * (v.x * v.x + v.y * v.y);
      k * (mag * mag);
      (k * mag) * mag;
    }
  }

  /** subtract(o) == add(o.scale(-1)). */
  lemma SubtractIsAddNegated(a: Vec, b: Vec)
    ensures Subtract(a, b) == Add(a, Scale(b, -1.0))
  {
  }

  /** dotProduct is symmetric and bilinear. */
  lemma DotLaws(a: Vec, b: Vec, c: Vec, k: real)
    ensures Dot(a, b) == Dot(b, a)
    ensures Dot(Add(a, b), c) == Dot(a, c) + Dot(b, c)
    ensures Dot(Subtract(a, b), c) == Dot(a, c) - Dot(b, c)
    ensures Dot(Scale(a, k), b) == k * Dot(a, b)
    ensures Dot(a, a) == NormSq(a)
  {
    assert Dot(Scale(a, k), b) == (k * a.x) * b.x + (k * a.y) * b.y;
  }

  /** distance is symmetric. */
  lemma DistanceSymmetric(sqrt: real -> real, a: Vec, b: Vec)
    requires IsSqrt(sqrt)
    ensures Distance(sqrt, a, b) == Distance(sqrt, b, a)
  {
    var dx, dy := a.x - b.x, a.y - b.y;
    assert (b.x - a.x) * (b.x - a.x) == dx * dx;
    assert (b.y - a.y) * (b.y - a.y) == dy * dy;
    assert NormSq(Subtract(a, b)) == NormSq(Subtract(b, a));
  }

  /**
   * A Vector2D object: immutable coordinates and a magnitude cache that holds
   * -1 until the first call of Magnitude. The sentinel never collides with a
   * real magnitude, which is non-negative.
   */
  class Vector2D {
    const x: real
    const y: real
    var magnitude: real

    /** The cache is either empty (-1) or the non-negative root of x*x + y*y. */
    ghost predicate Valid()
      reads this
    {
      magnitude == -1.0 || (magnitude >= 0.0 && magnitude * magnitude == NormSq(Vec(x, y)))
    }

    function Value(): Vec
    {
      Vec(x, y)
    }

    constructor (x: real, y: real)
      ensures this.x == x && this.y == y
      ensures magnitude == -1.0 && Valid()
    {
      this.x := x;
      this.y := y;
      magnitude := -1.0;
    }

    /** magnitude(): fills the cache on the first call, and every call returns sqrt(x*x + y*y). */
    method Magnitude(sqrt: real -> real) returns (m: real)
      requires IsSqrt(sqrt) && Valid()
      modifies this`magnitude
      ensures Valid()
      ensures m == MagnitudeOf(sqrt, Value()) && magnitude == m
      ensures old(magnitude) != -1.0 ==> m == old(magnitude)
    {
      var v := Value();
      var root := MagnitudeOf(sqrt, v);
      if magnitude == -1.0 {
        assert NormSq(v) == x * x + y * y;
        magnitude := sqrt(x * x + y * y);
      } else {
        SquareRootUnique(magnitude, root);
      }
      m := magnitude;
    }

    /** normalized(): reads the magnitude through the cache, fails on the zero vector. */
    method Normalized(sqrt: real -> real) returns (r: Result<Vec>)
      requires IsSqrt(sqrt) && Valid()
      modifies this`magnitude
      ensures Valid() && magnitude == MagnitudeOf(sqrt, Value())
      ensures r == NormalizedOf(sqrt, Value())
    {
      var mag := Magnitude(sqrt);
      if mag == 0.0 {
        r := Err(ZeroVector);
      } else {
        r := Ok(Scale(Value(), 1.0 / mag));
      }
    }
  }
}
