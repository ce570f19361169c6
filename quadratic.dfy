/**
 * The contact-time solver shared by Board.boardCollisionTime,
 * obstacleCollisionTime and particlePairCollisionTime: the earliest root
 * above EPS of A t^2 + B t + C, or -1 when there is none.
 */
module Quadratics {
  import opened Common
  import opened Vectors
  import opened Particles

  /** The tolerance the solvers use (1e-12). */
  const EPS: real := 0.000000000001

  datatype Quadratic = Quadratic(a: real, b: real, c: real)

  function Eval(q: Quadratic, t: real): real
  {
    q.a * t * t + q.b * t + q.c
  }

  /** discriminant(A, B, C) = B*B - 4*A*C. */
  function Discriminant(q: Quadratic): real
  {
    q.b * q.b - 4.0 * q.a * q.c
  }

  /** The discriminant with a value in (-EPS, 0) rounded up to 0. */
  function Clamped(disc: real): (d: real)
    ensures disc >= 0.0 ==> d == disc
    ensures -EPS < disc < 0.0 ==> d == 0.0
    ensures disc <= -EPS ==> d == disc
  {
    if disc < 0.0 && disc > -EPS then 0.0 else disc
  }

  /**
   * The result branches of the solvers: the smaller of two roots above EPS,
   * otherwise the one root above EPS, otherwise -1.
   */
  function PickRoot(t1: real, t2: real): (r: real)
    ensures r == -1.0 || r > EPS
    ensures r != -1.0 <==> t1 > EPS || t2 > EPS
    ensures r != -1.0 ==> r == t1 || r == t2
    ensures t1 > EPS ==> r <= t1
    ensures t2 > EPS ==> r <= t2
  {
    if t1 > EPS && t2 > EPS then (if t1 <= t2 then t1 else t2)
    else if t1 > EPS then t1
    else if t2 > EPS then t2
    else -1.0
  }

  /** The body shared by the three solvers, given A, B and C. */
  function EarliestRoot(sqrt: real -> real, q: Quadratic): (t: real)
    requires IsSqrt(sqrt)
    ensures t == -1.0 || t > EPS
    ensures q.a < EPS ==> t == -1.0
    ensures Discriminant(q) <= -EPS ==> t == -1.0
  {
    if q.a < EPS then -1.0
    else
      var disc := Clamped(Discriminant(q));
      if disc < 0.0 then -1.0
      else
        var sqrtD := sqrt(disc);
        PickRoot((-q.b + sqrtD) / (2.0 * q.a), (-q.b - sqrtD) / (2.0 * q.a))
  }

  /** (-B +- sqrt(disc)) / 2A is a root when sqrt(disc)^2 is the discriminant. */
  lemma FormulaGivesRoot(q: Quadratic, s: real, t: real)
    requires q.a != 0.0 && s * s == Discriminant(q)
    requires t * (2.0 * q.a) == -q.b + s || t * (2.0 * q.a) == -q.b - s
    ensures Eval(q, t) == 0.0
  {
    var u := t * (2.0 * q.a);
    assert u * u + 2.0 * q.b * u + 4.0 * q.a * q.c == 0.0 by {
      if u == -q.b + s {
        assert u * u == q.b * q.b - 2.0 * q.b * s + s * s;
      } else {
        assert u * u == q.b * q.b + 2.0 * q.b * s + s * s;
      }
    }
    assert 4.0 * q.a * Eval(q, t) == u * u + 2.0 * q.b * u + 4.0 * q.a * q.c;
    Cancel(Eval(q, t), 0.0, 4.0 * q.a);
  }

  /** Every root is one of the two formula values. */
  lemma RootIsFormula(q: Quadratic, s: real, t: real)
    requires q.a != 0.0 && s >= 0.0 && s * s == Discriminant(q)
    requires Eval(q, t) == 0.0
    ensures t * (2.0 * q.a) == -q.b + s || t * (2.0 * q.a) == -q.b - s
  {
    var u := t * (2.0 * q.a) + q.b;
    assert u * u == 4.0 * q.a * Eval(q, t) + Discriminant(q);
    if u >= 0.0 {
      SquareRootUnique(u, s);
    } else {
      assert (-u) * (-u) == u * u;
      SquareRootUnique(-u, s);
    }
  }

  /** Dividing by 2A and multiplying back. */
  lemma Quotient(n: real, a: real)
    requires a != 0.0
    ensures (n / (2.0 * a)) * (2.0 * a) == n
  {
  }

  /** The root choice made from the two formula values, without the square root. */
  lemma PickRootIsFirstRoot(q: Quadratic, sqrtD: real, t1: real, t2: real, s: real)
    requires q.a > 0.0 && sqrtD >= 0.0 && sqrtD * sqrtD == Discriminant(q)
    requires t1 * (2.0 * q.a) == -q.b + sqrtD && t2 * (2.0 * q.a) == -q.b - sqrtD
    ensures PickRoot(t1, t2) != -1.0 ==> Eval(q, PickRoot(t1, t2)) == 0.0
    ensures Eval(q, s) == 0.0 && s > EPS ==> PickRoot(t1, t2) != -1.0 && PickRoot(t1, t2) <= s
  {
    var t := PickRoot(t1, t2);
    if t != -1.0 {
      FormulaGivesRoot(q, sqrtD, t);
    }
    if Eval(q, s) == 0.0 && s > EPS {
      RootIsFormula(q, sqrtD, s);
      if s * (2.0 * q.a) == -q.b + sqrtD {
        Cancel(s, t1, 2.0 * q.a);
      } else {
        Cancel(s, t2, 2.0 * q.a);
      }
    }
  }

  /**
   * With A >= EPS and a non-negative discriminant, the solver returns the
   * earliest root above EPS: a result other than -1 is a root, and no root
   * above EPS comes before it; -1 means that there is no root above EPS.
   */
  lemma EarliestRootIsFirstContact(sqrt: real -> real, q: Quadratic, s: real)
    requires IsSqrt(sqrt) && q.a >= EPS && Discriminant(q) >= 0.0
    ensures var t := EarliestRoot(sqrt, q);
      t != -1.0 ==> Eval(q, t) == 0.0
    ensures var t := EarliestRoot(sqrt, q);
      Eval(q, s) == 0.0 && s > EPS ==> t != -1.0 && t <= s
  {
    var disc := Discriminant(q);
    var sqrtD := sqrt(disc);
    SqrtFacts(sqrt, disc);
    var t1, t2 := (-q.b + sqrtD) / (2.0 * q.a), (-q.b - sqrtD) / (2.0 * q.a);
    Quotient(-q.b + sqrtD, q.a);
    Quotient(-q.b - sqrtD, q.a);
    assert EarliestRoot(sqrt, q) == PickRoot(t1, t2);
    PickRootIsFirstRoot(q, sqrtD, t1, t2, s);
  }

  /**
   * boardCollisionTime: A = |v|^2, B = 2 p.v, C = |p|^2 - (radius - r)^2,
   * so the roots are the times at which the centre is radius - r from the origin.
   */
  function WallQuadratic(p: Body, radius: real): (q: Quadratic)
  {
    var gap := radius - p.radius;
    Quadratic(p.velocity.x * p.velocity.x + p.velocity.y * p.velocity.y,
      2.0 * (p.position.x * p.velocity.x + p.position.y * p.velocity.y),
      p.position.x * p.position.x + p.position.y * p.position.y - gap * gap)
  }

  /** obstacleCollisionTime: as for the wall, with target distance obstacleRadius + r. */
  function ObstacleQuadratic(p: Body, obstacleRadius: real): (q: Quadratic)
  {
    var reach := obstacleRadius + p.radius;
    Quadratic(p.velocity.x * p.velocity.x + p.velocity.y * p.velocity.y,
      2.0 * (p.position.x * p.velocity.x + p.position.y * p.velocity.y),
      p.position.x * p.position.x + p.position.y * p.position.y - reach * reach)
  }

  /** particlePairCollisionTime: relative position and velocity, target distance rA + rB. */
  function PairQuadratic(a: Body, b: Body): (q: Quadratic)
  {
    var dx, dy := a.position.x - b.position.x, a.position.y - b.position.y;
    var sgm := a.radius + b.radius;
    var dvx, dvy := a.velocity.x - b.velocity.x, a.velocity.y - b.velocity.y;
    Quadratic(dvx * dvx + dvy * dvy, 2.0 * (dx * dvx + dy * dvy), dx * dx + dy * dy - sgm * sgm)
  }

  /** |p + v t|^2 - target^2 as a polynomial in t. */
  lemma FlightQuadratic(p: Vec, v: Vec, target: real, t: real)
    ensures NormSq(Advanced(p, v, t)) - target * target
      == Eval(Quadratic(v.x * v.x + v.y * v.y, 2.0 * (p.x * v.x + p.y * v.y), p.x * p.x + p.y * p.y - target * target), t)
  {
    var x, y := p.x + v.x * t, p.y + v.y * t;
    assert x * x == p.x * p.x + 2.0 * (p.x * v.x) * t + (v.x * v.x) * (t * t);
    assert y * y == p.y * p.y + 2.0 * (p.y * v.y) * t + (v.y * v.y) * (t * t);
  }

  /** A root of the wall quadratic is a time at which the disc touches the wall from inside. */
  lemma WallQuadraticMeaning(p: Body, radius: real, t: real)
    ensures Eval(WallQuadratic(p, radius), t)
      == NormSq(Advanced(p.position, p.velocity, t)) - (radius - p.radius) * (radius - p.radius)
  {
    FlightQuadratic(p.position, p.velocity, radius - p.radius, t);
  }

  /** A root of the obstacle quadratic is a time at which the disc touches the obstacle. */
  lemma ObstacleQuadraticMeaning(p: Body, obstacleRadius: real, t: real)
    ensures Eval(ObstacleQuadratic(p, obstacleRadius), t)
      == NormSq(Advanced(p.position, p.velocity, t)) - (obstacleRadius + p.radius) * (obstacleRadius + p.radius)
  {
    FlightQuadratic(p.position, p.velocity, obstacleRadius + p.radius, t);
  }

  /** A root of the pair quadratic is a time at which the two discs touch. */
  lemma PairQuadraticMeaning(a: Body, b: Body, t: real)
    ensures Eval(PairQuadratic(a, b), t)
      == NormSq(Subtract(Advanced(a.position, a.velocity, t), Advanced(b.position, b.velocity, t)))
        - (a.radius + b.radius) * (a.radius + b.radius)
  {
    var d, dv := Subtract(a.position, b.position), Subtract(a.velocity, b.velocity);
    assert Subtract(Advanced(a.position, a.velocity, t), Advanced(b.position, b.velocity, t)) == Advanced(d, dv, t) by {
      assert a.velocity.x * t - b.velocity.x * t == dv.x * t;
      assert a.velocity.y * t - b.velocity.y * t == dv.y * t;
    }
    FlightQuadratic(d, dv, a.radius + b.radius, t);
  }

  /** boardCollisionTime(particle). */
  function WallTime(sqrt: real -> real, p: Body, radius: real): (t: real)
    requires IsSqrt(sqrt)
    ensures t == -1.0 || t > EPS
  {
    EarliestRoot(sqrt, WallQuadratic(p, radius))
  }

  /** obstacleCollisionTime(particle): -1 without an obstacle. */
  function ObstacleTime(sqrt: real -> real, p: Body, obstacleRadius: real): (t: real)
    requires IsSqrt(sqrt)
    ensures t == -1.0 || t > EPS
    ensures obstacleRadius == 0.0 ==> t == -1.0
  {
    if obstacleRadius == 0.0 then -1.0 else EarliestRoot(sqrt, ObstacleQuadratic(p, obstacleRadius))
  }

  /** particlePairCollisionTime(a, b). */
  function PairTime(sqrt: real -> real, a: Body, b: Body): (t: real)
    requires IsSqrt(sqrt)
    ensures t == -1.0 || t > EPS
  {
    EarliestRoot(sqrt, PairQuadratic(a, b))
  }
}
