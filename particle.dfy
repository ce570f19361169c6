/**
 * Particle.java: a disc with a fixed id, mass and radius whose position and
 * velocity the simulation reassigns. The kinematics (ballistic move, specular
 * bounce, pair impulse) are pure functions on values; the class Particle
 * applies them to its fields.
 */
module Particles {
  import opened Common
  import opened Vectors
  import opened Formatting

  /** The values one particle carries, as the collision formulas read them. */
  datatype Body = Body(position: Vec, velocity: Vec, mass: real, radius: real)

  /** The new velocities of the two particles of a pair collision. */
  datatype PairVelocities = PairVelocities(a: Vec, b: Vec)

  // ---------------------------------------------------------------- move

  /** move(dt): the position after flying for dt at constant velocity. */
  function Advanced(p: Vec, v: Vec, dt: real): (q: Vec)
    ensures Subtract(q, p) == Scale(v, dt)
  {
    Vec(p.x + v.x * dt, p.y + v.y * dt)
  }

  /** Two ballistic flights in a row are one flight for the summed time. */
  lemma {:induction false} AdvanceComposes(p: Vec, v: Vec, s: real, t: real)
    ensures Advanced(Advanced(p, v, s), v, t) == Advanced(p, v, s + t)
  {
    assert v.x * (s + t) == v.x * s + v.x * t;
    assert v.y * (s + t) == v.y * s + v.y * t;
  }

  // ---------------------------------------------------------------- bounce

  /** The specular reflection v - 2(v.n)n of v on the line with unit normal n. */
  function Reflected(v: Vec, n: Vec): Vec
  {
    Subtract(v, Scale(n, 2.0 * Dot(v, n)))
  }

  /** |v + k d|^2 expanded. */
  lemma NormSqAddScaled(v: Vec, d: Vec, k: real)
    ensures NormSq(Add(v, Scale(d, k))) == NormSq(v) + 2.0 * k * Dot(v, d) + k * k * NormSq(d)
  {
    var x, y := v.x + k * d.x, v.y + k * d.y;
    assert x * x == v.x * v.x + 2.0 * k * (v.x * d.x) + (k * k) * (d.x * d.x);
    assert y * y == v.y * v.y + 2.0 * k * (v.y * d.y) + (k * k) * (d.y * d.y);
  }

  /** Dot and Cross with w are linear in their first argument. */
  lemma SubtractScaledLaws(v: Vec, n: Vec, w: Vec, k: real)
    ensures Dot(Subtract(v, Scale(n, k)), w) == Dot(v, w) - k * Dot(n, w)
    ensures Cross(Subtract(v, Scale(n, k)), w) == Cross(v, w) - k * Cross(n, w)
  {
    assert (v.x - k * n.x) * w.x == v.x * w.x - k * (n.x * w.x);
    assert (v.y - k * n.y) * w.y == v.y * w.y - k * (n.y * w.y);
    assert (v.x - k * n.x) * w.y == v.x * w.y - k * (n.x * w.y);
    assert (v.y - k * n.y) * w.x == v.y * w.x - k * (n.y * w.x);
  }

  /** Against a unit normal, reflection negates the normal component. */
  lemma ReflectionNegatesNormal(v: Vec, n: Vec)
    requires NormSq(n) == 1.0
    ensures Dot(Reflected(v, n), n) == -Dot(v, n)
  {
    SubtractScaledLaws(v, n, n, 2.0 * Dot(v, n));
    DotLaws(n, n, n, 0.0);
  }

  /** Reflection keeps the component along the line (the cross product with the normal). */
  lemma ReflectionKeepsTangent(v: Vec, n: Vec)
    ensures Cross(Reflected(v, n), n) == Cross(v, n)
  {
    SubtractScaledLaws(v, n, n, 2.0 * Dot(v, n));
    assert Cross(n, n) == 0.0;
  }

  /** Against a unit normal, reflection keeps the speed. */
  lemma ReflectionKeepsSpeed(v: Vec, n: Vec)
    requires NormSq(n) == 1.0
    ensures NormSq(Reflected(v, n)) == NormSq(v)
  {
    var d := Dot(v, n);
    var k := -2.0 * d;
    assert Reflected(v, n) == Add(v, Scale(n, k));
    NormSqAddScaled(v, n, k);
    assert k * k == 4.0 * (d * d);
    assert 2.0 * k * d == -4.0 * (d * d);
  }

  /** Against a unit normal, reflecting twice gives the original vector back. */
  lemma ReflectionInvolution(v: Vec, n: Vec)
    requires NormSq(n) == 1.0
    ensures Reflected(Reflected(v, n), n) == v
  {
    var d := Dot(v, n);
    var r := Reflected(v, n);
    ReflectionNegatesNormal(v, n);
    assert Reflected(r, n) == Subtract(r, Scale(n, -2.0 * d));
    assert (v.x - (2.0 * d) * n.x) - (-2.0 * d) * n.x == v.x;
    assert (v.y - (2.0 * d) * n.y) - (-2.0 * d) * n.y == v.y;
  }

  /**
   * Against a unit normal, reflection negates the normal component, keeps
   * the tangential component and the speed, and undoes itself.
   */
  lemma ReflectionLaws(v: Vec, n: Vec)
    requires NormSq(n) == 1.0
    ensures Dot(Reflected(v, n), n) == -Dot(v, n)
    ensures Cross(Reflected(v, n), n) == Cross(v, n)
    ensures NormSq(Reflected(v, n)) == NormSq(v)
    ensures Reflected(Reflected(v, n), n) == v
  {
    ReflectionNegatesNormal(v, n);
    ReflectionKeepsTangent(v, n);
    ReflectionKeepsSpeed(v, n);
    ReflectionInvolution(v, n);
  }

  /** bounce(): reflect the velocity on the normal through the position; fails at the origin. */
  function BouncedVelocity(sqrt: real -> real, p: Vec, v: Vec): (r: Result<Vec>)
    requires IsSqrt(sqrt)
    ensures p == Zero ==> r == Err(ZeroVector)
    ensures p != Zero ==> r.Ok?
  {
    if p == Zero then Err(ZeroVector) else Ok(Reflected(v, NormalizedOf(sqrt, p).value))
  }

  /** A bounce reverses the radial velocity and keeps the tangential velocity and the speed. */
  lemma BounceLaws(sqrt: real -> real, p: Vec, v: Vec)
    requires IsSqrt(sqrt) && p != Zero
    ensures BouncedVelocity(sqrt, p, v).Ok?
    ensures var n := NormalizedOf(sqrt, p).value;
      var w := BouncedVelocity(sqrt, p, v).value;
      Dot(w, n) == -Dot(v, n) && Cross(w, n) == Cross(v, n) && NormSq(w) == NormSq(v)
  {
    NormalizedIsUnit(sqrt, p);
    ReflectionLaws(v, NormalizedOf(sqrt, p).value);
  }

  // ---------------------------------------------------------------- pair collision

  /** The divisions of collideWithParticle are defined: no zero mass, sum of masses or contact distance. */
  predicate Collidable(a: Body, b: Body)
  {
    a.mass != 0.0 && b.mass != 0.0 && a.mass + b.mass != 0.0 && a.radius + b.radius != 0.0
  }

  /** Jfactor = 2 m m' (deltaR . deltaV) / (sigma (m + m')), with sigma the sum of the radii. */
  function JFactor(a: Body, b: Body): real
    requires Collidable(a, b)
  {
    var sigma := a.radius + b.radius;
    var dR := Subtract(a.position, b.position);
    var dV := Subtract(a.velocity, b.velocity);
    (2.0 * a.mass * b.mass * Dot(dR, dV)) / (sigma * (a.mass + b.mass))
  }

  /** Jfactor / sigma: the impulse is this multiple of deltaR. */
  function ImpulseFactor(a: Body, b: Body): real
    requires Collidable(a, b)
  {
    JFactor(a, b) / (a.radius + b.radius)
  }

  /** Jvector = deltaR * (Jfactor / sigma), with deltaR = a.position - b.position. */
  function Impulse(a: Body, b: Body): Vec
    requires Collidable(a, b)
  {
    Scale(Subtract(a.position, b.position), ImpulseFactor(a, b))
  }

  /**
   * collideWithParticle exactly as the source writes it: the impulse is
   * added to the particle whose position deltaR points away from, which is
   * the opposite of the physical direction.
   */
  function CollideAsWritten(a: Body, b: Body): PairVelocities
    requires Collidable(a, b)
  {
    var j := Impulse(a, b);
    PairVelocities(Add(a.velocity, Scale(j, 1.0 / a.mass)), Subtract(b.velocity, Scale(j, 1.0 / b.mass)))
  }

  /** The elastic hard-disc collision the formula is meant to compute. */
  function CollideElastic(a: Body, b: Body): PairVelocities
    requires Collidable(a, b)
  {
    var j := Impulse(a, b);
    PairVelocities(Subtract(a.velocity, Scale(j, 1.0 / a.mass)), Add(b.velocity, Scale(j, 1.0 / b.mass)))
  }

  /** m1 v1 + m2 v2. */
  function Momentum(ma: real, va: Vec, mb: real, vb: Vec): Vec
  {
    Add(Scale(va, ma), Scale(vb, mb))
  }

  /** m1 |v1|^2 + m2 |v2|^2, twice the kinetic energy. */
  function TwiceKinetic(ma: real, va: Vec, mb: real, vb: Vec): real
  {
    ma * NormSq(va) + mb * NormSq(vb)
  }

  /** Scaling the impulse by 1/m is scaling deltaR by c/m. */
  lemma ImpulseShare(d: Vec, c: real, m: real)
    requires m != 0.0
    ensures Scale(Scale(d, c), 1.0 / m) == Scale(d, c / m)
    ensures m * (c / m) == c
  {
    assert (1.0 / m) * (c * d.x) == (c / m) * d.x;
    assert (1.0 / m) * (c * d.y) == (c / m) * d.y;
  }

  /** Adding k d to va and subtracting l d from vb with ma k == mb l leaves m1 v1 + m2 v2 alone. */
  lemma ExchangeConservesMomentum(va: Vec, vb: Vec, ma: real, mb: real, d: Vec, k: real, l: real)
    requires ma * k == mb * l
    ensures Momentum(ma, Add(va, Scale(d, k)), mb, Subtract(vb, Scale(d, l))) == Momentum(ma, va, mb, vb)
  {
    assert ma * (k * d.x) == mb * (l * d.x) by {
      assert ma * (k * d.x) == (ma * k) * d.x;
      assert mb * (l * d.x) == (mb * l) * d.x;
    }
    assert ma * (k * d.y) == mb * (l * d.y) by {
      assert ma * (k * d.y) == (ma * k) * d.y;
      assert mb * (l * d.y) == (mb * l) * d.y;
    }
  }

  /** The source's update conserves total momentum. */
  lemma AsWrittenConservesMomentum(a: Body, b: Body)
    requires Collidable(a, b)
    ensures var r := CollideAsWritten(a, b);
      Momentum(a.mass, r.a, b.mass, r.b) == Momentum(a.mass, a.velocity, b.mass, b.velocity)
  {
    var d, c := Subtract(a.position, b.position), ImpulseFactor(a, b);
    ImpulseShare(d, c, a.mass);
    ImpulseShare(d, c, b.mass);
    ExchangeConservesMomentum(a.velocity, b.velocity, a.mass, b.mass, d, c / a.mass, c / b.mass);
  }

  /** The corrected update conserves total momentum. */
  lemma ElasticConservesMomentum(a: Body, b: Body)
    requires Collidable(a, b)
    ensures var r := CollideElastic(a, b);
      Momentum(a.mass, r.a, b.mass, r.b) == Momentum(a.mass, a.velocity, b.mass, b.velocity)
  {
    var d, c := Subtract(a.position, b.position), ImpulseFactor(a, b);
    ImpulseShare(d, c, a.mass);
    ImpulseShare(d, c, b.mass);
    ExchangeConservesMomentum(b.velocity, a.velocity, b.mass, a.mass, d, c / b.mass, c / a.mass);
    assert Subtract(a.velocity, Scale(Scale(d, c), 1.0 / a.mass)) == Subtract(a.velocity, Scale(d, c / a.mass));
  }

  /** A multiple of d is parallel to d. */
  lemma ScaledIsParallel(d: Vec, k: real)
    ensures Cross(Scale(d, k), d) == 0.0
  {
    assert (k * d.x) * d.y == k * (d.x * d.y);
    assert (k * d.y) * d.x == k * (d.x * d.y);
  }

  /** The corrected update changes each velocity only along deltaR. */
  lemma ElasticActsAlongNormal(a: Body, b: Body)
    requires Collidable(a, b)
    ensures var r := CollideElastic(a, b);
      var d := Subtract(a.position, b.position);
      Cross(Subtract(r.a, a.velocity), d) == 0.0 && Cross(Subtract(r.b, b.velocity), d) == 0.0
  {
    var d, c := Subtract(a.position, b.position), ImpulseFactor(a, b);
    ImpulseShare(d, c, a.mass);
    ImpulseShare(d, c, b.mass);
    var r := CollideElastic(a, b);
    assert Subtract(r.a, a.velocity) == Scale(d, -(c / a.mass));
    assert Subtract(r.b, b.velocity) == Scale(d, c / b.mass);
    ScaledIsParallel(d, -(c / a.mass));
    ScaledIsParallel(d, c / b.mass);
  }

  /** The energy bookkeeping of an exchange va - ka d, vb + kb d with ma ka == mb kb == c. */
  lemma ExchangeEnergy(va: Vec, vb: Vec, ma: real, mb: real, d: Vec, c: real, ka: real, kb: real)
    requires ma * ka == c && mb * kb == c
    ensures TwiceKinetic(ma, Add(va, Scale(d, -ka)), mb, Add(vb, Scale(d, kb)))
      == TwiceKinetic(ma, va, mb, vb) - 2.0 * c * Dot(Subtract(va, vb), d) + c * (ka + kb) * NormSq(d)
  {
    NormSqAddScaled(va, d, -ka);
    NormSqAddScaled(vb, d, kb);
    var s, pa, pb := NormSq(d), Dot(va, d), Dot(vb, d);
    assert Dot(Subtract(va, vb), d) == pa - pb;
    assert ma * (2.0 * (-ka) * pa) == -2.0 * c * pa by {
      assert ma * (2.0 * (-ka) * pa) == -2.0 * (ma * ka) * pa;
    }
    assert mb * (2.0 * kb * pb) == 2.0 * c * pb by {
      assert mb * (2.0 * kb * pb) == 2.0 * (mb * kb) * pb;
    }
    assert ma * ((-ka) * (-ka) * s) == c * ka * s by {
      assert ma * ((-ka) * (-ka) * s) == (ma * ka) * ka * s;
    }
    assert mb * (kb * kb * s) == c * kb * s by {
      assert mb * (kb * kb * s) == (mb * kb) * kb * s;
    }
  }

  /** At contact, the two shares of the impulse factor make (ka + kb) sigma^2 equal twice deltaR.deltaV. */
  lemma ContactShares(ma: real, mb: real, sigma: real, dot: real, jFactor: real, c: real, ka: real, kb: real)
    requires ma != 0.0 && mb != 0.0
    requires jFactor * (sigma * (ma + mb)) == 2.0 * ma * mb * dot && c * sigma == jFactor
    requires ma * ka == c && mb * kb == c
    ensures (ka + kb) * (sigma * sigma) == 2.0 * dot
  {
    var m := ma * mb;
    assert m != 0.0;
    assert (ka + kb) * m == c * (ma + mb) by {
      assert ka * m == c * mb;
      assert kb * m == c * ma;
    }
    assert (ka + kb) * (sigma * sigma) * m == 2.0 * dot * m by {
      calc {
        (ka + kb) * (sigma * sigma) * m;
        ((ka + kb) * m) * (sigma * sigma);
        (c * (ma + mb)) * (sigma * sigma);
        (c * sigma) * (sigma * (ma + mb));
        jFactor * (sigma * (ma + mb));
        2.0 * dot * m;
      }
    }
    Cancel((ka + kb) * (sigma * sigma), 2.0 * dot, m);
  }

  lemma Cancel(x: real, y: real, m: real)
    requires m != 0.0 && x * m == y * m
    ensures x == y
  {
    assert (x - y) * m == 0.0;
  }

  /**
   * The exchange va - ka d, vb + kb d at contact: when the shares satisfy
   * (ka + kb) |d|^2 == 2 d.(va - vb), kinetic energy is unchanged and the
   * relative velocity along d is reversed.
   */
  lemma ExchangeAtContact(va: Vec, vb: Vec, ma: real, mb: real, d: Vec, c: real, ka: real, kb: real)
    requires ma * ka == c && mb * kb == c
    requires (ka + kb) * NormSq(d) == 2.0 * Dot(Subtract(va, vb), d)
    ensures TwiceKinetic(ma, Add(va, Scale(d, -ka)), mb, Add(vb, Scale(d, kb))) == TwiceKinetic(ma, va, mb, vb)
    ensures Dot(Subtract(Add(va, Scale(d, -ka)), Add(vb, Scale(d, kb))), d) == -Dot(Subtract(va, vb), d)
  {
    var dot := Dot(Subtract(va, vb), d);
    ExchangeEnergy(va, vb, ma, mb, d, c, ka, kb);
    assert c * (ka + kb) * NormSq(d) == 2.0 * c * dot;
    var k := ka + kb;
    assert Subtract(Add(va, Scale(d, -ka)), Add(vb, Scale(d, kb))) == Subtract(Subtract(va, vb), Scale(d, k));
    SubtractScaledLaws(Subtract(va, vb), d, d, k);
    DotLaws(d, d, d, 0.0);
  }

  /** The two defining equations of Jfactor and of Jfactor / sigma, without division. */
  lemma ImpulseFacts(a: Body, b: Body)
    requires Collidable(a, b)
    ensures var sigma := a.radius + b.radius;
      var dot := Dot(Subtract(a.position, b.position), Subtract(a.velocity, b.velocity));
      ImpulseFactor(a, b) * sigma == JFactor(a, b)
      && JFactor(a, b) * (sigma * (a.mass + b.mass)) == 2.0 * a.mass * b.mass * dot
  {
  }

  /** The corrected update moves va by -(c/ma) deltaR and vb by (c/mb) deltaR, c the impulse factor. */
  lemma ElasticShape(a: Body, b: Body)
    requires Collidable(a, b)
    ensures var c, d := ImpulseFactor(a, b), Subtract(a.position, b.position);
      CollideElastic(a, b) == PairVelocities(Add(a.velocity, Scale(d, -(c / a.mass))), Add(b.velocity, Scale(d, c / b.mass)))
      && a.mass * (c / a.mass) == c && b.mass * (c / b.mass) == c
  {
    var c, d := ImpulseFactor(a, b), Subtract(a.position, b.position);
    ImpulseShare(d, c, a.mass);
    ImpulseShare(d, c, b.mass);
  }

  /** The source's update moves va by (c/ma) deltaR and vb by -(c/mb) deltaR. */
  lemma AsWrittenShape(a: Body, b: Body)
    requires Collidable(a, b)
    ensures var c, d := ImpulseFactor(a, b), Subtract(a.position, b.position);
      CollideAsWritten(a, b) == PairVelocities(Add(a.velocity, Scale(d, c / a.mass)), Add(b.velocity, Scale(d, -(c / b.mass))))
      && a.mass * (c / a.mass) == c && b.mass * (c / b.mass) == c
  {
    var c, d := ImpulseFactor(a, b), Subtract(a.position, b.position);
    ImpulseShare(d, c, a.mass);
    ImpulseShare(d, c, b.mass);
  }

  /** At contact, (c/ma + c/mb) |deltaR|^2 == 2 deltaR.deltaV. */
  lemma ContactSharesOf(a: Body, b: Body)
    requires Collidable(a, b)
    requires NormSq(Subtract(a.position, b.position)) == (a.radius + b.radius) * (a.radius + b.radius)
    ensures var c, d := ImpulseFactor(a, b), Subtract(a.position, b.position);
      (c / a.mass + c / b.mass) * NormSq(d) == 2.0 * Dot(Subtract(a.velocity, b.velocity), d)
  {
    var sigma := a.radius + b.radius;
    var d, dV := Subtract(a.position, b.position), Subtract(a.velocity, b.velocity);
    var c := ImpulseFactor(a, b);
    ImpulseFacts(a, b);
    ImpulseShare(d, c, a.mass);
    ImpulseShare(d, c, b.mass);
    ContactShares(a.mass, b.mass, sigma, Dot(d, dV), JFactor(a, b), c, c / a.mass, c / b.mass);
    DotLaws(d, dV, d, 0.0);
  }

  /**
   * At contact (|deltaR| == sigma) the corrected update conserves kinetic
   * energy and reverses the relative velocity along deltaR.
   */
  lemma ElasticAtContact(a: Body, b: Body)
    requires Collidable(a, b)
    requires NormSq(Subtract(a.position, b.position)) == (a.radius + b.radius) * (a.radius + b.radius)
    ensures var r := CollideElastic(a, b);
      TwiceKinetic(a.mass, r.a, b.mass, r.b) == TwiceKinetic(a.mass, a.velocity, b.mass, b.velocity)
    ensures var r := CollideElastic(a, b);
      var d := Subtract(a.position, b.position);
      Dot(Subtract(r.a, r.b), d) == -Dot(Subtract(a.velocity, b.velocity), d)
  {
    var c, d := ImpulseFactor(a, b), Subtract(a.position, b.position);
    ElasticShape(a, b);
    ContactSharesOf(a, b);
    ExchangeAtContact(a.velocity, b.velocity, a.mass, b.mass, d, c, c / a.mass, c / b.mass);
  }

  /** With positive masses, a non-zero exchange adds a positive amount of energy. */
  lemma PositiveGain(ma: real, mb: real, c: real, ka: real, kb: real, s: real)
    requires ma > 0.0 && mb > 0.0 && ma * ka == c && mb * kb == c && c != 0.0 && s > 0.0
    ensures c * (ka + kb) * s > 0.0
  {
    SquareZero(ka);
    SquareZero(kb);
    assert c * ka == ma * (ka * ka);
    assert c * kb == mb * (kb * kb);
    assert c * (ka + kb) > 0.0;
  }

  /**
   * The exchange va + ka d, vb - kb d (the source's signs) when the shares
   * satisfy (ka + kb) |d|^2 == 2 d.(va - vb): twice the kinetic energy grows
   * by 4 c d.(va - vb), which is positive for positive masses and c != 0.
   */
  lemma ReversedExchange(va: Vec, vb: Vec, ma: real, mb: real, d: Vec, c: real, ka: real, kb: real)
    requires ma * ka == c && mb * kb == c
    requires (ka + kb) * NormSq(d) == 2.0 * Dot(Subtract(va, vb), d)
    ensures TwiceKinetic(ma, Add(va, Scale(d, ka)), mb, Add(vb, Scale(d, -kb)))
      == TwiceKinetic(ma, va, mb, vb) + 4.0 * c * Dot(Subtract(va, vb), d)
    ensures ma > 0.0 && mb > 0.0 && Dot(Subtract(va, vb), d) != 0.0 ==>
      TwiceKinetic(ma, Add(va, Scale(d, ka)), mb, Add(vb, Scale(d, -kb))) > TwiceKinetic(ma, va, mb, vb)
  {
    var dot := Dot(Subtract(va, vb), d);
    assert ma * -ka == -c && mb * -kb == -c;
    ExchangeEnergy(va, vb, ma, mb, d, -c, -ka, -kb);
    assert Scale(d, -(-ka)) == Scale(d, ka);
    assert (-c) * (-ka + -kb) * NormSq(d) == c * ((ka + kb) * NormSq(d));
    if ma > 0.0 && mb > 0.0 && dot != 0.0 {
      assert c != 0.0;
      assert NormSq(d) != 0.0;
      PositiveGain(ma, mb, c, ka, kb, NormSq(d));
    }
  }

  /**
   * At contact the source's update adds 4 (Jfactor / sigma) (deltaR . deltaV)
   * to twice the kinetic energy; with positive masses that is a strict gain
   * whenever deltaR . deltaV is not zero, approaching or separating.
   */
  lemma AsWrittenGainsEnergy(a: Body, b: Body)
    requires Collidable(a, b)
    requires NormSq(Subtract(a.position, b.position)) == (a.radius + b.radius) * (a.radius + b.radius)
    ensures var r := CollideAsWritten(a, b);
      var d, dV := Subtract(a.position, b.position), Subtract(a.velocity, b.velocity);
      TwiceKinetic(a.mass, r.a, b.mass, r.b)
        == TwiceKinetic(a.mass, a.velocity, b.mass, b.velocity) + 4.0 * ImpulseFactor(a, b) * Dot(dV, d)
    ensures var r := CollideAsWritten(a, b);
      var d, dV := Subtract(a.position, b.position), Subtract(a.velocity, b.velocity);
      a.mass > 0.0 && b.mass > 0.0 && Dot(dV, d) != 0.0 ==>
        TwiceKinetic(a.mass, r.a, b.mass, r.b) > TwiceKinetic(a.mass, a.velocity, b.mass, b.velocity)
  {
    var c, d := ImpulseFactor(a, b), Subtract(a.position, b.position);
    AsWrittenShape(a, b);
    ContactSharesOf(a, b);
    ReversedExchange(a.velocity, b.velocity, a.mass, b.mass, d, c, c / a.mass, c / b.mass);
  }

  // ---------------------------------------------------------------- hashing

  predicate IsLong(n: int)
  {
    -0x8000_0000_0000_0000 <= n < 0x8000_0000_0000_0000
  }

  function Pow2(k: nat): (p: nat)
    ensures p >= 1
  {
    if k == 0 then 1 else 2 * Pow2(k - 1)
  }

  lemma {:induction false} Pow2Add(a: nat, b: nat)
    ensures Pow2(a + b) == Pow2(a) * Pow2(b)
  {
    if a > 0 {
      Pow2Add(a - 1, b);
      assert Pow2(a + b) == 2 * Pow2(a - 1 + b);
    }
  }

  lemma Pow2Of32()
    ensures Pow2(32) == 0x1_0000_0000
  {
    assert Pow2(8) == 256;
    Pow2Add(8, 8);
    Pow2Add(16, 16);
  }

  /** Bitwise exclusive or of the low k bits of a and b. */
  function XorBits(a: nat, b: nat, k: nat): (r: nat)
    ensures r < Pow2(k)
    ensures b == 0 && a < Pow2(k) ==> r == a
  {
    if k == 0 then 0
    else (if a % 2 == b % 2 then 0 else 1) + 2 * XorBits(a / 2, b / 2, k - 1)
  }

  /** Long.hashCode: the two 32-bit halves of the two's-complement value xor-ed, read as an int. */
  function LongHash(n: int): (h: int)
    requires IsLong(n)
    ensures -0x8000_0000 <= h < 0x8000_0000
    ensures 0 <= n < 0x8000_0000 ==> h == n
  {
    var u := if n < 0 then n + 0x1_0000_0000_0000_0000 else n;
    var folded := XorBits(u % 0x1_0000_0000, u / 0x1_0000_0000, 32);
    Pow2Of32();
    if folded < 0x8000_0000 then folded else folded - 0x1_0000_0000
  }

  // ---------------------------------------------------------------- the class

  class Particle {
    const id: int
    var position: Vec
    var velocity: Vec
    const mass: real
    const radius: real

    constructor (id: int, position: Vec, velocity: Vec, mass: real, radius: real)
      ensures this.id == id && this.position == position && this.velocity == velocity
      ensures this.mass == mass && this.radius == radius
    {
      this.id := id;
      this.position := position;
      this.velocity := velocity;
      this.mass := mass;
      this.radius := radius;
    }

    function State(): Body
      reads this
    {
      Body(position, velocity, mass, radius)
    }

    /** move(dt): fly for dt; the velocity stays. */
    method Move(dt: real)
      modifies this`position
      ensures position == Advanced(old(position), velocity, dt)
    {
      var p, v := position, velocity;
      position := Vec(p.x + v.x * dt, p.y + v.y * dt);
      assert position == Advanced(p, v, dt);
    }

    /** bounce(): reflect the velocity on the normal through the position; fails at the origin. */
    method Bounce(sqrt: real -> real) returns (r: Result<()>)
      requires IsSqrt(sqrt)
      modifies this`velocity
      ensures position == Zero ==> r == Err(ZeroVector) && velocity == old(velocity)
      ensures position != Zero ==> r == Ok(()) && velocity == BouncedVelocity(sqrt, position, old(velocity)).value
    {
      var normal := NormalizedOf(sqrt, position);
      if normal.Err? {
        return Err(normal.error);
      }
      var dot := Dot(velocity, normal.value);
      velocity := Subtract(velocity, Scale(normal.value, 2.0 * dot));
      return Ok(());
    }

    /**
     * collideWithParticle(other), with the impulse applied in the physical
     * direction (see CollideAsWritten for the source's sign). The positions
     * do not change; a particle colliding with itself keeps its velocity.
     */
    method CollideWithParticle(other: Particle)
      requires Collidable(State(), other.State())
      modifies this`velocity, other`velocity
      ensures other != this ==> velocity == CollideElastic(old(State()), old(other.State())).a
      ensures other != this ==> other.velocity == CollideElastic(old(State()), old(other.State())).b
      ensures other == this ==> velocity == old(velocity)
    {
      var jVector := Impulse(State(), other.State());
      velocity := Subtract(velocity, Scale(jVector, 1.0 / mass));
      other.velocity := Add(other.velocity, Scale(jVector, 1.0 / other.mass));
    }

    /** equals(o): another particle with the same id. */
    predicate Equals(o: Particle?)
    {
      o != null && id == o.id
    }

    /** hashCode(): Long.hashCode of the id. */
    function HashCode(): (h: int)
      requires IsLong(id)
      ensures 0 <= id < 0x8000_0000 ==> h == id
    {
      LongHash(id)
    }

    /** isOverlapped(other): the centres are no farther apart than the sum of the radii. */
    predicate IsOverlapped(sqrt: real -> real, other: Particle)
      requires IsSqrt(sqrt)
      reads this, other
    {
      Distance(sqrt, position, other.position) <= radius + other.radius
    }

    /** toString(): "%d %f %f %f %f %f %f", which split() turns back into its seven fields. */
    function ToString(): (s: string)
      reads this
      ensures Split(s) == [IntToString(id), FixedSix(position.x), FixedSix(position.y),
        FixedSix(velocity.x), FixedSix(velocity.y), FixedSix(mass), FixedSix(radius)]
    {
      var fields := [IntToString(id), FixedSix(position.x), FixedSix(position.y),
        FixedSix(velocity.x), FixedSix(velocity.y), FixedSix(mass), FixedSix(radius)];
      SplitJoin(fields);
      Join(fields)
    }

    /** positionalInfo(): "%d %f %f %f %f", which split() turns back into its five fields. */
    function PositionalInfo(): (s: string)
      reads this
      ensures Split(s) == [IntToString(id), FixedSix(position.x), FixedSix(position.y),
        FixedSix(velocity.x), FixedSix(velocity.y)]
    {
      var fields := [IntToString(id), FixedSix(position.x), FixedSix(position.y),
        FixedSix(velocity.x), FixedSix(velocity.y)];
      SplitJoin(fields);
      Join(fields)
    }
  }

  /** equals is an equivalence on particles, and equal particles hash alike. */
  lemma EqualsIsEquivalence(p: Particle, q: Particle, r: Particle)
    requires IsLong(p.id) && IsLong(q.id)
    ensures p.Equals(p)
    ensures p.Equals(q) ==> q.Equals(p)
    ensures p.Equals(q) && q.Equals(r) ==> p.Equals(r)
    ensures p.Equals(q) ==> p.HashCode() == q.HashCode()
    ensures !p.Equals(null)
  {
  }

  /** For non-negative numbers, comparing them is comparing their squares. */
  lemma CompareBySquares(dist: real, s: real)
    requires dist >= 0.0 && s >= 0.0
    ensures dist <= s <==> dist * dist <= s * s
  {
    if dist < s {
      SquareStrict(dist, s);
    } else if s < dist {
      SquareStrict(s, dist);
    }
  }

  /**
   * Whether discs of radii ra and rb centred at pa and pb overlap is symmetric,
   * and for a non-negative sum of radii it is the comparison of squared
   * distance with squared sum; a negative sum never overlaps.
   */
  lemma OverlapByValues(sqrt: real -> real, pa: Vec, ra: real, pb: Vec, rb: real)
    requires IsSqrt(sqrt)
    ensures (Distance(sqrt, pa, pb) <= ra + rb) == (Distance(sqrt, pb, pa) <= rb + ra)
    ensures var s := ra + rb;
      s >= 0.0 ==> (Distance(sqrt, pa, pb) <= s <==> NormSq(Subtract(pa, pb)) <= s * s)
    ensures ra + rb < 0.0 ==> !(Distance(sqrt, pa, pb) <= ra + rb)
  {
    DistanceSymmetric(sqrt, pa, pb);
    var s := ra + rb;
    var dist := Distance(sqrt, pa, pb);
    assert dist * dist == NormSq(Subtract(pa, pb));
    if s >= 0.0 {
      CompareBySquares(dist, s);
    }
  }

  /** isOverlapped is symmetric and agrees with the squared comparison. */
  lemma OverlapLaws(sqrt: real -> real, p: Particle, q: Particle)
    requires IsSqrt(sqrt)
    ensures p.IsOverlapped(sqrt, q) == q.IsOverlapped(sqrt, p)
    ensures var s := p.radius + q.radius;
      s >= 0.0 ==> (p.IsOverlapped(sqrt, q) <==> NormSq(Subtract(p.position, q.position)) <= s * s)
    ensures p.radius + q.radius < 0.0 ==> !p.IsOverlapped(sqrt, q)
  {
    OverlapByValues(sqrt, p.position, p.radius, q.position, q.radius);
  }
}
