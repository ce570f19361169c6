/**
 * Collision.java: one collision event, a particle a and, for a pair
 * collision, a second particle b, together with the time it happens and its
 * kind. execute() applies the collision to the particles; toString() is the
 * collision line of the event log.
 */
module Collisions {
  import opened Common
  import opened Vectors
  import opened Formatting
  import opened Particles

  datatype CollisionType = Wall | Obstacle | PairCollision

  /** The second token of a collision line for a wall or an obstacle. */
  function Tag(t: CollisionType): string
  {
    match t
    case Wall => "W"
    case Obstacle => "O"
    case PairCollision => ""
  }

  /** Objects.equals(x, y) on particles: both null, or equal by Particle.equals. */
  predicate SameParticle(x: Particle?, y: Particle?)
  {
    if x == null then y == null else x.Equals(y)
  }

  class Collision {
    const a: Particle
    const b: Particle?
    const time: real
    var kind: CollisionType

    /** Collision(a, b, time): a collision between two particles. */
    constructor (a: Particle, b: Particle?, time: real)
      ensures this.a == a && this.b == b && this.time == time && kind == PairCollision
    {
      this.a := a;
      this.b := b;
      this.time := time;
      kind := PairCollision;
    }

    /** withWall(a, time): a collision of a with the outer wall. */
    static method WithWall(a: Particle, time: real) returns (col: Collision)
      ensures fresh(col)
      ensures col.a == a && col.b == null && col.time == time && col.kind == Wall
    {
      col := new Collision(a, null, time);
      col.kind := Wall;
    }

    /** withObstacle(a, time): a collision of a with the central obstacle. */
    static method WithObstacle(a: Particle, time: real) returns (col: Collision)
      ensures fresh(col)
      ensures col.a == a && col.b == null && col.time == time && col.kind == Obstacle
    {
      col := new Collision(a, null, time);
      col.kind := Obstacle;
    }

    /**
     * execute(): a wall or obstacle collision bounces a; a pair collision
     * exchanges the impulse between a and b, and fails before touching
     * anything when b is missing.
     */
    method Execute(sqrt: real -> real) returns (r: Result<()>)
      requires IsSqrt(sqrt)
      requires kind == PairCollision && b != null ==> Collidable(a.State(), b.State())
      modifies a, b
      ensures kind == old(kind)
      ensures kind != PairCollision && a.position == Zero ==>
        r == Err(ZeroVector) && a.velocity == old(a.velocity)
      ensures kind != PairCollision && a.position != Zero ==>
        r == Ok(()) && a.velocity == BouncedVelocity(sqrt, a.position, old(a.velocity)).value
      ensures kind != PairCollision && b != null && b != a ==> b.velocity == old(b.velocity)
      ensures kind == PairCollision && b == null ==> r == Err(NullReference) && a.velocity == old(a.velocity)
      ensures kind == PairCollision && b != null && b != a ==>
        r == Ok(())
        && a.velocity == CollideElastic(old(a.State()), old(b.State())).a
        && b.velocity == CollideElastic(old(a.State()), old(b.State())).b
      ensures kind == PairCollision && b == a ==> r == Ok(()) && a.velocity == old(a.velocity)
      ensures a.position == old(a.position) && (b != null ==> b.position == old(b.position))
    {
      match kind
      case Wall =>
        r := a.Bounce(sqrt);
      case Obstacle =>
        r := a.Bounce(sqrt);
      case PairCollision =>
        if b == null {
          r := Err(NullReference);
        } else {
          a.CollideWithParticle(b);
          r := Ok(());
        }
    }

    /** equals(o): same particles by Objects.equals and the same kind; the time is ignored. */
    predicate Equals(o: Collision?)
      reads this, o
    {
      o != null && SameParticle(a, o.a) && SameParticle(b, o.b) && kind == o.kind
    }

    /**
     * toString(): "<id> W", "<id> O" or "<idA> <idB>"; a pair collision
     * without a second particle fails.
     */
    function ToString(): (r: Result<string>)
      reads this
      ensures r.Err? <==> kind == PairCollision && b == null
      ensures r.Ok? && kind != PairCollision ==> Split(r.value) == [IntToString(a.id), Tag(kind)]
      ensures r.Ok? && kind == PairCollision ==> Split(r.value) == [IntToString(a.id), IntToString(b.id)]
    {
      if kind == PairCollision && b == null then Err(NullReference)
      else Ok(CollisionLine(kind, a.id, if b == null then 0 else b.id))
    }
  }

  /**
   * The log line of a collision of the given kind between the particles
   * with ids idA and idB; idB is used only for a pair collision.
   */
  function CollisionLine(kind: CollisionType, idA: int, idB: int): (s: string)
    ensures kind != PairCollision ==> Split(s) == [IntToString(idA), Tag(kind)]
    ensures kind == PairCollision ==> Split(s) == [IntToString(idA), IntToString(idB)]
  {
    var fields := if kind == PairCollision then [IntToString(idA), IntToString(idB)]
      else [IntToString(idA), Tag(kind)];
    SplitJoin(fields);
    Join(fields)
  }

  /** A formatted id never reads as a wall or obstacle tag. */
  lemma IdIsNoTag(n: int)
    ensures IntToString(n) != "W" && IntToString(n) != "O"
  {
    var s := IntToString(n);
    assert s[0] == '-' || IsDigit(s[0]);
  }

  /**
   * A collision line tells its kind: the second token is "O" exactly for an
   * obstacle collision and "W" exactly for a wall collision, so a reader that
   * tests for "O" counts obstacle collisions and nothing else.
   */
  lemma LineTellsKind(c: Collision)
    requires c.ToString().Ok?
    ensures var parts := Split(c.ToString().value);
      |parts| == 2 && parts[0] == IntToString(c.a.id)
      && (parts[1] == "O" <==> c.kind == Obstacle)
      && (parts[1] == "W" <==> c.kind == Wall)
  {
    if c.kind == PairCollision {
      IdIsNoTag(c.b.id);
    }
  }

  /** equals is an equivalence that ignores the time. */
  lemma EqualsIsEquivalence(c: Collision, d: Collision, e: Collision)
    ensures c.Equals(c)
    ensures c.Equals(d) ==> d.Equals(c)
    ensures c.Equals(d) && d.Equals(e) ==> c.Equals(e)
    ensures c.a == d.a && c.b == d.b && c.kind == d.kind ==> c.Equals(d)
    ensures !c.Equals(null)
  {
  }
}
