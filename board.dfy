/**
 * Board.java: the disc-shaped board of radius L/2 with an optional central
 * obstacle, and toNextCollisionTime, which finds the next collision event,
 * advances every particle to it, applies the collisions happening at that
 * instant and logs them.
 *
 * The search works on values: a Snapshot of the particles' states and ids,
 * and candidate events that name particles by their index in iteration
 * order. The class Board performs the step on the Particle objects.
 */
module Boards {
  import opened Common
  import opened Vectors
  import opened Formatting
  import opened Particles
  import opened Collisions
  import opened Quadratics

  /** A candidate collision of particle i (with particle j for a pair; j == i otherwise). */
  datatype Event = Event(kind: CollisionType, i: nat, j: nat, time: real)

  /** The board seen by the search: its radii, and the particles in iteration order. */
  datatype Snapshot = Snapshot(radius: real, obstacleRadius: real, bodies: seq<Body>, ids: seq<int>)
  {
    predicate WellFormed()
    {
      |bodies| == |ids|
    }
  }

  /**
   * The solvers' answers for n particles: wall[i], obstacle[i] and pair[i][j]
   * are boardCollisionTime, obstacleCollisionTime and
   * particlePairCollisionTime of the particles at those positions.
   */
  datatype Times = Times(wall: seq<real>, obstacle: seq<real>, pair: seq<seq<real>>)
  {
    predicate Fits(n: nat)
    {
      |wall| == n && |obstacle| == n && |pair| == n && forall i :: 0 <= i < n ==> |pair[i]| == n
    }

    /** Every answer is -1 or lies above EPS. */
    predicate Ahead()
    {
      (forall i :: 0 <= i < |wall| ==> wall[i] == -1.0 || wall[i] > EPS)
      && (forall i :: 0 <= i < |obstacle| ==> obstacle[i] == -1.0 || obstacle[i] > EPS)
      && (forall i, j :: 0 <= i < |pair| && 0 <= j < |pair[i]| ==> pair[i][j] == -1.0 || pair[i][j] > EPS)
    }
  }

  /** The three solvers applied to every particle and every pair of particles. */
  function TimesOf(sqrt: real -> real, w: Snapshot): (t: Times)
    requires IsSqrt(sqrt)
    ensures t.Fits(|w.bodies|) && t.Ahead()
    ensures forall i :: 0 <= i < |w.bodies| ==>
      t.wall[i] == WallTime(sqrt, w.bodies[i], w.radius)
      && t.obstacle[i] == ObstacleTime(sqrt, w.bodies[i], w.obstacleRadius)
    ensures forall i, j :: 0 <= i < |w.bodies| && 0 <= j < |w.bodies| ==>
      t.pair[i][j] == PairTime(sqrt, w.bodies[i], w.bodies[j])
  {
    var n := |w.bodies|;
    Times(seq(n, i requires 0 <= i < n => WallTime(sqrt, w.bodies[i], w.radius)),
      seq(n, i requires 0 <= i < n => ObstacleTime(sqrt, w.bodies[i], w.obstacleRadius)),
      seq(n, i requires 0 <= i < n => seq(n, j requires 0 <= j < n => PairTime(sqrt, w.bodies[i], w.bodies[j]))))
  }

  /** The pair candidates of particle i among the first k particles: those with a larger id. */
  function PairEvents(ids: seq<int>, t: Times, i: nat, k: nat): seq<Event>
    requires t.Fits(|ids|) && i < |ids| && k <= |ids|
  {
    if k == 0 then []
    else
      PairEvents(ids, t, i, k - 1)
        + if k - 1 != i && ids[i] < ids[k - 1] then [Event(PairCollision, i, k - 1, t.pair[i][k - 1])] else []
  }

  /** The collisions list of particle i: its wall, its obstacle, then its pairs. */
  function CandidatesOf(ids: seq<int>, t: Times, i: nat): seq<Event>
    requires t.Fits(|ids|) && i < |ids|
  {
    [Event(Wall, i, i, t.wall[i]), Event(Obstacle, i, i, t.obstacle[i])] + PairEvents(ids, t, i, |ids|)
  }

  /** One step of the stream's filter(time > 0).min(time): a later event wins only when strictly sooner. */
  function Pick(acc: Option<Event>, e: Event): Option<Event>
  {
    if e.time > 0.0 && (acc.None? || e.time < acc.value.time) then Some(e) else acc
  }

  /** The soonest event with a positive time, the first one among equals; None when there is none. */
  function Soonest(es: seq<Event>): (r: Option<Event>)
    ensures r.None? <==> forall k :: 0 <= k < |es| ==> es[k].time <= 0.0
    ensures r.Some? ==> r.value in es && r.value.time > 0.0
    ensures r.Some? ==> forall k :: 0 <= k < |es| && es[k].time > 0.0 ==> r.value.time <= es[k].time
  {
    if es == [] then None
    else
      var front := es[..|es| - 1];
      assert forall k :: 0 <= k < |front| ==> front[k] == es[k];
      Pick(Soonest(front), es[|es| - 1])
  }

  /** Ties go to the earliest event: no event before the chosen one has its time. */
  lemma {:induction false} SoonestIsFirst(es: seq<Event>)
    requires Soonest(es).Some?
    ensures exists k :: (0 <= k < |es| && es[k] == Soonest(es).value
                         && forall m :: 0 <= m < k ==> es[m].time != Soonest(es).value.time)
  {
    var n := |es|;
    var front := es[..n - 1];
    assert forall k :: 0 <= k < |front| ==> front[k] == es[k];
    if Soonest(front).Some? && Soonest(es) == Soonest(front) {
      SoonestIsFirst(front);
      var k :| 0 <= k < |front| && front[k] == Soonest(front).value
        && forall m :: 0 <= m < k ==> front[m].time != Soonest(front).value.time;
      assert es[k] == Soonest(es).value;
    } else {
      assert Soonest(es) == Some(es[n - 1]);
      assert forall m :: 0 <= m < n - 1 ==> es[m].time != es[n - 1].time by {
        forall m | 0 <= m < n - 1
          ensures es[m].time != es[n - 1].time
        {
          if es[m].time > 0.0 {
            assert front[m] == es[m];
          }
        }
      }
    }
  }

  /** soonestPerParticle: the soonest candidate of each particle, in iteration order. */
  function SoonestPerParticle(ids: seq<int>, t: Times): (s: seq<Option<Event>>)
    requires t.Fits(|ids|)
    ensures |s| == |ids|
  {
    seq(|ids|, i requires 0 <= i < |ids| => Soonest(CandidatesOf(ids, t, i)))
  }

  function Min(x: real, y: real): real
  {
    if x <= y then x else y
  }

  /** min() over the times of the non-null entries; None for an empty stream. */
  function MinTime(s: seq<Option<Event>>): (r: Option<real>)
    ensures r.None? <==> forall k :: 0 <= k < |s| ==> s[k].None?
    ensures r.Some? ==> exists k :: 0 <= k < |s| && s[k].Some? && s[k].value.time == r.value
    ensures r.Some? ==> forall k :: 0 <= k < |s| && s[k].Some? ==> r.value <= s[k].value.time
  {
    if s == [] then None
    else
      var front := s[..|s| - 1];
      assert forall k :: 0 <= k < |front| ==> front[k] == s[k];
      var m := MinTime(front);
      var last := s[|s| - 1];
      if last.None? then m
      else if m.None? then Some(last.value.time)
      else Some(Min(m.value, last.value.time))
  }

  /** happeningNow: the non-null entries whose time is the step, in order. */
  function Happening(s: seq<Option<Event>>, step: real): (h: seq<Event>)
    ensures forall e :: e in h ==> Some(e) in s && e.time == step
    ensures forall k :: 0 <= k < |s| && s[k].Some? && s[k].value.time == step ==> s[k].value in h
  {
    if s == [] then []
    else
      var front := s[..|s| - 1];
      assert forall k :: 0 <= k < |front| ==> front[k] == s[k];
      var last := s[|s| - 1];
      Happening(front, step) + if last.Some? && last.value.time == step then [last.value] else []
  }

  datatype Selection = Selection(step: real, happening: seq<Event>)

  /** The step and the collisions happening then, from the per-particle soonest entries; or the exception. */
  function Conclude(s: seq<Option<Event>>): Result<Selection>
  {
    match MinTime(s)
    case None => Err(NoMoreCollisions)
    case Some(step) => Ok(Selection(step, Happening(s, step)))
  }

  /** The search of toNextCollisionTime. */
  function Search(ids: seq<int>, t: Times): Result<Selection>
    requires t.Fits(|ids|)
  {
    Conclude(SoonestPerParticle(ids, t))
  }

  /** The search on a snapshot of the board, with the solvers' answers. */
  function Select(sqrt: real -> real, w: Snapshot): Result<Selection>
    requires IsSqrt(sqrt) && w.WellFormed()
  {
    Search(w.ids, TimesOf(sqrt, w))
  }

  /** Every pair candidate of i names another particle with a larger id and carries their pair time. */
  lemma {:induction false} PairEventsShape(ids: seq<int>, t: Times, i: nat, k: nat)
    requires t.Fits(|ids|) && i < |ids| && k <= |ids|
    ensures forall e :: e in PairEvents(ids, t, i, k) ==>
      e.kind == PairCollision && e.i == i && e.j < k && e.j != i && ids[i] < ids[e.j] && e.time == t.pair[i][e.j]
    ensures forall j :: 0 <= j < k && j != i && ids[i] < ids[j] ==>
      Event(PairCollision, i, j, t.pair[i][j]) in PairEvents(ids, t, i, k)
  {
    if k > 0 {
      PairEventsShape(ids, t, i, k - 1);
    }
  }

  /**
   * The candidates of particle i: its wall and obstacle events, and one pair
   * event for each other particle with a larger id, and nothing else.
   */
  lemma CandidatesShape(ids: seq<int>, t: Times, i: nat)
    requires t.Fits(|ids|) && i < |ids|
    ensures forall e :: e in CandidatesOf(ids, t, i) ==> e.i == i && e.j < |ids|
    ensures forall e :: e in CandidatesOf(ids, t, i) && e.kind == Wall ==> e == Event(Wall, i, i, t.wall[i])
    ensures forall e :: e in CandidatesOf(ids, t, i) && e.kind == Obstacle ==> e == Event(Obstacle, i, i, t.obstacle[i])
    ensures forall e :: e in CandidatesOf(ids, t, i) && e.kind == PairCollision ==>
      e.j != i && ids[i] < ids[e.j] && e.time == t.pair[i][e.j]
    ensures Event(Wall, i, i, t.wall[i]) in CandidatesOf(ids, t, i)
    ensures Event(Obstacle, i, i, t.obstacle[i]) in CandidatesOf(ids, t, i)
    ensures forall j :: 0 <= j < |ids| && j != i && ids[i] < ids[j] ==>
      Event(PairCollision, i, j, t.pair[i][j]) in CandidatesOf(ids, t, i)
  {
    PairEventsShape(ids, t, i, |ids|);
  }

  /**
   * The soonest candidate of particle i is one of its own events, lies above
   * EPS, and no candidate of i with a positive time comes sooner.
   */
  lemma SoonestOfParticle(ids: seq<int>, t: Times, i: nat)
    requires t.Fits(|ids|) && t.Ahead() && i < |ids|
    ensures var s := Soonest(CandidatesOf(ids, t, i));
      s.Some? ==> s.value.i == i && s.value.j < |ids| && s.value.time > EPS
    ensures var s := Soonest(CandidatesOf(ids, t, i));
      forall e :: e in CandidatesOf(ids, t, i) && e.time > 0.0 ==> s.Some? && s.value.time <= e.time
  {
    CandidatesShape(ids, t, i);
    var es := CandidatesOf(ids, t, i);
    forall e | e in es && e.time > 0.0
      ensures Soonest(es).Some? && Soonest(es).value.time <= e.time
    {
      var k :| 0 <= k < |es| && es[k] == e;
    }
    if Soonest(es).Some? {
      var e := Soonest(es).value;
      if e.kind == PairCollision {
        assert t.pair[i][e.j] == -1.0 || t.pair[i][e.j] > EPS;
      }
    }
  }

  /** The search fails exactly when no particle has a candidate with a positive time. */
  lemma SearchFailsWhenNothingAhead(ids: seq<int>, t: Times)
    requires t.Fits(|ids|) && t.Ahead()
    ensures Search(ids, t).Err? <==>
      forall i, e :: 0 <= i < |ids| && e in CandidatesOf(ids, t, i) ==> e.time <= 0.0
  {
    var s := SoonestPerParticle(ids, t);
    if MinTime(s).None? {
      forall i, e | 0 <= i < |ids| && e in CandidatesOf(ids, t, i)
        ensures e.time <= 0.0
      {
        assert s[i].None?;
        SoonestOfParticle(ids, t, i);
      }
    } else {
      var k :| 0 <= k < |s| && s[k].Some? && s[k].value.time == MinTime(s).value;
      assert s[k].value in CandidatesOf(ids, t, k);
    }
  }

  /**
   * When the search succeeds, the step lies above EPS and no candidate of any
   * particle with a positive time comes sooner.
   */
  lemma SearchIsEarliest(ids: seq<int>, t: Times)
    requires t.Fits(|ids|) && t.Ahead() && Search(ids, t).Ok?
    ensures var step := Search(ids, t).value.step;
      step > EPS
      && forall i, e :: 0 <= i < |ids| && e in CandidatesOf(ids, t, i) && e.time > 0.0 ==> step <= e.time
  {
    var s := SoonestPerParticle(ids, t);
    var step := MinTime(s).value;
    var k :| 0 <= k < |s| && s[k].Some? && s[k].value.time == step;
    SoonestOfParticle(ids, t, k);
    forall i, e | 0 <= i < |ids| && e in CandidatesOf(ids, t, i) && e.time > 0.0
      ensures step <= e.time
    {
      SoonestOfParticle(ids, t, i);
      assert s[i] == Soonest(CandidatesOf(ids, t, i));
      assert s[i].Some? && s[i].value.time <= e.time;
    }
  }

  /** When the search succeeds, some collision happens at the step. */
  lemma SearchFindsOne(ids: seq<int>, t: Times)
    requires t.Fits(|ids|) && Search(ids, t).Ok?
    ensures |Search(ids, t).value.happening| > 0
  {
    var s := SoonestPerParticle(ids, t);
    var step := MinTime(s).value;
    var k :| 0 <= k < |s| && s[k].Some? && s[k].value.time == step;
    assert s[k].value in Happening(s, step);
  }

  /**
   * Each collision happening at the step is the soonest candidate of its own
   * particle, names particles of the board, and happens at the step.
   */
  lemma SearchGathersSimultaneous(ids: seq<int>, t: Times, e: Event)
    requires t.Fits(|ids|) && Search(ids, t).Ok?
    requires e in Search(ids, t).value.happening
    ensures e.time == Search(ids, t).value.step
    ensures e.i < |ids| && e.j < |ids| && Soonest(CandidatesOf(ids, t, e.i)) == Some(e)
  {
    var s := SoonestPerParticle(ids, t);
    var step := MinTime(s).value;
    assert Search(ids, t) == Ok(Selection(step, Happening(s, step)));
    assert Some(e) in s;
    var m :| 0 <= m < |s| && s[m] == Some(e);
    assert s[m] == Soonest(CandidatesOf(ids, t, m));
    CandidatesShape(ids, t, m);
  }

  /** No particle whose soonest candidate happens at the step is left out of happeningNow. */
  lemma SearchMissesNone(ids: seq<int>, t: Times, i: nat)
    requires t.Fits(|ids|) && Search(ids, t).Ok? && i < |ids|
    requires Soonest(CandidatesOf(ids, t, i)).Some?
    requires Soonest(CandidatesOf(ids, t, i)).value.time == Search(ids, t).value.step
    ensures Soonest(CandidatesOf(ids, t, i)).value in Search(ids, t).value.happening
  {
    var s := SoonestPerParticle(ids, t);
    assert s[i] == Soonest(CandidatesOf(ids, t, i));
  }

  /**
   * The loops of toNextCollisionTime up to the exception: one collisions list
   * per particle, its soonest entry, the minimum over the particles (0 when
   * there is none, which throws), and the entries happening at that time.
   */
  method SelectNext(sqrt: real -> real, w: Snapshot) returns (r: Result<Selection>)
    requires IsSqrt(sqrt) && w.WellFormed()
    ensures r == Select(sqrt, w)
  {
    var t := TimesOf(sqrt, w);
    var soonestPerParticle: seq<Option<Event>> := [];
    for i := 0 to |w.ids|
      invariant soonestPerParticle == SoonestPerParticle(w.ids, t)[..i]
    {
      var collisions := CollisionsOf(w.ids, t, i);
      var soonest := SoonestIn(collisions);
      soonestPerParticle := soonestPerParticle + [soonest];
    }
    assert soonestPerParticle == SoonestPerParticle(w.ids, t);
    r := ConcludeSearch(soonestPerParticle);
  }

  /** The collisions list of particle i: wall, obstacle, then each other particle with a larger id. */
  method CollisionsOf(ids: seq<int>, t: Times, i: nat) returns (collisions: seq<Event>)
    requires t.Fits(|ids|) && i < |ids|
    ensures collisions == CandidatesOf(ids, t, i)
  {
    collisions := [Event(Wall, i, i, t.wall[i]), Event(Obstacle, i, i, t.obstacle[i])];
    ghost var own := collisions;
    for k := 0 to |ids|
      invariant collisions == own + PairEvents(ids, t, i, k)
    {
      if k != i && ids[i] < ids[k] {
        collisions := collisions + [Event(PairCollision, i, k, t.pair[i][k])];
      }
    }
  }

  /** collisions.stream().filter(time > 0).min(time).orElse(null). */
  method SoonestIn(collisions: seq<Event>) returns (soonest: Option<Event>)
    ensures soonest == Soonest(collisions)
  {
    soonest := None;
    for m := 0 to |collisions|
      invariant soonest == Soonest(collisions[..m])
    {
      assert collisions[..m + 1][..m] == collisions[..m];
      soonest := Pick(soonest, collisions[m]);
    }
    assert collisions[..|collisions|] == collisions;
  }

  /**
   * The rest of the search: min().orElse(0) over the soonest entries, the
   * exception for 0, and the entries at the minimum.
   */
  method ConcludeSearch(s: seq<Option<Event>>) returns (r: Result<Selection>)
    requires forall k :: 0 <= k < |s| && s[k].Some? ==> s[k].value.time > 0.0
    ensures r == Conclude(s)
  {
    var found := MinOf(s);
    var soonestCollisionTime := if found.None? then 0.0 else found.value;
    if soonestCollisionTime == 0.0 {
      return Err(NoMoreCollisions);
    }
    var happeningNow := HappeningAt(s, soonestCollisionTime);
    r := Ok(Selection(soonestCollisionTime, happeningNow));
  }

  /** mapToDouble(getTime).min() over the non-null entries. */
  method MinOf(s: seq<Option<Event>>) returns (found: Option<real>)
    ensures found == MinTime(s)
  {
    found := None;
    for k := 0 to |s|
      invariant found == MinTime(s[..k])
    {
      assert s[..k + 1][..k] == s[..k];
      if s[k].Some? {
        var t := s[k].value.time;
        found := if found.None? then Some(t) else Some(Min(found.value, t));
      }
    }
    assert s[..|s|] == s;
  }

  /** The loop that fills happeningNow. */
  method HappeningAt(s: seq<Option<Event>>, step: real) returns (happeningNow: seq<Event>)
    ensures happeningNow == Happening(s, step)
  {
    happeningNow := [];
    for k := 0 to |s|
      invariant happeningNow == Happening(s[..k], step)
    {
      assert s[..k + 1][..k] == s[..k];
      if s[k].Some? && s[k].value.time == step {
        happeningNow := happeningNow + [s[k].value];
      }
    }
    assert s[..|s|] == s;
  }

  /** Every particle advanced by dt, velocities kept. */
  function AdvancedAll(bodies: seq<Body>, dt: real): (r: seq<Body>)
    ensures |r| == |bodies|
    ensures forall k :: 0 <= k < |r| ==>
      r[k] == bodies[k].(position := Advanced(bodies[k].position, bodies[k].velocity, dt))
  {
    seq(|bodies|, k requires 0 <= k < |bodies| =>
      bodies[k].(position := Advanced(bodies[k].position, bodies[k].velocity, dt)))
  }

  /**
   * One collision applied through the bounce operation: the new velocity of
   * particle e.i and, for a pair, of particle e.j. Positions do not change.
   */
  function Collide(bounce: (CollisionType, Body, Body) -> PairVelocities, bodies: seq<Body>, e: Event): (r: seq<Body>)
    ensures |r| == |bodies|
    ensures forall k :: 0 <= k < |r| ==> r[k].position == bodies[k].position
    ensures forall k :: 0 <= k < |r| && k != e.i && (e.kind != PairCollision || k != e.j) ==> r[k] == bodies[k]
  {
    if e.i < |bodies| && e.j < |bodies| then
      var v := bounce(e.kind, bodies[e.i], bodies[e.j]);
      var first := bodies[e.i := bodies[e.i].(velocity := v.a)];
      if e.kind == PairCollision then first[e.j := first[e.j].(velocity := v.b)] else first
    else bodies
  }

  /** The collisions applied one after the other, in order. */
  function CollideAll(bounce: (CollisionType, Body, Body) -> PairVelocities, bodies: seq<Body>, es: seq<Event>): (r: seq<Body>)
    ensures |r| == |bodies|
    ensures forall k :: 0 <= k < |r| ==> r[k].position == bodies[k].position
  {
    if es == [] then bodies
    else Collide(bounce, CollideAll(bounce, bodies, es[..|es| - 1]), es[|es| - 1])
  }

  /** The lines written when collisions are printed: the count, then one collision line each. */
  function LogLines(ids: seq<int>, happening: seq<Event>): (lines: seq<string>)
    requires forall e :: e in happening ==> e.i < |ids| && e.j < |ids|
    ensures |lines| == |happening| + 1
    ensures Split(lines[0]) == [IntToString(|happening|)]
    ensures forall k :: 0 <= k < |happening| ==>
      lines[k + 1] == CollisionLine(happening[k].kind, ids[happening[k].i], ids[happening[k].j])
  {
    SplitJoin([IntToString(|happening|)]);
    [IntToString(|happening|)]
      + seq(|happening|, k requires 0 <= k < |happening| =>
          CollisionLine(happening[k].kind, ids[happening[k].i], ids[happening[k].j]))
  }

  /** The writer.println calls of the loop over happeningNow: the count, then one line per collision. */
  method WriteLines(ids: seq<int>, happeningNow: seq<Event>) returns (lines: seq<string>)
    requires forall e :: e in happeningNow ==> e.i < |ids| && e.j < |ids|
    ensures lines == LogLines(ids, happeningNow)
  {
    lines := [IntToString(|happeningNow|)];
    for k := 0 to |happeningNow|
      invariant |lines| == k + 1 && lines[0] == IntToString(|happeningNow|)
      invariant forall m :: 0 <= m < k ==>
        lines[m + 1] == CollisionLine(happeningNow[m].kind, ids[happeningNow[m].i], ids[happeningNow[m].j])
    {
      var e := happeningNow[k];
      lines := lines + [CollisionLine(e.kind, ids[e.i], ids[e.j])];
    }
    var expected := LogLines(ids, happeningNow);
    assert forall m :: 0 <= m < |lines| ==> lines[m] == expected[m];
  }

  datatype Outcome = Outcome(time: real, happening: seq<Event>, lines: seq<string>)

  class Board {
    const radius: real
    const obstacleRadius: real
    const particles: seq<Particle>

    /** The particles form a set under Particle.equals: their ids are distinct. */
    ghost predicate Valid()
    {
      forall i, j :: 0 <= i < j < |particles| ==> particles[i].id != particles[j].id
    }

    /**
     * Board(L, obstacleRadius, particles): the board radius is L/2. The
     * particles arrive as a Set<Particle>, whose equals compares ids, so
     * their ids are distinct.
     */
    constructor (L: real, obstacleRadius: real, particles: seq<Particle>)
      requires forall i, j :: 0 <= i < j < |particles| ==> particles[i].id != particles[j].id
      ensures radius == L / 2.0 && this.obstacleRadius == obstacleRadius && this.particles == particles
      ensures Valid()
    {
      radius := L / 2.0;
      this.obstacleRadius := obstacleRadius;
      this.particles := particles;
    }

    function States(): (r: seq<Body>)
      reads particles
      ensures |r| == |particles|
      ensures forall k :: 0 <= k < |particles| ==> r[k] == particles[k].State()
    {
      seq(|particles|, k requires 0 <= k < |particles| reads particles => particles[k].State())
    }

    function Ids(): (r: seq<int>)
      ensures |r| == |particles|
      ensures forall k :: 0 <= k < |particles| ==> r[k] == particles[k].id
    {
      seq(|particles|, k requires 0 <= k < |particles| => particles[k].id)
    }

    function Snap(): (w: Snapshot)
      reads particles
      ensures w.WellFormed()
    {
      Snapshot(radius, obstacleRadius, States(), Ids())
    }

    /**
     * toNextCollisionTime(currentTime, writer, printCollisions): when no
     * collision lies ahead nothing changes and the step fails; otherwise every
     * particle advances by the step, the collisions happening then are applied
     * in order through bounce, the lines are written when printCollisions
     * holds, and the new time is currentTime + step.
     */
    method ToNextCollisionTime(sqrt: real -> real, bounce: (CollisionType, Body, Body) -> PairVelocities,
                               currentTime: real, printCollisions: bool) returns (r: Result<Outcome>)
      requires IsSqrt(sqrt) && Valid()
      modifies particles
      ensures Select(sqrt, old(Snap())).Err? ==> r == Err(NoMoreCollisions) && States() == old(States())
      ensures Select(sqrt, old(Snap())).Ok? ==>
        var sel := Select(sqrt, old(Snap())).value;
        r.Ok? && r.value.time == currentTime + sel.step && r.value.happening == sel.happening
        && States() == CollideAll(bounce, AdvancedAll(old(States()), sel.step), sel.happening)
        && (forall e :: e in sel.happening ==> e.i < |particles| && e.j < |particles|)
        && r.value.lines == if printCollisions then LogLines(Ids(), sel.happening) else []
    {
      var w := Snap();
      var sel := SelectNext(sqrt, w);
      if sel.Err? {
        return Err(NoMoreCollisions);
      }
      var step := sel.value.step;
      var happeningNow := sel.value.happening;
      forall e | e in happeningNow
        ensures e.i < |particles| && e.j < |particles|
      {
        SearchGathersSimultaneous(w.ids, TimesOf(sqrt, w), e);
      }
      AdvanceAll(step);
      var lines := ApplyAndLog(bounce, happeningNow, printCollisions);
      r := Ok(Outcome(currentTime + step, happeningNow, lines));
    }

    /** for (Particle particle: particles) particle.update(step), with update read as move. */
    method AdvanceAll(step: real)
      requires Valid()
      modifies particles
      ensures States() == AdvancedAll(old(States()), step)
    {
      ghost var before := States();
      for k := 0 to |particles|
        invariant forall m :: 0 <= m < |particles| ==> particles[m].velocity == before[m].velocity
        invariant forall m :: 0 <= m < k ==>
          particles[m].position == Advanced(before[m].position, before[m].velocity, step)
        invariant forall m :: k <= m < |particles| ==> particles[m].position == before[m].position
      {
        assert forall m :: 0 <= m < |particles| && m != k ==> particles[m] != particles[k];
        particles[k].Move(step);
      }
    }

    /**
     * The loop over happeningNow: each collision is applied through bounce in
     * order, and with printCollisions the count and one line per collision
     * are written (the lines depend on the ids alone, so they are built
     * beside the bounces).
     */
    method ApplyAndLog(bounce: (CollisionType, Body, Body) -> PairVelocities, happeningNow: seq<Event>,
                       printCollisions: bool) returns (lines: seq<string>)
      requires Valid()
      requires forall e :: e in happeningNow ==> e.i < |particles| && e.j < |particles|
      modifies particles
      ensures States() == CollideAll(bounce, old(States()), happeningNow)
      ensures lines == if printCollisions then LogLines(Ids(), happeningNow) else []
    {
      ApplyInOrder(bounce, happeningNow);
      lines := [];
      if printCollisions {
        lines := WriteLines(Ids(), happeningNow);
      }
    }

    /** The bounce calls of the loop over happeningNow, in order. */
    method ApplyInOrder(bounce: (CollisionType, Body, Body) -> PairVelocities, happeningNow: seq<Event>)
      requires Valid()
      requires forall e :: e in happeningNow ==> e.i < |particles| && e.j < |particles|
      modifies particles
      ensures States() == CollideAll(bounce, old(States()), happeningNow)
    {
      ghost var before := States();
      for k := 0 to |happeningNow|
        invariant States() == CollideAll(bounce, before, happeningNow[..k])
      {
        assert happeningNow[..k + 1][..k] == happeningNow[..k];
        ApplyOne(bounce, happeningNow[k]);
      }
      assert happeningNow[..|happeningNow|] == happeningNow;
    }

    /** The bounce of one collision written back to the particles. */
    method ApplyOne(bounce: (CollisionType, Body, Body) -> PairVelocities, e: Event)
      requires Valid() && e.i < |particles| && e.j < |particles|
      modifies particles
      ensures States() == Collide(bounce, old(States()), e)
    {
      var v := bounce(e.kind, particles[e.i].State(), particles[e.j].State());
      ghost var before := States();
      particles[e.i].velocity := v.a;
      if e.kind == PairCollision {
        particles[e.j].velocity := v.b;
      }
      assert forall k :: 0 <= k < |particles| && k != e.i && (e.kind != PairCollision || k != e.j) ==>
        particles[k] != particles[e.i] && (e.kind != PairCollision || particles[k] != particles[e.j]);
    }
  }
}
