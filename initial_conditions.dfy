/**
 * The particles file as both animation scripts read it: the board diameter,
 * the obstacle radius, then one line "id x y vx vy mass radius" per particle.
 * From the third line on, blank lines and lines of fewer than seven fields
 * are skipped; every other line must be exactly seven numbers.
 */
module InitialConditions {
  import opened Common

  /** One particle dictionary: 'id' is int() of the first number. */
  datatype Record = Record(id: int, x: real, y: real, vx: real, vy: real, mass: real, radius: real)

  /** A line the loop keeps: non-blank with at least seven fields. */
  predicate IsParticleLine(line: Line)
  {
    |line| >= 7
  }

  /**
   * id_, x, y, vx, vy, mass, radius = map(float, parts) on a kept line at
   * index at: each field must be a number and there must be no eighth field.
   */
  function RecordOf(line: Line, at: int): (r: Result<Record>)
    requires IsParticleLine(line)
    ensures r.Ok? <==> |line| == 7 && forall f :: 0 <= f < 7 ==> line[f].asFloat.Some?
    ensures r.Ok? ==> (r.value.id == Trunc(line[0].asFloat.value) && r.value.x == line[1].asFloat.value
      && r.value.y == line[2].asFloat.value && r.value.radius == line[6].asFloat.value)
    ensures r.Err? ==> r == Err(ValueError(at))
  {
    if |line| == 7 && forall f :: 0 <= f < 7 ==> line[f].asFloat.Some? then
      Ok(Record(Trunc(line[0].asFloat.value), line[1].asFloat.value, line[2].asFloat.value,
        line[3].asFloat.value, line[4].asFloat.value, line[5].asFloat.value, line[6].asFloat.value))
    else Err(ValueError(at))
  }

  /** The particles list after the loop has seen lines 2 .. k - 1. */
  function Particles(lines: seq<Line>, k: nat): Result<seq<Record>>
    requires k <= |lines|
  {
    if k <= 2 then Ok([])
    else
      match Particles(lines, k - 1)
      case Err(e) => Err(e)
      case Ok(ps) =>
        if !IsParticleLine(lines[k - 1]) then Ok(ps)
        else
          match RecordOf(lines[k - 1], k - 1)
          case Err(e) => Err(e)
          case Ok(p) => Ok(ps + [p])
  }

  /** The indices of the kept lines among lines 2 .. k - 1, in file order. */
  function ParticleLines(lines: seq<Line>, k: nat): (idx: seq<nat>)
    requires k <= |lines|
    ensures forall m :: 0 <= m < |idx| ==> 2 <= idx[m] < k && IsParticleLine(lines[idx[m]])
    ensures forall m, m' :: 0 <= m < m' < |idx| ==> idx[m] < idx[m']
    ensures forall j :: 2 <= j < k && IsParticleLine(lines[j]) ==> j in idx
  {
    if k <= 2 then []
    else if IsParticleLine(lines[k - 1]) then ParticleLines(lines, k - 1) + [k - 1]
    else ParticleLines(lines, k - 1)
  }

  /**
   * The loop fails exactly when a kept line is not seven numbers; otherwise
   * it holds one record per kept line, in file order, and skips the rest.
   */
  lemma {:induction false} ParticlesAreKeptLines(lines: seq<Line>, k: nat)
    requires k <= |lines|
    ensures Particles(lines, k).Ok? <==>
      forall j :: 2 <= j < k && IsParticleLine(lines[j]) ==> RecordOf(lines[j], j).Ok?
    ensures Particles(lines, k).Ok? ==>
      var ps := Particles(lines, k).value;
      var idx := ParticleLines(lines, k);
      |ps| == |idx| && forall m :: 0 <= m < |ps| ==> ps[m] == RecordOf(lines[idx[m]], idx[m]).value
  {
    if k > 2 {
      ParticlesAreKeptLines(lines, k - 1);
    }
  }

  /** The loop over range(2, len(lines)) shared by both scripts. */
  method ReadParticleLines(lines: seq<Line>) returns (r: Result<seq<Record>>)
    ensures r == Particles(lines, |lines|)
  {
    var particles: seq<Record> := [];
    if |lines| <= 2 {
      return Ok(particles);
    }
    for i := 2 to |lines|
      invariant Particles(lines, i) == Ok(particles)
    {
      if IsParticleLine(lines[i]) {
        var p := RecordOf(lines[i], i);
        if p.Err? {
          ParticlesStayFailed(lines, i + 1, |lines|);
          return Err(p.error);
        }
        particles := particles + [p.value];
      }
    }
    return Ok(particles);
  }

  lemma {:induction false} ParticlesStayFailed(lines: seq<Line>, k: nat, m: nat)
    requires k <= m <= |lines| && Particles(lines, k).Err?
    ensures Particles(lines, m) == Particles(lines, k)
    decreases m - k
  {
    if k < m {
      ParticlesStayFailed(lines, k, m - 1);
    }
  }

  datatype Conditions = Conditions(boardDiameter: real, obstacleRadius: real, particles: seq<Record>)

  /** read_initial_conditions(filename) on the file's lines. */
  function ConditionsOf(lines: seq<Line>): (r: Result<Conditions>)
    ensures r.Ok? ==> (|lines| >= 2 && Particles(lines, |lines|) == Ok(r.value.particles)
      && LineFloat(lines[0]) == Some(r.value.boardDiameter) && LineFloat(lines[1]) == Some(r.value.obstacleRadius))
  {
    if |lines| == 0 then Err(IndexError(0))
    else if LineFloat(lines[0]).None? then Err(ValueError(0))
    else if |lines| == 1 then Err(IndexError(1))
    else if LineFloat(lines[1]).None? then Err(ValueError(1))
    else
      match Particles(lines, |lines|)
      case Err(e) => Err(e)
      case Ok(ps) => Ok(Conditions(LineFloat(lines[0]).value, LineFloat(lines[1]).value, ps))
  }

  /** read_initial_conditions(filename), on the file's lines. */
  method ReadInitialConditions(lines: seq<Line>) returns (r: Result<Conditions>)
    ensures r == ConditionsOf(lines)
  {
    if |lines| == 0 {
      return Err(IndexError(0));
    }
    var diameter := LineFloat(lines[0]);
    if diameter.None? {
      return Err(ValueError(0));
    }
    if |lines| == 1 {
      return Err(IndexError(1));
    }
    var obstacle := LineFloat(lines[1]);
    if obstacle.None? {
      return Err(ValueError(1));
    }
    var particles := ReadParticleLines(lines);
    if particles.Err? {
      return Err(particles.error);
    }
    return Ok(Conditions(diameter.value, obstacle.value, particles.value));
  }
}
