/**
 * The snapshot animation script: it reads the particles file for the board
 * and the particle radii, then walks the simulation output in blocks of one
 * time line followed by particle_count lines "id x y vx vy", keeping every
 * hundredth block as an animation frame.
 */
module Snapshots {
  import opened Common
  import opened InitialConditions
  import opened EventGroups

  /** One particle as a frame draws it: its radius from the particles file and its position. */
  datatype Shown = Shown(radius: real, x: real, y: real)

  /** A kept block: its time (the times list) and its particles (the snapshots list). */
  datatype Snapshot = Snapshot(time: real, particles: seq<Shown>)

  /** Only blocks whose step number is a multiple of this become frames. */
  const StepsPerFrame: nat := 100

  /** id_, x, y, vx, vy = map(float, parts) succeeds: exactly five numbers. */
  predicate FiveNumbers(line: Line)
  {
    |line| == 5 && forall f :: 0 <= f < 5 ==> line[f].asFloat.Some?
  }

  /**
   * One particle line of a kept block at index at: five numbers, and the
   * radius is particles[int(id_)]['radius'], a list index that may count
   * from the end.
   */
  function ShownOf(line: Line, at: int, particles: seq<Record>): (r: Result<Shown>)
    ensures r.Ok? <==> FiveNumbers(line) && PyIndex(|particles|, Trunc(line[0].asFloat.value)).Some?
    ensures r.Ok? ==> r.value.x == line[1].asFloat.value && r.value.y == line[2].asFloat.value
    ensures r.Ok? ==> exists j :: 0 <= j < |particles| && r.value.radius == particles[j].radius && (j == Trunc(line[0].asFloat.value) || j == Trunc(line[0].asFloat.value) + |particles|)
    ensures r.Err? ==> r == Err(if FiveNumbers(line) then IndexError(at) else ValueError(at))
  {
    if !FiveNumbers(line) then Err(ValueError(at))
    else
      match PyIndex(|particles|, Trunc(line[0].asFloat.value))
      case None => Err(IndexError(at))
      case Some(j) => Ok(Shown(particles[j].radius, line[1].asFloat.value, line[2].asFloat.value))
  }

  /** snapshot_particles after the loop has seen lines lo .. k - 1 of the block. */
  function ShownLines(lines: seq<Line>, lo: nat, k: nat, particles: seq<Record>): Result<seq<Shown>>
    requires lo <= k <= |lines|
    decreases k
  {
    if k == lo then Ok([])
    else
      match ShownLines(lines, lo, k - 1, particles)
      case Err(e) => Err(e)
      case Ok(ss) =>
        match ShownOf(lines[k - 1], k - 1, particles)
        case Err(e) => Err(e)
        case Ok(s) => Ok(ss + [s])
  }

  /**
   * The particle loop fails exactly when one of its lines fails, the first
   * such line naming the error; otherwise particle m comes from line lo + m.
   */
  lemma {:induction false} ShownLinesAreEntries(lines: seq<Line>, lo: nat, k: nat, particles: seq<Record>)
    requires lo <= k <= |lines|
    ensures ShownLines(lines, lo, k, particles).Ok? <==> forall j :: lo <= j < k ==> ShownOf(lines[j], j, particles).Ok?
    ensures ShownLines(lines, lo, k, particles).Ok? ==>
      |ShownLines(lines, lo, k, particles).value| == k - lo &&
      forall m :: 0 <= m < k - lo ==> ShownLines(lines, lo, k, particles).value[m] == ShownOf(lines[lo + m], lo + m, particles).value
    decreases k
  {
    if k > lo {
      ShownLinesAreEntries(lines, lo, k - 1, particles);
    }
  }

  lemma {:induction false} ShownStaysFailed(lines: seq<Line>, lo: nat, k: nat, m: nat, particles: seq<Record>)
    requires lo <= k <= m <= |lines| && ShownLines(lines, lo, k, particles).Err?
    ensures ShownLines(lines, lo, m, particles) == ShownLines(lines, lo, k, particles)
    decreases m
  {
    if k < m {
      ShownStaysFailed(lines, lo, k, m - 1, particles);
    }
  }

  /** The end of lines[i+1 : i+1+particle_count]: the slice stops at the end of the file. */
  function BlockEnd(len: nat, pc: nat, i: nat): (e: nat)
    requires i < len
    ensures i + 1 <= e <= len
    ensures e == i + 1 + pc || e == len
  {
    if i + 1 + pc <= len then i + 1 + pc else len
  }

  /** The frame read from the block whose time line is at index i. */
  function SnapshotAt(lines: seq<Line>, pc: nat, particles: seq<Record>, i: nat): (r: Result<Snapshot>)
    requires i < |lines| && LineFloat(lines[i]).Some?
    ensures r.Ok? ==> (r.value.time == LineFloat(lines[i]).value
      && |r.value.particles| == BlockEnd(|lines|, pc, i) - (i + 1)
      && forall m :: 0 <= m < |r.value.particles| ==> ShownOf(lines[i + 1 + m], i + 1 + m, particles) == Ok(r.value.particles[m]))
    ensures r.Err? <==> exists j :: i + 1 <= j < BlockEnd(|lines|, pc, i) && ShownOf(lines[j], j, particles).Err?
  {
    ShownLinesAreEntries(lines, i + 1, BlockEnd(|lines|, pc, i), particles);
    match ShownLines(lines, i + 1, BlockEnd(|lines|, pc, i), particles)
    case Err(e) => Err(e)
    case Ok(ss) => Ok(Snapshot(LineFloat(lines[i]).value, ss))
  }

  /** The frames read before a position, followed by what the rest of the loop yields. */
  function Joined(read: seq<Snapshot>, rest: Result<seq<Snapshot>>): Result<seq<Snapshot>>
  {
    match rest
    case Err(e) => Err(e)
    case Ok(ss) => Ok(read + ss)
  }

  /**
   * The while loop from the block at line i, the step-th block of the file:
   * every time line must be a float, and only blocks with step % 100 == 0
   * have their particle lines read.
   */
  function Steps(lines: seq<Line>, pc: nat, particles: seq<Record>, i: nat, step: nat): Result<seq<Snapshot>>
    decreases |lines| - i
  {
    if i >= |lines| then Ok([])
    else if LineFloat(lines[i]).None? then Err(ValueError(i))
    else if step % StepsPerFrame != 0 then Steps(lines, pc, particles, i + 1 + pc, step + 1)
    else
      match SnapshotAt(lines, pc, particles, i)
      case Err(e) => Err(e)
      case Ok(s) => Joined([s], Steps(lines, pc, particles, i + 1 + pc, step + 1))
  }

  /** The step numbers, from step on, of the blocks that become frames. */
  function KeptSteps(lines: seq<Line>, pc: nat, i: nat, step: nat): seq<nat>
    decreases |lines| - i
  {
    if i >= |lines| then []
    else (if step % StepsPerFrame == 0 then [step] else []) + KeptSteps(lines, pc, i + 1 + pc, step + 1)
  }

  /** The first multiple of 100 at or after step. */
  function NextKept(step: nat): (t: nat)
    ensures step <= t < step + StepsPerFrame && t % StepsPerFrame == 0
  {
    step + (StepsPerFrame - step % StepsPerFrame) % StepsPerFrame
  }

  lemma {:induction false} StartFrom(i: nat, n: nat, s: nat)
    ensures Start(i, n, s) >= i
    decreases s
  {
    if s > 0 {
      StartFrom(i + 1 + n, n, s - 1);
    }
  }

  /**
   * The kept steps are the multiples of 100 from the first one at or after
   * step, with none missing: every block s whose time line exists and whose
   * step number step + s is a multiple of 100 is among them.
   */
  lemma {:induction false} KeptStepsAreHundreds(lines: seq<Line>, pc: nat, i: nat, step: nat)
    ensures forall j :: 0 <= j < |KeptSteps(lines, pc, i, step)| ==>
      KeptSteps(lines, pc, i, step)[j] == NextKept(step) + StepsPerFrame * j
    ensures forall s: nat :: Start(i, pc, s) < |lines| && (step + s) % StepsPerFrame == 0 ==>
      step + s < NextKept(step) + StepsPerFrame * |KeptSteps(lines, pc, i, step)|
    decreases |lines| - i
  {
    if i >= |lines| {
      forall s: nat | Start(i, pc, s) < |lines|
        ensures false
      {
        StartFrom(i, pc, s);
      }
    } else {
      KeptStepsAreHundreds(lines, pc, i + 1 + pc, step + 1);
      var rest := KeptSteps(lines, pc, i + 1 + pc, step + 1);
      assert step % StepsPerFrame == 0 ==> NextKept(step + 1) == NextKept(step) + StepsPerFrame;
      assert step % StepsPerFrame != 0 ==> NextKept(step + 1) == NextKept(step);
      forall s: nat | Start(i, pc, s) < |lines| && (step + s) % StepsPerFrame == 0 && s > 0
        ensures step + s < NextKept(step) + StepsPerFrame * |KeptSteps(lines, pc, i, step)|
      {
        assert Start(i, pc, s) == Start(i + 1 + pc, pc, s - 1);
        assert (step + 1) + (s - 1) == step + s;
      }
    }
  }

  /** Block t after the one at line i exists and yields frame f. */
  predicate FrameFrom(lines: seq<Line>, pc: nat, particles: seq<Record>, i: nat, t: nat, f: Snapshot)
  {
    Start(i, pc, t) < |lines| && LineFloat(lines[Start(i, pc, t)]).Some?
    && SnapshotAt(lines, pc, particles, Start(i, pc, t)) == Ok(f)
  }

  /**
   * Each frame of the loop started at line i is read from the block of one
   * kept step: kept step t is block t - step, which starts at
   * Start(i, pc, t - step).
   */
  predicate Framed(lines: seq<Line>, pc: nat, particles: seq<Record>, i: nat, step: nat)
  {
    Steps(lines, pc, particles, i, step).Ok?
    && FramedFrom(lines, pc, particles, i, step, KeptSteps(lines, pc, i, step), Steps(lines, pc, particles, i, step).value)
  }

  /** Frame j comes from the block of kept step kept[j], counting blocks from the one at i (step number step). */
  predicate FramedFrom(lines: seq<Line>, pc: nat, particles: seq<Record>, i: nat, step: nat, kept: seq<nat>, frames: seq<Snapshot>)
  {
    |frames| == |kept|
    && forall j :: 0 <= j < |frames| ==> step <= kept[j] && FrameFrom(lines, pc, particles, i, kept[j] - step, frames[j])
  }

  lemma {:induction false} FramesAtKeptSteps(lines: seq<Line>, pc: nat, particles: seq<Record>, i: nat, step: nat)
    requires Steps(lines, pc, particles, i, step).Ok?
    ensures Framed(lines, pc, particles, i, step)
    decreases |lines| - i
  {
    if i < |lines| {
      var next := i + 1 + pc;
      FramesAtKeptSteps(lines, pc, particles, next, step + 1);
      StepsUnfold(lines, pc, particles, i, step);
      var rest := KeptSteps(lines, pc, next, step + 1);
      var later := Steps(lines, pc, particles, next, step + 1).value;
      TailFrames(lines, pc, particles, i, next, step, rest, later);
      if step % StepsPerFrame == 0 {
        assert Start(i, pc, 0) == i;
        HeadFrame(lines, pc, particles, i, step, SnapshotAt(lines, pc, particles, i).value, rest, later);
      }
    }
  }

  /** The frames of the blocks after the one at i, seen from i: one block further on. */
  lemma TailFrames(lines: seq<Line>, pc: nat, particles: seq<Record>, i: nat, next: nat, step: nat,
      rest: seq<nat>, later: seq<Snapshot>)
    requires next == i + 1 + pc
    requires FramedFrom(lines, pc, particles, next, step + 1, rest, later)
    ensures FramedFrom(lines, pc, particles, i, step, rest, later)
  {
    forall m | 0 <= m < |later|
      ensures step <= rest[m] && FrameFrom(lines, pc, particles, i, rest[m] - step, later[m])
    {
      FrameFromShift(lines, pc, particles, i, rest[m] - (step + 1), later[m]);
    }
  }

  /** A kept block at i puts its frame in front of the later ones. */
  lemma HeadFrame(lines: seq<Line>, pc: nat, particles: seq<Record>, i: nat, step: nat,
      first: Snapshot, rest: seq<nat>, later: seq<Snapshot>)
    requires FrameFrom(lines, pc, particles, i, 0, first)
    requires FramedFrom(lines, pc, particles, i, step, rest, later)
    ensures FramedFrom(lines, pc, particles, i, step, [step] + rest, [first] + later)
  {
  }

  /** One turn of the while loop, as the frames and the kept steps see it. */
  lemma StepsUnfold(lines: seq<Line>, pc: nat, particles: seq<Record>, i: nat, step: nat)
    requires i < |lines| && Steps(lines, pc, particles, i, step).Ok?
    ensures LineFloat(lines[i]).Some? && Steps(lines, pc, particles, i + 1 + pc, step + 1).Ok?
    ensures step % StepsPerFrame == 0 ==>
      SnapshotAt(lines, pc, particles, i).Ok?
      && Steps(lines, pc, particles, i, step).value
         == [SnapshotAt(lines, pc, particles, i).value] + Steps(lines, pc, particles, i + 1 + pc, step + 1).value
      && KeptSteps(lines, pc, i, step) == [step] + KeptSteps(lines, pc, i + 1 + pc, step + 1)
    ensures step % StepsPerFrame != 0 ==>
      Steps(lines, pc, particles, i, step) == Steps(lines, pc, particles, i + 1 + pc, step + 1)
      && KeptSteps(lines, pc, i, step) == KeptSteps(lines, pc, i + 1 + pc, step + 1)
  {
  }

  /** A frame of the blocks after the one at i is a frame of the blocks from i, one block further on. */
  lemma FrameFromShift(lines: seq<Line>, pc: nat, particles: seq<Record>, i: nat, t: nat, f: Snapshot)
    requires FrameFrom(lines, pc, particles, i + 1 + pc, t, f)
    ensures FrameFrom(lines, pc, particles, i, t + 1, f)
  {
    assert Start(i, pc, t + 1) == Start(i + 1 + pc, pc, t);
  }

  /**
   * The stride and the decimation: frame j is read from block 100 j, whose
   * time line is at 1 + 100 j (particle_count + 1); and every block 100 j
   * that the file reaches becomes a frame.
   */
  lemma EveryHundredthBlock(lines: seq<Line>, pc: nat, particles: seq<Record>)
    requires Steps(lines, pc, particles, 1, 0).Ok?
    ensures forall j :: 0 <= j < |Steps(lines, pc, particles, 1, 0).value| ==>
      FrameFrom(lines, pc, particles, 1, StepsPerFrame * j, Steps(lines, pc, particles, 1, 0).value[j])
    ensures forall s: nat :: Start(1, pc, s) < |lines| && s % StepsPerFrame == 0 ==>
      s < StepsPerFrame * |Steps(lines, pc, particles, 1, 0).value|
  {
    FramesAtKeptSteps(lines, pc, particles, 1, 0);
    KeptStepsAreHundreds(lines, pc, 1, 0);
  }

  /** Block s of the output starts at line 1 + s (particle_count + 1). */
  lemma BlockLine(pc: nat, s: nat)
    ensures Start(1, pc, s) == 1 + s * (pc + 1)
  {
    StartIsStride(1, pc, s);
  }

  /** The particle loop of a kept block: lines[lo : hi]. */
  method ReadShown(lines: seq<Line>, lo: nat, hi: nat, particles: seq<Record>) returns (r: Result<seq<Shown>>)
    requires lo <= hi <= |lines|
    ensures r == ShownLines(lines, lo, hi, particles)
  {
    var shown: seq<Shown> := [];
    for k := lo to hi
      invariant ShownLines(lines, lo, k, particles) == Ok(shown)
    {
      var s := ShownOf(lines[k], k, particles);
      if s.Err? {
        ShownStaysFailed(lines, lo, k + 1, hi, particles);
        return Err(s.error);
      }
      shown := shown + [s.value];
    }
    return Ok(shown);
  }

  /** One iteration of the while loop, on the block whose time line is at i. */
  method ReadBlock(lines: seq<Line>, pc: nat, particles: seq<Record>, i: nat, step: nat, snapshots: seq<Snapshot>)
    returns (r: Result<seq<Snapshot>>)
    requires i < |lines|
    ensures r.Err? ==> Steps(lines, pc, particles, i, step) == Err(r.error)
    ensures r.Ok? ==> (Joined(snapshots, Steps(lines, pc, particles, i, step))
      == Joined(r.value, Steps(lines, pc, particles, i + 1 + pc, step + 1)))
  {
    var time := LineFloat(lines[i]);
    if time.None? {
      return Err(ValueError(i));
    }
    if step % StepsPerFrame == 0 {
      var shown := ReadShown(lines, i + 1, BlockEnd(|lines|, pc, i), particles);
      if shown.Err? {
        return Err(shown.error);
      }
      var s := Snapshot(time.value, shown.value);
      var rest := Steps(lines, pc, particles, i + 1 + pc, step + 1);
      if rest.Ok? {
        assert snapshots + ([s] + rest.value) == (snapshots + [s]) + rest.value;
      }
      return Ok(snapshots + [s]);
    }
    return Ok(snapshots);
  }

  /** The while loop over the output file, for particle_count = pc. */
  method ReadSnapshots(lines: seq<Line>, pc: nat, particles: seq<Record>) returns (r: Result<seq<Snapshot>>)
    ensures r == Steps(lines, pc, particles, 1, 0)
  {
    var snapshots: seq<Snapshot> := [];
    var i := 1;
    var step := 0;
    assert Steps(lines, pc, particles, 1, 0).Ok? ==> [] + Steps(lines, pc, particles, 1, 0).value == Steps(lines, pc, particles, 1, 0).value;
    while i < |lines|
      invariant Steps(lines, pc, particles, 1, 0) == Joined(snapshots, Steps(lines, pc, particles, i, step))
      decreases |lines| - i
    {
      var next := ReadBlock(lines, pc, particles, i, step, snapshots);
      if next.Err? {
        return Err(next.error);
      }
      snapshots := next.value;
      i := i + 1 + pc;
      step := step + 1;
    }
    assert snapshots + [] == snapshots;
    return Ok(snapshots);
  }

  /** What the script has read before it draws: the board, the obstacle, the particles and the frames. */
  datatype Scene = Scene(boardRadius: real, obstacleRadius: real, particles: seq<Record>, snapshots: seq<Snapshot>)

  /**
   * Both files read by the script: the particles file first, then the
   * output file, whose first line is particle_count.
   */
  function SceneOf(particleLines: seq<Line>, outputLines: seq<Line>): (r: Result<Scene>)
    ensures r.Ok? ==> (ConditionsOf(particleLines).Ok?
      && r.value.boardRadius * 2.0 == ConditionsOf(particleLines).value.boardDiameter
      && r.value.particles == ConditionsOf(particleLines).value.particles
      && |outputLines| > 0 && LineInt(outputLines[0]).Some? && LineInt(outputLines[0]).value >= 0
      && Steps(outputLines, LineInt(outputLines[0]).value, r.value.particles, 1, 0) == Ok(r.value.snapshots))
  {
    match ConditionsOf(particleLines)
    case Err(e) => Err(e)
    case Ok(c) =>
      if |outputLines| == 0 then Err(IndexError(0))
      else if LineInt(outputLines[0]).None? then Err(ValueError(0))
      else if LineInt(outputLines[0]).value < 0 then Err(NegativeCount(0))
      else
        match Steps(outputLines, LineInt(outputLines[0]).value, c.particles, 1, 0)
        case Err(e) => Err(e)
        case Ok(snaps) => Ok(Scene(c.boardDiameter / 2.0, c.obstacleRadius, c.particles, snaps))
  }

  /** The script's reading phase, on the lines of particles.txt and output.txt. */
  method ReadScene(particleLines: seq<Line>, outputLines: seq<Line>) returns (r: Result<Scene>)
    ensures r == SceneOf(particleLines, outputLines)
  {
    var conditions := ReadInitialConditions(particleLines);
    if conditions.Err? {
      return Err(conditions.error);
    }
    if |outputLines| == 0 {
      return Err(IndexError(0));
    }
    var count := LineInt(outputLines[0]);
    if count.None? {
      return Err(ValueError(0));
    }
    if count.value < 0 {
      return Err(NegativeCount(0));
    }
    var snapshots := ReadSnapshots(outputLines, count.value, conditions.value.particles);
    if snapshots.Err? {
      return Err(snapshots.error);
    }
    var c := conditions.value;
    return Ok(Scene(c.boardDiameter / 2.0, c.obstacleRadius, c.particles, snapshots.value));
  }
}
