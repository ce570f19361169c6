/**
 * pressure.py: the masses from the particles file, the event blocks of the
 * simulation log, and the pressure on the wall and on the obstacle between
 * consecutive blocks, from the change of velocity of each particle that
 * collided.
 */
module Pressure {
  import opened Common
  import opened Formatting

  /** math.pi as a double, written out in decimal. */
  const Pi: real := 3.141592653589793

  // ---------------------------------------------------------------- particles file

  datatype ParticlesFile = ParticlesFile(boardDiameter: real, obstacleRadius: real, masses: map<int, real>)

  /** int(parts[0]) and float(parts[5]) of a particle line at index at, with the errors in the order Python raises them. */
  function MassEntry(line: Line, at: int): (r: Result<(int, real)>)
    ensures r.Ok? <==> |line| >= 6 && line[0].asInt.Some? && line[5].asFloat.Some?
    ensures r.Ok? ==> r.value == (line[0].asInt.value, line[5].asFloat.value)
    ensures |line| == 0 ==> r == Err(IndexError(at))
  {
    if |line| == 0 then Err(IndexError(at))
    else if line[0].asInt.None? then Err(ValueError(at))
    else if |line| < 6 then Err(IndexError(at))
    else if line[5].asFloat.None? then Err(ValueError(at))
    else Ok((line[0].asInt.value, line[5].asFloat.value))
  }

  /** The dictionary after the first k lines of lines[2:]: each line sets its id's mass. */
  function Masses(lines: seq<Line>, k: nat): Result<map<int, real>>
    requires 2 + k <= |lines|
  {
    if k == 0 then Ok(map[])
    else
      match Masses(lines, k - 1)
      case Err(e) => Err(e)
      case Ok(m) =>
        match MassEntry(lines[k + 1], k + 1)
        case Err(e) => Err(e)
        case Ok(entry) => Ok(m[entry.0 := entry.1])
  }

  /** read_particles_file on the file's lines. */
  function ParticlesFileOf(lines: seq<Line>): Result<ParticlesFile>
  {
    if |lines| == 0 then Err(IndexError(0))
    else if LineFloat(lines[0]).None? then Err(ValueError(0))
    else if |lines| == 1 then Err(IndexError(1))
    else if LineFloat(lines[1]).None? then Err(ValueError(1))
    else
      match Masses(lines, |lines| - 2)
      case Err(e) => Err(e)
      case Ok(m) => Ok(ParticlesFile(LineFloat(lines[0]).value, LineFloat(lines[1]).value, m))
  }

  /** Line j is a well-formed particle line and no later one among the first k names its id. */
  predicate LastLineFor(lines: seq<Line>, k: nat, j: nat)
    requires 2 <= j < 2 + k <= |lines|
  {
    MassEntry(lines[j], j).Ok?
    && forall j' :: j < j' < 2 + k ==> MassEntry(lines[j'], j').Ok? && MassEntry(lines[j'], j').value.0 != MassEntry(lines[j], j).value.0
  }

  /** One more particle line sets its id's mass and leaves the other ids alone. */
  lemma MassesStep(lines: seq<Line>, k: nat)
    requires 0 < k && 2 + k <= |lines| && Masses(lines, k).Ok?
    ensures Masses(lines, k - 1).Ok? && MassEntry(lines[k + 1], k + 1).Ok?
    ensures Masses(lines, k).value
      == Masses(lines, k - 1).value[MassEntry(lines[k + 1], k + 1).value.0 := MassEntry(lines[k + 1], k + 1).value.1]
  {
  }

  /**
   * The dictionary holds exactly the ids of the particle lines, and for each
   * id the mass on the last line that names it.
   */
  lemma LastLineWins(lines: seq<Line>, k: nat)
    requires 2 + k <= |lines| && Masses(lines, k).Ok?
    ensures forall j :: 2 <= j < 2 + k ==> MassEntry(lines[j], j).Ok? && MassEntry(lines[j], j).value.0 in Masses(lines, k).value
    ensures forall id :: id in Masses(lines, k).value ==>
      exists j :: 2 <= j < 2 + k && MassEntry(lines[j], j).Ok? && MassEntry(lines[j], j).value.0 == id
    ensures forall j :: 2 <= j < 2 + k && LastLineFor(lines, k, j) ==>
      Masses(lines, k).value[MassEntry(lines[j], j).value.0] == MassEntry(lines[j], j).value.1
  {
    EveryLineHasItsId(lines, k);
    OnlyLineIds(lines, k);
    LastMassKept(lines, k);
  }

  lemma {:induction false} EveryLineHasItsId(lines: seq<Line>, k: nat)
    requires 2 + k <= |lines| && Masses(lines, k).Ok?
    ensures forall j :: 2 <= j < 2 + k ==> MassEntry(lines[j], j).Ok? && MassEntry(lines[j], j).value.0 in Masses(lines, k).value
  {
    if k > 0 {
      MassesStep(lines, k);
      EveryLineHasItsId(lines, k - 1);
    }
  }

  lemma {:induction false} OnlyLineIds(lines: seq<Line>, k: nat)
    requires 2 + k <= |lines| && Masses(lines, k).Ok?
    ensures forall id :: id in Masses(lines, k).value ==>
      exists j :: 2 <= j < 2 + k && MassEntry(lines[j], j).Ok? && MassEntry(lines[j], j).value.0 == id
  {
    if k > 0 {
      MassesStep(lines, k);
      OnlyLineIds(lines, k - 1);
      forall id | id in Masses(lines, k).value
        ensures exists j :: 2 <= j < 2 + k && MassEntry(lines[j], j).Ok? && MassEntry(lines[j], j).value.0 == id
      {
        if id != MassEntry(lines[k + 1], k + 1).value.0 {
          assert id in Masses(lines, k - 1).value;
        }
      }
    }
  }

  lemma {:induction false} LastMassKept(lines: seq<Line>, k: nat)
    requires 2 + k <= |lines| && Masses(lines, k).Ok?
    ensures forall j :: 2 <= j < 2 + k && LastLineFor(lines, k, j) ==>
      MassEntry(lines[j], j).value.0 in Masses(lines, k).value
      && Masses(lines, k).value[MassEntry(lines[j], j).value.0] == MassEntry(lines[j], j).value.1
  {
    EveryLineHasItsId(lines, k);
    if k > 0 {
      MassesStep(lines, k);
      LastMassKept(lines, k - 1);
      forall j | 2 <= j < 1 + k && LastLineFor(lines, k, j)
        ensures LastLineFor(lines, k - 1, j)
      {
      }
    }
  }

  /** read_particles_file(particles_file), on the file's lines. */
  method ReadParticlesFile(lines: seq<Line>) returns (r: Result<ParticlesFile>)
    ensures r == ParticlesFileOf(lines)
  {
    if |lines| == 0 {
      return Err(IndexError(0));
    }
    var diameter := LineFloat(lines[0]);
    if diameter.None? {
      return Err(ValueError(0));
    }
    if |lines| == 1 {
      return Err(IndexError(1));
    }
    var obstacle := LineFloat(lines[1]);
    if obstacle.None? {
      return Err(ValueError(1));
    }
    var particles: map<int, real> := map[];
    for k := 0 to |lines| - 2
      invariant Masses(lines, k) == Ok(particles)
    {
      var entry := MassEntry(lines[k + 2], k + 2);
      if entry.Err? {
        MassesStayFailed(lines, k + 1, |lines| - 2);
        return Err(entry.error);
      }
      particles := particles[entry.value.0 := entry.value.1];
    }
    return Ok(ParticlesFile(diameter.value, obstacle.value, particles));
  }

  lemma {:induction false} MassesStayFailed(lines: seq<Line>, k: nat, m: nat)
    requires k <= m && 2 + m <= |lines| && Masses(lines, k).Err?
    ensures Masses(lines, m) == Masses(lines, k)
    decreases m - k
  {
    if k < m {
      MassesStayFailed(lines, k, m - 1);
    }
  }

  // ---------------------------------------------------------------- output file

  datatype StateLine = StateLine(id: int, vx: real, vy: real)

  datatype Event = Event(time: real, states: seq<StateLine>, collisions: seq<Line>)

  /** s.replace('.', '', 1): s without its first dot. */
  function DropFirstDot(s: string): (r: string)
    ensures '.' !in s ==> r == s
    ensures '.' in s ==> |r| == |s| - 1
  {
    if |s| == 0 then s
    else if s[0] == '.' then s[1..]
    else [s[0]] + DropFirstDot(s[1..])
  }

  /** lines[i].strip().replace('.', '', 1).isdigit(): one field of digits and at most one dot. */
  predicate IsTimeLine(line: Line)
  {
    |line| == 1 && AllDigits(DropFirstDot(line[0].text))
  }

  /** lines[i].strip().isdigit(): one field of digits only. */
  predicate IsCountLine(line: Line)
  {
    |line| == 1 && AllDigits(line[0].text)
  }

  /** A count line is also a time line. */
  lemma CountLineIsTimeLine(line: Line)
    requires IsCountLine(line)
    ensures IsTimeLine(line)
  {
    assert forall k :: 0 <= k < |line[0].text| ==> line[0].text[k] != '.';
  }

  /** The dictionary of one state line: int(parts[0]), float(parts[3]), float(parts[4]). */
  function StateOf(line: Line, at: int): (r: Result<StateLine>)
    requires |line| > 0
    ensures r.Ok? <==> |line| >= 5 && line[0].asInt.Some? && line[3].asFloat.Some? && line[4].asFloat.Some?
    ensures r.Ok? ==> r.value == StateLine(line[0].asInt.value, line[3].asFloat.value, line[4].asFloat.value)
  {
    if line[0].asInt.None? then Err(ValueError(at))
    else if |line| < 4 then Err(IndexError(at))
    else if line[3].asFloat.None? then Err(ValueError(at))
    else if |line| < 5 then Err(IndexError(at))
    else if line[4].asFloat.None? then Err(ValueError(at))
    else Ok(StateLine(line[0].asInt.value, line[3].asFloat.value, line[4].asFloat.value))
  }

  /**
   * The inner while loop from index i with the states read so far: it runs
   * up to the first blank or count line, which must exist.
   */
  function StatesFrom(lines: seq<Line>, i: nat, acc: seq<StateLine>): (r: Result<(seq<StateLine>, nat)>)
    ensures r.Ok? ==> i <= r.value.1 < |lines| && (|lines[r.value.1]| == 0 || IsCountLine(lines[r.value.1]))
    ensures r.Ok? ==> |r.value.0| == |acc| + r.value.1 - i && r.value.0[..|acc|] == acc
    ensures r.Ok? ==> forall j :: i <= j < r.value.1 ==>
      (|lines[j]| > 0 && !IsCountLine(lines[j]) && StateOf(lines[j], j) == Ok(r.value.0[|acc| + j - i]))
    decreases |lines| - i
  {
    if i >= |lines| then Err(IndexError(i))
    else if |lines[i]| == 0 || IsCountLine(lines[i]) then Ok((acc, i))
    else
      match StateOf(lines[i], i)
      case Err(e) => Err(e)
      case Ok(s) => StatesFrom(lines, i + 1, acc + [s])
  }

  /**
   * The line at j is a count line with value c, the collisions are the
   * max(c, 0) lines after it, and the block ends right after them.
   */
  predicate CountedCollisions(lines: seq<Line>, j: nat, collisions: seq<Line>, end: nat)
  {
    j < |lines| && LineInt(lines[j]).Some?
    && end == j + 1 + (if LineInt(lines[j]).value < 0 then 0 else LineInt(lines[j]).value)
    && end <= |lines| && collisions == lines[j + 1..end]
  }

  /**
   * The block whose time line is at index i: the time, the state lines, the
   * count line, and that many collision lines; with the index after them.
   */
  function Block(lines: seq<Line>, i: nat): (r: Result<(Event, nat)>)
    requires i < |lines|
    ensures r.Ok? ==> i < r.value.1 <= |lines| && LineFloat(lines[i]) == Some(r.value.0.time)
    ensures r.Ok? ==> StatesFrom(lines, i + 1, []).Ok? && r.value.0.states == StatesFrom(lines, i + 1, []).value.0
    ensures r.Ok? ==> CountedCollisions(lines, StatesFrom(lines, i + 1, []).value.1, r.value.0.collisions, r.value.1)
  {
    match LineFloat(lines[i])
    case None => Err(ValueError(i))
    case Some(time) =>
      match StatesFrom(lines, i + 1, [])
      case Err(e) => Err(e)
      case Ok((states, j)) =>
        match LineInt(lines[j])
        case None => Err(ValueError(j))
        case Some(c) =>
          var count := if c < 0 then 0 else c;
          if j + 1 + count > |lines| then Err(IndexError(|lines|))
          else Ok((Event(time, states, lines[j + 1..j + 1 + count]), j + 1 + count))
  }

  /** The outer while loop from index i with the events read so far. */
  function Events(lines: seq<Line>, i: nat, acc: seq<Event>): Result<seq<Event>>
    decreases |lines| - i
  {
    if i >= |lines| then Ok(acc)
    else if IsTimeLine(lines[i]) then
      match Block(lines, i)
      case Err(e) => Err(e)
      case Ok((e, next)) => Events(lines, next, acc + [e])
    else Events(lines, i + 1, acc)
  }

  /** read_output_file on the file's lines. */
  function OutputEvents(lines: seq<Line>): Result<seq<Event>>
  {
    Events(lines, 0, [])
  }

  /**
   * Events are only appended, in the order of their blocks, and every event
   * read comes from a time line of the log, whose value is its time.
   */
  lemma {:induction false} EventsFromTimeLines(lines: seq<Line>, i: nat, acc: seq<Event>)
    requires Events(lines, i, acc).Ok?
    ensures var evs := Events(lines, i, acc).value;
      |acc| <= |evs| && evs[..|acc|] == acc
      && forall k :: |acc| <= k < |evs| ==>
        exists j :: i <= j < |lines| && IsTimeLine(lines[j]) && LineFloat(lines[j]) == Some(evs[k].time)
    decreases |lines| - i
  {
    if i < |lines| {
      if IsTimeLine(lines[i]) {
        var (e, next) := Block(lines, i).value;
        EventsFromTimeLines(lines, next, acc + [e]);
        var evs := Events(lines, i, acc).value;
        assert evs[|acc|] == e by {
          assert evs[..|acc| + 1] == acc + [e];
        }
        assert evs[..|acc|] == acc by {
          assert evs[..|acc|] == evs[..|acc| + 1][..|acc|];
        }
      } else {
        EventsFromTimeLines(lines, i + 1, acc);
        var evs := Events(lines, i, acc).value;
        forall k | |acc| <= k < |evs|
          ensures exists j :: i <= j < |lines| && IsTimeLine(lines[j]) && LineFloat(lines[j]) == Some(evs[k].time)
        {
          var j :| i + 1 <= j < |lines| && IsTimeLine(lines[j]) && LineFloat(lines[j]) == Some(evs[k].time);
        }
      }
    }
  }

  /** No line in from .. to - 1 is a time line: the outer loop skips each of them by itself. */
  ghost predicate Skipped(lines: seq<Line>, from: nat, to: nat)
  {
    forall j :: from <= j < to && j < |lines| ==> !IsTimeLine(lines[j])
  }

  /** Every index in starts holds a time line whose block parses. */
  ghost predicate Heads(lines: seq<Line>, starts: seq<nat>)
  {
    forall k :: 0 <= k < |starts| ==> starts[k] < |lines| && IsTimeLine(lines[starts[k]]) && Block(lines, starts[k]).Ok?
  }

  /** Where the k-th run of skipped lines begins: at i, or where block k - 1 ends. */
  ghost function GapStart(lines: seq<Line>, i: nat, starts: seq<nat>, k: nat): nat
    requires k <= |starts|
  {
    if k == 0 then i
    else if starts[k - 1] < |lines| && Block(lines, starts[k - 1]).Ok? then Block(lines, starts[k - 1]).value.1
    else i
  }

  /** Where the k-th run of skipped lines ends: at block k, or at the end of the file. */
  ghost function GapEnd(lines: seq<Line>, starts: seq<nat>, k: nat): nat
    requires k <= |starts|
  {
    if k < |starts| then starts[k] else |lines|
  }

  /**
   * From index i the file splits into skipped lines and the blocks at
   * starts: each block begins at or after the end of the previous one,
   * and no line between them is a time line.
   */
  ghost predicate Tiling(lines: seq<Line>, i: nat, starts: seq<nat>)
  {
    Heads(lines, starts)
    && forall k :: 0 <= k <= |starts| ==>
      (k < |starts| ==> GapStart(lines, i, starts, k) <= GapEnd(lines, starts, k))
      && Skipped(lines, GapStart(lines, i, starts, k), GapEnd(lines, starts, k))
  }

  /** The events of the blocks at starts, in that order. */
  ghost function EventsAt(lines: seq<Line>, starts: seq<nat>): seq<Event>
    requires Heads(lines, starts)
  {
    if |starts| == 0 then [] else [Block(lines, starts[0]).value.0] + EventsAt(lines, starts[1..])
  }

  /** The blocks of a tiling begin at strictly increasing time lines, none before i. */
  lemma TilingIncreasing(lines: seq<Line>, i: nat, starts: seq<nat>)
    requires Tiling(lines, i, starts)
    ensures forall k :: 0 <= k < |starts| ==> i <= starts[k]
    ensures forall k :: 0 < k < |starts| ==> starts[k - 1] < starts[k]
  {
    forall k | 0 < k < |starts|
      ensures starts[k - 1] < starts[k]
    {
      assert GapStart(lines, i, starts, k) <= GapEnd(lines, starts, k);
    }
    forall k | 0 <= k < |starts|
      ensures i <= starts[k]
    {
      assert GapStart(lines, i, starts, 0) <= GapEnd(lines, starts, 0);
      var m := 0;
      while m < k
        invariant m <= k && i <= starts[m]
      {
        assert GapStart(lines, i, starts, m + 1) <= GapEnd(lines, starts, m + 1);
        m := m + 1;
      }
    }
  }

  /**
   * A successful read is exactly one event per block the outer loop
   * reaches: the blocks at starts tile the file from i, every line between
   * them is skipped, and the events are those blocks' events in file order.
   */
  lemma {:induction false} EventsAreBlocks(lines: seq<Line>, i: nat, acc: seq<Event>) returns (starts: seq<nat>)
    requires Events(lines, i, acc).Ok?
    ensures Tiling(lines, i, starts)
    ensures Events(lines, i, acc).value == acc + EventsAt(lines, starts)
    decreases |lines| - i
  {
    if i >= |lines| {
      starts := [];
      assert Tiling(lines, i, []);
    } else if IsTimeLine(lines[i]) {
      EventsAfterBlock(lines, i, acc);
      var s := EventsAreBlocks(lines, Block(lines, i).value.1, acc + [Block(lines, i).value.0]);
      starts := EventsConsBlock(lines, i, acc, s);
    } else {
      EventsAfterSkip(lines, i, acc);
      starts := EventsAreBlocks(lines, i + 1, acc);
      TilingAfterSkip(lines, i, starts);
    }
  }


  /** At a time line whose block parses, the outer loop appends its event and goes on after the block. */
  lemma EventsAfterBlock(lines: seq<Line>, i: nat, acc: seq<Event>)
    requires i < |lines| && IsTimeLine(lines[i]) && Block(lines, i).Ok?
    ensures Events(lines, i, acc) == Events(lines, Block(lines, i).value.1, acc + [Block(lines, i).value.0])
  {
  }

  /** At any other line the outer loop moves on by one line. */
  lemma EventsAfterSkip(lines: seq<Line>, i: nat, acc: seq<Event>)
    requires i < |lines| && !IsTimeLine(lines[i])
    ensures Events(lines, i, acc) == Events(lines, i + 1, acc)
  {
  }

  /** The block at time line i, followed by the blocks s of the rest of the read, is the read from i. */
  lemma EventsConsBlock(lines: seq<Line>, i: nat, acc: seq<Event>, s: seq<nat>) returns (starts: seq<nat>)
    requires i < |lines| && IsTimeLine(lines[i]) && Block(lines, i).Ok?
    requires Events(lines, i, acc) == Events(lines, Block(lines, i).value.1, acc + [Block(lines, i).value.0])
    requires Events(lines, i, acc).Ok?
    requires Tiling(lines, Block(lines, i).value.1, s)
    requires Events(lines, i, acc).value == acc + [Block(lines, i).value.0] + EventsAt(lines, s)
    ensures starts == [i] + s
    ensures Tiling(lines, i, starts)
    ensures Events(lines, i, acc).value == acc + EventsAt(lines, starts)
  {
    var e := Block(lines, i).value.0;
    TilingAfterBlock(lines, i, s);
    EventsAtCons(lines, i, s);
    assert acc + [e] + EventsAt(lines, s) == acc + ([e] + EventsAt(lines, s));
    starts := [i] + s;
  }

  /** The events of [i] + s are the block at i followed by the events of s. */
  lemma EventsAtCons(lines: seq<Line>, i: nat, s: seq<nat>)
    requires i < |lines| && IsTimeLine(lines[i]) && Block(lines, i).Ok? && Heads(lines, s)
    ensures Heads(lines, [i] + s) && EventsAt(lines, [i] + s) == [Block(lines, i).value.0] + EventsAt(lines, s)
  {
    assert ([i] + s)[1..] == s;
    assert Heads(lines, [i] + s) by {
      forall k | 0 < k < |[i] + s|
        ensures ([i] + s)[k] == s[k - 1]
      {
      }
    }
  }

  /** A block at time line i followed by a tiling from its end is a tiling from i. */
  lemma TilingAfterBlock(lines: seq<Line>, i: nat, s: seq<nat>)
    requires i < |lines| && IsTimeLine(lines[i]) && Block(lines, i).Ok?
    requires Tiling(lines, Block(lines, i).value.1, s)
    ensures Tiling(lines, i, [i] + s)
  {
    var next := Block(lines, i).value.1;
    var starts := [i] + s;
    assert Heads(lines, starts) by {
      forall k | 0 < k < |starts|
        ensures starts[k] == s[k - 1]
      {
      }
    }
    forall k | 0 <= k <= |starts|
      ensures k < |starts| ==> GapStart(lines, i, starts, k) <= GapEnd(lines, starts, k)
      ensures Skipped(lines, GapStart(lines, i, starts, k), GapEnd(lines, starts, k))
    {
      if k == 0 {
        assert GapStart(lines, i, starts, 0) == GapEnd(lines, starts, 0);
      } else {
        GapsShift(lines, i, next, s, k);
        assert Skipped(lines, GapStart(lines, next, s, k - 1), GapEnd(lines, s, k - 1));
      }
    }
  }

  /** Gap k of [i] + s is gap k - 1 of s, read from the end of the block at i. */
  lemma GapsShift(lines: seq<Line>, i: nat, next: nat, s: seq<nat>, k: nat)
    requires i < |lines| && Block(lines, i).Ok? && next == Block(lines, i).value.1
    requires 1 <= k <= |s| + 1
    requires k >= 2 ==> s[k - 2] < |lines| && Block(lines, s[k - 2]).Ok?
    ensures GapStart(lines, i, [i] + s, k) == GapStart(lines, next, s, k - 1)
    ensures GapEnd(lines, [i] + s, k) == GapEnd(lines, s, k - 1)
  {
    assert ([i] + s)[k - 1] == if k == 1 then i else s[k - 2];
  }

  /** A line that is not a time line, followed by a tiling from the next line, is a tiling from its own index. */
  lemma TilingAfterSkip(lines: seq<Line>, i: nat, s: seq<nat>)
    requires i < |lines| && !IsTimeLine(lines[i])
    requires Tiling(lines, i + 1, s)
    ensures Tiling(lines, i, s)
  {
    forall k | 0 <= k <= |s|
      ensures k < |s| ==> GapStart(lines, i, s, k) <= GapEnd(lines, s, k)
      ensures Skipped(lines, GapStart(lines, i, s, k), GapEnd(lines, s, k))
    {
      if k == 0 {
        assert GapStart(lines, i + 1, s, 0) == i + 1;
        assert Skipped(lines, i + 1, GapEnd(lines, s, 0));
      } else {
        assert GapStart(lines, i, s, k) == GapStart(lines, i + 1, s, k);
      }
    }
  }

  /** read_output_file(output_file), on the file's lines. */
  method ReadOutputFile(lines: seq<Line>) returns (r: Result<seq<Event>>)
    ensures r == OutputEvents(lines)
  {
    var events: seq<Event> := [];
    var i := 0;
    while i < |lines|
      invariant i <= |lines|
      invariant Events(lines, i, events) == Events(lines, 0, [])
      decreases |lines| - i
    {
      if IsTimeLine(lines[i]) {
        var block := ReadBlock(lines, i);
        if block.Err? {
          return Err(block.error);
        }
        events := events + [block.value.0];
        i := block.value.1;
      } else {
        i := i + 1;
      }
    }
    return Ok(events);
  }

  /** The body of the outer loop for a time line at index i. */
  method ReadBlock(lines: seq<Line>, i: nat) returns (r: Result<(Event, nat)>)
    requires i < |lines|
    ensures r == Block(lines, i)
  {
    var time := LineFloat(lines[i]);
    if time.None? {
      return Err(ValueError(i));
    }
    var j := i + 1;
    var states: seq<StateLine> := [];
    while true
      invariant i + 1 <= j <= |lines|
      invariant StatesFrom(lines, j, states) == StatesFrom(lines, i + 1, [])
      decreases |lines| - j
    {
      if j >= |lines| {
        return Err(IndexError(j));
      }
      if |lines[j]| == 0 || IsCountLine(lines[j]) {
        break;
      }
      var s := StateOf(lines[j], j);
      if s.Err? {
        return Err(s.error);
      }
      states := states + [s.value];
      j := j + 1;
    }
    var collisionCount := LineInt(lines[j]);
    if collisionCount.None? {
      return Err(ValueError(j));
    }
    j := j + 1;
    var collisions: seq<Line> := [];
    var count := if collisionCount.value < 0 then 0 else collisionCount.value;
    for n := 0 to count
      invariant j + n <= |lines| && collisions == lines[j..j + n]
    {
      if j + n >= |lines| {
        return Err(IndexError(|lines|));
      }
      collisions := collisions + [lines[j + n]];
    }
    return Ok((Event(time.value, states, collisions), j + count));
  }

  // ---------------------------------------------------------------- pressure

  /** next(p for p in states if p['id'] == id): the first state of that particle. */
  function FirstState(states: seq<StateLine>, id: int): (r: Option<StateLine>)
    ensures r.Some? ==> r.value.id == id
  {
    if |states| == 0 then None
    else if states[0].id == id then Some(states[0])
    else FirstState(states[1..], id)
  }

  /**
   * The search finds nothing exactly when no state has that id, and
   * otherwise the state at the first position that has it.
   */
  lemma {:induction false} FirstStateIsFirst(states: seq<StateLine>, id: int)
    ensures FirstState(states, id).None? <==> forall k :: 0 <= k < |states| ==> states[k].id != id
    ensures FirstState(states, id).Some? ==>
      exists k :: 0 <= k < |states| && states[k] == FirstState(states, id).value
        && forall k' :: 0 <= k' < k ==> states[k'].id != id
  {
    if |states| > 0 && states[0].id != id {
      FirstStateIsFirst(states[1..], id);
      assert forall k :: 1 <= k < |states| ==> states[k] == states[1..][k - 1];
      if FirstState(states, id).Some? {
        var k :| 0 <= k < |states| - 1 && states[1..][k] == FirstState(states, id).value
          && forall k' :: 0 <= k' < k ==> states[1..][k'].id != id;
        assert states[k + 1] == FirstState(states, id).value;
      }
    }
  }

  /** One collision line's kind (its second field) and the impulse mass * |v_now - v_prev|. */
  datatype Hit = Hit(kind: string, impulse: real)

  /**
   * The body of the loop over an event's collisions: the particle's mass and
   * its first state in the previous and in the current block, each missing
   * one raising as Python does; at is the event's index.
   */
  function HitOf(sqrt: real -> real, masses: map<int, real>, prev: Event, curr: Event, c: Line, at: int): (r: Result<Hit>)
    ensures r.Ok? ==> |c| >= 2 && c[0].asInt.Some? && r.value.kind == c[1].text
    ensures |c| >= 2 && c[0].asInt.Some? && c[0].asInt.value !in masses ==> r == Err(KeyError(c[0].asInt.value))
  {
    if |c| == 0 then Err(IndexError(at))
    else if c[0].asInt.None? then Err(ValueError(at))
    else if |c| < 2 then Err(IndexError(at))
    else
      var id := c[0].asInt.value;
      if id !in masses then Err(KeyError(id))
      else
        match FirstState(prev.states, id)
        case None => Err(StopIteration(id))
        case Some(before) =>
          match FirstState(curr.states, id)
          case None => Err(StopIteration(id))
          case Some(after) =>
            Ok(Hit(c[1].text, masses[id] * Change(sqrt, before, after)))
  }

  /** ((vx - vx0)**2 + (vy - vy0)**2)**0.5: the length of the change of velocity. */
  function Change(sqrt: real -> real, before: StateLine, after: StateLine): real
  {
    var dvx, dvy := after.vx - before.vx, after.vy - before.vy;
    sqrt(dvx * dvx + dvy * dvy)
  }

  /**
   * The impulse of a hit is the mass times the length of the change of
   * velocity: its square is m^2 |dv|^2, it is non-negative for a
   * non-negative mass, and it vanishes when the velocity did not change.
   */
  lemma HitImpulse(sqrt: real -> real, masses: map<int, real>, prev: Event, curr: Event, c: Line, at: int)
    requires IsSqrt(sqrt) && HitOf(sqrt, masses, prev, curr, c, at).Ok?
    ensures var id := c[0].asInt.value;
      var dvx := FirstState(curr.states, id).value.vx - FirstState(prev.states, id).value.vx;
      var dvy := FirstState(curr.states, id).value.vy - FirstState(prev.states, id).value.vy;
      var impulse := HitOf(sqrt, masses, prev, curr, c, at).value.impulse;
      impulse * impulse == masses[id] * masses[id] * (dvx * dvx + dvy * dvy)
      && (masses[id] >= 0.0 ==> impulse >= 0.0)
      && (dvx == 0.0 && dvy == 0.0 ==> impulse == 0.0)
  {
    var id := c[0].asInt.value;
    var before, after := FirstState(prev.states, id).value, FirstState(curr.states, id).value;
    var dvx, dvy := after.vx - before.vx, after.vy - before.vy;
    var d := dvx * dvx + dvy * dvy;
    SquareZero(dvx);
    SquareZero(dvy);
    SqrtFacts(sqrt, d);
    var m, s := masses[id], sqrt(d);
    assert Change(sqrt, before, after) == s;
    assert HitOf(sqrt, masses, prev, curr, c, at).value.impulse == m * s;
    assert (m * s) * (m * s) == (m * m) * (s * s);
  }

  /** The wall and the obstacle impulse after the first k collision lines of curr. */
  function Impulses(sqrt: real -> real, masses: map<int, real>, prev: Event, curr: Event, at: int, k: nat): Result<(real, real)>
    requires k <= |curr.collisions|
  {
    if k == 0 then Ok((0.0, 0.0))
    else
      match Impulses(sqrt, masses, prev, curr, at, k - 1)
      case Err(e) => Err(e)
      case Ok((wall, obstacle)) =>
        match HitOf(sqrt, masses, prev, curr, curr.collisions[k - 1], at)
        case Err(e) => Err(e)
        case Ok(hit) => Ok(AddHit(wall, obstacle, hit))
  }

  /** A "W" hit adds to the wall, an "O" hit to the obstacle, any other to neither. */
  function AddHit(wall: real, obstacle: real, hit: Hit): (r: (real, real))
    ensures hit.kind == "W" ==> r == (wall + hit.impulse, obstacle)
    ensures hit.kind == "O" ==> r == (wall, obstacle + hit.impulse)
    ensures hit.kind != "W" && hit.kind != "O" ==> r == (wall, obstacle)
  {
    if hit.kind == "W" then (wall + hit.impulse, obstacle)
    else if hit.kind == "O" then (wall, obstacle + hit.impulse)
    else (wall, obstacle)
  }

  /**
   * With non-negative masses both impulses are non-negative; the wall gets
   * nothing without a "W" line and the obstacle nothing without an "O" line.
   */
  lemma {:induction false} ImpulsesBySide(sqrt: real -> real, masses: map<int, real>, prev: Event, curr: Event, at: int, k: nat)
    requires IsSqrt(sqrt) && k <= |curr.collisions|
    requires forall id :: id in masses ==> masses[id] >= 0.0
    requires Impulses(sqrt, masses, prev, curr, at, k).Ok?
    ensures var (wall, obstacle) := Impulses(sqrt, masses, prev, curr, at, k).value;
      wall >= 0.0 && obstacle >= 0.0
      && ((forall n :: 0 <= n < k && |curr.collisions[n]| >= 2 ==> curr.collisions[n][1].text != "W") ==> wall == 0.0)
      && ((forall n :: 0 <= n < k && |curr.collisions[n]| >= 2 ==> curr.collisions[n][1].text != "O") ==> obstacle == 0.0)
  {
    if k > 0 {
      ImpulsesBySide(sqrt, masses, prev, curr, at, k - 1);
      HitImpulse(sqrt, masses, prev, curr, curr.collisions[k - 1], at);
    }
  }

  /** impulse / (delta_t * circumference) when delta_t > 0, else 0; a zero divisor raises. */
  function PressureOf(impulse: real, dt: real, circumference: real): (r: Result<real>)
    ensures dt <= 0.0 ==> r == Ok(0.0)
    ensures dt > 0.0 ==> (r.Err? <==> circumference == 0.0)
    ensures r.Ok? && dt > 0.0 ==> r.value * (dt * circumference) == impulse
    ensures r.Ok? && impulse >= 0.0 && circumference >= 0.0 ==> r.value >= 0.0
  {
    if dt > 0.0 then
      if dt * circumference == 0.0 then Err(ZeroDivision) else Ok(impulse / (dt * circumference))
    else Ok(0.0)
  }

  datatype Series = Series(times: seq<real>, wall: seq<real>, obstacle: seq<real>)

  /** The body of the outer loop for event i > 0: the time and the two pressures. */
  function Step(sqrt: real -> real, events: seq<Event>, masses: map<int, real>, diameter: real, obstacleRadius: real, i: nat): Result<(real, real, real)>
    requires 0 < i < |events|
  {
    var dt := events[i].time - events[i - 1].time;
    match Impulses(sqrt, masses, events[i - 1], events[i], i, |events[i].collisions|)
    case Err(e) => Err(e)
    case Ok((wall, obstacle)) =>
      match PressureOf(wall, dt, Pi * diameter)
      case Err(e) => Err(e)
      case Ok(pw) =>
        match PressureOf(obstacle, dt, 2.0 * Pi * obstacleRadius)
        case Err(e) => Err(e)
        case Ok(po) => Ok((events[i].time, pw, po))
  }

  /** The three lists after the outer loop has run for events 1 .. k. */
  function SeriesUpTo(sqrt: real -> real, events: seq<Event>, masses: map<int, real>, diameter: real, obstacleRadius: real, k: nat): Result<Series>
    requires k < |events|
  {
    if k == 0 then Ok(Series([], [], []))
    else
      match SeriesUpTo(sqrt, events, masses, diameter, obstacleRadius, k - 1)
      case Err(e) => Err(e)
      case Ok(s) =>
        match Step(sqrt, events, masses, diameter, obstacleRadius, k)
        case Err(e) => Err(e)
        case Ok((t, pw, po)) => Ok(Series(s.times + [t], s.wall + [pw], s.obstacle + [po]))
  }

  /** calculate_pressure(events, particles, board_diameter, obstacle_radius). */
  function PressureSeries(sqrt: real -> real, events: seq<Event>, masses: map<int, real>, diameter: real, obstacleRadius: real): Result<Series>
  {
    if |events| == 0 then Ok(Series([], [], []))
    else SeriesUpTo(sqrt, events, masses, diameter, obstacleRadius, |events| - 1)
  }

  /**
   * One entry per pair of consecutive events, stamped with the later time;
   * both pressures are 0 where the time does not advance, and with
   * non-negative masses and dimensions they are never negative.
   */
  lemma {:induction false} SeriesShape(sqrt: real -> real, events: seq<Event>, masses: map<int, real>, diameter: real, obstacleRadius: real, k: nat)
    requires IsSqrt(sqrt) && k < |events|
    requires SeriesUpTo(sqrt, events, masses, diameter, obstacleRadius, k).Ok?
    ensures |SeriesUpTo(sqrt, events, masses, diameter, obstacleRadius, k).value.times| == k
    ensures |SeriesUpTo(sqrt, events, masses, diameter, obstacleRadius, k).value.wall| == k
    ensures |SeriesUpTo(sqrt, events, masses, diameter, obstacleRadius, k).value.obstacle| == k
    ensures forall n :: 0 <= n < k ==> SeriesUpTo(sqrt, events, masses, diameter, obstacleRadius, k).value.times[n] == events[n + 1].time
    ensures forall n :: 0 <= n < k && events[n + 1].time <= events[n].time ==>
      SeriesUpTo(sqrt, events, masses, diameter, obstacleRadius, k).value.wall[n] == 0.0
      && SeriesUpTo(sqrt, events, masses, diameter, obstacleRadius, k).value.obstacle[n] == 0.0
    ensures (forall id :: id in masses ==> masses[id] >= 0.0) && diameter >= 0.0 && obstacleRadius >= 0.0 ==>
      forall n :: 0 <= n < k ==>
        SeriesUpTo(sqrt, events, masses, diameter, obstacleRadius, k).value.wall[n] >= 0.0
        && SeriesUpTo(sqrt, events, masses, diameter, obstacleRadius, k).value.obstacle[n] >= 0.0
  {
    if k > 0 {
      SeriesShape(sqrt, events, masses, diameter, obstacleRadius, k - 1);
      var before := SeriesUpTo(sqrt, events, masses, diameter, obstacleRadius, k - 1).value;
      var step := Step(sqrt, events, masses, diameter, obstacleRadius, k).value;
      assert SeriesUpTo(sqrt, events, masses, diameter, obstacleRadius, k).value
        == Series(before.times + [step.0], before.wall + [step.1], before.obstacle + [step.2]);
      if (forall id :: id in masses ==> masses[id] >= 0.0) && diameter >= 0.0 && obstacleRadius >= 0.0 {
        ImpulsesBySide(sqrt, masses, events[k - 1], events[k], k, |events[k].collisions|);
      }
    }
  }

  /** calculate_pressure(events, particles, board_diameter, obstacle_radius). */
  method CalculatePressure(sqrt: real -> real, events: seq<Event>, masses: map<int, real>, diameter: real, obstacleRadius: real)
    returns (r: Result<Series>)
    ensures r == PressureSeries(sqrt, events, masses, diameter, obstacleRadius)
  {
    var wallCircumference := Pi * diameter;
    var obstacleCircumference := 2.0 * Pi * obstacleRadius;
    var times, pressuresWall, pressuresObstacle := [], [], [];
    if |events| == 0 {
      return Ok(Series(times, pressuresWall, pressuresObstacle));
    }
    for i := 1 to |events|
      invariant SeriesUpTo(sqrt, events, masses, diameter, obstacleRadius, i - 1) == Ok(Series(times, pressuresWall, pressuresObstacle))
    {
      var step := PressureStep(sqrt, events, masses, diameter, obstacleRadius, wallCircumference, obstacleCircumference, i);
      if step.Err? {
        SeriesStaysFailed(sqrt, events, masses, diameter, obstacleRadius, i, |events| - 1);
        return Err(step.error);
      }
      times := times + [step.value.0];
      pressuresWall := pressuresWall + [step.value.1];
      pressuresObstacle := pressuresObstacle + [step.value.2];
    }
    return Ok(Series(times, pressuresWall, pressuresObstacle));
  }

  /** One turn of the outer loop, for event i and the two circumferences. */
  method PressureStep(sqrt: real -> real, events: seq<Event>, masses: map<int, real>, diameter: real, obstacleRadius: real,
      wallCircumference: real, obstacleCircumference: real, i: nat) returns (r: Result<(real, real, real)>)
    requires 0 < i < |events|
    requires wallCircumference == Pi * diameter && obstacleCircumference == 2.0 * Pi * obstacleRadius
    ensures r == Step(sqrt, events, masses, diameter, obstacleRadius, i)
  {
    var deltaT := events[i].time - events[i - 1].time;
    var impulses := EventImpulses(sqrt, masses, events[i - 1], events[i], i);
    if impulses.Err? {
      return Err(impulses.error);
    }
    var pressureWall := PressureOf(impulses.value.0, deltaT, wallCircumference);
    if pressureWall.Err? {
      return Err(pressureWall.error);
    }
    var pressureObstacle := PressureOf(impulses.value.1, deltaT, obstacleCircumference);
    if pressureObstacle.Err? {
      return Err(pressureObstacle.error);
    }
    return Ok((events[i].time, pressureWall.value, pressureObstacle.value));
  }

  lemma {:induction false} SeriesStaysFailed(sqrt: real -> real, events: seq<Event>, masses: map<int, real>, diameter: real, obstacleRadius: real, k: nat, m: nat)
    requires k <= m < |events|
    requires SeriesUpTo(sqrt, events, masses, diameter, obstacleRadius, k).Err?
    ensures SeriesUpTo(sqrt, events, masses, diameter, obstacleRadius, m) == SeriesUpTo(sqrt, events, masses, diameter, obstacleRadius, k)
    decreases m - k
  {
    if k < m {
      SeriesStaysFailed(sqrt, events, masses, diameter, obstacleRadius, k, m - 1);
    }
  }

  /** The inner loop over the collisions of curr. */
  method EventImpulses(sqrt: real -> real, masses: map<int, real>, prev: Event, curr: Event, at: int) returns (r: Result<(real, real)>)
    ensures r == Impulses(sqrt, masses, prev, curr, at, |curr.collisions|)
  {
    // (impulse_wall, impulse_obstacle)
    var impulses := (0.0, 0.0);
    for k := 0 to |curr.collisions|
      invariant Impulses(sqrt, masses, prev, curr, at, k) == Ok(impulses)
    {
      var hit := HitOf(sqrt, masses, prev, curr, curr.collisions[k], at);
      if hit.Err? {
        ImpulsesStayFailed(sqrt, masses, prev, curr, at, k + 1, |curr.collisions|);
        return Err(hit.error);
      }
      impulses := AddHit(impulses.0, impulses.1, hit.value);
    }
    return Ok(impulses);
  }

  lemma {:induction false} ImpulsesStayFailed(sqrt: real -> real, masses: map<int, real>, prev: Event, curr: Event, at: int, k: nat, m: nat)
    requires k <= m <= |curr.collisions|
    requires Impulses(sqrt, masses, prev, curr, at, k).Err?
    ensures Impulses(sqrt, masses, prev, curr, at, m) == Impulses(sqrt, masses, prev, curr, at, k)
    decreases m - k
  {
    if k < m {
      ImpulsesStayFailed(sqrt, masses, prev, curr, at, k, m - 1);
    }
  }
}
