/**
 * animate_particles in the event-driven animation script: the list of frame
 * times built from the event groups, and the per-frame update that replays
 * the groups on the particle records and moves the particles ballistically
 * between them.
 */
module Animation {
  import opened Common
  import opened InitialConditions
  import opened EventGroups

  // ------------------------------------------------------------ frame times

  /** count evenly spaced values from start: start, start + step, ... */
  function Ramp(start: real, step: real, count: nat): (r: seq<real>)
    ensures |r| == count
    ensures forall i :: 0 <= i < count ==> r[i] == start + step * (i as real)
  {
    if count == 0 then [] else Ramp(start, step, count - 1) + [start + step * ((count - 1) as real)]
  }

  lemma RampStep(start: real, step: real, i: nat)
    ensures Ramp(start, step, i + 1) == Ramp(start, step, i) + [start + step * (i as real)]
  {
  }

  /** range(k) for an int k: no iterations when k is not positive. */
  function Reps(k: int): nat
  {
    if k > 0 then k else 0
  }

  /** The first loop: i * (t0 / k) for i in range(k). */
  function Lead(t0: real, k: int): seq<real>
  {
    if k <= 0 then [] else Ramp(0.0, t0 / (k as real), k)
  }

  /** The sub-frames of the first s gaps between consecutive event times. */
  function Segments(times: seq<real>, k: int, s: nat): seq<real>
    requires s < |times|
  {
    if s == 0 || k <= 0 then []
    else Segments(times, k, s - 1) + Ramp(times[s - 1], (times[s] - times[s - 1]) / (k as real), k)
  }

  /**
   * frame_times for the event times and k = min_frames_per_event:
   * events_data[0] and events_data[-1] need a group, and the gap loop
   * divides by k.
   */
  function FrameTimes(times: seq<real>, k: int): (r: Result<seq<real>>)
    ensures r.Err? <==> |times| == 0 || (|times| >= 2 && k == 0)
    ensures |times| == 0 ==> r == Err(IndexError(if k > 0 then 0 else -1))
    ensures |times| >= 2 && k == 0 ==> r == Err(ZeroDivision)
  {
    if |times| == 0 then Err(IndexError(if k > 0 then 0 else -1))
    else if |times| >= 2 && k == 0 then Err(ZeroDivision)
    else Ok(Lead(times[0], k) + Segments(times, k, |times| - 1) + [times[|times| - 1]])
  }

  /** total_frames = len(events_data) + (len(events_data) - 1) * (min_frames_per_event - 1). */
  function TotalFrames(groups: int, k: int): int
  {
    groups + (groups - 1) * (k - 1)
  }

  /** The frame-time construction: the lead-in, the gaps, then the last event time. */
  method BuildFrameTimes(times: seq<real>, k: int) returns (r: Result<seq<real>>)
    ensures r == FrameTimes(times, k)
  {
    var frameTimes: seq<real> := [];
    if k > 0 {
      if |times| == 0 {
        // events_data[0] in the first iteration of the lead-in loop
        return Err(IndexError(0));
      }
      frameTimes := LeadFrames(times[0], k);
    }
    var gaps := if |times| > 0 then |times| - 1 else 0;
    for index := 0 to gaps
      invariant |times| > 0 ==> frameTimes == Lead(times[0], k) + Segments(times, k, index)
      invariant k == 0 ==> index == 0
    {
      var currentEvent := times[index];
      var nextEvent := times[index + 1];
      if k == 0 {
        return Err(ZeroDivision);
      }
      var deltaTime := (nextEvent - currentEvent) / (k as real);
      frameTimes := AppendGap(frameTimes, currentEvent, deltaTime, Reps(k));
    }
    if |times| == 0 {
      return Err(IndexError(-1));
    }
    assert frameTimes == Lead(times[0], k) + Segments(times, k, |times| - 1);
    return Ok(frameTimes + [times[|times| - 1]]);
  }

  /** The lead-in loop: i * (events_data[0]['time'] / k) for i in range(k). */
  method LeadFrames(firstTime: real, k: nat) returns (r: seq<real>)
    requires k > 0
    ensures r == Lead(firstTime, k)
  {
    r := [];
    var step := firstTime / (k as real);
    for i := 0 to k
      invariant r == Ramp(0.0, step, i)
    {
      var frame := (i as real) * step;
      assert frame == 0.0 + step * (i as real);
      RampStep(0.0, step, i);
      r := r + [frame];
    }
  }

  /** The inner loop of a gap: current_event + delta_time * i for i in range(k). */
  method AppendGap(frameTimes: seq<real>, currentEvent: real, deltaTime: real, reps: nat) returns (r: seq<real>)
    ensures r == frameTimes + Ramp(currentEvent, deltaTime, reps)
  {
    r := frameTimes;
    for i := 0 to reps
      invariant r == frameTimes + Ramp(currentEvent, deltaTime, i)
    {
      RampStep(currentEvent, deltaTime, i);
      r := r + [currentEvent + deltaTime * (i as real)];
    }
  }

  lemma {:induction false} SegmentsLength(times: seq<real>, k: nat, s: nat)
    requires s < |times|
    ensures |Segments(times, k, s)| == s * k
  {
    if s > 0 && k > 0 {
      SegmentsLength(times, k, s - 1);
      assert (s - 1) * k + k == s * k;
    }
  }

  /**
   * With L groups and k >= 0 frames per event there are L k + 1 frame
   * times, and total_frames is k less: every frame index the animation asks
   * for is in range.
   */
  lemma FrameCount(times: seq<real>, k: int)
    requires k >= 0 && FrameTimes(times, k).Ok?
    ensures |FrameTimes(times, k).value| == |times| * k + 1
    ensures TotalFrames(|times|, k) == |FrameTimes(times, k).value| - k
    ensures 0 <= TotalFrames(|times|, k) <= |FrameTimes(times, k).value|
  {
    SegmentsLength(times, k, |times| - 1);
    assert (|times| - 1) * k + k == |times| * k;
    assert |times| + (|times| - 1) * (k - 1) == (|times| - 1) * k + 1;
  }

  /** The index of sub-frame i of gap s: the k lead-in frames, then k per gap. */
  function FrameIndex(k: nat, s: nat, i: nat): nat
  {
    (s + 1) * k + i
  }

  lemma IndexArithmetic(k: nat, s: nat, i: nat)
    requires i < k
    ensures FrameIndex(k, s, i) == k + s * k + i
    ensures s * k + i < (s + 1) * k
  {
  }

  /** The sub-frames of the first t gaps are a prefix of those of the first s. */
  lemma {:induction false} SegmentsPrefix(times: seq<real>, k: nat, t: nat, s: nat)
    requires t <= s < |times|
    ensures |Segments(times, k, t)| <= |Segments(times, k, s)|
    ensures Segments(times, k, s)[..|Segments(times, k, t)|] == Segments(times, k, t)
    decreases s - t
  {
    if t < s && k > 0 {
      SegmentsPrefix(times, k, t, s - 1);
      var shorter := Segments(times, k, s - 1);
      assert Segments(times, k, s)[..|shorter|] == shorter;
      assert Segments(times, k, s)[..|Segments(times, k, t)|] == shorter[..|Segments(times, k, t)|];
    }
  }

  /** Sub-frame i of gap s lies i steps of (next - cur) / k after the gap's first event time. */
  lemma SubFrame(times: seq<real>, k: nat, s: nat, i: nat)
    requires k > 0 && s < |times| - 1 && i < k
    ensures FrameTimes(times, k).Ok? && FrameIndex(k, s, i) < |FrameTimes(times, k).value|
    ensures FrameTimes(times, k).value[FrameIndex(k, s, i)] == times[s] + ((times[s + 1] - times[s]) / (k as real)) * (i as real)
  {
    var ramp := Ramp(times[s], (times[s + 1] - times[s]) / (k as real), k);
    assert ramp[i] == times[s] + ((times[s + 1] - times[s]) / (k as real)) * (i as real);
    var ft := FrameTimes(times, k).value;
    var segments := Segments(times, k, |times| - 1);
    var upTo := Segments(times, k, s + 1);
    assert upTo == Segments(times, k, s) + ramp;
    SegmentsLength(times, k, s);
    SegmentsLength(times, k, |times| - 1);
    SegmentsPrefix(times, k, s + 1, |times| - 1);
    IndexArithmetic(k, s, i);
    assert segments[s * k + i] == upTo[s * k + i] == ramp[i];
    var lead := Lead(times[0], k);
    assert |lead| == k;
    assert ft == lead + segments + [times[|times| - 1]];
    assert ft[FrameIndex(k, s, i)] == segments[s * k + i];
  }

  /**
   * The frame times start at 0; frame (s + 1) k is event time s, the last
   * frame time is the last event time, and the frames of a gap divide it
   * into k equal steps.
   */
  lemma EventTimesAppear(times: seq<real>, k: nat)
    requires k > 0 && |times| > 0
    ensures FrameTimes(times, k).Ok?
    ensures FrameTimes(times, k).value[0] == 0.0
    ensures forall s :: 0 <= s < |times| ==>
      FrameIndex(k, s, 0) < |FrameTimes(times, k).value| && FrameTimes(times, k).value[FrameIndex(k, s, 0)] == times[s]
    ensures forall s, i :: 0 <= s < |times| - 1 && 0 <= i < k ==>
      FrameIndex(k, s, i) < |FrameTimes(times, k).value|
      && FrameTimes(times, k).value[FrameIndex(k, s, i)] == times[s] + ((times[s + 1] - times[s]) / (k as real)) * (i as real)
  {
    var ft := FrameTimes(times, k).value;
    FrameCount(times, k);
    forall s, i | 0 <= s < |times| - 1 && 0 <= i < k
      ensures FrameIndex(k, s, i) < |ft|
      ensures ft[FrameIndex(k, s, i)] == times[s] + ((times[s + 1] - times[s]) / (k as real)) * (i as real)
    {
      SubFrame(times, k, s, i);
    }
    forall s | 0 <= s < |times|
      ensures FrameIndex(k, s, 0) < |ft| && ft[FrameIndex(k, s, 0)] == times[s]
    {
      if s < |times| - 1 {
        SubFrame(times, k, s, 0);
      } else {
        assert FrameIndex(k, s, 0) == |times| * k;
      }
    }
    assert ft == Lead(times[0], k) + Segments(times, k, |times| - 1) + [times[|times| - 1]];
  }

  // ------------------------------------------------------- particle updates

  /** update_particle_velocities on one record: only a record with the event's id changes. */
  function WithVelocity(p: Record, event: Entry): Record
  {
    if p.id == event.particleId then p.(vx := event.vx, vy := event.vy) else p
  }

  /** update_particle_positions on one record. */
  function WithPosition(p: Record, event: Entry): Record
  {
    if p.id == event.particleId then p.(x := event.x, y := event.y) else p
  }

  /** update_particle_positions_between_events on one record: p += v dt. */
  function Drifted(p: Record, timeDelta: real): Record
  {
    p.(x := p.x + p.vx * timeDelta, y := p.y + p.vy * timeDelta)
  }

  /** One event applied to every record: the velocity update, then the position update. */
  function Applied(p: Record, event: Entry): Record
  {
    WithPosition(WithVelocity(p, event), event)
  }

  /** The events of a group applied in order to one record. */
  function Replayed(p: Record, events: seq<Entry>): Record
  {
    if |events| == 0 then p else Applied(Replayed(p, events[..|events| - 1]), events[|events| - 1])
  }

  /** Every record replayed through the events. */
  function ReplayAll(ps: seq<Record>, events: seq<Entry>): (r: seq<Record>)
    ensures |r| == |ps| && forall j :: 0 <= j < |ps| ==> r[j] == Replayed(ps[j], events)
  {
    seq(|ps|, j requires 0 <= j < |ps| => Replayed(ps[j], events))
  }

  /** Every record drifted by timeDelta. */
  function DriftAll(ps: seq<Record>, timeDelta: real): (r: seq<Record>)
    ensures |r| == |ps| && forall j :: 0 <= j < |ps| ==> r[j] == Drifted(ps[j], timeDelta)
  {
    seq(|ps|, j requires 0 <= j < |ps| => Drifted(ps[j], timeDelta))
  }

  /** The last index of an event for particle id, if any. */
  function LastFor(events: seq<Entry>, id: int): (r: Option<nat>)
    ensures r.Some? ==> (r.value < |events| && events[r.value].particleId == id
      && forall j :: r.value < j < |events| ==> events[j].particleId != id)
    ensures r.None? ==> forall j :: 0 <= j < |events| ==> events[j].particleId != id
  {
    if |events| == 0 then None
    else if events[|events| - 1].particleId == id then Some(|events| - 1)
    else LastFor(events[..|events| - 1], id)
  }

  /**
   * Replaying a group leaves a record untouched when no event names its id;
   * otherwise its position and velocity are those of the last event for
   * it, and its id, mass and radius never change.
   */
  lemma {:induction false} LastEventWins(p: Record, events: seq<Entry>)
    ensures var q := Replayed(p, events);
      q.id == p.id && q.mass == p.mass && q.radius == p.radius
    ensures LastFor(events, p.id).None? ==> Replayed(p, events) == p
    ensures LastFor(events, p.id).Some? ==>
      var e := events[LastFor(events, p.id).value];
      Replayed(p, events) == p.(x := e.x, y := e.y, vx := e.vx, vy := e.vy)
  {
    if |events| > 0 {
      LastEventWins(p, events[..|events| - 1]);
    }
  }

  /** Two ballistic steps are one step over the summed time; velocities never change. */
  lemma DriftComposes(p: Record, s: real, t: real)
    ensures Drifted(Drifted(p, s), t) == Drifted(p, s + t)
    ensures Drifted(p, s).vx == p.vx && Drifted(p, s).vy == p.vy
  {
    assert p.x + p.vx * s + p.vx * t == p.x + p.vx * (s + t);
    assert p.y + p.vy * s + p.vy * t == p.y + p.vy * (s + t);
  }

  // ------------------------------------------------------------ the scan

  /** What the timestamp scan leaves: the records, is_in_between and collitions. */
  datatype ScanState = ScanState(particles: seq<Record>, inBetween: bool, collitions: int)

  /**
   * The enumerate loop over the event timestamps from index i: a group
   * whose time equals the frame time is replayed, and the loop stops at the
   * first timestamp past which it should not look. As written it stops at
   * the first timestamp below the frame time (fixed == false); the corrected
   * loop stops at the first timestamp above it (fixed == true).
   */
  function Scan(ps: seq<Record>, groups: seq<Group>, currentTime: real, i: nat, inBetween: bool, fixed: bool): ScanState
    decreases |groups| - i
  {
    if i >= |groups| then ScanState(ps, inBetween, 0)
    else
      var g := groups[i];
      var ps' := if currentTime == g.time then ReplayAll(ps, g.events) else ps;
      var between := inBetween && !(currentTime == g.time && g.events != []);
      if (if fixed then g.time > currentTime else currentTime > g.time) then ScanState(ps', between, i)
      else Scan(ps', groups, currentTime, i + 1, between, fixed)
  }

  /** Event times in strictly increasing order, as the simulation writes them. */
  predicate Increasing(groups: seq<Group>)
  {
    forall a, b :: 0 <= a < b < |groups| ==> groups[a].time < groups[b].time
  }

  /**
   * As written, once the frame time has passed the first event time the
   * scan stops at index 0: no later group is ever replayed and collitions
   * is always 0, so the frame drifts through every later event.
   */
  lemma ScanStopsAtFirstEvent(ps: seq<Record>, groups: seq<Group>, s: nat)
    requires Increasing(groups) && 1 <= s < |groups|
    ensures Scan(ps, groups, groups[s].time, 0, true, false) == ScanState(ps, true, 0)
  {
    assert groups[s].time > groups[0].time;
  }

  /** The corrected scan from index i, when no timestamp from i on equals the frame time. */
  lemma {:induction false} ScanMisses(ps: seq<Record>, groups: seq<Group>, currentTime: real, i: nat, inBetween: bool)
    requires forall j :: i <= j < |groups| ==> groups[j].time != currentTime
    ensures Scan(ps, groups, currentTime, i, inBetween, true).particles == ps
    ensures Scan(ps, groups, currentTime, i, inBetween, true).inBetween == inBetween
    decreases |groups| - i
  {
    if i < |groups| && !(groups[i].time > currentTime) {
      ScanMisses(ps, groups, currentTime, i + 1, inBetween);
    }
  }

  /**
   * The corrected scan replays exactly the group whose time is the frame
   * time, and reports the frame as an event frame when that group has
   * states; collitions is the number of groups up to that one when a later
   * group exists.
   */
  lemma {:induction false} ScanAppliesFrameGroup(ps: seq<Record>, groups: seq<Group>, s: nat, i: nat, inBetween: bool)
    requires Increasing(groups) && i <= s < |groups|
    ensures var r := Scan(ps, groups, groups[s].time, i, inBetween, true);
      r.particles == ReplayAll(ps, groups[s].events)
      && r.inBetween == (inBetween && groups[s].events == [])
      && (s + 1 < |groups| ==> r.collitions == s + 1)
    decreases |groups| - i
  {
    var t := groups[s].time;
    if i < s {
      assert groups[i].time < t;
      ScanAppliesFrameGroup(ps, groups, s, i + 1, inBetween);
    } else {
      var ps' := ReplayAll(ps, groups[s].events);
      var between := inBetween && groups[s].events == [];
      if s + 1 < |groups| {
        assert groups[s + 1].time > t;
      } else {
        assert Scan(ps', groups, t, s + 1, between, true) == ScanState(ps', between, 0);
      }
    }
  }

  /** The corrected scan leaves the records alone when the frame time is no event time. */
  lemma ScanBetweenEvents(ps: seq<Record>, groups: seq<Group>, currentTime: real)
    requires forall j :: 0 <= j < |groups| ==> groups[j].time != currentTime
    ensures Scan(ps, groups, currentTime, 0, true, true) == Scan(ps, groups, currentTime, 0, true, true).(particles := ps, inBetween := true)
  {
    ScanMisses(ps, groups, currentTime, 0, true);
  }

  /** The time step of a frame without events: frame_times[f] - frame_times[f - 1], or frame_times[1] for f <= 1. */
  function TimeDelta(frameTimes: seq<real>, frame: int): (r: Result<real>)
    requires PyIndex(|frameTimes|, frame).Some?
    ensures frame > 1 ==> r == Ok(frameTimes[frame] - frameTimes[frame - 1])
    ensures frame <= 1 ==> (r.Ok? <==> |frameTimes| >= 2)
  {
    if frame > 1 then Ok(frameTimes[frame] - frameTimes[frame - 1])
    else if |frameTimes| >= 2 then Ok(frameTimes[1])
    else Err(IndexError(1))
  }

  /** What update(frame) leaves: the records, and the collitions shown or the exception. */
  datatype FrameResult = FrameResult(particles: seq<Record>, shown: Result<int>)

  /** update(frame) on the records, with the corrected scan. */
  function UpdateOf(ps: seq<Record>, frameTimes: seq<real>, groups: seq<Group>, frame: int): FrameResult
  {
    match PyIndex(|frameTimes|, frame)
    case None => FrameResult(ps, Err(IndexError(frame)))
    case Some(f) =>
      var scan := Scan(ps, groups, frameTimes[f], 0, true, true);
      if !scan.inBetween then FrameResult(scan.particles, Ok(scan.collitions))
      else
        match TimeDelta(frameTimes, frame)
        case Err(e) => FrameResult(scan.particles, Err(e))
        case Ok(dt) => FrameResult(DriftAll(scan.particles, dt), Ok(scan.collitions))
  }

  /**
   * A frame at an event time (strictly increasing times) replays that
   * group and does not drift; a frame at no event time drifts every record
   * by the frame's time step and replays nothing.
   */
  lemma UpdateAtAndBetweenEvents(ps: seq<Record>, frameTimes: seq<real>, groups: seq<Group>, frame: int)
    requires 1 < frame < |frameTimes|
    ensures (forall s :: 0 <= s < |groups| && Increasing(groups) && groups[s].time == frameTimes[frame] && groups[s].events != [] ==>
      UpdateOf(ps, frameTimes, groups, frame).particles == ReplayAll(ps, groups[s].events))
    ensures (forall j :: 0 <= j < |groups| ==> groups[j].time != frameTimes[frame]) ==>
      UpdateOf(ps, frameTimes, groups, frame).particles == DriftAll(ps, frameTimes[frame] - frameTimes[frame - 1])
  {
    forall s | 0 <= s < |groups| && Increasing(groups) && groups[s].time == frameTimes[frame] && groups[s].events != []
      ensures UpdateOf(ps, frameTimes, groups, frame).particles == ReplayAll(ps, groups[s].events)
    {
      ScanAppliesFrameGroup(ps, groups, s, 0, true);
    }
    if forall j :: 0 <= j < |groups| ==> groups[j].time != frameTimes[frame] {
      ScanBetweenEvents(ps, groups, frameTimes[frame]);
    }
  }

  // ------------------------------------------------------------ the class

  /**
   * The state the update closure works on: the particle dictionaries it
   * overwrites in place, and the frame times and event groups it reads.
   */
  class Animator {
    var particles: seq<Record>
    const frameTimes: seq<real>
    const groups: seq<Group>

    constructor(particles: seq<Record>, frameTimes: seq<real>, groups: seq<Group>)
      ensures this.particles == particles && this.frameTimes == frameTimes && this.groups == groups
    {
      this.particles := particles;
      this.frameTimes := frameTimes;
      this.groups := groups;
    }

    /** update_particle_velocities(event): every record with the event's id takes its velocity. */
    method UpdateParticleVelocities(event: Entry)
      modifies this`particles
      ensures |particles| == |old(particles)|
      ensures forall j :: 0 <= j < |particles| ==> particles[j] == WithVelocity(old(particles)[j], event)
    {
      for j := 0 to |particles|
        invariant |particles| == |old(particles)|
        invariant forall m :: 0 <= m < j ==> particles[m] == WithVelocity(old(particles)[m], event)
        invariant forall m :: j <= m < |particles| ==> particles[m] == old(particles)[m]
      {
        var p := particles[j];
        if p.id == event.particleId {
          particles := particles[j := p.(vx := event.vx, vy := event.vy)];
        }
      }
    }

    /** update_particle_positions(event): every record with the event's id takes its position. */
    method UpdateParticlePositions(event: Entry)
      modifies this`particles
      ensures |particles| == |old(particles)|
      ensures forall j :: 0 <= j < |particles| ==> particles[j] == WithPosition(old(particles)[j], event)
    {
      for j := 0 to |particles|
        invariant |particles| == |old(particles)|
        invariant forall m :: 0 <= m < j ==> particles[m] == WithPosition(old(particles)[m], event)
        invariant forall m :: j <= m < |particles| ==> particles[m] == old(particles)[m]
      {
        var p := particles[j];
        if p.id == event.particleId {
          particles := particles[j := p.(x := event.x, y := event.y)];
        }
      }
    }

    /** update_particle_positions_between_events(time_delta): every record moves by v dt. */
    method UpdateParticlePositionsBetweenEvents(timeDelta: real)
      modifies this`particles
      ensures particles == DriftAll(old(particles), timeDelta)
    {
      for j := 0 to |particles|
        invariant |particles| == |old(particles)|
        invariant forall m :: 0 <= m < j ==> particles[m] == Drifted(old(particles)[m], timeDelta)
        invariant forall m :: j <= m < |particles| ==> particles[m] == old(particles)[m]
      {
        var p := particles[j];
        particles := particles[j := p.(x := p.x + p.vx * timeDelta, y := p.y + p.vy * timeDelta)];
      }
    }

    /** The inner loop over a group's events: velocities, then positions, event by event. */
    method ReplayGroup(events: seq<Entry>)
      modifies this`particles
      ensures particles == ReplayAll(old(particles), events)
    {
      for k := 0 to |events|
        invariant particles == ReplayAll(old(particles), events[..k])
      {
        assert events[..k + 1][..k] == events[..k];
        UpdateParticleVelocities(events[k]);
        UpdateParticlePositions(events[k]);
      }
      assert events[..|events|] == events;
    }

    /** The corrected enumerate loop over the event timestamps. */
    method ScanTimestamps(currentTime: real) returns (inBetween: bool, collitions: int)
      modifies this`particles
      ensures ScanState(particles, inBetween, collitions) == Scan(old(particles), groups, currentTime, 0, true, true)
    {
      inBetween := true;
      collitions := 0;
      for index := 0 to |groups|
        invariant Scan(old(particles), groups, currentTime, 0, true, true) == Scan(particles, groups, currentTime, index, inBetween, true)
      {
        var g := groups[index];
        if currentTime == g.time {
          ReplayGroup(g.events);
          if g.events != [] {
            inBetween := false;
          }
        }
        if g.time > currentTime {
          collitions := index;
          return;
        }
      }
    }

    /** update(frame), with the corrected scan; returns the collitions value it displays. */
    method Update(frame: int) returns (r: Result<int>)
      modifies this`particles
      ensures FrameResult(particles, r) == UpdateOf(old(particles), frameTimes, groups, frame)
    {
      var f := PyIndex(|frameTimes|, frame);
      if f.None? {
        return Err(IndexError(frame));
      }
      var currentTime := frameTimes[f.value];
      var inBetween, collitions := ScanTimestamps(currentTime);
      if inBetween {
        var timeDelta: real;
        if frame > 1 {
          timeDelta := frameTimes[frame] - frameTimes[frame - 1];
        } else {
          if |frameTimes| < 2 {
            return Err(IndexError(1));
          }
          timeDelta := frameTimes[1];
        }
        UpdateParticlePositionsBetweenEvents(timeDelta);
      }
      return Ok(collitions);
    }
  }
}
