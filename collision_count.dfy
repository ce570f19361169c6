/**
 * collision_count.py: counting collisions with the central obstacle in the
 * event log. The log is a line with the particle count N, then blocks of a
 * time line, N state lines, a line with the number c of collision lines, and
 * c collision lines "<id> <target>". Every 20th counted collision is sampled
 * as (block time, collision number), and the scan stops after the first
 * block that leaves more than 200 collisions counted.
 *
 * Two counting policies are as written in the source; the two "Fixed"
 * policies are the corrections described in the README's findings.
 */
module ObstacleCounts {
  import opened Common

  datatype Policy =
    | FirstContact       // read_simulation_events_for_first_time_obstacle_collisions
    | Independent        // read_simulation_events_for_independent_obstacle_collisions
    | FirstContactFixed  // every first contact excludes its particle, sampled or not
    | IndependentFixed   // a sample records the number of the collision just counted

  /** The script's variables: the counter, the excluded ids, and the sampled times and counts. */
  datatype Tally = Tally(counter: int, particles: seq<string>, times: seq<real>, counts: seq<int>)

  const Start := Tally(0, [], [], [])

  /** The scan stops after a block that leaves the counter above this. */
  const Limit := 200

  /** Every sample is taken at a multiple of this. */
  const Stride := 20

  predicate Distinct(xs: seq<string>)
  {
    forall a, b :: 0 <= a < b < |xs| ==> xs[a] != xs[b]
  }

  /** One sample: the id, the time of the block and the recorded count. */
  function Sample(t: Tally, id: string, time: real, count: int): Tally
  {
    t.(particles := t.particles + [id], times := t.times + [time], counts := t.counts + [count])
  }

  /** The body of the loop over the collision lines of a block; at is the line index. */
  function CountLine(policy: Policy, t: Tally, time: real, line: Line, at: int): (r: Result<Tally>)
    ensures |line| < 2 <==> r == Err(IndexError(at))
    ensures |line| >= 2 && line[1].text != "O" ==> r == Ok(t)
    ensures r.Ok? ==> r.value.counter == t.counter || r.value.counter == t.counter + 1
    ensures (policy == Independent || policy == IndependentFixed) && |line| >= 2 && line[1].text == "O" ==>
      r.Ok? && r.value.counter == t.counter + 1
    ensures (policy == FirstContact || policy == FirstContactFixed) && |line| >= 2 && line[1].text == "O" ==>
      r.Ok? && (r.value.counter == t.counter + 1 <==> line[0].text !in t.particles)
  {
    if |line| < 2 then Err(IndexError(at))
    else if line[1].text != "O" then Ok(t)
    else
      var id := line[0].text;
      match policy
      case FirstContact =>
        if id in t.particles then Ok(t)
        else
          var s := if t.counter % Stride == 0 then Sample(t, id, time, t.counter + 1) else t;
          Ok(s.(counter := t.counter + 1))
      case FirstContactFixed =>
        if id in t.particles then Ok(t)
        else
          var s := if t.counter % Stride == 0 then Sample(t, id, time, t.counter + 1) else t.(particles := t.particles + [id]);
          Ok(s.(counter := t.counter + 1))
      case Independent =>
        var c := t.counter + 1;
        var s := if c % Stride == 0 then Sample(t, id, time, c + 1) else t;
        Ok(s.(counter := c))
      case IndependentFixed =>
        var c := t.counter + 1;
        var s := if c % Stride == 0 then Sample(t, id, time, c) else t;
        Ok(s.(counter := c))
  }

  /**
   * for collision_index in range(1, c + 1) over the first k collision lines
   * after the count line at index ci (negative indices count from the end).
   */
  function CountLines(policy: Policy, lines: seq<Line>, t: Tally, time: real, ci: int, k: nat): Result<Tally>
  {
    if k == 0 then Ok(t)
    else
      match CountLines(policy, lines, t, time, ci, k - 1)
      case Err(e) => Err(e)
      case Ok(t') =>
        match PyIndex(|lines|, ci + k)
        case None => Err(IndexError(ci + k))
        case Some(at) => CountLine(policy, t', time, lines[at], ci + k)
  }

  /** A failure on one collision line ends the block with that failure. */
  lemma {:induction false} CountLinesStaysFailed(policy: Policy, lines: seq<Line>, t: Tally, time: real, ci: int, k: nat, m: nat)
    requires k <= m && CountLines(policy, lines, t, time, ci, k).Err?
    ensures CountLines(policy, lines, t, time, ci, m) == CountLines(policy, lines, t, time, ci, k)
    decreases m - k
  {
    if k < m {
      CountLinesStaysFailed(policy, lines, t, time, ci, k, m - 1);
    }
  }

  /** Where the scan stopped, and the script's variables there. */
  datatype Scanned = Scanned(index: int, tally: Tally)

  /**
   * The while loop from the time line at index i: parse the time, find the
   * count line N + 1 lines further on, count its collision lines, move to the
   * line after them, and stop once the counter passes the limit. A block that
   * would move the scan backwards or nowhere fails with NegativeCount.
   */
  function Scan(policy: Policy, lines: seq<Line>, n: int, i: int, t: Tally): Result<Scanned>
    requires i >= 1
    decreases |lines| - i
  {
    if i >= |lines| then Ok(Scanned(i, t))
    else
      match LineFloat(lines[i])
      case None => Err(ValueError(i))
      case Some(time) =>
        var ci := i + n + 1;
        match PyIndex(|lines|, ci)
        case None => Err(IndexError(ci))
        case Some(cAt) =>
          match LineInt(lines[cAt])
          case None => Err(ValueError(ci))
          case Some(c) =>
            match CountLines(policy, lines, t, time, ci, if c < 0 then 0 else c)
            case Err(e) => Err(e)
            case Ok(t') =>
              var next := ci + c + 1;
              if t'.counter > Limit then Ok(Scanned(next, t'))
              else if next <= i then Err(NegativeCount(i))
              else Scan(policy, lines, n, next, t')
  }

  datatype Samples = Samples(times: seq<real>, counts: seq<int>)

  /** What either reader returns for a log: N from the first line, then the scan. */
  function ObstacleSamples(policy: Policy, lines: seq<Line>): Result<Samples>
  {
    if |lines| == 0 then Err(IndexError(0))
    else
      match LineInt(lines[0])
      case None => Err(ValueError(0))
      case Some(n) =>
        match Scan(policy, lines, n, 1, Start)
        case Err(e) => Err(e)
        case Ok(s) => Ok(Samples(s.tally.times, s.tally.counts))
  }

  /**
   * The invariant of the script's variables. Every policy keeps times and
   * counts of equal length. The sampled counts are 1, 21, 41, ... for first
   * contacts, 21, 41, ... for independent collisions as written, and 20, 40,
   * ... once corrected; there is one sample per multiple of 20 reached.
   * First-contact lists hold no id twice; as written they hold exactly the
   * sampled ids, corrected they hold every particle counted.
   */
  predicate Shape(policy: Policy, t: Tally)
  {
    t.counter >= 0 && |t.times| == |t.counts|
    && match policy
      case FirstContact =>
        |t.particles| == |t.counts| && Distinct(t.particles)
        && |t.counts| == (t.counter + Stride - 1) / Stride
        && forall k :: 0 <= k < |t.counts| ==> t.counts[k] == Stride * k + 1
      case FirstContactFixed =>
        |t.particles| == t.counter && Distinct(t.particles)
        && |t.counts| == (t.counter + Stride - 1) / Stride
        && forall k :: 0 <= k < |t.counts| ==> t.counts[k] == Stride * k + 1
      case Independent =>
        |t.particles| == |t.counts| && |t.counts| == t.counter / Stride
        && forall k :: 0 <= k < |t.counts| ==> t.counts[k] == Stride * k + Stride + 1
      case IndependentFixed =>
        |t.particles| == |t.counts| && |t.counts| == t.counter / Stride
        && forall k :: 0 <= k < |t.counts| ==> t.counts[k] == Stride * (k + 1)
  }

  /** Every sampled time is the value of some time line of the log. */
  predicate TimesFromLog(lines: seq<Line>, t: Tally)
  {
    forall k :: 0 <= k < |t.times| ==> exists j :: 0 <= j < |lines| && LineFloat(lines[j]) == Some(t.times[k])
  }

  lemma CountLineKeepsShape(policy: Policy, t: Tally, time: real, line: Line, at: int)
    requires Shape(policy, t)
    requires CountLine(policy, t, time, line, at).Ok?
    ensures Shape(policy, CountLine(policy, t, time, line, at).value)
    ensures var t' := CountLine(policy, t, time, line, at).value;
      t'.times == t.times || t'.times == t.times + [time]
  {
    var t' := CountLine(policy, t, time, line, at).value;
    if t'.counts != t.counts {
      assert t'.counts == t.counts + [t'.counts[|t.counts|]];
    }
  }

  lemma {:induction false} CountLinesKeepShape(policy: Policy, lines: seq<Line>, t: Tally, time: real, ci: int, k: nat)
    requires Shape(policy, t) && TimesFromLog(lines, t)
    requires exists j :: 0 <= j < |lines| && LineFloat(lines[j]) == Some(time)
    requires CountLines(policy, lines, t, time, ci, k).Ok?
    ensures var t' := CountLines(policy, lines, t, time, ci, k).value;
      Shape(policy, t') && TimesFromLog(lines, t') && t.counter <= t'.counter
  {
    if k > 0 {
      CountLinesKeepShape(policy, lines, t, time, ci, k - 1);
      var t' := CountLines(policy, lines, t, time, ci, k - 1).value;
      var at := PyIndex(|lines|, ci + k).value;
      CountLineKeepsShape(policy, t', time, lines[at], ci + k);
      var t'' := CountLine(policy, t', time, lines[at], ci + k).value;
      forall m | 0 <= m < |t''.times|
        ensures exists j :: 0 <= j < |lines| && LineFloat(lines[j]) == Some(t''.times[m])
      {
        if m < |t'.times| {
          assert t''.times[m] == t'.times[m];
        }
      }
    }
  }

  /**
   * The scan keeps the invariant, never lowers the counter, and ends either
   * past the last line or, early, with the counter above the limit.
   */
  lemma {:induction false} ScanKeepsShape(policy: Policy, lines: seq<Line>, n: int, i: int, t: Tally)
    requires i >= 1 && Shape(policy, t) && TimesFromLog(lines, t)
    requires Scan(policy, lines, n, i, t).Ok?
    ensures var s := Scan(policy, lines, n, i, t).value;
      Shape(policy, s.tally) && TimesFromLog(lines, s.tally) && t.counter <= s.tally.counter
      && (s.index >= |lines| || s.tally.counter > Limit)
    decreases |lines| - i
  {
    if i < |lines| {
      var time := LineFloat(lines[i]).value;
      var ci := i + n + 1;
      var c := LineInt(lines[PyIndex(|lines|, ci).value]).value;
      CountLinesKeepShape(policy, lines, t, time, ci, if c < 0 then 0 else c);
      var t' := CountLines(policy, lines, t, time, ci, if c < 0 then 0 else c).value;
      var next := ci + c + 1;
      if t'.counter <= Limit {
        ScanKeepsShape(policy, lines, n, next, t');
      }
    }
  }

  /** A collision line adds at most one sample, at the block's time. */
  lemma CountLineTimes(policy: Policy, t: Tally, time: real, line: Line, at: int)
    requires CountLine(policy, t, time, line, at).Ok?
    ensures var t' := CountLine(policy, t, time, line, at).value;
      t'.times == t.times || t'.times == t.times + [time]
  {
  }

  /** The collision lines of one block sample only at that block's time, and earlier samples stay. */
  lemma {:induction false} CountLinesSampleAtTime(policy: Policy, lines: seq<Line>, t: Tally, time: real, ci: int, k: nat)
    requires CountLines(policy, lines, t, time, ci, k).Ok?
    ensures SampledAt(t, CountLines(policy, lines, t, time, ci, k).value, time)
  {
    if k > 0 {
      CountLinesSampleAtTime(policy, lines, t, time, ci, k - 1);
      var t' := CountLines(policy, lines, t, time, ci, k - 1).value;
      var at := PyIndex(|lines|, ci + k).value;
      CountLineTimes(policy, t', time, lines[at], ci + k);
      var t'' := CountLines(policy, lines, t, time, ci, k).value;
      assert t'' == CountLine(policy, t', time, lines[at], ci + k).value;
      assert t''.times[..|t'.times|] == t'.times;
      assert t''.times[..|t.times|] == t'.times[..|t.times|];
    }
  }

  /** t's samples are a prefix of those of t', and every later sample of t' is at the given time. */
  predicate SampledAt(t: Tally, t': Tally, time: real)
  {
    |t.times| <= |t'.times| && t'.times[..|t.times|] == t.times
    && forall k :: |t.times| <= k < |t'.times| ==> t'.times[k] == time
  }

  /** One block the scan processed: the index of its time line and the variables after its collision lines. */
  datatype Step = Step(start: int, after: Tally)

  /** The variables before block m of a trace that starts from t; Before(t, tr, |tr|) is where the scan ends. */
  function Before(t: Tally, tr: seq<Step>, m: nat): Tally
    requires m <= |tr|
  {
    if m == 0 then t else tr[m - 1].after
  }

  /** The blocks begin at i and at strictly increasing time lines of the log after it. */
  predicate BlockStarts(lines: seq<Line>, i: int, tr: seq<Step>)
  {
    (forall m :: 0 <= m < |tr| ==> 0 <= i <= tr[m].start < |lines| && LineFloat(lines[tr[m].start]).Some?)
    && (|tr| > 0 ==> tr[0].start == i)
    && (forall m :: 0 < m < |tr| ==> tr[m - 1].start < tr[m].start)
  }

  /**
   * Every block but the last leaves the counter at most 200: the scan
   * goes on until the first block that passes the limit, or to the end of
   * the log, where the scan stops at index.
   */
  predicate StopsAtFirstOverLimit(lines: seq<Line>, i: int, index: int, tr: seq<Step>)
  {
    (|tr| == 0 ==> i >= |lines| && index == i)
    && (forall m :: 0 <= m < |tr| - 1 ==> tr[m].after.counter <= Limit)
    && (|tr| > 0 ==> tr[|tr| - 1].after.counter > Limit || index >= |lines|)
  }

  /**
   * Each sample that block m added (the positions between the sample
   * counts before and after it) carries the time of that block's time
   * line, in the final variables too.
   */
  predicate SampledAtBlockTimes(lines: seq<Line>, t: Tally, tr: seq<Step>, final: Tally)
  {
    forall m :: 0 <= m < |tr| ==>
      0 <= tr[m].start < |lines|
      && |Before(t, tr, m).times| <= |tr[m].after.times| <= |final.times|
      && forall k :: |Before(t, tr, m).times| <= k < |tr[m].after.times| ==>
        LineFloat(lines[tr[m].start]) == Some(final.times[k])
  }

  /**
   * The blocks the while loop processed, from the time line at i: they
   * begin at increasing time lines, the scan stops after the first one that
   * leaves more than 200 collisions counted, every sample is taken at the
   * time of the block whose collision line recorded it, and the samples
   * before the scan are kept.
   */
  lemma {:induction false} ScanBlocks(policy: Policy, lines: seq<Line>, n: int, i: int, t: Tally) returns (tr: seq<Step>)
    requires i >= 1
    requires Scan(policy, lines, n, i, t).Ok?
    ensures BlockStarts(lines, i, tr)
    ensures Scan(policy, lines, n, i, t).value.tally == Before(t, tr, |tr|)
    ensures StopsAtFirstOverLimit(lines, i, Scan(policy, lines, n, i, t).value.index, tr)
    ensures SampledAtBlockTimes(lines, t, tr, Before(t, tr, |tr|))
    ensures |t.times| <= |Before(t, tr, |tr|).times| && Before(t, tr, |tr|).times[..|t.times|] == t.times
    decreases |lines| - i
  {
    if i >= |lines| {
      tr := [];
    } else {
      var time, ci, c := ScanStep(policy, lines, n, i, t);
      var t' := CountLines(policy, lines, t, time, ci, if c < 0 then 0 else c).value;
      if t'.counter > Limit {
        tr := LastBlock(policy, lines, i, ci + c + 1, time, ci, c, t);
      } else {
        var rest := ScanBlocks(policy, lines, n, ci + c + 1, t');
        tr := ConsBlock(policy, lines, i, ci + c + 1, time, ci, c, t, rest, Scan(policy, lines, n, i, t).value.index);
      }
    }
  }



  /**
   * One turn of the while loop at a time line i: the time, the index of
   * the count line and its value, after which the scan either stops at the
   * line after the collision lines or goes on from there.
   */
  lemma ScanStep(policy: Policy, lines: seq<Line>, n: int, i: int, t: Tally) returns (time: real, ci: int, c: int)
    requires 1 <= i < |lines| && Scan(policy, lines, n, i, t).Ok?
    ensures LineFloat(lines[i]) == Some(time) && ci == i + n + 1
    ensures PyIndex(|lines|, ci).Some? && LineInt(lines[PyIndex(|lines|, ci).value]) == Some(c)
    ensures CountLines(policy, lines, t, time, ci, if c < 0 then 0 else c).Ok?
    ensures CountLines(policy, lines, t, time, ci, if c < 0 then 0 else c).value.counter > Limit ==>
      Scan(policy, lines, n, i, t) == Ok(Scanned(ci + c + 1, CountLines(policy, lines, t, time, ci, if c < 0 then 0 else c).value))
    ensures CountLines(policy, lines, t, time, ci, if c < 0 then 0 else c).value.counter <= Limit ==>
      i < ci + c + 1 && Scan(policy, lines, n, i, t) == Scan(policy, lines, n, ci + c + 1, CountLines(policy, lines, t, time, ci, if c < 0 then 0 else c).value)
  {
    time := LineFloat(lines[i]).value;
    ci := i + n + 1;
    c := LineInt(lines[PyIndex(|lines|, ci).value]).value;
  }

  /** A block at time line i that leaves the counter over the limit ends the scan at next. */
  lemma LastBlock(policy: Policy, lines: seq<Line>, i: int, next: int, time: real, ci: int, c: int, t: Tally) returns (tr: seq<Step>)
    requires 0 <= i < |lines| && LineFloat(lines[i]) == Some(time)
    requires CountLines(policy, lines, t, time, ci, if c < 0 then 0 else c).Ok?
    requires CountLines(policy, lines, t, time, ci, if c < 0 then 0 else c).value.counter > Limit
    ensures tr == [Step(i, CountLines(policy, lines, t, time, ci, if c < 0 then 0 else c).value)]
    ensures BlockStarts(lines, i, tr)
    ensures StopsAtFirstOverLimit(lines, i, next, tr)
    ensures SampledAtBlockTimes(lines, t, tr, Before(t, tr, |tr|))
    ensures |t.times| <= |Before(t, tr, |tr|).times| && Before(t, tr, |tr|).times[..|t.times|] == t.times
  {
    var t' := CountLines(policy, lines, t, time, ci, if c < 0 then 0 else c).value;
    CountLinesSampleAtTime(policy, lines, t, time, ci, if c < 0 then 0 else c);
    tr := [Step(i, t')];
    assert Before(t, tr, 0) == t;
  }

  /** A block at time line i within the limit, followed by the trace of the scan from next, is the trace from i. */
  lemma ConsBlock(policy: Policy, lines: seq<Line>, i: int, next: int, time: real, ci: int, c: int, t: Tally, rest: seq<Step>, index: int)
    returns (tr: seq<Step>)
    requires 0 <= i < |lines| && i < next && LineFloat(lines[i]) == Some(time)
    requires CountLines(policy, lines, t, time, ci, if c < 0 then 0 else c).Ok?
    requires CountLines(policy, lines, t, time, ci, if c < 0 then 0 else c).value.counter <= Limit
    requires var t' := CountLines(policy, lines, t, time, ci, if c < 0 then 0 else c).value;
      BlockStarts(lines, next, rest) && StopsAtFirstOverLimit(lines, next, index, rest)
      && SampledAtBlockTimes(lines, t', rest, Before(t', rest, |rest|))
      && |t'.times| <= |Before(t', rest, |rest|).times| && Before(t', rest, |rest|).times[..|t'.times|] == t'.times
    ensures tr == [Step(i, CountLines(policy, lines, t, time, ci, if c < 0 then 0 else c).value)] + rest
    ensures Before(t, tr, |tr|) == Before(CountLines(policy, lines, t, time, ci, if c < 0 then 0 else c).value, rest, |rest|)
    ensures BlockStarts(lines, i, tr)
    ensures StopsAtFirstOverLimit(lines, i, index, tr)
    ensures SampledAtBlockTimes(lines, t, tr, Before(t, tr, |tr|))
    ensures |t.times| <= |Before(t, tr, |tr|).times| && Before(t, tr, |tr|).times[..|t.times|] == t.times
  {
    var t' := CountLines(policy, lines, t, time, ci, if c < 0 then 0 else c).value;
    CountLinesSampleAtTime(policy, lines, t, time, ci, if c < 0 then 0 else c);
    ConsStarts(lines, i, next, t', rest);
    ConsStops(lines, i, next, index, t', rest);
    ConsSamples(lines, i, time, t, t', rest);
    tr := [Step(i, t')] + rest;
  }

  /** A block at time line i followed by blocks from next > i begins at i and at increasing time lines. */
  lemma ConsStarts(lines: seq<Line>, i: int, next: int, t': Tally, rest: seq<Step>)
    requires 0 <= i < |lines| && i < next && LineFloat(lines[i]).Some?
    requires BlockStarts(lines, next, rest)
    ensures BlockStarts(lines, i, [Step(i, t')] + rest)
  {
    var tr := [Step(i, t')] + rest;
    forall m | 0 < m < |tr|
      ensures tr[m] == rest[m - 1]
    {
    }
  }

  /** A first block within the limit followed by a scan that stops at its first block over it. */
  lemma ConsStops(lines: seq<Line>, i: int, next: int, index: int, t': Tally, rest: seq<Step>)
    requires t'.counter <= Limit
    requires StopsAtFirstOverLimit(lines, next, index, rest)
    ensures StopsAtFirstOverLimit(lines, i, index, [Step(i, t')] + rest)
  {
    var tr := [Step(i, t')] + rest;
    forall m | 0 < m < |tr|
      ensures tr[m] == rest[m - 1]
    {
    }
  }

  /** The samples of a block at i from t to t', then those of the rest of the scan from t'. */
  lemma ConsSamples(lines: seq<Line>, i: int, time: real, t: Tally, t': Tally, rest: seq<Step>)
    requires 0 <= i < |lines| && LineFloat(lines[i]) == Some(time)
    requires SampledAt(t, t', time)
    requires SampledAtBlockTimes(lines, t', rest, Before(t', rest, |rest|))
    requires |t'.times| <= |Before(t', rest, |rest|).times| && Before(t', rest, |rest|).times[..|t'.times|] == t'.times
    ensures Before(t, [Step(i, t')] + rest, |rest| + 1) == Before(t', rest, |rest|)
    ensures SampledAtBlockTimes(lines, t, [Step(i, t')] + rest, Before(t', rest, |rest|))
    ensures |t.times| <= |Before(t', rest, |rest|).times| && Before(t', rest, |rest|).times[..|t.times|] == t.times
  {
    var tr := [Step(i, t')] + rest;
    var final := Before(t', rest, |rest|);
    forall m | 1 <= m <= |tr|
      ensures Before(t, tr, m) == Before(t', rest, m - 1)
    {
    }
    assert final.times[..|t.times|] == t.times by {
      assert final.times[..|t.times|] == final.times[..|t'.times|][..|t.times|];
    }
    forall k | |t.times| <= k < |t'.times|
      ensures LineFloat(lines[i]) == Some(final.times[k])
    {
      assert final.times[k] == final.times[..|t'.times|][k];
    }
    forall m | 1 <= m < |tr|
      ensures tr[m] == rest[m - 1]
    {
    }
  }

  /**
   * The samples of a log: times and counts of equal length, counts 1, 21,
   * 41, ... for first contacts and 21, 41, ... for independent collisions
   * (20, 40, ... once corrected), each time taken from a time line of the log.
   * There is one sample per multiple of 20 the final counter reached (per
   * 1, 21, 41, ... for first contacts), so none is missed.
   */
  lemma SamplesShape(policy: Policy, lines: seq<Line>)
    requires ObstacleSamples(policy, lines).Ok?
    ensures var s := ObstacleSamples(policy, lines).value;
      |s.times| == |s.counts|
      && (forall k :: 0 <= k < |s.times| ==> exists j :: 0 <= j < |lines| && LineFloat(lines[j]) == Some(s.times[k]))
      && (policy == FirstContact || policy == FirstContactFixed ==> forall k :: 0 <= k < |s.counts| ==> s.counts[k] == 20 * k + 1)
      && (policy == Independent ==> forall k :: 0 <= k < |s.counts| ==> s.counts[k] == 20 * k + 21)
      && (policy == IndependentFixed ==> forall k :: 0 <= k < |s.counts| ==> s.counts[k] == 20 * k + 20)
    ensures Scan(policy, lines, LineInt(lines[0]).value, 1, Start).Ok?
    ensures var s := ObstacleSamples(policy, lines).value;
      var final := Scan(policy, lines, LineInt(lines[0]).value, 1, Start).value.tally;
      s.times == final.times && s.counts == final.counts
      && (policy == FirstContact || policy == FirstContactFixed ==> |s.counts| == (final.counter + 19) / 20)
      && (policy == Independent || policy == IndependentFixed ==> |s.counts| == final.counter / 20)
  {
    var n := LineInt(lines[0]).value;
    ScanKeepsShape(policy, lines, n, 1, Start);
  }

  /**
   * As written, the independent reader labels a sample one past the
   * collision it samples: when the 20th, 40th, ... obstacle collision is
   * counted, the recorded count is that number plus one.
   */
  lemma IndependentLabelsOneAhead(t: Tally, time: real, line: Line, at: int)
    requires Shape(Independent, t)
    requires |line| >= 2 && line[1].text == "O" && (t.counter + 1) % Stride == 0
    ensures var t' := CountLine(Independent, t, time, line, at).value;
      t'.counter == t.counter + 1 && t'.counts == t.counts + [t'.counter + 1]
  {
  }

  /** Corrected, the recorded count is the number of the collision just counted. */
  lemma IndependentFixedLabelsCollision(t: Tally, time: real, line: Line, at: int)
    requires Shape(IndependentFixed, t)
    requires |line| >= 2 && line[1].text == "O" && (t.counter + 1) % Stride == 0
    ensures var t' := CountLine(IndependentFixed, t, time, line, at).value;
      t'.counter == t.counter + 1 && t'.counts == t.counts + [t'.counter]
      && t'.counts[|t'.counts| - 1] == Stride * |t'.counts|
  {
    CountLineKeepsShape(IndependentFixed, t, time, line, at);
  }

  function ObstacleLine(id: string): Line
  {
    [Token(id, None, None), Token("O", None, None)]
  }

  /**
   * As written, the first-contact reader counts particle "7" twice: the
   * lines "5 O", "7 O", "7 O" leave the counter at 3 with only two particles
   * involved, because "7" was not sampled and so never excluded.
   */
  lemma FirstContactRecounts()
    ensures var t1 := CountLine(FirstContact, Start, 0.0, ObstacleLine("5"), 1).value;
      var t2 := CountLine(FirstContact, t1, 0.0, ObstacleLine("7"), 2).value;
      var t3 := CountLine(FirstContact, t2, 0.0, ObstacleLine("7"), 3).value;
      t3.counter == 3
  {
    var t1 := CountLine(FirstContact, Start, 0.0, ObstacleLine("5"), 1).value;
    assert t1.particles == ["5"] && t1.counter == 1;
    var t2 := CountLine(FirstContact, t1, 0.0, ObstacleLine("7"), 2).value;
    assert "7" != "5";
    assert t2.particles == ["5"] && t2.counter == 2;
  }

  /**
   * Corrected, the counter is the number of distinct particles that hit the
   * obstacle: every id on an obstacle line processed is excluded from then
   * on, and no id is excluded twice.
   */
  lemma FirstContactFixedCountsParticles(t: Tally, time: real, line: Line, at: int)
    requires Shape(FirstContactFixed, t)
    requires |line| >= 2 && line[1].text == "O"
    ensures var t' := CountLine(FirstContactFixed, t, time, line, at).value;
      Shape(FirstContactFixed, t') && t'.counter == |t'.particles| && line[0].text in t'.particles
      && (forall id :: id in t.particles ==> id in t'.particles)
  {
    CountLineKeepsShape(FirstContactFixed, t, time, line, at);
  }

  /**
   * The while loop of both readers, with the policy choosing the body of the
   * inner loop.
   */
  method ScanLog(policy: Policy, lines: seq<Line>) returns (r: Result<Samples>)
    ensures r == ObstacleSamples(policy, lines)
  {
    if |lines| == 0 {
      return Err(IndexError(0));
    }
    var header := LineInt(lines[0]);
    if header.None? {
      return Err(ValueError(0));
    }
    var n := header.value;
    var lineIndex := 1;
    var t := Start;
    while lineIndex < |lines|
      invariant lineIndex >= 1
      invariant Scan(policy, lines, n, lineIndex, t) == Scan(policy, lines, n, 1, Start)
      decreases |lines| - lineIndex
    {
      var time := LineFloat(lines[lineIndex]);
      if time.None? {
        return Err(ValueError(lineIndex));
      }
      var start := lineIndex;
      lineIndex := lineIndex + n + 1;
      var cAt := PyIndex(|lines|, lineIndex);
      if cAt.None? {
        return Err(IndexError(lineIndex));
      }
      var collisions := LineInt(lines[cAt.value]);
      if collisions.None? {
        return Err(ValueError(lineIndex));
      }
      var c := collisions.value;
      var counted := CountBlock(policy, lines, t, time.value, lineIndex, c);
      if counted.Err? {
        return Err(counted.error);
      }
      t := counted.value;
      lineIndex := lineIndex + c + 1;
      if t.counter > Limit {
        break;
      }
      if lineIndex <= start {
        return Err(NegativeCount(start));
      }
    }
    return Ok(Samples(t.times, t.counts));
  }

  /** The for loop over the c collision lines after the count line at index ci. */
  method CountBlock(policy: Policy, lines: seq<Line>, t: Tally, time: real, ci: int, c: int) returns (r: Result<Tally>)
    ensures r == CountLines(policy, lines, t, time, ci, if c < 0 then 0 else c)
  {
    var cur := t;
    for k := 1 to (if c < 0 then 0 else c) + 1
      invariant CountLines(policy, lines, t, time, ci, k - 1) == Ok(cur)
    {
      var at := PyIndex(|lines|, ci + k);
      if at.None? {
        CountLinesStaysFailed(policy, lines, t, time, ci, k, if c < 0 then 0 else c);
        return Err(IndexError(ci + k));
      }
      var next := CountLine(policy, cur, time, lines[at.value], ci + k);
      if next.Err? {
        CountLinesStaysFailed(policy, lines, t, time, ci, k, if c < 0 then 0 else c);
        return next;
      }
      cur := next.value;
    }
    return Ok(cur);
  }

  /** read_simulation_events_for_first_time_obstacle_collisions(filename), on the file's lines. */
  method ReadFirstTimeObstacleCollisions(lines: seq<Line>) returns (r: Result<Samples>)
    ensures r == ObstacleSamples(FirstContact, lines)
  {
    r := ScanLog(FirstContact, lines);
  }

  /** read_simulation_events_for_independent_obstacle_collisions(filename), on the file's lines. */
  method ReadIndependentObstacleCollisions(lines: seq<Line>) returns (r: Result<Samples>)
    ensures r == ObstacleSamples(Independent, lines)
  {
    r := ScanLog(Independent, lines);
  }
}
