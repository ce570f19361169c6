/**
 * average_pressure.py: the mean of the pressure samples at or after a start
 * time, read from a file of "time pressure" lines, and the relative
 * temperature v0^2 of a run.
 */
module AveragePressure {
  import opened Common

  /** time, pressure = map(float, line.strip().split()): exactly two numbers. */
  function SampleOf(line: Line, at: int): (r: Result<(real, real)>)
    ensures r.Ok? <==> |line| == 2 && line[0].asFloat.Some? && line[1].asFloat.Some?
    ensures r.Ok? ==> r.value == (line[0].asFloat.value, line[1].asFloat.value)
    ensures r.Err? ==> r == Err(ValueError(at))
  {
    if |line| == 2 && line[0].asFloat.Some? && line[1].asFloat.Some? then
      Ok((line[0].asFloat.value, line[1].asFloat.value))
    else Err(ValueError(at))
  }

  /** The pressures list after the first k lines. */
  function Kept(lines: seq<Line>, startTime: real, k: nat): Result<seq<real>>
    requires k <= |lines|
  {
    if k == 0 then Ok([])
    else
      match Kept(lines, startTime, k - 1)
      case Err(e) => Err(e)
      case Ok(ps) =>
        match SampleOf(lines[k - 1], k - 1)
        case Err(e) => Err(e)
        case Ok((time, pressure)) => if time >= startTime then Ok(ps + [pressure]) else Ok(ps)
  }

  /** The indices among the first k lines whose time is at least startTime, in file order. */
  function LateLines(lines: seq<Line>, startTime: real, k: nat): (idx: seq<nat>)
    requires k <= |lines|
    ensures forall m :: 0 <= m < |idx| ==> idx[m] < k
    ensures forall m, m' :: 0 <= m < m' < |idx| ==> idx[m] < idx[m']
    ensures forall j :: 0 <= j < k ==>
      (j in idx <==> |lines[j]| == 2 && lines[j][0].asFloat.Some? && lines[j][0].asFloat.value >= startTime)
  {
    if k == 0 then []
    else
      var line := lines[k - 1];
      var rest := LateLines(lines, startTime, k - 1);
      if |line| == 2 && line[0].asFloat.Some? && line[0].asFloat.value >= startTime then rest + [k - 1] else rest
  }

  /**
   * The reader fails exactly when some line is not two numbers; otherwise a
   * sample is kept exactly when its time is at least startTime, in file order.
   */
  lemma {:induction false} KeptExactlyLate(lines: seq<Line>, startTime: real, k: nat)
    requires k <= |lines|
    ensures Kept(lines, startTime, k).Ok? <==> forall j :: 0 <= j < k ==> SampleOf(lines[j], j).Ok?
    ensures Kept(lines, startTime, k).Ok? ==> |Kept(lines, startTime, k).value| == |LateLines(lines, startTime, k)|
    ensures Kept(lines, startTime, k).Ok? ==> forall m :: 0 <= m < |Kept(lines, startTime, k).value| ==>
      Kept(lines, startTime, k).value[m] == lines[LateLines(lines, startTime, k)[m]][1].asFloat.value
  {
    if k > 0 {
      KeptExactlyLate(lines, startTime, k - 1);
      var line := lines[k - 1];
      if Kept(lines, startTime, k).Ok? {
        if line[0].asFloat.value >= startTime {
          assert LateLines(lines, startTime, k) == LateLines(lines, startTime, k - 1) + [k - 1];
          assert Kept(lines, startTime, k).value == Kept(lines, startTime, k - 1).value + [line[1].asFloat.value];
        } else {
          assert LateLines(lines, startTime, k) == LateLines(lines, startTime, k - 1);
          assert Kept(lines, startTime, k) == Kept(lines, startTime, k - 1);
        }
      }
    }
  }

  function Sum(xs: seq<real>): real
  {
    if |xs| == 0 then 0.0 else Sum(xs[..|xs| - 1]) + xs[|xs| - 1]
  }

  /** sum(pressures) / len(pressures), or 0 for no samples. */
  function Mean(xs: seq<real>): (m: real)
    ensures |xs| == 0 ==> m == 0.0
    ensures |xs| > 0 ==> m * (|xs| as real) == Sum(xs)
  {
    if |xs| == 0 then 0.0 else Sum(xs) / (|xs| as real)
  }

  /** read_pressure_file(filename, start_time) on the file's lines. */
  function AveragePressureOf(lines: seq<Line>, startTime: real): Result<real>
  {
    match Kept(lines, startTime, |lines|)
    case Err(e) => Err(e)
    case Ok(ps) => Ok(Mean(ps))
  }

  /** Bounds on every element bound the sum by the count times the bounds. */
  lemma {:induction false} SumBounds(xs: seq<real>, lo: real, hi: real)
    requires forall m :: 0 <= m < |xs| ==> lo <= xs[m] <= hi
    ensures (|xs| as real) * lo <= Sum(xs) <= (|xs| as real) * hi
  {
    if |xs| > 0 {
      SumBounds(xs[..|xs| - 1], lo, hi);
      assert (|xs| as real) * lo == ((|xs| - 1) as real) * lo + lo;
      assert (|xs| as real) * hi == ((|xs| - 1) as real) * hi + hi;
    }
  }

  /** A non-empty mean lies between the smallest and the largest sample. */
  lemma MeanBetween(xs: seq<real>, lo: real, hi: real)
    requires |xs| > 0
    requires forall m :: 0 <= m < |xs| ==> lo <= xs[m] <= hi
    ensures lo <= Mean(xs) <= hi
  {
    SumBounds(xs, lo, hi);
    var n := |xs| as real;
    var mean := Mean(xs);
    assert (mean - lo) * n >= 0.0 && (hi - mean) * n >= 0.0;
  }

  /** The average is 0 without a late sample, and otherwise within the late samples' range. */
  lemma AverageWithinLateSamples(lines: seq<Line>, startTime: real, lo: real, hi: real)
    requires AveragePressureOf(lines, startTime).Ok?
    requires forall j :: 0 <= j < |lines| && SampleOf(lines[j], j).Ok? && SampleOf(lines[j], j).value.0 >= startTime ==>
      lo <= SampleOf(lines[j], j).value.1 <= hi
    ensures LateLines(lines, startTime, |lines|) == [] ==> AveragePressureOf(lines, startTime) == Ok(0.0)
    ensures LateLines(lines, startTime, |lines|) != [] ==> lo <= AveragePressureOf(lines, startTime).value <= hi
  {
    KeptExactlyLate(lines, startTime, |lines|);
    var ps := Kept(lines, startTime, |lines|).value;
    var idx := LateLines(lines, startTime, |lines|);
    if idx != [] {
      forall m | 0 <= m < |ps|
        ensures lo <= ps[m] <= hi
      {
        assert idx[m] in idx;
        assert SampleOf(lines[idx[m]], idx[m]).Ok?;
      }
      MeanBetween(ps, lo, hi);
    }
  }

  /** read_pressure_file(filename, start_time), on the file's lines. */
  method ReadPressureFile(lines: seq<Line>, startTime: real) returns (r: Result<real>)
    ensures r == AveragePressureOf(lines, startTime)
  {
    var pressures: seq<real> := [];
    for k := 0 to |lines|
      invariant Kept(lines, startTime, k) == Ok(pressures)
    {
      var sample := SampleOf(lines[k], k);
      if sample.Err? {
        KeptStaysFailed(lines, startTime, k + 1, |lines|);
        return Err(sample.error);
      }
      var (time, pressure) := sample.value;
      if time >= startTime {
        pressures := pressures + [pressure];
      }
    }
    if |pressures| > 0 {
      r := Ok(Sum(pressures) / (|pressures| as real));
    } else {
      r := Ok(0.0);
    }
  }

  lemma {:induction false} KeptStaysFailed(lines: seq<Line>, startTime: real, k: nat, m: nat)
    requires k <= m <= |lines| && Kept(lines, startTime, k).Err?
    ensures Kept(lines, startTime, m) == Kept(lines, startTime, k)
    decreases m - k
  {
    if k < m {
      KeptStaysFailed(lines, startTime, k, m - 1);
    }
  }

  /** calculate_temperature(v0) = v0 ** 2. */
  function CalculateTemperature(v0: real): (t: real)
    ensures t >= 0.0
    ensures t == 0.0 <==> v0 == 0.0
  {
    SquareZero(v0);
    v0 * v0
  }

  /** The relative temperature orders runs by the magnitude of their initial speed. */
  lemma TemperatureOrdersSpeeds(a: real, b: real)
    ensures CalculateTemperature(a) <= CalculateTemperature(b) <==> (if a >= 0.0 then a else -a) <= (if b >= 0.0 then b else -b)
  {
    var x, y := if a >= 0.0 then a else -a, if b >= 0.0 then b else -b;
    assert x * x == a * a && y * y == b * b;
    if x <= y {
      if x < y {
        SquareStrict(x, y);
      }
    } else {
      SquareStrict(y, x);
    }
  }
}
