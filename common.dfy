/**
 * Shared vocabulary of the model: optional values, results carrying the
 * exception the source would raise, pre-tokenised log lines, Python-style
 * indexing, and the square root the source takes from its math library.
 */
module Common {

  datatype Option<+T> = None | Some(value: T)

  /** The exception a Python script or Java method raises, with the line index it concerns. */
  datatype Error =
    | IndexError(at: int)          // a list index past the end (IndexError / missing line)
    | ValueError(at: int)          // int()/float() rejected a token, or an unpacking arity mismatch
    | NegativeCount(at: int)       // a count that would make the scan index backwards
    | KeyError(key: int)           // a dictionary lookup of a missing particle id
    | StopIteration(id: int)       // next() found no state for a particle id
    | ZeroDivision                 // a float division by zero
    | ZeroVector                   // Vector2D.normalized on a zero vector
    | NullReference                // a PARTICLE collision without a second particle
    | NoMoreCollisions             // Board.toNextCollisionTime found no future collision

  datatype Result<+T> = Ok(value: T) | Err(error: Error)

  /**
   * A whitespace-separated token of a log line: its text and the values
   * Python's int() and float() give for that text (None where they raise).
   */
  datatype Token = Token(text: string, asInt: Option<int>, asFloat: Option<real>)

  /** A line of a text file after strip().split(): the blank line is []. */
  type Line = seq<Token>

  /** int(line.strip()): only a line holding exactly one integer token parses. */
  function LineInt(line: Line): (r: Option<int>)
    ensures r.Some? ==> |line| == 1 && line[0].asInt == r
  {
    if |line| == 1 then line[0].asInt else None
  }

  /** float(line.strip()): only a line holding exactly one numeric token parses. */
  function LineFloat(line: Line): (r: Option<real>)
    ensures r.Some? ==> |line| == 1 && line[0].asFloat == r
  {
    if |line| == 1 then line[0].asFloat else None
  }

  /** Python's int() applied to a float: truncation toward zero. */
  function Trunc(r: real): (n: int)
    ensures r >= 0.0 ==> n as real <= r < n as real + 1.0
    ensures r < 0.0 ==> n as real - 1.0 < r <= n as real
  {
    if r >= 0.0 then r.Floor else -((-r).Floor)
  }

  /** Python's xs[k] on a list of length len: negative k counts from the end. */
  function PyIndex(len: nat, k: int): (r: Option<nat>)
    ensures r.Some? <==> -(len as int) <= k < len
    ensures r.Some? ==> r.value < len && (r.value as int == k || r.value as int == k + len)
  {
    if 0 <= k < len then Some(k) else if -(len as int) <= k < 0 then Some(k + len) else None
  }

  /** A function that behaves as the exact square root on the non-negative reals. */
  ghost predicate IsSqrt(sqrt: real -> real)
  {
    forall d: real {:trigger sqrt(d)} :: d >= 0.0 ==> sqrt(d) >= 0.0 && sqrt(d) * sqrt(d) == d
  }

  /** What a square-root function gives at one non-negative point. */
  lemma SqrtFacts(sqrt: real -> real, d: real)
    requires IsSqrt(sqrt) && d >= 0.0
    ensures sqrt(d) >= 0.0 && sqrt(d) * sqrt(d) == d
    ensures sqrt(d) == 0.0 <==> d == 0.0
  {
    SquareZero(sqrt(d));
  }

  /** A non-negative square root is unique. */
  lemma SquareRootUnique(s: real, t: real)
    requires s >= 0.0 && t >= 0.0 && s * s == t * t
    ensures s == t
  {
    assert (s - t) * (s + t) == 0.0;
    assert s - t == 0.0 || s + t == 0.0;
  }

  /** Squaring is strictly increasing on the non-negative reals. */
  lemma SquareStrict(t: real, s: real)
    requires 0.0 <= t < s
    ensures t * t < s * s
  {
    var a, b, c := t * t, t * s, s * s;
    assert a <= b;
    assert b < c;
  }

  /** A square vanishes exactly at zero. */
  lemma SquareZero(a: real)
    ensures a * a == 0.0 <==> a == 0.0
    ensures a * a >= 0.0
  {
    if a > 0.0 {
      SquareStrict(0.0, a);
    } else if a < 0.0 {
      SquareStrict(0.0, -a);
      assert (-a) * (-a) == a * a;
    }
  }

  /** The square root is monotone: a larger radicand has a root at least as large. */
  lemma SqrtMonotone(sqrt: real -> real, d: real, e: real)
    requires IsSqrt(sqrt) && 0.0 <= d <= e
    ensures sqrt(d) <= sqrt(e)
  {
    var s, t := sqrt(d), sqrt(e);
    if s > t {
      SquareStrict(t, s);
    }
  }

  /** The square root of a square is the absolute value. */
  lemma SqrtOfSquare(sqrt: real -> real, a: real)
    requires IsSqrt(sqrt)
    ensures sqrt(a * a) == if a >= 0.0 then a else -a
  {
    var b := if a >= 0.0 then a else -a;
    assert b * b == a * a;
    SquareRootUnique(sqrt(a * a), b);
  }
}
