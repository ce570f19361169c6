/**
 * The text side of the log: Java's "%d" and "%f" conversions (Locale.US),
 * fields joined by single spaces, and Python's str.split() that the scripts
 * apply to every line they read back.
 */
module Formatting {

  predicate IsSpace(c: char)
  {
    c == ' ' || c == '\t' || c == '\n' || c == '\r' || c == '\U{b}' || c == '\U{c}'
  }

  predicate IsDigit(c: char)
  {
    '0' <= c <= '9'
  }

  /** Python's str.isdigit() on ASCII text: non-empty and only decimal digits. */
  predicate AllDigits(s: string)
  {
    |s| > 0 && forall i :: 0 <= i < |s| ==> IsDigit(s[i])
  }

  /** A field that split() keeps whole: non-empty and free of whitespace. */
  predicate IsWord(s: string)
  {
    |s| > 0 && forall i :: 0 <= i < |s| ==> !IsSpace(s[i])
  }

  /** The decimal digits of a natural number, most significant first. */
  function NatDigits(n: nat): (s: string)
    ensures AllDigits(s)
    ensures n < 10 ==> |s| == 1
    decreases n
  {
    var d := [(('0' as int) + n % 10) as char];
    if n < 10 then d else NatDigits(n / 10) + d
  }

  /** Java's "%d": an optional minus sign, then the digits of the magnitude. */
  function IntToString(n: int): (s: string)
    ensures IsWord(s)
    ensures n >= 0 ==> AllDigits(s)
    ensures n < 0 ==> s[0] == '-' && AllDigits(s[1..])
  {
    if n >= 0 then NatDigits(n) else "-" + NatDigits(-n)
  }

  /** The digits of n padded with leading zeros to six characters (n < 10^6). */
  function SixDigits(n: nat): (s: string)
    requires n < 1000000
    ensures |s| == 6 && AllDigits(s)
  {
    var d := NatDigits(n);
    assert |d| <= 6 by { NatDigitsLength(n, 6); }
    seq(6 - |d|, _ => '0') + d
  }

  lemma {:induction false} NatDigitsLength(n: nat, k: nat)
    requires n < Pow10(k)
    ensures |NatDigits(n)| <= if k == 0 then 1 else k
    decreases n
  {
    if n >= 10 {
      assert Pow10(0) == 1 && Pow10(1) == 10;
      assert n / 10 < Pow10(k - 1);
      NatDigitsLength(n / 10, k - 1);
    }
  }

  function Pow10(k: nat): (p: nat)
    ensures p >= 1
  {
    if k == 0 then 1 else 10 * Pow10(k - 1)
  }

  /** r rounded to six decimals, half away from zero, as a count of millionths. */
  function Millionths(r: real): (m: int)
    ensures r >= 0.0 ==> m >= 0
    ensures r <= 0.0 ==> m <= 0
  {
    if r >= 0.0 then (r * 1000000.0 + 0.5).Floor else -((-r) * 1000000.0 + 0.5).Floor
  }

  /** The number a string of decimal digits denotes, most significant first. */
  function DigitsValue(s: string): int
    requires forall i :: 0 <= i < |s| ==> IsDigit(s[i])
  {
    if s == [] then 0 else 10 * DigitsValue(s[..|s| - 1]) + ((s[|s| - 1] as int) - ('0' as int))
  }

  /** The digits of n denote n. */
  lemma {:induction false} NatDigitsValue(n: nat)
    ensures DigitsValue(NatDigits(n)) == n
    decreases n
  {
    if n >= 10 {
      var d := [(('0' as int) + n % 10) as char];
      NatDigitsValue(n / 10);
      assert (NatDigits(n / 10) + d)[..|NatDigits(n / 10) + d| - 1] == NatDigits(n / 10);
    }
  }

  /** Leading zeros do not change the number denoted. */
  lemma {:induction false} LeadingZerosValue(k: nat, d: string)
    requires AllDigits(d) || d == []
    ensures AllDigits(seq(k, _ => '0') + d) || seq(k, _ => '0') + d == []
    ensures DigitsValue(seq(k, _ => '0') + d) == DigitsValue(d)
    decreases |d|, k
  {
    var z := seq(k, _ => '0');
    if d == [] {
      assert z + d == z;
      if k > 0 {
        assert z[..k - 1] == seq(k - 1, _ => '0');
        LeadingZerosValue(k - 1, []);
        assert seq(k - 1, _ => '0') + [] == seq(k - 1, _ => '0');
      }
    } else {
      var init := d[..|d| - 1];
      assert (z + d)[..|z + d| - 1] == z + init;
      if init != [] {
        assert AllDigits(init);
      }
      LeadingZerosValue(k, init);
    }
  }

  /** The six padded digits of n < 10^6 denote n. */
  lemma SixDigitsValue(n: nat)
    requires n < 1000000
    ensures DigitsValue(SixDigits(n)) == n
  {
    var d := NatDigits(n);
    assert |d| <= 6 by { NatDigitsLength(n, 6); }
    LeadingZerosValue(6 - |d|, d);
    NatDigitsValue(n);
  }

  /** Rounding to millionths is to the nearest millionth, with halves away from zero. */
  lemma MillionthsRounds(r: real)
    ensures r >= 0.0 ==> (Millionths(r) as real) - 0.5 <= r * 1000000.0 < (Millionths(r) as real) + 0.5
    ensures r < 0.0 ==> (Millionths(r) as real) - 0.5 < r * 1000000.0 <= (Millionths(r) as real) + 0.5
  {
  }

  /**
   * Java's "%f": six decimals, rounded half-up on the magnitude. A negative
   * value keeps its minus sign even when it rounds to zero. The text is an
   * optional sign, the integer digits, a dot and six digits, and the digits
   * denote the magnitude of Millionths(r).
   */
  function FixedSix(r: real): (s: string)
    ensures IsWord(s)
    ensures s[0] == '-' <==> r < 0.0
    ensures var k := if r < 0.0 then 1 else 0;
      |s| >= k + 8 && s[|s| - 7] == '.' && AllDigits(s[k..|s| - 7]) && AllDigits(s[|s| - 6..])
      && 1000000 * DigitsValue(s[k..|s| - 7]) + DigitsValue(s[|s| - 6..])
        == if r < 0.0 then -Millionths(r) else Millionths(r)
  {
    var m := if r >= 0.0 then Millionths(r) else -Millionths(r);
    var sign := if r < 0.0 then "-" else "";
    var whole := NatDigits(m / 1000000);
    var frac := SixDigits(m % 1000000);
    FixedParts(sign, whole, frac);
    NatDigitsValue(m / 1000000);
    SixDigitsValue(m % 1000000);
    sign + whole + "." + frac
  }

  /** Where the parts of a "%f" text sit in it. */
  lemma FixedParts(sign: string, whole: string, frac: string)
    requires |frac| == 6
    ensures var s := sign + whole + "." + frac;
      |s| == |sign| + |whole| + 7 && s[|sign|..|s| - 7] == whole && s[|s| - 7] == '.' && s[|s| - 6..] == frac
      && s[..|sign|] == sign
  {
  }

  /** Fields joined by single spaces. */
  function Join(fields: seq<string>): string
  {
    if fields == [] then ""
    else if |fields| == 1 then fields[0]
    else fields[0] + " " + Join(fields[1..])
  }

  /** The longest prefix of s that holds no whitespace. */
  function LeadingWord(s: string): (w: string)
    ensures |w| <= |s| && w == s[..|w|]
    ensures forall i :: 0 <= i < |w| ==> !IsSpace(s[i])
    ensures |w| < |s| ==> IsSpace(s[|w|])
  {
    if s == [] || IsSpace(s[0]) then [] else [s[0]] + LeadingWord(s[1..])
  }

  /** Python's str.split() with no argument: the maximal runs of non-whitespace. */
  function Split(s: string): (r: seq<string>)
    ensures forall i :: 0 <= i < |r| ==> IsWord(r[i])
    decreases |s|
  {
    if s == [] then []
    else if IsSpace(s[0]) then Split(s[1..])
    else
      var w := LeadingWord(s);
      [w] + Split(s[|w|..])
  }

  /** The leading word of a word followed by whitespace is that word. */
  lemma {:induction false} LeadingWordOfWord(w: string, rest: string)
    requires IsWord(w)
    requires rest == [] || IsSpace(rest[0])
    ensures LeadingWord(w + rest) == w
    decreases |w|
  {
    if |w| > 1 {
      assert (w + rest)[1..] == w[1..] + rest;
      LeadingWordOfWord(w[1..], rest);
    } else {
      assert (w + rest)[1..] == rest;
    }
  }

  /** Splitting fields joined by single spaces gives the fields back. */
  lemma {:induction false} SplitJoin(fields: seq<string>)
    requires forall i :: 0 <= i < |fields| ==> IsWord(fields[i])
    ensures Split(Join(fields)) == fields
    decreases |fields|
  {
    if |fields| == 1 {
      var w := fields[0];
      assert w + "" == w;
      LeadingWordOfWord(w, "");
      assert w[|w|..] == [];
      assert Split(w) == [w] + Split([]);
    } else if |fields| > 1 {
      var w, rest := fields[0], Join(fields[1..]);
      var s := w + " " + rest;
      assert s == w + (" " + rest);
      LeadingWordOfWord(w, " " + rest);
      assert s[|w|..] == " " + rest;
      assert (" " + rest)[1..] == rest;
      SplitJoin(fields[1..]);
      assert Split(s) == [w] + Split(" " + rest);
      assert Split(" " + rest) == Split(rest);
    }
  }
}
