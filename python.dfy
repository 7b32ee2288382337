/**
 * The few Python built-ins whose exact behaviour the drawing and colour code
 * depends on: `round` on a number, `str` on an integer, string slicing with
 * clamped bounds, and floor division by a positive divisor.
 *
 * Numbers are exact reals here; the rounding of Python floats before `round`
 * sees them is not modelled.
 */
module Python {

  /** Python 3 `round(x)`: the nearest integer, ties going to the even neighbour. */
  function Round(x: real): (r: int)
    ensures x - 0.5 <= r as real <= x + 0.5
    ensures (r as real == x - 0.5 || r as real == x + 0.5) ==> r % 2 == 0
  {
    var f := x.Floor;
    var d := x - f as real;
    if d < 0.5 then f
    else if d > 0.5 then f + 1
    else if f % 2 == 0 then f
    else f + 1
  }

  /** The two clauses of Round's contract pick out exactly one integer. */
  lemma RoundUnique(x: real, a: int, b: int)
    requires x - 0.5 <= a as real <= x + 0.5
    requires (a as real == x - 0.5 || a as real == x + 0.5) ==> a % 2 == 0
    requires x - 0.5 <= b as real <= x + 0.5
    requires (b as real == x - 0.5 || b as real == x + 0.5) ==> b % 2 == 0
    ensures a == b
  {
    assert a as real - b as real <= 1.0 && b as real - a as real <= 1.0;
  }

  /**
   * Shifting the argument by an EVEN integer shifts the rounded value by the
   * same amount. An odd shift does not commute with ties-to-even rounding
   * (see RoundOddShiftCounterexample).
   */
  lemma RoundShiftEven(n: int, x: real)
    requires n % 2 == 0
    ensures Round(n as real + x) == n + Round(x)
  {
    var r := Round(x);
    var s := n + r;
    assert (s % 2 == 0) == (r % 2 == 0);
    RoundUnique(n as real + x, Round(n as real + x), s);
  }

  lemma RoundOddShiftCounterexample()
    ensures Round(1.0 + 0.5) != 1 + Round(0.5)
  {
    assert Round(0.5) == 0;
    assert Round(1.5) == 2;
  }

  /** Python slicing `s[i:j]` for non-negative bounds: both ends are clamped to the length. */
  function Slice(s: string, i: nat, j: nat): (r: string)
    requires i <= j
    ensures |r| == (if j <= |s| then j - i else if i <= |s| then |s| - i else 0)
    ensures forall k :: 0 <= k < |r| ==> r[k] == s[i + k]
  {
    if |s| <= i then [] else if |s| <= j then s[i..] else s[i..j]
  }

  /** A slice of a slice is a slice of the original string. */
  lemma SliceOfSlice(s: string, i: nat, j: nat, a: nat, b: nat)
    requires i <= j && a <= b && i + b <= j
    ensures Slice(Slice(s, i, j), a, b) == Slice(s, i + a, i + b)
  {
    var l, r := Slice(Slice(s, i, j), a, b), Slice(s, i + a, i + b);
    assert |l| == |r|;
    forall k | 0 <= k < |l| ensures l[k] == r[k] { }
  }

  function DigitChar(d: nat): (c: char)
    requires d < 10
    ensures '0' <= c <= '9'
  {
    "0123456789"[d]
  }

  /** Decimal digits of a natural number, most significant first, without leading zeros. */
  function Digits(n: nat): (s: string)
    ensures |s| > 0
    ensures forall k :: 0 <= k < |s| ==> '0' <= s[k] <= '9'
    ensures |s| > 1 ==> s[0] != '0'
  {
    if n < 10 then [DigitChar(n)] else Digits(n / 10) + [DigitChar(n % 10)]
  }

  /** Python `str(n)` for an integer: an optional minus sign followed by decimal digits. */
  function Str(n: int): (s: string)
    ensures StrShape(s)
    ensures s[0] == '-' <==> n < 0
  {
    if n < 0 then
      var d := Digits(-n);
      assert forall k :: 1 <= k < |"-" + d| ==> ("-" + d)[k] == d[k - 1];
      "-" + d
    else Digits(n)
  }

  /** The value of a non-empty string of decimal digits. */
  function DigitsValue(s: string): nat
    requires forall k :: 0 <= k < |s| ==> '0' <= s[k] <= '9'
  {
    if s == [] then 0
    else 10 * DigitsValue(s[..|s| - 1]) + (s[|s| - 1] as int - '0' as int)
  }

  /** An optional minus sign followed by at least one decimal digit. */
  predicate StrShape(s: string)
  {
    && |s| > 0
    && (s[0] == '-' || '0' <= s[0] <= '9')
    && (s[0] == '-' ==> |s| > 1)
    && forall k :: 1 <= k < |s| ==> '0' <= s[k] <= '9'
  }

  /** Python `int(s)` on what `str` produces: reads the sign and the digits back. */
  function ParseInt(s: string): int
    requires StrShape(s)
  {
    if s[0] == '-' then -(DigitsValue(s[1..]) as int) else DigitsValue(s)
  }

  lemma {:induction false} DigitsRoundTrip(n: nat)
    ensures DigitsValue(Digits(n)) == n
  {
    if n >= 10 {
      DigitsRoundTrip(n / 10);
      var s := Digits(n);
      assert s[..|s| - 1] == Digits(n / 10);
    }
  }

  /** `str` loses nothing: the integer can be read back from its text. */
  lemma StrRoundTrip(n: int)
    ensures StrShape(Str(n))
    ensures ParseInt(Str(n)) == n
  {
    var s := Str(n);
    if n < 0 {
      NegativeStr(n);
      DigitsRoundTrip(-n);
      assert ParseInt(s) == -(DigitsValue(s[1..]) as int);
    } else {
      assert s == Digits(n) && s[0] != '-';
      DigitsRoundTrip(n);
    }
  }

  /** A negative number prints as a minus sign followed by the digits of its magnitude. */
  lemma NegativeStr(n: int)
    requires n < 0
    ensures StrShape(Str(n)) && Str(n)[0] == '-' && Str(n)[1..] == Digits(-n)
  {
    var s, d := Str(n), Digits(-n);
    assert s == "-" + d;
    assert forall k :: 1 <= k < |s| ==> s[k] == d[k - 1];
  }

  /** Hence `str` is injective. */
  lemma StrInjective(m: int, n: int)
    requires Str(m) == Str(n)
    ensures m == n
  {
    StrRoundTrip(m);
    StrRoundTrip(n);
  }

  /** No integer prints as the placeholder "--": its second character would have to be a digit. */
  lemma StrIsNotDashes(n: int)
    ensures Str(n) != "--"
  {
    if n < 0 {
      assert Str(n)[1] == Digits(-n)[0];
    }
  }

  /** Python `a // b` for a positive divisor: the floor of the quotient. */
  function FloorDiv(a: int, b: int): (q: int)
    requires b > 0
    ensures b * q <= a < b * (q + 1)
  {
    a / b
  }
}
