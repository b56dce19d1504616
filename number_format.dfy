// JavaScript number-to-text conversions used by the time labels:
// `Number.prototype.toString` on integers, `String.prototype.padStart`,
// `Math.floor` and the truncating `%` operator, plus NaN.
module NumberFormat {
  /** A JavaScript number: NaN or a finite value (infinities are not modelled). */
  datatype JsNumber = NaN | Finite(value: real)

  function DigitChar(d: nat): (c: char)
    requires d < 10
    ensures '0' <= c <= '9'
  {
    ('0' as int + d) as char
  }

  predicate IsDigits(s: string)
  {
    forall i :: 0 <= i < |s| ==> '0' <= s[i] <= '9'
  }

  /** Decimal digits of n, no leading zero: `n.toString()` for a non-negative integer. */
  function NatToString(n: nat): (s: string)
    ensures |s| >= 1 && IsDigits(s)
    ensures |s| > 1 ==> s[0] != '0'
  {
    if n < 10 then [DigitChar(n)] else NatToString(n / 10) + [DigitChar(n % 10)]
  }

  /** The value of a string of decimal digits. */
  function ParseDigits(s: string): nat
    requires IsDigits(s)
  {
    if s == [] then 0 else ParseDigits(s[..|s| - 1]) * 10 + (s[|s| - 1] as int - '0' as int)
  }

  /** Reading the decimal text of n back gives n: the conversion loses nothing. */
  lemma {:induction false} ParseNatToString(n: nat)
    ensures ParseDigits(NatToString(n)) == n
  {
    if n >= 10 {
      ParseNatToString(n / 10);
      var s := NatToString(n);
      assert s[..|s| - 1] == NatToString(n / 10);
    }
  }

  /** `i.toString()` for an integer. */
  function IntToString(i: int): (s: string)
    ensures |s| >= 1
    ensures i < 0 <==> s[0] == '-'
  {
    if i < 0 then "-" + NatToString(-i) else NatToString(i)
  }

  function Repeat(c: char, n: nat): (r: string)
    ensures |r| == n && forall i :: 0 <= i < n ==> r[i] == c
  {
    if n == 0 then [] else [c] + Repeat(c, n - 1)
  }

  /** `s.padStart(len, c)`: c repeated in front of s until it is len long. */
  function PadStart(s: string, len: nat, c: char): (r: string)
    ensures |r| == if |s| >= len then |s| else len
    ensures r[|r| - |s|..] == s
    ensures forall i :: 0 <= i < |r| - |s| ==> r[i] == c
  {
    if |s| >= len then s else Repeat(c, len - |s|) + s
  }

  /** Truncation toward zero, the integer part JavaScript's `%` keeps. */
  function Trunc(x: real): int
  {
    if x >= 0.0 then x.Floor else -((-x).Floor)
  }

  /** JavaScript `a % b` on numbers: the remainder takes the sign of a. */
  function JsRem(a: real, b: real): real
    requires b != 0.0
  {
    a - b * Trunc(a / b) as real
  }

  /** For a non-negative dividend the JavaScript remainder is an ordinary modulus. */
  lemma JsRemNonNegative(a: real, b: real)
    requires a >= 0.0 && b > 0.0
    ensures 0.0 <= JsRem(a, b) < b
    ensures JsRem(a, b) == a - b * (a / b).Floor as real
  {
    var q := a / b;
    var f := q.Floor as real;
    assert Trunc(q) as real == f;
    assert f <= q < f + 1.0;
    assert a == b * q;
    var d := q - f;
    assert 0.0 <= d < 1.0;
    assert a - b * f == b * d;
    assert b * d < b by { assert b - b * d == b * (1.0 - d); }
    assert JsRem(a, b) == a - b * f;
  }

  /** `Math.floor(t / 60)`: the whole minutes of a time in seconds. */
  function WholeMinutes(t: real): int
  {
    (t / 60.0).Floor
  }

  /** `Math.floor(t % 60)`: the whole seconds past the minute. */
  function WholeSeconds(t: real): int
  {
    JsRem(t, 60.0).Floor
  }

  /** For a non-negative time, the minutes and the seconds below 60 make up its whole seconds. */
  lemma MinutesSecondsSplit(t: real)
    requires t >= 0.0
    ensures WholeMinutes(t) >= 0 && 0 <= WholeSeconds(t) < 60
    ensures WholeMinutes(t) * 60 + WholeSeconds(t) == t.Floor
  {
    JsRemNonNegative(t, 60.0);
    var m := WholeMinutes(t);
    assert JsRem(t, 60.0) == t - (60 * m) as real;
    assert WholeSeconds(t) == t.Floor - 60 * m;
  }

  /** Zeros in front do not change the value of a digit string. */
  lemma {:induction false} ParseLeadingZeros(z: string, s: string)
    requires IsDigits(s) && forall i :: 0 <= i < |z| ==> z[i] == '0'
    ensures IsDigits(z + s) && ParseDigits(z + s) == ParseDigits(s)
  {
    if s == [] {
      assert z + s == z;
      ParseZeros(z);
    } else {
      var init := s[..|s| - 1];
      ParseLeadingZeros(z, init);
      assert (z + s)[..|z + s| - 1] == z + init;
    }
  }

  lemma {:induction false} ParseZeros(z: string)
    requires forall i :: 0 <= i < |z| ==> z[i] == '0'
    ensures IsDigits(z) && ParseDigits(z) == 0
  {
    if z != [] {
      ParseZeros(z[..|z| - 1]);
    }
  }

  /** A zero-padded decimal reads back as the number. */
  lemma ParsePadded(n: nat, len: nat)
    ensures IsDigits(PadStart(NatToString(n), len, '0'))
    ensures ParseDigits(PadStart(NatToString(n), len, '0')) == n
  {
    var digits := NatToString(n);
    ParseNatToString(n);
    if |digits| < len {
      ParseLeadingZeros(Repeat('0', len - |digits|), digits);
    }
  }
}
