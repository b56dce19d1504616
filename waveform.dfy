// The waveform audio player's deterministic parts: the seed taken from the
// audio URL, the linear congruential generator behind the 300 waveform
// points, the bar layout across the canvas width and the MM:SS time label.
// The points' floating-point amplitudes and the canvas drawing are not
// modelled; the generator's integer states are.
module Waveform {
  import NumberFormat
  import JsString

  const Points: nat := 300
  const DefaultSeed: nat := 12345
  const Multiplier: nat := 9301
  const Increment: nat := 49297
  const Modulus: nat := 233280

  /** The canvas spacing between bars (1.5 pixels) and each bar's width. */
  const SegmentWidth: real := 1.5
  const BarWidth: real := 1.0

  /** The sum of some code units. */
  function UnitSum(u: seq<JsString.CodeUnit>): nat
  {
    if u == [] then 0 else u[0] as nat + UnitSum(u[1..])
  }

  /**
   * `split('')` cuts a string into its UTF-16 code units and `charCodeAt(0)`
   * reads each, so the `reduce` sums the code units.
   */
  function CodeSum(s: string): nat
  {
    UnitSum(JsString.Utf16(s))
  }

  /** What one character adds to the sum: its code point, or both halves of its surrogate pair. */
  function CharSum(c: char): nat
  {
    UnitSum(JsString.Utf16Char(c))
  }

  /** Up to U+FFFF a character adds its code point; above it, its two halves, which never add up to the code point. */
  lemma CharSumCases(c: char)
    ensures c as int < 0x1_0000 ==> CharSum(c) == c as int
    ensures c as int >= 0x1_0000 ==>
      CharSum(c) == JsString.Utf16Char(c)[0] as int + JsString.Utf16Char(c)[1] as int && CharSum(c) != c as int
  {
    var u := JsString.Utf16Char(c);
    if |u| == 1 {
      assert UnitSum(u) == u[0] + UnitSum([]);
    } else {
      assert u[1..] == [u[1]] && UnitSum([u[1]]) == u[1] as nat + UnitSum([]);
      var q: int, r: int := u[0] as int - 0xD800, u[1] as int - 0xDC00;
      assert 0 <= q < 0x400 && 0 <= r < 0x400;
      assert q * 0x400 + r + 0x1_0000 == c as int;
      if q <= 44 {
        assert 1023 * q <= 1023 * 44;
      } else {
        assert 1023 * q >= 1023 * 45;
      }
    }
  }

  /** The seed: the URL's code sum, or 12345 for an empty URL. */
  function Seed(url: string): nat
  {
    if url == "" then DefaultSeed else CodeSum(url)
  }

  /** One generator step. */
  function Next(v: nat): (r: nat)
    ensures r < Modulus
  {
    (v * Multiplier + Increment) % Modulus
  }

  /** The next n generator states after v: the values behind n calls of `random()`. */
  function States(v: nat, n: nat): (r: seq<nat>)
    ensures |r| == n
    ensures forall i :: 0 <= i < n ==> r[i] < Modulus
    decreases n
  {
    if n == 0 then [] else [Next(v)] + States(Next(v), n - 1)
  }

  /** `waveformData`: the closure's `value` stepped 300 times, each state kept. */
  method WaveformStates(url: string) returns (states: seq<nat>)
    ensures states == States(Seed(url), Points)
    ensures |states| == Points && forall i :: 0 <= i < |states| ==> states[i] < Modulus
  {
    var value: nat := if url == "" then DefaultSeed else CodeSum(url);
    states := [];
    var k := 0;
    while k < Points
      invariant 0 <= k <= Points
      invariant states + States(value, Points - k) == States(Seed(url), Points)
    {
      ghost var rest := States(Next(value), Points - k - 1);
      assert States(value, Points - k) == [Next(value)] + rest;
      assert states + ([Next(value)] + rest) == (states + [Next(value)]) + rest;
      value := (value * Multiplier + Increment) % Modulus;
      states := states + [value];
      k := k + 1;
    }
  }

  lemma {:induction false} UnitSumAppend(a: seq<JsString.CodeUnit>, b: seq<JsString.CodeUnit>)
    ensures UnitSum(a + b) == UnitSum(a) + UnitSum(b)
  {
    if a == [] {
      assert a + b == b;
    } else {
      assert (a + b)[1..] == a[1..] + b;
      UnitSumAppend(a[1..], b);
    }
  }

  lemma CodeSumAppend(a: string, b: string)
    ensures CodeSum(a + b) == CodeSum(a) + CodeSum(b)
  {
    JsString.Utf16Append(a, b);
    UnitSumAppend(JsString.Utf16(a), JsString.Utf16(b));
  }

  lemma CodeSumCons(c: char, s: string)
    ensures CodeSum([c] + s) == CharSum(c) + CodeSum(s)
  {
    assert JsString.Utf16([c] + s) == JsString.Utf16Char(c) + JsString.Utf16(s);
    UnitSumAppend(JsString.Utf16Char(c), JsString.Utf16(s));
  }

  /** A character above U+FFFF adds its two surrogate halves: U+1F600 adds 55357 + 56832, not 128512. */
  lemma SurrogateHalvesSummed()
    ensures CodeSum("\U{1F600}") == 55357 + 56832
  {
    var c := '\U{1F600}';
    assert JsString.Utf16Char(c) == [55357, 56832];
    assert JsString.Utf16([c]) == JsString.Utf16Char(c) + JsString.Utf16([]);
  }

  /** The string without its character at k. */
  function RemoveAt(b: string, k: nat): (r: string)
    requires k < |b|
    ensures |r| == |b| - 1
  {
    b[..k] + b[k + 1..]
  }

  /** Taking out the character at k takes its code out of the sum. */
  lemma CodeSumRemove(b: string, k: nat)
    requires k < |b|
    ensures CodeSum(b) == CharSum(b[k]) + CodeSum(RemoveAt(b, k))
  {
    var pre, at, post := b[..k], [b[k]] + b[k + 1..], b[k + 1..];
    assert b == pre + at;
    CodeSumCons(b[k], post);
    CodeSumAppend(pre, at);
    CodeSumAppend(pre, post);
    assert RemoveAt(b, k) == pre + post;
  }

  lemma MultisetRemove(b: string, k: nat)
    requires k < |b|
    ensures multiset(RemoveAt(b, k)) == multiset(b) - multiset{b[k]}
  {
    assert b == b[..k] + [b[k]] + b[k + 1..];
  }

  /** The code sum depends only on which characters occur how often, not on their order. */
  lemma {:induction false} CodeSumPermutation(a: string, b: string)
    requires multiset(a) == multiset(b)
    ensures CodeSum(a) == CodeSum(b)
    decreases |a|
  {
    if a == [] {
      assert |b| == |multiset(b)| == 0;
      assert JsString.Utf16(b) == [];
    } else {
      assert a[0] in multiset(b);
      var k :| 0 <= k < |b| && b[k] == a[0];
      MultisetRemove(b, k);
      MultisetRemove(a, 0);
      CodeSumPermutation(RemoveAt(a, 0), RemoveAt(b, k));
      CodeSumRemove(b, k);
      CodeSumRemove(a, 0);
    }
  }

  /** Two non-empty URLs made of the same characters in another order draw the same waveform. */
  lemma SameCharactersSameWaveform(u: string, v: string)
    requires u != "" && v != "" && multiset(u) == multiset(v)
    ensures States(Seed(u), Points) == States(Seed(v), Points)
  {
    CodeSumPermutation(u, v);
  }

  // ---------------------------------------------------------------- bars

  /** `Math.floor(width / 1.5)` bars fit the canvas. */
  function BarCount(width: real): int
  {
    (width / SegmentWidth).Floor
  }

  /** `Math.floor((i / totalBars) * 300)`: the point bar i shows. */
  function DataIndex(i: nat, totalBars: nat): nat
    requires i < totalBars
  {
    assert (i as real / totalBars as real) * Points as real >= 0.0;
    ((i as real / totalBars as real) * Points as real).Floor as nat
  }

  /** Every bar reads an existing waveform point. */
  lemma DataIndexInRange(i: nat, totalBars: nat)
    requires i < totalBars
    ensures DataIndex(i, totalBars) < Points
  {
    var q := i as real / totalBars as real;
    assert q < 1.0 by {
      assert q * totalBars as real == i as real;
    }
    assert q * Points as real < Points as real;
  }

  datatype Bar = Bar(x: real, width: real, dataIndex: nat)

  /** The bar loop: bar i at x = 1.5 i, one pixel wide, showing point `DataIndex(i, n)`. */
  method LayoutBars(width: real) returns (bars: seq<Bar>)
    requires width >= 0.0
    ensures |bars| == BarCount(width)
    ensures forall i :: 0 <= i < |bars| ==>
      bars[i] == Bar(i as real * SegmentWidth, BarWidth, DataIndex(i, |bars|)) && bars[i].dataIndex < Points
  {
    var totalBars := (width / SegmentWidth).Floor;
    assert totalBars >= 0;
    bars := [];
    var i := 0;
    while i < totalBars
      invariant 0 <= i <= totalBars && |bars| == i
      invariant forall k :: 0 <= k < i ==>
        bars[k] == Bar(k as real * SegmentWidth, BarWidth, DataIndex(k, totalBars)) && bars[k].dataIndex < Points
    {
      DataIndexInRange(i, totalBars);
      bars := bars + [Bar(i as real * SegmentWidth, BarWidth, DataIndex(i, totalBars))];
      i := i + 1;
    }
  }

  // ---------------------------------------------------------------- time label

  /** A JavaScript number as far as the label needs it: NaN or a finite value. */
  datatype JsNumber = NaN | Finite(value: real)

  /** Two digits at least: `n.toString().padStart(2, '0')`. */
  function TwoDigits(n: int): string
  {
    NumberFormat.PadStart(NumberFormat.IntToString(n), 2, '0')
  }

  /** `formatTime`: "00:00" for NaN, else zero-padded whole minutes and seconds. */
  function FormatTime(t: JsNumber): string
  {
    match t
    case NaN => "00:00"
    case Finite(v) => TwoDigits(NumberFormat.WholeMinutes(v)) + ":" + TwoDigits(NumberFormat.WholeSeconds(v))
  }

  /** A number below 100 pads to two digits that read back as the number. */
  lemma TwoDigitsReadBack(n: int)
    requires 0 <= n < 100
    ensures |TwoDigits(n)| == 2
    ensures NumberFormat.IsDigits(TwoDigits(n)) && NumberFormat.ParseDigits(TwoDigits(n)) == n
  {
    ShortNumber(n);
    NumberFormat.ParsePadded(n, 2);
  }

  /**
   * For a time from 0 up to 100 minutes the label is five characters,
   * MM:SS, whose two fields read back as the whole minutes and the seconds
   * below 60.
   */
  lemma FormatTimeShape(t: real)
    requires 0.0 <= t < 6000.0
    ensures |FormatTime(Finite(t))| == 5 && FormatTime(Finite(t))[2] == ':'
    ensures NumberFormat.IsDigits(FormatTime(Finite(t))[..2]) && NumberFormat.IsDigits(FormatTime(Finite(t))[3..])
    ensures NumberFormat.ParseDigits(FormatTime(Finite(t))[..2]) == NumberFormat.WholeMinutes(t)
    ensures NumberFormat.ParseDigits(FormatTime(Finite(t))[3..]) == NumberFormat.WholeSeconds(t)
    ensures 0 <= NumberFormat.WholeSeconds(t) < 60
  {
    NumberFormat.MinutesSecondsSplit(t);
    MinutesBelowHundred(t);
    TwoDigitsReadBack(NumberFormat.WholeMinutes(t));
    TwoDigitsReadBack(NumberFormat.WholeSeconds(t));
    Fields(TwoDigits(NumberFormat.WholeMinutes(t)), TwoDigits(NumberFormat.WholeSeconds(t)));
  }

  lemma MinutesBelowHundred(t: real)
    requires 0.0 <= t < 6000.0
    ensures NumberFormat.WholeMinutes(t) < 100
  {
    assert t / 60.0 < 100.0;
  }

  lemma Fields(a: string, b: string)
    requires |a| == 2 && |b| == 2
    ensures |a + ":" + b| == 5 && (a + ":" + b)[2] == ':'
    ensures (a + ":" + b)[..2] == a && (a + ":" + b)[3..] == b
  {
  }

  lemma ShortNumber(n: nat)
    requires n < 100
    ensures |NumberFormat.NatToString(n)| <= 2
  {
    if n >= 10 {
      assert NumberFormat.NatToString(n) == NumberFormat.NatToString(n / 10) + [NumberFormat.DigitChar(n % 10)];
    }
  }
}
