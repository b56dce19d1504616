// The truncated text component: text longer than `maxLength` (20 unless
// given) is cut to that many characters followed by "...", and the full
// text shows in a tooltip while the pointer hovers over it. JavaScript
// measures and cuts the text in UTF-16 code units, so what the element shows
// is a sequence of code units. The component's two state slots are a
// `TruncatedState`; the length check runs in an effect once the element is
// mounted, and the pointer handlers set the tooltip flag.
module TruncatedText {
  import opened Wrappers
  import JsString

  type CodeUnit = JsString.CodeUnit

  const DefaultMaxLength: int := 20
  const Ellipsis: string := "..."

  datatype TruncatedState = TruncatedState(isTooltipVisible: bool, isOverflowing: bool)

  /** Both `useState(false)`. */
  const Initial: TruncatedState := TruncatedState(false, false)

  /** `text.length > maxLength`, the length counted in code units. */
  predicate Overflows(text: string, maxLength: int)
  {
    JsString.Length(text) > maxLength
  }

  /** `substring(0, end)` on code units: the end is clamped into the string's range. */
  function Prefix(units: seq<CodeUnit>, end: int): (r: seq<CodeUnit>)
    ensures |r| == if end <= 0 then 0 else if end >= |units| then |units| else end
    ensures r == units[..|r|]
  {
    if end <= 0 then [] else if end >= |units| then units else units[..end]
  }

  /** The effect, run while the element is mounted: store whether the text overflows. */
  function Measure(s: TruncatedState, mounted: bool, text: string, maxLength: int): (r: TruncatedState)
    ensures mounted ==> r.isOverflowing == Overflows(text, maxLength)
    ensures !mounted ==> r == s
    ensures r.isTooltipVisible == s.isTooltipVisible
  {
    if mounted then s.(isOverflowing := Overflows(text, maxLength)) else s
  }

  /** `onMouseEnter`: the tooltip opens only over overflowing text. */
  function MouseEnter(s: TruncatedState): (r: TruncatedState)
    ensures r.isOverflowing == s.isOverflowing
    ensures r.isTooltipVisible == (s.isTooltipVisible || s.isOverflowing)
  {
    if s.isOverflowing then s.(isTooltipVisible := true) else s
  }

  /** `onMouseLeave`. */
  function MouseLeave(s: TruncatedState): (r: TruncatedState)
    ensures !r.isTooltipVisible && r.isOverflowing == s.isOverflowing
  {
    s.(isTooltipVisible := false)
  }

  /** `truncatedText`: the code units the element shows. */
  function Displayed(s: TruncatedState, text: string, maxLength: int): seq<CodeUnit>
  {
    if s.isOverflowing then Prefix(JsString.Utf16(text), maxLength) + JsString.Utf16(Ellipsis)
    else JsString.Utf16(text)
  }

  /** The tooltip renders only while both flags are set. */
  predicate TooltipShown(s: TruncatedState)
  {
    s.isTooltipVisible && s.isOverflowing
  }

  /**
   * Once measured, text over the limit shows as its first `maxLength` code
   * units and "...", and text within it shows unchanged.
   */
  lemma DisplayedAfterMeasure(s: TruncatedState, text: string, maxLength: int)
    ensures var d := Displayed(Measure(s, true, text, maxLength), text, maxLength);
      && (Overflows(text, maxLength) && maxLength >= 0 ==>
            |d| == maxLength + 3 && d == JsString.Utf16(text)[..maxLength] + JsString.Utf16(Ellipsis))
      && (!Overflows(text, maxLength) ==> d == JsString.Utf16(text))
  {
    assert JsString.Utf16(Ellipsis) == [46, 46, 46];
  }

  /**
   * For text without characters above U+FFFF the cut falls between
   * characters: an overflowing text shows as its first `maxLength`
   * characters and "...".
   */
  lemma DisplayedBmp(s: TruncatedState, text: string, maxLength: nat)
    requires forall i :: 0 <= i < |text| ==> text[i] as int < 0x1_0000
    requires Overflows(text, maxLength)
    ensures maxLength < |text|
    ensures Displayed(Measure(s, true, text, maxLength), text, maxLength) == JsString.Utf16(text[..maxLength] + Ellipsis)
  {
    JsString.Utf16Bmp(text);
    var a, b := text[..maxLength], text[maxLength..];
    assert text == a + b;
    JsString.Utf16Append(a, b);
    JsString.Utf16Bmp(a);
    JsString.Utf16Append(a, Ellipsis);
  }

  /**
   * When a character above U+FFFF straddles the limit, the cut keeps only
   * the first half of its surrogate pair: what the element shows is not the
   * encoding of any string.
   */
  lemma CutSplitsPair(text: string, k: nat, maxLength: int)
    requires k < |text| && text[k] as int >= 0x1_0000
    requires JsString.Length(text[..k]) + 1 == maxLength
    ensures Overflows(text, maxLength)
    ensures JsString.FromUtf16(Displayed(Measure(Initial, true, text, maxLength), text, maxLength)) == None
  {
    var a, c, b := text[..k], text[k], text[k + 1..];
    var e := JsString.Utf16Char(c);
    var units := JsString.Utf16(text);
    UnitsAround(text, k);
    PrefixEndsInHalf(JsString.Utf16(a), e, JsString.Utf16(b), maxLength);
    assert Displayed(Measure(Initial, true, text, maxLength), text, maxLength)
      == (JsString.Utf16(a) + [e[0]]) + JsString.Utf16(Ellipsis);
    JsString.AppendAssoc(JsString.Utf16(a), [e[0]], JsString.Utf16(Ellipsis));
    JsString.FromUtf16Prepend(a, [e[0]] + JsString.Utf16(Ellipsis));
    LoneHighSurrogate(e[0]);
  }

  /** The units of text are those before character k, then its own, then those after it. */
  lemma UnitsAround(text: string, k: nat)
    requires k < |text|
    ensures JsString.Utf16(text)
      == JsString.Utf16(text[..k]) + (JsString.Utf16Char(text[k]) + JsString.Utf16(text[k + 1..]))
  {
    var a, t := text[..k], text[k..];
    assert text == a + t;
    JsString.Utf16Append(a, t);
    assert t[0] == text[k] && t[1..] == text[k + 1..];
    assert JsString.Utf16(t) == JsString.Utf16Char(t[0]) + JsString.Utf16(t[1..]);
  }

  /** Cutting one unit into a pair keeps the first half of the pair. */
  lemma PrefixEndsInHalf(x: seq<CodeUnit>, e: seq<CodeUnit>, y: seq<CodeUnit>, n: int)
    requires |e| == 2 && n == |x| + 1
    ensures Prefix(x + (e + y), n) == x + [e[0]]
  {
    assert (x + (e + y))[..n] == x + [e[0]];
  }

  /** A high surrogate followed by the ellipsis does not decode. */
  lemma LoneHighSurrogate(h: CodeUnit)
    requires JsString.IsHighSurrogate(h)
    ensures JsString.FromUtf16([h] + JsString.Utf16(Ellipsis)) == None
  {
    assert JsString.Utf16(Ellipsis) == [46, 46, 46];
    assert ([h] + [46, 46, 46])[1] == 46;
  }

  /** With the default limit, a text of 21 code units is cut to its first 20 and the ellipsis. */
  lemma DefaultLimit(text: string)
    requires JsString.Length(text) == 21
    ensures Displayed(Measure(Initial, true, text, DefaultMaxLength), text, DefaultMaxLength)
      == JsString.Utf16(text)[..20] + JsString.Utf16("...")
  {
  }

  /** Hovering shows the tooltip exactly when the text overflows; leaving always hides it. */
  lemma TooltipOnHover(s: TruncatedState, text: string, maxLength: int)
    ensures TooltipShown(MouseEnter(Measure(s, true, text, maxLength))) <==> Overflows(text, maxLength)
    ensures !TooltipShown(MouseLeave(s))
    ensures !TooltipShown(MouseEnter(Initial))
  {
  }

  /** A tooltip shows only for text that the last measurement found too long. */
  lemma TooltipOnlyOverOverflow(s: TruncatedState, text: string, maxLength: int)
    requires TooltipShown(Measure(s, true, text, maxLength))
    ensures Overflows(text, maxLength)
  {
  }
}
