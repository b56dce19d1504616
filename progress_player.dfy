// The compact progress player: the fraction of the track played, the
// `M:SS` time labels and the unmount cleanup. The audio state (seek and
// duration in seconds, whether it plays) comes from the audio hook and is
// taken as given; the handlers are modelled by the control they call, and
// the play/pause button calls `Audio.ToggleControl`. Seek and duration are
// exact reals here, where the component computes with doubles.
module ProgressPlayer {
  import NumberFormat
  import Audio

  /** `played`: seek over duration, or 0 while the duration is unknown. */
  function Played(seek: real, duration: real): (r: real)
    ensures duration <= 0.0 ==> r == 0.0
    ensures duration > 0.0 ==> r * duration == seek
    ensures duration > 0.0 && 0.0 <= seek <= duration ==> 0.0 <= r <= 1.0
  {
    if duration > 0.0 then seek / duration else 0.0
  }

  /** `formatTime`: unpadded whole minutes, a colon, seconds padded to two digits. */
  function FormatTime(seconds: real): string
  {
    NumberFormat.IntToString(NumberFormat.WholeMinutes(seconds)) + ":"
      + NumberFormat.PadStart(NumberFormat.IntToString(NumberFormat.WholeSeconds(seconds)), 2, '0')
  }

  /** The two labels under the bar: elapsed time and duration. */
  function TimeLabels(seek: real, duration: real): (string, string)
  {
    if duration > 0.0 then (FormatTime(Played(seek, duration) * duration), FormatTime(duration))
    else ("0:00", "0:00")
  }

  /** The cleanup of the mount effect: the controls called on unmount. */
  function UnmountControls(): (cs: seq<Audio.Control>)
    ensures cs == [Audio.Pause]
  {
    [Audio.Pause]
  }

  /**
   * For any time from zero up, the label is the decimal minutes, a colon
   * and two seconds digits; minutes times 60 plus the seconds is the whole
   * number of seconds.
   */
  lemma FormatTimeShape(t: real)
    requires t >= 0.0
    ensures ReadsAsSeconds(FormatTime(t), t.Floor)
  {
    NumberFormat.MinutesSecondsSplit(t);
    var m := NumberFormat.WholeMinutes(t);
    var s := NumberFormat.WholeSeconds(t);
    var a := NumberFormat.IntToString(m);
    var b := NumberFormat.PadStart(NumberFormat.IntToString(s), 2, '0');
    assert a == NumberFormat.NatToString(m);
    NumberFormat.ParseNatToString(m);
    SecondsReadBack(s);
    var r := FormatTime(t);
    assert r == a + ":" + b;
    Fields(a, b);
    assert |r| >= 4 && r[|r| - 3] == ':';
    assert r[..|r| - 3] == a && r[|r| - 2..] == b;
    assert NumberFormat.IsDigits(a) && NumberFormat.IsDigits(b);
    assert NumberFormat.ParseDigits(a) * 60 + NumberFormat.ParseDigits(b) == m * 60 + s;
  }

  /**
   * r is a minutes-and-seconds label: digits, a colon and two seconds digits
   * below 60, where minutes times 60 plus the seconds make `total`.
   */
  predicate ReadsAsSeconds(r: string, total: int)
  {
    && |r| >= 4 && r[|r| - 3] == ':'
    && NumberFormat.IsDigits(r[..|r| - 3]) && NumberFormat.IsDigits(r[|r| - 2..])
    && NumberFormat.ParseDigits(r[..|r| - 3]) * 60 + NumberFormat.ParseDigits(r[|r| - 2..]) == total
    && NumberFormat.ParseDigits(r[|r| - 2..]) < 60
  }

  lemma SecondsReadBack(s: int)
    requires 0 <= s < 60
    ensures |NumberFormat.PadStart(NumberFormat.IntToString(s), 2, '0')| == 2
    ensures NumberFormat.IsDigits(NumberFormat.PadStart(NumberFormat.IntToString(s), 2, '0'))
    ensures NumberFormat.ParseDigits(NumberFormat.PadStart(NumberFormat.IntToString(s), 2, '0')) == s
  {
    NumberFormat.ParsePadded(s, 2);
    if s >= 10 {
      assert NumberFormat.NatToString(s) == NumberFormat.NatToString(s / 10) + [NumberFormat.DigitChar(s % 10)];
    }
  }

  lemma Fields(a: string, b: string)
    requires |a| >= 1 && |b| == 2
    ensures |a + ":" + b| == |a| + 3 && (a + ":" + b)[|a|] == ':'
    ensures (a + ":" + b)[..|a|] == a && (a + ":" + b)[|a| + 1..] == b
    ensures (a + ":" + b)[|a + ":" + b| - 3] == ':'
    ensures (a + ":" + b)[..|a + ":" + b| - 3] == a && (a + ":" + b)[|a + ":" + b| - 2..] == b
  {
    var r := a + ":" + b;
    assert |r| - 3 == |a| && |r| - 2 == |a| + 1;
  }

  /** Without a known duration both labels read 0:00; at the start of a known track the first one does. */
  lemma LabelsAtStart(seek: real, duration: real)
    ensures duration <= 0.0 ==> TimeLabels(seek, duration) == ("0:00", "0:00")
    ensures duration > 0.0 && 0.0 <= seek < 1.0 ==> TimeLabels(seek, duration).0 == "0:00"
  {
    if duration > 0.0 && 0.0 <= seek < 1.0 {
      assert Played(seek, duration) * duration == seek;
      assert NumberFormat.WholeMinutes(seek) == 0 by {
        assert 0.0 <= seek / 60.0 < 1.0;
      }
      NumberFormat.MinutesSecondsSplit(seek);
      assert NumberFormat.WholeSeconds(seek) == 0;
      assert NumberFormat.IntToString(0) == "0";
    }
  }

  /** The elapsed label shows the seek position itself. */
  lemma ElapsedLabelIsSeek(seek: real, duration: real)
    requires duration > 0.0
    ensures TimeLabels(seek, duration).0 == FormatTime(seek)
  {
    assert Played(seek, duration) * duration == seek;
  }
}
