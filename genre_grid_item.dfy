// A reference track's card in the genre grid: its title with a trailing
// ".mp3" removed, and the disabled effect, modelled by the audio controls
// it calls. The play button calls `Audio.ToggleControl`.
module GenreGridItem {
  import opened JsString
  import Audio

  const Extension: string := "mp3"

  /** The string ends in a dot and "mp3" in any mix of cases: what `/\.mp3$/i` matches. */
  predicate EndsWithMp3(s: string)
  {
    |s| >= 4 && s[|s| - 4] == '.' && ToLower(s[|s| - 3..]) == Extension
  }

  /** `str.replace(/\.mp3$/i, '')`: the one match at the end, if there is one, is removed. */
  function RemoveMp3Extension(s: string): (r: string)
    ensures EndsWithMp3(s) ==> r + s[|s| - 4..] == s && |r| == |s| - 4
    ensures !EndsWithMp3(s) ==> r == s
  {
    if EndsWithMp3(s) then s[..|s| - 4] else s
  }

  /** The `[disabled]` effect: the controls it calls. */
  function DisabledEffect(disabled: bool): (cs: seq<Audio.Control>)
    ensures disabled ==> cs == [Audio.Pause]
    ensures !disabled ==> cs == []
  {
    if disabled then [Audio.Pause] else []
  }

  /** Upper-case extensions are stripped like lower-case ones. */
  lemma CaseInsensitive()
    ensures RemoveMp3Extension("Song.MP3") == "Song"
    ensures RemoveMp3Extension("Song.Mp3") == "Song"
    ensures RemoveMp3Extension("Song.mp3") == "Song"
    ensures RemoveMp3Extension("Song.wav") == "Song.wav"
    ensures RemoveMp3Extension("mp3") == "mp3"
  {
    assert ToLower("MP3") == "mp3";
    assert ToLower("Mp3") == "mp3";
    assert ToLower("mp3") == "mp3";
    assert ToLower("wav") == "wav";
  }

  /** Only one extension is removed, so removing twice differs from removing once. */
  lemma NotIdempotent()
    ensures RemoveMp3Extension("a.mp3.mp3") == "a.mp3"
    ensures RemoveMp3Extension(RemoveMp3Extension("a.mp3.mp3")) == "a"
  {
    assert ToLower("mp3") == "mp3";
    assert "a.mp3.mp3"[..5] == "a.mp3";
    assert "a.mp3"[..1] == "a";
  }
}
