// The audio player: one player per URL in a registry, each wrapping a
// sound object, with exclusive playback (starting one player pauses every
// other playing one). The sound object is opaque; the model keeps what the
// player has told it (playing, volume, loop, the last seek, whether it has
// loaded). Each player operation is a transition on `PlayerFields`; the
// player's methods apply them. The sound's own asynchronous play, pause,
// stop and end callbacks are not modelled; its load callback is.
module Audio {
  import opened Wrappers

  /** What the player has set on its sound object. */
  datatype Sound = Sound(playing: bool, volume: real, loop: bool, lastSeek: Option<real>, loaded: bool)

  /** The optional fields of an `AudioState` argument; an absent key is `None`. */
  datatype AudioState = AudioState(isPlaying: Option<bool>, seek: Option<real>, volume: Option<real>,
                                   loop: Option<bool>, muted: Option<bool>)

  const NoState: AudioState := AudioState(None, None, None, None, None)

  /** A player's mutable fields; `pendingLoad` is the merged state its load callback closes over. */
  datatype PlayerFields = PlayerFields(sound: Option<Sound>, isPlaying: bool, duration: real, volume: real,
                                       loop: bool, muted: bool, pendingLoad: Option<AudioState>)

  /** A new player: no sound, not playing, duration 0, volume 1, no loop, not muted. */
  const NewPlayer: PlayerFields := PlayerFields(None, false, 0.0, 1.0, false, false, None)

  /**
   * The two controls of the audio hook that the player components' buttons
   * and effects call: `play()` without a state, and `pause()`.
   */
  datatype Control = Play | Pause

  /** The handler of a play/pause button: pause while playing, play otherwise. */
  function ToggleControl(isPlaying: bool): (c: Control)
    ensures c == Pause <==> isPlaying
  {
    if isPlaying then Pause else Play
  }

  /** What `getState` reports. */
  datatype PlayerState = PlayerState(url: string, isPlaying: bool, seek: real, duration: real,
                                     volume: real, loop: bool, muted: bool)

  /** The volume handed to the sound: 0 when muted, else the stored volume. */
  function EffectiveVolume(muted: bool, volume: real): (v: real)
    ensures muted ==> v == 0.0
    ensures !muted ==> v == volume
  {
    if muted then 0.0 else volume
  }

  /** `play`'s merged state: the defaults (not playing, seek 0, volume 1, no loop, not muted) under the given keys. */
  function Merged(s: AudioState): (m: AudioState)
    ensures m.isPlaying.Some? && m.seek.Some? && FullState(m)
    ensures s.isPlaying.Some? ==> m.isPlaying == s.isPlaying
    ensures s.seek.Some? ==> m.seek == s.seek
    ensures s.volume.Some? ==> m.volume == s.volume
    ensures s.loop.Some? ==> m.loop == s.loop
    ensures s.muted.Some? ==> m.muted == s.muted
    ensures s.isPlaying.None? ==> m.isPlaying == Some(false)
    ensures s.seek.None? ==> m.seek == Some(0.0)
    ensures s.volume.None? ==> m.volume == Some(1.0)
    ensures s.loop.None? ==> m.loop == Some(false)
    ensures s.muted.None? ==> m.muted == Some(false)
  {
    AudioState(Some(s.isPlaying.UnwrapOr(false)), Some(s.seek.UnwrapOr(0.0)), Some(s.volume.UnwrapOr(1.0)),
               Some(s.loop.UnwrapOr(false)), Some(s.muted.UnwrapOr(false)))
  }

  /** The sound has the player's effective volume. */
  predicate VolumeInSync(f: PlayerFields)
  {
    f.sound.Some? ==> f.sound.value.volume == EffectiveVolume(f.muted, f.volume)
  }

  /** The sound has the player's loop flag. */
  predicate LoopInSync(f: PlayerFields)
  {
    f.sound.Some? ==> f.sound.value.loop == f.loop
  }

  /** Two field sets that agree on everything but the volume, mute, loop and sound settings. */
  predicate SameShape(f: PlayerFields, r: PlayerFields)
  {
    r.sound.Some? == f.sound.Some? && r.isPlaying == f.isPlaying && r.duration == f.duration &&
    r.pendingLoad == f.pendingLoad &&
    (f.sound.Some? ==> r.sound.value.playing == f.sound.value.playing && r.sound.value.loaded == f.sound.value.loaded)
  }

  /** `updateVolume`: with a sound, hand it the effective volume. */
  function UpdateVolume(f: PlayerFields): (r: PlayerFields)
    ensures SameShape(f, r) && VolumeInSync(r) && LoopInSync(r) == LoopInSync(f)
    ensures r.volume == f.volume && r.muted == f.muted && r.loop == f.loop
  {
    if f.sound.Some? then f.(sound := Some(f.sound.value.(volume := EffectiveVolume(f.muted, f.volume)))) else f
  }

  /** `updateState`'s loop key: the player's flag and the sound's. */
  function ApplyLoop(f: PlayerFields, loop: bool): (r: PlayerFields)
    requires f.sound.Some?
    ensures SameShape(f, r) && LoopInSync(r) && VolumeInSync(r) == VolumeInSync(f)
    ensures r.loop == loop && r.volume == f.volume && r.muted == f.muted
  {
    f.(loop := loop, sound := Some(f.sound.value.(loop := loop)))
  }

  /** `updateState`'s seek key: forwarded only when it does not pass the duration. */
  function ApplySeek(f: PlayerFields, seek: Option<real>): (r: PlayerFields)
    requires f.sound.Some?
    ensures SameShape(f, r) && LoopInSync(r) == LoopInSync(f) && VolumeInSync(r) == VolumeInSync(f)
    ensures r.loop == f.loop && r.volume == f.volume && r.muted == f.muted
    ensures r.sound.value.volume == f.sound.value.volume && r.sound.value.loop == f.sound.value.loop
    ensures seek.Some? && seek.value <= f.duration ==> r.sound.value.lastSeek == seek
    ensures !(seek.Some? && seek.value <= f.duration) ==> r == f
  {
    if seek.Some? && seek.value <= f.duration then f.(sound := Some(f.sound.value.(lastSeek := seek))) else f
  }

  /** Every key `updateState` would apply to a loaded sound is given. */
  predicate FullState(s: AudioState)
  {
    s.volume.Some? && s.muted.Some? && s.loop.Some?
  }

  /**
   * `updateState`: nothing without a sound; otherwise each defined key is
   * applied in turn (loop, volume, muted), and a seek is forwarded only when
   * it does not pass the duration.
   */
  function UpdateState(f: PlayerFields, s: AudioState): (r: PlayerFields)
    ensures SameShape(f, r)
    ensures f.sound.None? ==> r == f
    ensures f.sound.Some? && FullState(s) ==> VolumeInSync(r) && LoopInSync(r)
    ensures VolumeInSync(f) && LoopInSync(f) ==> VolumeInSync(r) && LoopInSync(r)
    ensures f.sound.Some? && FullState(s) ==>
      r.loop == s.loop.value && r.volume == s.volume.value && r.muted == s.muted.value
  {
    if f.sound.None? then f
    else
      var f1 := if s.loop.Some? then ApplyLoop(f, s.loop.value) else f;
      var f2 := if s.volume.Some? then UpdateVolume(f1.(volume := s.volume.value)) else f1;
      var f3 := if s.muted.Some? then UpdateVolume(f2.(muted := s.muted.value)) else f2;
      ApplySeek(f3, s.seek)
  }

  /**
   * With a sound, each key of the state that is given replaces the player's
   * setting and each absent key leaves it; the seek reaches the sound exactly
   * when it is given and does not pass the duration.
   */
  lemma UpdateStateKeys(f: PlayerFields, s: AudioState)
    requires f.sound.Some?
    ensures UpdateState(f, s).loop == (if s.loop.Some? then s.loop.value else f.loop)
    ensures UpdateState(f, s).volume == (if s.volume.Some? then s.volume.value else f.volume)
    ensures UpdateState(f, s).muted == (if s.muted.Some? then s.muted.value else f.muted)
  {
  }

  lemma UpdateStateSeek(f: PlayerFields, s: AudioState)
    requires f.sound.Some?
    ensures s.seek.Some? && s.seek.value <= f.duration ==> UpdateState(f, s).sound.value.lastSeek == s.seek
    ensures !(s.seek.Some? && s.seek.value <= f.duration) ==>
      UpdateState(f, s).sound.value.lastSeek == f.sound.value.lastSeek
  {
  }

  /** `startPlayback`, this player's part: play the sound and mark the player playing. */
  function Started(f: PlayerFields): (r: PlayerFields)
    requires f.sound.Some?
    ensures r.isPlaying && r.sound.Some? && r.sound.value.playing
  {
    f.(sound := Some(f.sound.value.(playing := true)), isPlaying := true)
  }

  /** `play` when the sound exists: apply the merged state, then start. */
  function PlayLoaded(f: PlayerFields, s: AudioState): (r: PlayerFields)
    requires f.sound.Some?
  {
    Started(UpdateState(f, Merged(s)))
  }

  /** `play` without a sound: create it (not yet playing) and keep the merged state for its load callback. */
  function CreateSound(f: PlayerFields, s: AudioState): (r: PlayerFields)
    requires f.sound.None?
    ensures r.sound.Some? && !r.sound.value.playing && !r.sound.value.loaded && r.sound.value.lastSeek.None?
    ensures r.pendingLoad == Some(Merged(s)) && r.isPlaying == f.isPlaying
    ensures s.muted == Some(true) ==> r.sound.value.volume == 0.0
    ensures s.muted != Some(true) && s.volume.None? ==> r.sound.value.volume == 1.0
    ensures s.muted != Some(true) && s.volume.Some? && s.volume.value != 0.0 ==> r.sound.value.volume == s.volume.value
    ensures r.sound.value.loop <==> f.loop || s.loop == Some(true)
  {
    var m := Merged(s);
    var volume := if m.muted.value then 0.0 else if m.volume.value != 0.0 then m.volume.value else f.volume;
    f.(sound := Some(Sound(false, volume, m.loop.value || f.loop, None, false)), pendingLoad := Some(m))
  }

  /** The load callback before it starts playback: record the duration and apply the merged state. */
  function LoadedSettings(f: PlayerFields, duration: real): (r: PlayerFields)
    requires f.sound.Some? && f.pendingLoad.Some?
    ensures r.duration == duration && r.pendingLoad.None? && r.sound.Some? && r.sound.value.loaded
    ensures FullState(f.pendingLoad.value) ==> VolumeInSync(r) && LoopInSync(r)
  {
    var g := f.(duration := duration, sound := Some(f.sound.value.(loaded := true)), pendingLoad := None);
    UpdateState(g, f.pendingLoad.value)
  }

  /** The load callback: record the duration, apply the merged state, then start. */
  function Loaded(f: PlayerFields, duration: real): (r: PlayerFields)
    requires f.sound.Some? && f.pendingLoad.Some?
  {
    Started(LoadedSettings(f, duration))
  }

  /** `pause`; `stop` is the same and also rewinds. Both act only when a sound exists. */
  function Paused(f: PlayerFields): (r: PlayerFields)
    ensures f.sound.Some? ==> !r.isPlaying && r.sound.Some? && !r.sound.value.playing
    ensures f.sound.None? ==> r == f
  {
    if f.sound.Some? then f.(sound := Some(f.sound.value.(playing := false)), isPlaying := false) else f
  }

  function Stopped(f: PlayerFields): (r: PlayerFields)
    ensures f.sound.Some? ==> !r.isPlaying && r.sound.Some? && !r.sound.value.playing && r.sound.value.lastSeek == Some(0.0)
    ensures f.sound.None? ==> r == f
  {
    if f.sound.Some? then f.(sound := Some(f.sound.value.(playing := false, lastSeek := Some(0.0))), isPlaying := false) else f
  }

  /** The setters store the value whether or not a sound exists, and pass it to the sound when there is one. */
  function WithVolumeAndMute(f: PlayerFields, volume: real, muted: bool): (r: PlayerFields)
    ensures r.volume == volume && r.muted == muted && r.loop == f.loop
    ensures SameShape(f, r) && VolumeInSync(r)
  {
    UpdateVolume(f.(volume := volume, muted := muted))
  }

  function WithLoop(f: PlayerFields, loop: bool): (r: PlayerFields)
    ensures r.loop == loop
  {
    if f.sound.Some? then f.(loop := loop, sound := Some(f.sound.value.(loop := loop))) else f.(loop := loop)
  }

  /** `seekTo`'s guard: a sound, a non-negative position, and a duration that is unknown (0) or not passed. */
  predicate SeekAllowed(f: PlayerFields, position: real)
  {
    f.sound.Some? && position >= 0.0 && (f.duration == 0.0 || position <= f.duration)
  }

  function SoughtTo(f: PlayerFields, position: real): (r: PlayerFields)
    ensures SeekAllowed(f, position) ==> r.sound.Some? && r.sound.value.lastSeek == Some(position)
    ensures !SeekAllowed(f, position) ==> r == f
  {
    if SeekAllowed(f, position) then f.(sound := Some(f.sound.value.(lastSeek := Some(position)))) else f
  }

  /** `getState`: seek 0 without a sound, else where the sound's playhead is; every other field echoed. */
  function Report(url: string, f: PlayerFields, playhead: real): (r: PlayerState)
    ensures f.sound.None? ==> r.seek == 0.0
    ensures f.sound.Some? ==> r.seek == playhead
    ensures r.url == url && r.isPlaying == f.isPlaying && r.duration == f.duration
    ensures r.volume == f.volume && r.loop == f.loop && r.muted == f.muted
  {
    PlayerState(url, f.isPlaying, if f.sound.Some? then playhead else 0.0, f.duration, f.volume, f.loop, f.muted)
  }

  // ---------------------------------------------------------------- invariant

  /**
   * The player's invariant: no playing without a sound; the sound plays iff
   * the player says so; a pending load exactly while the sound has not
   * loaded, holding every key; and once loaded, the sound has the effective
   * volume and the player's loop flag.
   */
  predicate Consistent(f: PlayerFields)
  {
    (f.sound.None? ==> !f.isPlaying && f.pendingLoad.None?) &&
    (f.sound.Some? ==> f.sound.value.playing == f.isPlaying && (f.pendingLoad.None? <==> f.sound.value.loaded)) &&
    (f.pendingLoad.Some? ==> FullState(f.pendingLoad.value)) &&
    (f.sound.Some? && f.sound.value.loaded ==> VolumeInSync(f) && LoopInSync(f))
  }

  /** The exclusive policy applied to one player: another player that plays is paused. */
  function PolicyApplied(isSelf: bool, f: PlayerFields): PlayerFields
  {
    if !isSelf && f.isPlaying then Paused(f) else f
  }

  /** The policy keeps a player consistent and leaves every other player silent. */
  lemma PolicyAppliedConsistent(isSelf: bool, f: PlayerFields)
    requires Consistent(f)
    ensures Consistent(PolicyApplied(isSelf, f))
    ensures !isSelf ==> !PolicyApplied(isSelf, f).isPlaying
  {
  }

  lemma UpdateStateKeepsConsistent(f: PlayerFields, s: AudioState)
    requires Consistent(f)
    ensures Consistent(UpdateState(f, s))
  {
  }

  /** Playing, creating the sound and loading it keep the invariant. */
  lemma PlaybackKeepsConsistent(f: PlayerFields, s: AudioState, duration: real)
    requires Consistent(f)
    ensures f.sound.Some? ==> Consistent(UpdateState(f, Merged(s))) && Consistent(PlayLoaded(f, s))
    ensures f.sound.None? ==> Consistent(CreateSound(f, s))
    ensures f.sound.Some? && f.pendingLoad.Some? ==>
      Consistent(LoadedSettings(f, duration)) && Consistent(Loaded(f, duration))
  {
    if f.sound.Some? {
      UpdateStateKeepsConsistent(f, Merged(s));
    }
  }

  /** Pausing, stopping, the setters and seeking keep the invariant. */
  lemma ControlsKeepConsistent(f: PlayerFields, x: real, b: bool)
    requires Consistent(f)
    ensures Consistent(Paused(f)) && Consistent(Stopped(f))
    ensures Consistent(WithVolumeAndMute(f, x, b)) && Consistent(WithLoop(f, b))
    ensures Consistent(SoughtTo(f, x))
  {
  }

  /** `play()` with no arguments resets the loop flag, the volume to 1 and unmutes. */
  lemma PlayResetsSettings(f: PlayerFields)
    requires f.sound.Some?
    ensures PlayLoaded(f, NoState).volume == 1.0 && !PlayLoaded(f, NoState).muted && !PlayLoaded(f, NoState).loop
    ensures PlayLoaded(f, NoState).sound.Some? && PlayLoaded(f, NoState).sound.value.volume == 1.0
    ensures PlayLoaded(f, NoState).isPlaying
  {
  }

  /** A seek past a known duration, or before 0, is ignored; within it, it is forwarded. */
  lemma SeekGuard(f: PlayerFields, position: real)
    requires f.sound.Some?
    ensures position < 0.0 ==> SoughtTo(f, position) == f
    ensures f.duration > 0.0 && position > f.duration ==> SoughtTo(f, position) == f
    ensures 0.0 <= position && (f.duration == 0.0 || position <= f.duration) ==>
      SoughtTo(f, position).sound.Some? && SoughtTo(f, position).sound.value.lastSeek == Some(position)
  {
  }

  // ---------------------------------------------------------------- objects

  class AudioPlayer {
    const url: string
    const followsExclusivePolicy: bool
    var sound: Option<Sound>
    var isPlaying: bool
    var duration: real
    var volume: real
    var loop: bool
    var muted: bool
    var pendingLoad: Option<AudioState>

    function Fields(): PlayerFields
      reads this
    {
      PlayerFields(sound, isPlaying, duration, volume, loop, muted, pendingLoad)
    }

    predicate Valid()
      reads this
    {
      Consistent(Fields())
    }

    method Set(f: PlayerFields)
      modifies this
      ensures Fields() == f
    {
      sound, isPlaying, duration, volume, loop, muted, pendingLoad :=
        f.sound, f.isPlaying, f.duration, f.volume, f.loop, f.muted, f.pendingLoad;
    }

    constructor (url: string)
      ensures this.url == url && followsExclusivePolicy
      ensures Fields() == NewPlayer && Valid()
    {
      this.url := url;
      followsExclusivePolicy := true;
      sound := None;
      isPlaying := false;
      duration := 0.0;
      volume := 1.0;
      loop := false;
      muted := false;
      pendingLoad := None;
    }

    method Pause()
      modifies this
      ensures Fields() == Paused(old(Fields()))
    {
      if sound.Some? {
        sound := Some(sound.value.(playing := false));
        isPlaying := false;
      }
    }

    method Stop()
      modifies this
      ensures Fields() == Stopped(old(Fields()))
    {
      if sound.Some? {
        sound := Some(sound.value.(playing := false, lastSeek := Some(0.0)));
        isPlaying := false;
      }
    }

    method SetVolume(v: real)
      modifies this
      ensures Fields() == WithVolumeAndMute(old(Fields()), v, old(muted))
    {
      volume := v;
      if sound.Some? {
        sound := Some(sound.value.(volume := EffectiveVolume(muted, volume)));
      }
    }

    method SetMute(m: bool)
      modifies this
      ensures Fields() == WithVolumeAndMute(old(Fields()), old(volume), m)
    {
      muted := m;
      if sound.Some? {
        sound := Some(sound.value.(volume := EffectiveVolume(muted, volume)));
      }
    }

    method SetLoop(l: bool)
      modifies this
      ensures Fields() == WithLoop(old(Fields()), l)
    {
      loop := l;
      if sound.Some? {
        sound := Some(sound.value.(loop := l));
      }
    }

    method SeekTo(position: real)
      modifies this
      ensures Fields() == SoughtTo(old(Fields()), position)
    {
      if sound.Some? && position >= 0.0 && (duration == 0.0 || position <= duration) {
        sound := Some(sound.value.(lastSeek := Some(position)));
      }
    }

    /** `getState`, given where the sound's playhead currently is. */
    method GetState(playhead: real) returns (r: PlayerState)
      ensures r == Report(url, Fields(), playhead)
      ensures sound.None? ==> r.seek == 0.0
    {
      r := PlayerState(url, isPlaying, if sound.Some? then playhead else 0.0, duration, volume, loop, muted);
    }
  }

  /** The class's static registry of players by URL and its set of exclusive players. */
  class Registry {
    var players: map<string, AudioPlayer>
    var exclusivePlayers: set<AudioPlayer>

    predicate Valid()
      reads this, exclusivePlayers
    {
      (forall u | u in players :: players[u].url == u && players[u] in exclusivePlayers) &&
      (forall q | q in exclusivePlayers :: q.url in players && players[q.url] == q && q.Valid())
    }

    /** No two exclusive players play at once. */
    predicate AtMostOnePlaying()
      reads this, exclusivePlayers
    {
      forall p, q | p in exclusivePlayers && q in exclusivePlayers && p.isPlaying && q.isPlaying :: p == q
    }

    constructor ()
      ensures players == map[] && exclusivePlayers == {}
      ensures Valid()
    {
      players := map[];
      exclusivePlayers := {};
    }

    /** `getPlayer`: the registered player for the URL, or a new one registered in both collections. */
    method GetPlayer(url: string) returns (p: AudioPlayer)
      requires Valid()
      modifies this
      ensures Valid()
      ensures p.url == url && url in players && players[url] == p
      ensures url in old(players) ==> p == old(players[url]) && players == old(players) && exclusivePlayers == old(exclusivePlayers)
      ensures url !in old(players) ==>
        fresh(p) && p.Fields() == NewPlayer && players == old(players)[url := p] &&
        exclusivePlayers == old(exclusivePlayers) + {p}
    {
      if url !in players {
        var player := new AudioPlayer(url);
        players := players[url := player];
        exclusivePlayers := exclusivePlayers + {player};
      }
      p := players[url];
    }

    /** `enforceExclusivePolicy`: pause every other exclusive player that is playing. */
    method EnforceExclusivePolicy(p: AudioPlayer)
      requires Valid() && p.followsExclusivePolicy
      modifies exclusivePlayers
      ensures Valid()
      ensures forall q | q in exclusivePlayers && q != p :: !q.isPlaying
      ensures forall q | q in exclusivePlayers && q != p ::
        q.Fields() == (if old(q.isPlaying) then Paused(old(q.Fields())) else old(q.Fields()))
      ensures p.Fields() == old(p.Fields())
    {
      var remaining := exclusivePlayers;
      while remaining != {}
        invariant remaining <= exclusivePlayers
        invariant forall q | q in exclusivePlayers ::
          q.Fields() == (if q in remaining then old(q.Fields()) else PolicyApplied(q == p, old(q.Fields())))
        invariant p.Fields() == old(p.Fields())
        decreases remaining
      {
        var q :| q in remaining;
        if q != p && q.isPlaying {
          q.Pause();
        }
        remaining := remaining - {q};
      }
      forall q | q in exclusivePlayers
        ensures q.Valid() && (q != p ==> !q.isPlaying)
      {
        PolicyAppliedConsistent(q == p, old(q.Fields()));
      }
    }

    /** `startPlayback`: pause the others, then play this player's sound. */
    method StartPlayback(p: AudioPlayer)
      requires Valid() && p in exclusivePlayers && p.followsExclusivePolicy && p.sound.Some?
      modifies exclusivePlayers
      ensures Valid()
      ensures p.Fields() == Started(old(p.Fields()))
      ensures forall q | q in exclusivePlayers && q != p ::
        q.Fields() == (if old(q.isPlaying) then Paused(old(q.Fields())) else old(q.Fields()))
      ensures AtMostOnePlaying()
    {
      EnforceExclusivePolicy(p);
      p.sound := Some(p.sound.value.(playing := true));
      p.isPlaying := true;
    }

    /** `play`: with a sound, apply the merged state and start; without one, create the sound. */
    method Play(p: AudioPlayer, s: AudioState)
      requires Valid() && p in exclusivePlayers && p.followsExclusivePolicy
      modifies exclusivePlayers
      ensures Valid()
      ensures old(p.sound).Some? ==> p.Fields() == PlayLoaded(old(p.Fields()), s) && AtMostOnePlaying()
      ensures old(p.sound).None? ==> p.Fields() == CreateSound(old(p.Fields()), s) && !p.isPlaying
      ensures old(p.sound).None? ==> (AtMostOnePlaying() <==> old(AtMostOnePlaying()))
      ensures old(p.sound).None? ==> forall q | q in exclusivePlayers && q != p :: q.Fields() == old(q.Fields())
      ensures old(p.sound).Some? ==> forall q | q in exclusivePlayers && q != p ::
        q.Fields() == (if old(q.isPlaying) then Paused(old(q.Fields())) else old(q.Fields()))
    {
      PlaybackKeepsConsistent(p.Fields(), s, 0.0);
      if p.sound.Some? {
        p.Set(UpdateState(p.Fields(), Merged(s)));
        StartPlayback(p);
      } else {
        p.Set(CreateSound(p.Fields(), s));
      }
    }

    /** The sound's load callback: record the duration, apply the state `play` merged, then start. */
    method OnLoad(p: AudioPlayer, duration: real)
      requires Valid() && p in exclusivePlayers && p.followsExclusivePolicy
      requires p.sound.Some? && p.pendingLoad.Some?
      modifies exclusivePlayers
      ensures Valid()
      ensures p.Fields() == Loaded(old(p.Fields()), duration)
      ensures AtMostOnePlaying()
    {
      PlaybackKeepsConsistent(p.Fields(), NoState, duration);
      p.Set(LoadedSettings(p.Fields(), duration));
      StartPlayback(p);
    }
  }
}
