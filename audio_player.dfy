/** The preview player hook (src/hooks/useAudioPlayer.ts): one audio element
    shared by the page and the state the hook exposes, `AudioPlayerState`.
    Times are seconds, as reals; the element's own playback is seen only
    through the `timeupdate` and `ended` events, whose readings are parameters. */
module AudioPlayer {
  import opened Wrappers

  /** `AudioPlayerState`. */
  datatype PlayerState = PlayerState(
    currentSongId: Option<string>, isPlaying: bool, progress: real, duration: real, currentTime: real)

  const InitialState: PlayerState := PlayerState(None, false, 0.0, 0.0, 0.0)

  /** The audio element: its `src`, `currentTime`, `duration` (`None` while it
      is NaN, before the media's metadata is known) and whether it is paused. */
  datatype Element = Element(src: string, time: real, duration: Option<real>, paused: bool)

  /** The hook: its state and `audioRef.current`, which is null until the
      mount effect has created the element. */
  datatype Player = Player(state: PlayerState, audio: Option<Element>)

  const Unmounted: Player := Player(InitialState, None)

  /** A new `Audio()`: no source, at time 0, duration unknown, paused. */
  const NewElement: Element := Element("", 0.0, None, true)

  /** `audio.duration` read as a condition: false for 0 and for NaN. */
  predicate HasDuration(a: Element) {
    a.duration.Some? && a.duration.value != 0.0
  }

  /** What the rest of the model relies on: a player that plays has an
      element, and every time and duration is non-negative. */
  predicate Inv(p: Player) {
    && (p.state.isPlaying ==> p.audio.Some?)
    && p.state.currentTime >= 0.0 && p.state.duration >= 0.0
    && (p.audio.Some? ==> p.audio.value.time >= 0.0
                          && (p.audio.value.duration.Some? ==> p.audio.value.duration.value >= 0.0))
  }

  /** The mount effect: the element is created. */
  function AfterMount(p: Player): (r: Player)
    ensures r.state == p.state && r.audio == Some(NewElement)
  {
    p.(audio := Some(NewElement))
  }

  /** `play(songId, previewUrl)`: nothing without an element; otherwise the
      source is replaced and reloaded only when it differs, playback starts,
      and the song becomes the current one and is marked playing. */
  function AfterPlay(p: Player, songId: string, previewUrl: string): (r: Player)
    ensures p.audio.None? ==> r == p
    ensures p.audio.Some? ==>
      && r.state.currentSongId == Some(songId) && r.state.isPlaying
      && r.state.(currentSongId := p.state.currentSongId, isPlaying := p.state.isPlaying) == p.state
      && r.audio.Some? && r.audio.value.src == previewUrl && !r.audio.value.paused
    ensures p.audio.Some? && p.audio.value.src == previewUrl ==>
      r.audio == Some(p.audio.value.(paused := false))
    ensures p.audio.Some? && p.audio.value.src != previewUrl ==>
      r.audio == Some(Element(previewUrl, 0.0, None, false))
  {
    match p.audio
    case None => p
    case Some(a) =>
      var loaded := if a.src != previewUrl then Element(previewUrl, 0.0, None, a.paused) else a;
      Player(p.state.(currentSongId := Some(songId), isPlaying := true), Some(loaded.(paused := false)))
  }

  /** `pause()`: the element, if any, pauses; the song stays current. */
  function AfterPause(p: Player): (r: Player)
    ensures !r.state.isPlaying
    ensures r.state.(isPlaying := p.state.isPlaying) == p.state
    ensures p.audio.None? ==> r.audio.None?
    ensures p.audio.Some? ==> r.audio == Some(p.audio.value.(paused := true))
  {
    Player(p.state.(isPlaying := false), if p.audio.Some? then Some(p.audio.value.(paused := true)) else None)
  }

  /** `toggle(songId, previewUrl)`: pauses when that song is current and
      playing, and plays it otherwise. */
  function AfterToggle(p: Player, songId: string, previewUrl: string): (r: Player)
    ensures p.state.currentSongId == Some(songId) && p.state.isPlaying ==> r == AfterPause(p)
    ensures !(p.state.currentSongId == Some(songId) && p.state.isPlaying) ==> r == AfterPlay(p, songId, previewUrl)
  {
    if p.state.currentSongId == Some(songId) && p.state.isPlaying then AfterPause(p)
    else AfterPlay(p, songId, previewUrl)
  }

  /** Toggling a song other than the current one switches to it and plays. */
  lemma ToggleOtherSwitches(p: Player, songId: string, previewUrl: string)
    requires p.audio.Some? && p.state.currentSongId != Some(songId)
    ensures var r := AfterToggle(p, songId, previewUrl);
            r.state.currentSongId == Some(songId) && r.state.isPlaying
  {
  }

  /** Toggling the current song twice gives back its playing flag and keeps it current. */
  lemma ToggleTwiceRestores(p: Player, songId: string, previewUrl: string)
    requires Inv(p) && p.state.currentSongId == Some(songId)
    ensures var r := AfterToggle(AfterToggle(p, songId, previewUrl), songId, previewUrl);
            r.state.isPlaying == p.state.isPlaying && r.state.currentSongId == Some(songId)
  {
    if p.state.isPlaying {
      var once := AfterPause(p);
      assert once.audio.Some?;
      assert AfterToggle(once, songId, previewUrl) == AfterPlay(once, songId, previewUrl);
    }
  }

  /** The `ended` event: playing stops and progress and time go back to 0;
      the song stays current and the element is left paused. */
  function AfterEnded(p: Player): (r: Player)
    ensures !r.state.isPlaying && r.state.progress == 0.0 && r.state.currentTime == 0.0
    ensures r.state.currentSongId == p.state.currentSongId && r.state.duration == p.state.duration
    ensures p.audio.None? ==> r.audio.None?
    ensures p.audio.Some? ==> r.audio == Some(p.audio.value.(paused := true))
  {
    Player(p.state.(isPlaying := false, progress := 0.0, currentTime := 0.0),
           if p.audio.Some? then Some(p.audio.value.(paused := true)) else None)
  }

  /** The `timeupdate` event, with the element now at `time` and its duration
      `duration`: the state copies the time, the duration (0 for NaN) and the
      percentage played (0 without a duration). */
  function AfterTimeUpdate(p: Player, time: real, duration: Option<real>): (r: Player)
    requires p.audio.Some? && time >= 0.0 && (duration.Some? ==> duration.value >= 0.0)
    ensures r.audio == Some(p.audio.value.(time := time, duration := duration))
    ensures r.state.currentTime == time
    ensures r.state.duration == (if duration.Some? then duration.value else 0.0)
    ensures r.state.progress == (if duration.Some? && duration.value != 0.0 then time / duration.value * 100.0 else 0.0)
    ensures r.state.currentSongId == p.state.currentSongId && r.state.isPlaying == p.state.isPlaying
  {
    var a := p.audio.value.(time := time, duration := duration);
    var d := if duration.Some? then duration.value else 0.0;
    Player(p.state.(currentTime := time, duration := d,
                    progress := if HasDuration(a) then time / d * 100.0 else 0.0),
           Some(a))
  }

  /** Where the element lands when asked to seek to `t`: the media element
      clamps a seek into [0, duration] (the seek algorithm of the HTML
      Living Standard). */
  function Clamp(t: real, d: real): (r: real)
    requires d >= 0.0
    ensures 0.0 <= r <= d
    ensures 0.0 <= t <= d ==> r == t
  {
    if t < 0.0 then 0.0 else if t > d then d else t
  }

  /** The time `seek(percent)` asks for, `(percent / 100) * duration`, as the
      element clamps it. */
  function SeekTarget(percent: real, d: real): (t: real)
    requires d >= 0.0
    ensures 0.0 <= t <= d
  {
    Clamp(percent / 100.0 * d, d)
  }

  /** `seek(percent)`: nothing without an element or when its duration is 0
      or NaN; otherwise the element moves to `percent` of its duration. The
      hook's state waits for the next `timeupdate`. */
  function AfterSeek(p: Player, percent: real): (r: Player)
    requires Inv(p)
    ensures r.state == p.state
    ensures p.audio.None? || !HasDuration(p.audio.value) ==> r == p
    ensures p.audio.Some? && HasDuration(p.audio.value) ==>
      r.audio == Some(p.audio.value.(time := SeekTarget(percent, p.audio.value.duration.value)))
  {
    if p.audio.None? || !HasDuration(p.audio.value) then p
    else
      var a := p.audio.value;
      p.(audio := Some(a.(time := SeekTarget(percent, a.duration.value))))
  }

  /** Everything that can happen to the hook. */
  datatype Event =
    | MountEvent
    | PlayEvent(songId: string, previewUrl: string)
    | PauseEvent
    | ToggleEvent(songId: string, previewUrl: string)
    | EndedEvent
    | TimeUpdateEvent(time: real, duration: Option<real>)
    | SeekEvent(percent: real)

  /** One event; a `timeupdate` or `ended` needs an element to come from, and
      an element reports no negative time or duration. */
  function Apply(p: Player, e: Event): Player
    requires Inv(p)
  {
    match e
    case MountEvent => AfterMount(p)
    case PlayEvent(id, url) => AfterPlay(p, id, url)
    case PauseEvent => AfterPause(p)
    case ToggleEvent(id, url) => AfterToggle(p, id, url)
    case EndedEvent => if p.audio.Some? then AfterEnded(p) else p
    case TimeUpdateEvent(t, d) =>
      if p.audio.Some? && t >= 0.0 && (d.Some? ==> d.value >= 0.0) then AfterTimeUpdate(p, t, d) else p
    case SeekEvent(percent) => AfterSeek(p, percent)
  }

  /** Every event keeps the invariant, starting from the hook's first state. */
  lemma ApplyKeepsInv(p: Player, e: Event)
    requires Inv(p)
    ensures Inv(Apply(p, e))
  {
  }

  lemma UnmountedInv()
    ensures Inv(Unmounted) && Unmounted.state == InitialState
    ensures InitialState.currentSongId.None? && !InitialState.isPlaying
    ensures InitialState.progress == 0.0 && InitialState.duration == 0.0 && InitialState.currentTime == 0.0
  {
  }

  /** The hook as the source holds it: the React state and the element's
      fields, updated in place. */
  class AudioHook {
    var currentSongId: Option<string>
    var isPlaying: bool
    var progress: real
    var duration: real
    var currentTime: real
    var hasAudio: bool
    var src: string
    var audioTime: real
    var audioDuration: Option<real>
    var paused: bool

    function Model(): Player
      reads this
    {
      Player(PlayerState(currentSongId, isPlaying, progress, duration, currentTime),
             if hasAudio then Some(Element(src, audioTime, audioDuration, paused)) else None)
    }

    constructor()
      ensures Model() == Unmounted
    {
      currentSongId, isPlaying, progress, duration, currentTime := None, false, 0.0, 0.0, 0.0;
      hasAudio, src, audioTime, audioDuration, paused := false, "", 0.0, None, true;
    }

    method OnMount()
      modifies this
      ensures Model() == AfterMount(old(Model()))
    {
      hasAudio, src, audioTime, audioDuration, paused := true, "", 0.0, None, true;
    }

    method Play(songId: string, previewUrl: string)
      modifies this
      ensures Model() == AfterPlay(old(Model()), songId, previewUrl)
    {
      if !hasAudio {
        return;
      }
      if src != previewUrl {
        src := previewUrl;
        audioTime, audioDuration := 0.0, None;
      }
      paused := false;
      currentSongId, isPlaying := Some(songId), true;
    }

    method Pause()
      modifies this
      ensures Model() == AfterPause(old(Model()))
    {
      if hasAudio {
        paused := true;
      }
      isPlaying := false;
    }

    method Toggle(songId: string, previewUrl: string)
      modifies this
      ensures Model() == AfterToggle(old(Model()), songId, previewUrl)
    {
      if currentSongId == Some(songId) && isPlaying {
        Pause();
      } else {
        Play(songId, previewUrl);
      }
    }

    method OnEnded()
      requires hasAudio
      modifies this
      ensures Model() == AfterEnded(old(Model()))
    {
      paused := true;
      isPlaying, progress, currentTime := false, 0.0, 0.0;
    }

    method OnTimeUpdate(time: real, newDuration: Option<real>)
      requires hasAudio && time >= 0.0 && (newDuration.Some? ==> newDuration.value >= 0.0)
      modifies this
      ensures Model() == AfterTimeUpdate(old(Model()), time, newDuration)
    {
      audioTime, audioDuration := time, newDuration;
      currentTime := audioTime;
      duration := if audioDuration.Some? then audioDuration.value else 0.0;
      progress := if audioDuration.Some? && audioDuration.value != 0.0 then audioTime / duration * 100.0 else 0.0;
    }

    method Seek(percent: real)
      requires Inv(Model())
      modifies this
      ensures Model() == AfterSeek(old(Model()), percent)
    {
      if !hasAudio || audioDuration.None? || audioDuration.value == 0.0 {
        return;
      }
      audioTime := SeekTarget(percent, audioDuration.value);
    }
  }
}
