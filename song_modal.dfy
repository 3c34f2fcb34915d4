/** The song detail dialog (src/components/SongModal.tsx): the `m:ss` time
    format of its progress labels, and the guards that tie its play button,
    progress bar and labels to the shared player. */
module SongModal {
  import opened Wrappers
  import opened Text
  import opened Types
  import opened AudioPlayer

  /** `Math.floor(seconds / 60)`. */
  function Minutes(seconds: real): (m: nat)
    requires seconds >= 0.0
    ensures 60.0 * m as real <= seconds < 60.0 * (m + 1) as real
  {
    (seconds / 60.0).Floor
  }

  /** `Math.floor(seconds % 60)`; for a non-negative `seconds` the remainder
      is `seconds - 60 * floor(seconds / 60)`. */
  function SecondsPart(seconds: real): (k: nat)
    requires seconds >= 0.0
    ensures k < 60
    ensures k as real <= seconds - 60.0 * Minutes(seconds) as real < (k + 1) as real
  {
    (seconds - 60.0 * Minutes(seconds) as real).Floor
  }

  /** `formatTime(seconds)`: the minutes, ':', and the seconds in two digits. */
  function FormatTime(seconds: real): (r: string)
    requires seconds >= 0.0
    ensures var m := NatToString(Minutes(seconds));
            |r| == |m| + 3 && r[..|m|] == m && r[|m|] == ':'
    ensures IsDigit(r[|r| - 2]) && IsDigit(r[|r| - 1]) && '0' <= r[|r| - 2] <= '5'
    ensures 10 * DigitValue(r[|r| - 2]) + DigitValue(r[|r| - 1]) == SecondsPart(seconds)
  {
    Clock(Minutes(seconds), SecondsPart(seconds))
  }

  /** `m:ss` for `m` minutes and `k` seconds. */
  function Clock(m: nat, k: nat): (r: string)
    requires k < 60
    ensures var ms := NatToString(m);
            |r| == |ms| + 3 && r[..|ms|] == ms && r[|ms|] == ':'
    ensures IsDigit(r[|r| - 2]) && IsDigit(r[|r| - 1]) && '0' <= r[|r| - 2] <= '5'
    ensures 10 * DigitValue(r[|r| - 2]) + DigitValue(r[|r| - 1]) == k
  {
    var padded := PadStart(NatToString(k), 2, '0');
    SecondsDigits(k);
    Layout(NatToString(m), padded[0], padded[1]);
    assert padded == [padded[0], padded[1]];
    NatToString(m) + ":" + padded
  }

  /** Seconds below 60 padded to two places: a tens digit up to 5 and a
      units digit that read back as the seconds. */
  lemma SecondsDigits(k: nat)
    requires k < 60
    ensures var p := PadStart(NatToString(k), 2, '0');
            |p| == 2 && IsDigit(p[0]) && IsDigit(p[1]) && '0' <= p[0] <= '5'
            && 10 * DigitValue(p[0]) + DigitValue(p[1]) == k
  {
    PadTwoDigits(k, 10);
    DigitRoundTrip(k / 10);
    DigitRoundTrip(k % 10);
  }

  lemma Layout(ms: string, a: char, b: char)
    ensures var r := ms + ":" + [a, b];
            |r| == |ms| + 3 && r[..|ms|] == ms && r[|ms|] == ':' && r[|r| - 2] == a && r[|r| - 1] == b
  {
  }

  /** Whole seconds: `60 m + k` with `k` below 60 is written `m:kk`. */
  lemma FormatWholeSeconds(s: real, m: nat, k: nat)
    requires k < 60 && s == (60 * m + k) as real
    ensures FormatTime(s) == NatToString(m) + ":" + PadStart(NatToString(k), 2, '0')
  {
    assert 60.0 * m as real <= s < 60.0 * (m + 1) as real;
    assert Minutes(s) == m;
    assert s - 60.0 * m as real == k as real;
    assert SecondsPart(s) == k;
  }

  /** `audio.currentSongId === song.id` */
  predicate IsThisSong(song: Song, st: PlayerState) {
    st.currentSongId == Some(song.id)
  }

  /** The button shows the playing state: this song is current and playing. */
  predicate ShowsPlaying(song: Song, st: PlayerState) {
    IsThisSong(song, st) && st.isPlaying
  }

  /** `song.preview_url` read as a condition: present and not empty. */
  predicate HasPreview(song: Song) {
    song.previewUrl.Some? && song.previewUrl.value != []
  }

  /** `handlePlay`: the player is toggled for this song only when it has a
      preview to play. */
  function HandlePlay(song: Song, p: Player): (r: Player)
    ensures !HasPreview(song) ==> r == p
    ensures HasPreview(song) ==> r == AfterToggle(p, song.id, song.previewUrl.value)
  {
    if HasPreview(song) then AfterToggle(p, song.id, song.previewUrl.value) else p
  }

  /** With a preview and a mounted player, the play button flips what it shows. */
  lemma PlayButtonFlips(song: Song, p: Player)
    requires HasPreview(song) && p.audio.Some?
    ensures ShowsPlaying(song, HandlePlay(song, p).state) == !ShowsPlaying(song, p.state)
    ensures IsThisSong(song, HandlePlay(song, p).state)
  {
  }

  /** `handleSeek`: a click on the bar seeks only while this song is current. */
  function HandleSeek(song: Song, p: Player, percent: real): (r: Player)
    requires Inv(p)
    ensures !IsThisSong(song, p.state) ==> r == p
    ensures IsThisSong(song, p.state) ==> r == AfterSeek(p, percent)
    ensures r.state == p.state
  {
    if !IsThisSong(song, p.state) then p else AfterSeek(p, percent)
  }

  /** The two labels under the bar: elapsed time and duration of this song
      when it is current (the duration only once it is known), and the
      defaults "0:00" and "0:30" otherwise. */
  function TimeLabels(song: Song, st: PlayerState): (labels: (string, string))
    requires st.currentTime >= 0.0 && st.duration >= 0.0
    ensures !IsThisSong(song, st) ==> labels == ("0:00", "0:30")
    ensures IsThisSong(song, st) ==> labels.0 == FormatTime(st.currentTime)
    ensures labels.1 == if IsThisSong(song, st) && st.duration != 0.0 then FormatTime(st.duration) else "0:30"
  {
    (if IsThisSong(song, st) then FormatTime(st.currentTime) else "0:00",
     if IsThisSong(song, st) && st.duration != 0.0 then FormatTime(st.duration) else "0:30")
  }

  lemma ZeroWritten()
    ensures NatToString(0) == "0" && PadStart(NatToString(0), 2, '0') == "00"
  {
    assert LowerDigits[0] == '0';
    assert Digits(0, 10) == ['0'];
  }

  /** The elapsed-time default is what the format gives at time 0. */
  lemma DefaultElapsedLabel()
    ensures FormatTime(0.0) == "0:00"
  {
    FormatWholeSeconds(0.0, 0, 0);
    ZeroWritten();
    assert "0" + ":" + "00" == "0:00";
  }
}
