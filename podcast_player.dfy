/**
 * The podcast player bar: its transport state (position, length, volume,
 * mute, loading, error, and the play request it reports to the page), the
 * audio element's position and volume that its handlers set, and the two
 * pure helpers it renders with, the time label and the volume icon.
 *
 * Times are seconds and volumes are fractions of full volume, both `real`:
 * Dafny's reals are exact, so the model does not capture floating point.
 */
module PodcastPlayer {
  import opened Optional
  import opened Text
  import opened Clock

  /** A podcast as the page hands it to the player: the metadata plus the audio and thumbnail URLs. */
  datatype Podcast = Podcast(
    id: string,
    title: string,
    description: string,
    audioUrl: string,
    thumbnailUrl: Option<string>,
    duration: nat,
    publishDate: string,
    category: string,
    fileSize: nat)

  const LoadErrorMessage: string := "Failed to load audio file"
  const PlayErrorMessage: string := "Failed to play audio. Please check your connection."

  // ---------------------------------------------------------------------------
  // Pure helpers

  /** `Math.max(0, Math.min(duration, x))`: a position forced into the track. */
  function ClampTime(x: real, duration: real): (r: real)
    ensures duration >= 0.0 ==> 0.0 <= r <= duration
    ensures 0.0 <= x <= duration ==> r == x
    ensures x < 0.0 ==> r == 0.0
    ensures x > duration >= 0.0 ==> r == duration
    ensures duration < 0.0 ==> r == 0.0
  {
    var upper := if duration < x then duration else x;
    if 0.0 < upper then upper else 0.0
  }

  /** `formatTime`: `H:MM:SS` from the first full hour on, `M:SS` before it. */
  function FormatTime(time: real): string
    requires time >= 0.0
  {
    ClockLabel(Hours(time), Minutes(time), Seconds(time))
  }

  /** The label for whole hours, minutes and seconds; the hours are left out while they are 0. */
  function ClockLabel(hours: nat, minutes: nat, seconds: nat): string {
    if hours > 0 then
      NatToString(hours) + ":" + TwoDigits(minutes) + ":" + TwoDigits(seconds)
    else
      NatToString(minutes) + ":" + TwoDigits(seconds)
  }

  /** The fields of a label are the unpadded leading number and the two-digit fields after it. */
  lemma ClockLabelFields(hours: nat, minutes: nat, seconds: nat)
    requires minutes < 60 && seconds < 60
    ensures hours > 0 ==>
      Split(ClockLabel(hours, minutes, seconds), ':') == [NatToString(hours), TwoDigits(minutes), TwoDigits(seconds)]
    ensures hours == 0 ==>
      Split(ClockLabel(hours, minutes, seconds), ':') == [NatToString(minutes), TwoDigits(seconds)]
  {
    var hh, m, mm, ss := NatToString(hours), NatToString(minutes), TwoDigits(minutes), TwoDigits(seconds);
    TwoDigitsValue(minutes);
    TwoDigitsValue(seconds);
    DigitsHaveNoSeparator(hh, ':');
    DigitsHaveNoSeparator(m, ':');
    DigitsHaveNoSeparator(mm, ':');
    DigitsHaveNoSeparator(ss, ':');
    if hours > 0 {
      SplitThree(hh, ':', mm, ss);
    } else {
      SplitTwo(m, ':', ss);
    }
  }

  /** A minutes or seconds field after a colon: exactly two digits. */
  predicate IsTwoDigitField(field: string) {
    |field| == 2 && AllDigits(field)
  }

  /** Reads a time label back into whole seconds: `H:MM:SS` or `M:SS`. */
  function ParseClock(text: string): Option<nat> {
    ClockValue(Split(text, ':'))
  }

  /** The seconds the colon-separated fields of a label stand for. */
  function ClockValue(fields: seq<string>): Option<nat> {
    if |fields| == 3 && ParseNat(fields[0]).Some? && IsTwoDigitField(fields[1]) && IsTwoDigitField(fields[2]) then
      Some(ParseNat(fields[0]).value * 3600 + DigitsValue(fields[1]) * 60 + DigitsValue(fields[2]))
    else if |fields| == 2 && ParseNat(fields[0]).Some? && IsTwoDigitField(fields[1]) then
      Some(ParseNat(fields[0]).value * 60 + DigitsValue(fields[1]))
    else
      None
  }

  lemma ClockValueLong(hours: nat, minutes: nat, seconds: nat)
    requires minutes < 60 && seconds < 60
    ensures ClockValue([NatToString(hours), TwoDigits(minutes), TwoDigits(seconds)])
      == Some(hours * 3600 + minutes * 60 + seconds)
  {
    TwoDigitsValue(minutes);
    TwoDigitsValue(seconds);
    ParseNatToString(hours);
  }

  lemma ClockValueShort(minutes: nat, seconds: nat)
    requires seconds < 60
    ensures ClockValue([NatToString(minutes), TwoDigits(seconds)]) == Some(minutes * 60 + seconds)
  {
    TwoDigitsValue(seconds);
    ParseNatToString(minutes);
  }

  /** Reading a label back gives the seconds its fields stand for. */
  lemma ClockLabelRoundTrip(hours: nat, minutes: nat, seconds: nat)
    requires minutes < 60 && seconds < 60
    ensures ParseClock(ClockLabel(hours, minutes, seconds)) == Some(hours * 3600 + minutes * 60 + seconds)
  {
    if hours > 0 {
      LongLabelRoundTrip(hours, minutes, seconds);
    } else {
      ShortLabelRoundTrip(minutes, seconds);
      assert hours == 0 && hours * 3600 == 0;
    }
  }

  lemma LongLabelRoundTrip(hours: nat, minutes: nat, seconds: nat)
    requires hours > 0 && minutes < 60 && seconds < 60
    ensures ParseClock(ClockLabel(hours, minutes, seconds)) == Some(hours * 3600 + minutes * 60 + seconds)
  {
    var fields := [NatToString(hours), TwoDigits(minutes), TwoDigits(seconds)];
    ClockLabelFields(hours, minutes, seconds);
    ClockValueLong(hours, minutes, seconds);
    assert ParseClock(ClockLabel(hours, minutes, seconds)) == ClockValue(fields);
  }

  lemma ShortLabelRoundTrip(minutes: nat, seconds: nat)
    requires minutes < 60 && seconds < 60
    ensures ParseClock(ClockLabel(0, minutes, seconds)) == Some(minutes * 60 + seconds)
  {
    var fields := [NatToString(minutes), TwoDigits(seconds)];
    ClockLabelFields(0, minutes, seconds);
    ClockValueShort(minutes, seconds);
    assert ParseClock(ClockLabel(0, minutes, seconds)) == ClockValue(fields);
  }

  /**
   * The time label loses nothing but the fraction of a second: read back,
   * it gives the whole seconds of `time`.
   */
  lemma FormatTimeRoundTrip(time: real)
    requires time >= 0.0
    ensures time.Floor >= 0 && ParseClock(FormatTime(time)) == Some(time.Floor as nat)
  {
    var h, m, s := Hours(time), Minutes(time), Seconds(time);
    Recombine(time);
    ClockLabelRoundTrip(h, m, s);
    var n: nat := h * 3600 + m * 60 + s;
    assert ParseClock(FormatTime(time)) == Some(n);
  }

  /** A label ends in a colon and the seconds field, padded to two digits. */
  lemma ClockLabelEnds(hours: nat, minutes: nat, seconds: nat)
    requires seconds < 60
    ensures var text := ClockLabel(hours, minutes, seconds);
      |text| >= 4 && text[|text| - 3] == ':' && text[|text| - 2..] == TwoDigits(seconds)
  {
    TwoDigitsValue(seconds);
  }

  /** The time label always ends in `:SS`, the whole seconds past the minute. */
  lemma FormatTimeEnds(time: real)
    requires time >= 0.0
    ensures var r := FormatTime(time);
      |r| >= 4 && r[|r| - 3] == ':' && r[|r| - 2..] == TwoDigits(Seconds(time))
  {
    var h, m, s := Hours(time), Minutes(time), Seconds(time);
    ClockLabelEnds(h, m, s);
    assert FormatTime(time) == ClockLabel(h, m, s);
  }

  /** The label has three fields from the first full hour on and two before it. */
  lemma FormatTimeShape(time: real)
    requires time >= 0.0
    ensures |Split(FormatTime(time), ':')| == if time >= 3600.0 then 3 else 2
  {
    Recombine(time);
    ClockLabelFields(Hours(time), Minutes(time), Seconds(time));
  }

  datatype VolumeIcon = VolumeOff | VolumeDown | VolumeUp

  /** `getVolumeIcon`: off when muted or silent, down below half volume, up otherwise. */
  function VolumeIconFor(isMuted: bool, volume: real): (icon: VolumeIcon)
    ensures icon == VolumeOff <==> isMuted || volume == 0.0
    ensures icon == VolumeDown <==> !isMuted && volume != 0.0 && volume < 0.5
    ensures icon == VolumeUp <==> !isMuted && volume >= 0.5
  {
    if isMuted || volume == 0.0 then VolumeOff
    else if volume < 0.5 then VolumeDown
    else VolumeUp
  }

  // ---------------------------------------------------------------------------
  // The player component

  class Player {
    /** Whether the audio element is attached (`audioRef.current` is set). */
    const mounted: bool

    /** The `podcast` prop. */
    var podcast: Podcast
    /** The `isPlaying` prop, as the last `onPlayStateChange` call set it in the page. */
    var playing: bool

    var currentTime: real
    var duration: real
    var volume: real
    var isMuted: bool
    var isLoading: bool
    var error: Option<string>

    /** The audio element's source, position and volume. */
    var src: string
    var elementTime: real
    var elementVolume: real

    /**
     * Times are never negative, the saved volume is within the slider's
     * range, and the element plays at the saved volume unless muted, when
     * it plays silently.
     */
    ghost predicate Valid()
      reads this
    {
      && currentTime >= 0.0 && duration >= 0.0 && elementTime >= 0.0
      && 0.0 <= volume <= 1.0
      && (mounted ==> elementVolume == if isMuted then 0.0 else volume)
    }

    /** Mounting: the initial state, then the load effect for the first podcast. */
    constructor (mounted: bool, podcast: Podcast, playing: bool)
      ensures Valid()
      ensures this.mounted == mounted && this.podcast == podcast && this.playing == playing
      ensures currentTime == 0.0 && duration == 0.0 && volume == 1.0 && !isMuted
      ensures isLoading == mounted && error == None
      ensures elementTime == 0.0 && elementVolume == 1.0
      ensures mounted ==> src == podcast.audioUrl
    {
      this.mounted := mounted;
      this.podcast := podcast;
      this.playing := playing;
      currentTime, duration, volume := 0.0, 0.0, 1.0;
      isMuted, isLoading, error := false, false, None;
      src, elementTime, elementVolume := "", 0.0, 1.0;
      if mounted {
        isLoading := true;
        src := podcast.audioUrl;
      }
    }

    /** The load effect when the `podcast` prop changes: loading starts and any error is cleared. */
    method ChangePodcast(p: Podcast)
      requires Valid()
      modifies this
      ensures Valid() && podcast == p
      ensures mounted ==> isLoading && error == None && src == p.audioUrl && ControlsDisabled()
      ensures !mounted ==> isLoading == old(isLoading) && error == old(error) && src == old(src)
      ensures currentTime == old(currentTime) && duration == old(duration) && playing == old(playing)
      ensures volume == old(volume) && isMuted == old(isMuted)
      ensures elementTime == old(elementTime) && elementVolume == old(elementVolume)
    {
      podcast := p;
      if mounted {
        isLoading := true;
        error := None;
        src := p.audioUrl;
      }
    }

    /** `loadedmetadata`: the element now knows the track's length `d`. */
    method HandleLoadedMetadata(d: real)
      requires Valid() && d >= 0.0
      modifies this
      ensures Valid()
      ensures mounted ==> duration == d && !isLoading
      ensures !mounted ==> duration == old(duration) && isLoading == old(isLoading)
      ensures currentTime == old(currentTime) && playing == old(playing) && error == old(error)
      ensures volume == old(volume) && isMuted == old(isMuted) && src == old(src)
      ensures elementTime == old(elementTime) && elementVolume == old(elementVolume)
      ensures podcast == old(podcast)
    {
      if mounted {
        duration := d;
        isLoading := false;
      }
    }

    /** `timeupdate`: the element reports that it has reached position `t`. */
    method HandleTimeUpdate(t: real)
      requires Valid() && t >= 0.0
      modifies this
      ensures Valid()
      ensures mounted ==> currentTime == t && elementTime == t
      ensures !mounted ==> currentTime == old(currentTime) && elementTime == old(elementTime)
      ensures duration == old(duration) && playing == old(playing) && isLoading == old(isLoading)
      ensures error == old(error) && volume == old(volume) && isMuted == old(isMuted)
      ensures src == old(src) && elementVolume == old(elementVolume)
      ensures podcast == old(podcast)
    {
      if mounted {
        elementTime := t;
        currentTime := t;
      }
    }

    /** `ended`: playback stops and the position label goes back to the start. */
    method HandleEnded()
      requires Valid()
      modifies this
      ensures Valid()
      ensures !playing && currentTime == 0.0
      ensures duration == old(duration) && isLoading == old(isLoading) && error == old(error)
      ensures volume == old(volume) && isMuted == old(isMuted)
      ensures src == old(src) && elementTime == old(elementTime) && elementVolume == old(elementVolume)
      ensures podcast == old(podcast)
    {
      playing := false;
      currentTime := 0.0;
    }

    /** `error`: the load failed; loading ends, playback stops and the controls lock. */
    method HandleError()
      requires Valid()
      modifies this
      ensures Valid()
      ensures error == Some(LoadErrorMessage) && !isLoading && !playing
      ensures ControlsDisabled()
      ensures currentTime == old(currentTime) && duration == old(duration)
      ensures volume == old(volume) && isMuted == old(isMuted)
      ensures src == old(src) && elementTime == old(elementTime) && elementVolume == old(elementVolume)
      ensures podcast == old(podcast)
    {
      error := Some(LoadErrorMessage);
      isLoading := false;
      playing := false;
    }

    /** The rejection of the element's `play()` promise: an error is shown and playback is reported stopped. */
    method HandlePlayRejected()
      requires Valid()
      modifies this
      ensures Valid()
      ensures error == Some(PlayErrorMessage) && !playing
      ensures ControlsDisabled()
      ensures currentTime == old(currentTime) && duration == old(duration) && isLoading == old(isLoading)
      ensures volume == old(volume) && isMuted == old(isMuted)
      ensures src == old(src) && elementTime == old(elementTime) && elementVolume == old(elementVolume)
      ensures podcast == old(podcast)
    {
      error := Some(PlayErrorMessage);
      playing := false;
    }

    /** `canplay`: loading is over; the controls unlock unless an error is showing. */
    method HandleCanPlay()
      requires Valid()
      modifies this
      ensures Valid()
      ensures !isLoading
      ensures ControlsDisabled() <==> error.Some?
      ensures currentTime == old(currentTime) && duration == old(duration) && playing == old(playing)
      ensures error == old(error) && volume == old(volume) && isMuted == old(isMuted)
      ensures src == old(src) && elementTime == old(elementTime) && elementVolume == old(elementVolume)
      ensures podcast == old(podcast)
    {
      isLoading := false;
    }

    /** `canplaythrough`: the same effect as `canplay`. */
    method HandleCanPlayThrough()
      requires Valid()
      modifies this
      ensures Valid()
      ensures !isLoading
      ensures ControlsDisabled() <==> error.Some?
      ensures currentTime == old(currentTime) && duration == old(duration) && playing == old(playing)
      ensures error == old(error) && volume == old(volume) && isMuted == old(isMuted)
      ensures src == old(src) && elementTime == old(elementTime) && elementVolume == old(elementVolume)
      ensures podcast == old(podcast)
    {
      isLoading := false;
    }

    /** `waiting`: the element stalled for data; loading again, so the controls lock. */
    method HandleWaiting()
      requires Valid()
      modifies this
      ensures Valid()
      ensures isLoading && ControlsDisabled()
      ensures currentTime == old(currentTime) && duration == old(duration) && playing == old(playing)
      ensures error == old(error) && volume == old(volume) && isMuted == old(isMuted)
      ensures src == old(src) && elementTime == old(elementTime) && elementVolume == old(elementVolume)
      ensures podcast == old(podcast)
    {
      isLoading := true;
    }

    /** The play/pause button: asks the page for the opposite of the current play state. */
    method HandlePlayPause()
      requires Valid()
      modifies this
      ensures Valid()
      ensures playing == !old(playing)
      ensures currentTime == old(currentTime) && duration == old(duration) && isLoading == old(isLoading)
      ensures error == old(error) && volume == old(volume) && isMuted == old(isMuted)
      ensures src == old(src) && elementTime == old(elementTime) && elementVolume == old(elementVolume)
      ensures podcast == old(podcast)
    {
      playing := !playing;
    }

    /** The position slider, whose values lie between 0 and the track length: jumps to `v`. */
    method HandleSeek(v: real)
      requires Valid() && 0.0 <= v <= duration
      modifies this
      ensures Valid()
      ensures mounted ==> currentTime == v && elementTime == v
      ensures !mounted ==> currentTime == old(currentTime) && elementTime == old(elementTime)
      ensures duration == old(duration) && playing == old(playing) && isLoading == old(isLoading)
      ensures error == old(error) && volume == old(volume) && isMuted == old(isMuted)
      ensures src == old(src) && elementVolume == old(elementVolume)
      ensures podcast == old(podcast)
    {
      if mounted {
        elementTime := v;
        currentTime := v;
      }
    }

    /**
     * The volume slider, whose values lie between 0 and 1: the saved volume
     * becomes `v`, and the player counts as muted exactly when `v` is 0.
     */
    method HandleVolumeChange(v: real)
      requires Valid() && 0.0 <= v <= 1.0
      modifies this
      ensures Valid()
      ensures volume == v && (isMuted <==> v == 0.0)
      ensures mounted ==> elementVolume == v
      ensures !mounted ==> elementVolume == old(elementVolume)
      ensures VolumeIcon() == VolumeOff <==> v == 0.0
      ensures currentTime == old(currentTime) && duration == old(duration) && playing == old(playing)
      ensures isLoading == old(isLoading) && error == old(error)
      ensures src == old(src) && elementTime == old(elementTime)
      ensures podcast == old(podcast)
    {
      volume := v;
      if mounted {
        elementVolume := v;
      }
      isMuted := v == 0.0;
    }

    /**
     * The mute button: flips the mute flag and keeps the saved volume, so
     * unmuting gives the element back the volume it had before muting.
     */
    method HandleMute()
      requires Valid()
      modifies this
      ensures Valid()
      ensures mounted ==> isMuted == !old(isMuted)
      ensures mounted && old(isMuted) ==> elementVolume == volume
      ensures mounted && !old(isMuted) ==> elementVolume == 0.0 && VolumeIcon() == VolumeOff
      ensures !mounted ==> isMuted == old(isMuted) && elementVolume == old(elementVolume)
      ensures volume == old(volume)
      ensures currentTime == old(currentTime) && duration == old(duration) && playing == old(playing)
      ensures isLoading == old(isLoading) && error == old(error)
      ensures src == old(src) && elementTime == old(elementTime)
      ensures podcast == old(podcast)
    {
      if mounted {
        if isMuted {
          elementVolume := volume;
          isMuted := false;
        } else {
          elementVolume := 0.0;
          isMuted := true;
        }
      }
    }

    /** The skip buttons (back 10, forward 30 seconds): moves by `seconds`, held inside the track. */
    method HandleSkip(seconds: real)
      requires Valid()
      modifies this
      ensures Valid()
      ensures mounted ==> currentTime == ClampTime(old(currentTime) + seconds, duration) && elementTime == currentTime
      ensures mounted ==> 0.0 <= currentTime <= duration
      ensures mounted && duration == 0.0 ==> currentTime == 0.0
      ensures !mounted ==> currentTime == old(currentTime) && elementTime == old(elementTime)
      ensures duration == old(duration) && playing == old(playing) && isLoading == old(isLoading)
      ensures error == old(error) && volume == old(volume) && isMuted == old(isMuted)
      ensures src == old(src) && elementVolume == old(elementVolume)
      ensures podcast == old(podcast)
    {
      if mounted {
        var newTime := ClampTime(currentTime + seconds, duration);
        elementTime := newTime;
        currentTime := newTime;
      }
    }

    /** The transport controls (skip, play/pause, position) are locked while loading or after an error. */
    predicate ControlsDisabled()
      reads this
      ensures isLoading ==> ControlsDisabled()
      ensures error.Some? ==> ControlsDisabled()
    {
      isLoading || error.Some?
    }

    /** The icon on the mute button. */
    function VolumeIcon(): (icon: VolumeIcon)
      reads this
      ensures icon == VolumeOff <==> isMuted || volume == 0.0
      ensures icon == VolumeDown <==> !isMuted && volume != 0.0 && volume < 0.5
    {
      VolumeIconFor(isMuted, volume)
    }

    /** The value the volume slider shows: 0 while muted; it reads 0 exactly when the icon is off. */
    function VolumeSliderValue(): (shown: real)
      reads this
      ensures shown == 0.0 <==> VolumeIcon() == VolumeOff
      ensures !isMuted ==> shown == volume
    {
      if isMuted then 0.0 else volume
    }
  }

  /** Before the metadata arrives the track length is still 0, so any skip lands on 0. */
  method SkipBeforeMetadata(p: Podcast, playing: bool, seconds: real) returns (position: real)
    ensures position == 0.0
  {
    var player := new Player(true, p, playing);
    player.HandleSkip(seconds);
    position := player.currentTime;
  }
}
