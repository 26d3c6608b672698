/** The video player: its control state, the element it drives, the time
    label and the clamped skip. Times and volumes are reals. */
module Player {
  import opened Options
  import opened Decimal
  import opened Text

  // ---------------------------------------------------------------------------
  // `formatTime`
  // ---------------------------------------------------------------------------

  /** `Math.trunc`. */
  function Trunc(x: real): int {
    if x >= 0.0 then x.Floor else -((-x).Floor)
  }

  /** JavaScript's `%` on numbers: the remainder takes the sign of `x`. */
  function JsRemainder(x: real, m: real): real
    requires m != 0.0
  {
    x - m * Trunc(x / m) as real
  }

  function Minutes(time: real): int {
    (time / 60.0).Floor
  }

  function Seconds(time: real): int {
    JsRemainder(time, 60.0).Floor
  }

  /** `${seconds < 10 ? '0' : ''}${seconds}`. */
  function SecondsField(seconds: int): string {
    (if seconds < 10 then "0" else "") + IntToString(seconds)
  }

  /** `formatTime(time)`: minutes, a colon, and the seconds with one leading
      zero below ten. */
  function FormatTime(time: real): string {
    IntToString(Minutes(time)) + ":" + SecondsField(Seconds(time))
  }

  /** For a non-negative time the seconds lie in 0..59 and the two fields add
      up to the whole seconds of the time. */
  lemma FormatTimeFields(time: real)
    requires time >= 0.0
    ensures 0 <= Seconds(time) <= 59
    ensures Minutes(time) >= 0 && Minutes(time) * 60 + Seconds(time) == time.Floor
  {
    var m := Minutes(time);
    assert Trunc(time / 60.0) == m;
    var rem := time - 60.0 * m as real;
    assert 0.0 <= rem < 60.0;
    assert rem.Floor == time.Floor - 60 * m;
  }

  /** Reads a `M:SS` label back to its whole seconds. */
  function ParseTime(shown: string): Option<int> {
    var minutes := FirstField(shown, ':');
    if |minutes| == |shown| then None
    else
      match (ParseInt(minutes), ParseInt(shown[|minutes| + 1..]))
      case (Some(m), Some(s)) => Some(m * 60 + s)
      case _ => None
  }

  lemma {:induction false} LeadingZeroValue(d: string)
    requires AllDigits(d)
    ensures AllDigits("0" + d) && DigitsValue("0" + d) == DigitsValue(d)
    decreases |d|
  {
    if d != [] {
      var z := "0" + d;
      assert z[..|z| - 1] == "0" + d[..|d| - 1];
      LeadingZeroValue(d[..|d| - 1]);
    }
  }

  /** The seconds field of a non-negative time has two digits and parses back. */
  lemma SecondsFieldParses(seconds: int)
    requires 0 <= seconds <= 59
    ensures |SecondsField(seconds)| == 2 && AllDigits(SecondsField(seconds))
    ensures ParseInt(SecondsField(seconds)) == Some(seconds)
  {
    var d := NatToString(seconds);
    NatToStringRoundTrip(seconds);
    if seconds < 10 {
      LeadingZeroValue(d);
      ParseIntPrefix("0" + d, []);
      assert "0" + d + [] == "0" + d;
    } else {
      assert NatToString(seconds / 10) == [DigitChar(seconds / 10)];
      ParseIntPrefix(d, []);
      assert d + [] == d;
    }
  }

  /** The label of a non-negative time reads back as its whole seconds. */
  lemma FormatTimeRoundTrip(time: real)
    requires time >= 0.0
    ensures ParseTime(FormatTime(time)) == Some(time.Floor)
  {
    FormatTimeFields(time);
    var m := Minutes(time);
    var s := Seconds(time);
    var shown := FormatTime(time);
    var mm := IntToString(m);
    SecondsFieldParses(s);
    assert shown == mm + ":" + SecondsField(s);
    assert FirstField(shown, ':') == mm by {
      FirstFieldOfDigits(mm, SecondsField(s));
    }
    assert shown[|mm| + 1..] == SecondsField(s);
    ParseIntToString(m);
  }

  lemma {:induction false} FirstFieldOfDigits(d: string, rest: string)
    requires AllDigits(d)
    ensures FirstField(d + ":" + rest, ':') == d
    decreases |d|
  {
    if d != [] {
      assert (d + ":" + rest)[1..] == d[1..] + ":" + rest;
      FirstFieldOfDigits(d[1..], rest);
    }
  }

  // ---------------------------------------------------------------------------
  // `skip`
  // ---------------------------------------------------------------------------

  /** `Math.min(Math.max(current + amount, 0), duration)`. */
  function SkipTarget(current: real, amount: real, duration: real): (t: real)
    ensures duration >= 0.0 ==> 0.0 <= t <= duration
    ensures 0.0 <= current + amount <= duration ==> t == current + amount
    ensures current + amount < 0.0 && duration >= 0.0 ==> t == 0.0
    ensures current + amount > duration && duration >= 0.0 ==> t == duration
  {
    var atLeastZero := if current + amount > 0.0 then current + amount else 0.0;
    if atLeastZero < duration then atLeastZero else duration
  }

  /** The amounts the skip-back and skip-forward buttons pass to `skip`. */
  const SkipBackAmount: real := -10.0
  const SkipForwardAmount: real := 10.0

  /** From a time within the video, the back button goes ten seconds back or
      to the start, the forward button ten seconds on or to the end, and away
      from the end a forward skip is undone by a back skip. */
  lemma SkipButtons(current: real, duration: real)
    requires 0.0 <= current <= duration
    ensures var back := SkipTarget(current, SkipBackAmount, duration);
      0.0 <= back <= current && back == (if current >= 10.0 then current - 10.0 else 0.0)
    ensures var forward := SkipTarget(current, SkipForwardAmount, duration);
      current <= forward <= duration
      && forward == (if current + 10.0 <= duration then current + 10.0 else duration)
    ensures current + 10.0 <= duration ==>
      SkipTarget(SkipTarget(current, SkipForwardAmount, duration), SkipBackAmount, duration) == current
  {
  }

  // ---------------------------------------------------------------------------
  // The element and the component state
  // ---------------------------------------------------------------------------

  /** The parts of the `<video>` element the player reads and writes. */
  class VideoElement {
    var currentTime: real
    var duration: real
    var volume: real
    var muted: bool
    var paused: bool

    constructor (duration: real)
      ensures this.duration == duration && currentTime == 0.0
      ensures volume == 1.0 && !muted && paused
    {
      this.duration := duration;
      currentTime := 0.0;
      volume := 1.0;
      muted := false;
      paused := true;
    }
  }

  class VideoPlayer {
    /** `videoRef.current`; null while no element is mounted. */
    var video: VideoElement?
    var isPlaying: bool
    var progress: real
    var currentTime: real
    var duration: real
    var volume: real
    var isMuted: bool
    var isFullScreen: bool
    /** Whether an `onEnded` callback was passed, and how often it was called. */
    var hasOnEnded: bool
    var endedCalls: nat

    constructor (video: VideoElement?, hasOnEnded: bool)
      ensures this.video == video && this.hasOnEnded == hasOnEnded && endedCalls == 0
      ensures !isPlaying && progress == 0.0 && currentTime == 0.0 && duration == 0.0
      ensures volume == 0.7 && !isMuted && !isFullScreen
    {
      this.video := video;
      this.hasOnEnded := hasOnEnded;
      endedCalls := 0;
      isPlaying, progress, currentTime, duration := false, 0.0, 0.0, 0.0;
      volume, isMuted, isFullScreen := 0.7, false, false;
    }

    /** The `loadedmetadata` listener. */
    method LoadedMetadata()
      modifies this`duration
      ensures video != null ==> duration == video.duration
      ensures video == null ==> duration == old(duration)
    {
      if video != null {
        duration := video.duration;
      }
    }

    /** `togglePlay`: pause a playing element, play a paused one, and flip the flag. */
    method TogglePlay()
      modifies this`isPlaying, video
      ensures video == null ==> isPlaying == old(isPlaying)
      ensures video != null ==> isPlaying == !old(isPlaying) && video.paused == old(isPlaying)
      ensures video != null ==> unchanged(video`currentTime, video`duration, video`volume, video`muted)
    {
      if video == null {
        return;
      }
      video.paused := isPlaying;
      isPlaying := !isPlaying;
    }

    /** The `ended` listener. */
    method Ended()
      modifies this`isPlaying, this`endedCalls
      ensures !isPlaying
      ensures endedCalls == old(endedCalls) + (if hasOnEnded then 1 else 0)
    {
      isPlaying := false;
      if hasOnEnded {
        endedCalls := endedCalls + 1;
      }
    }

    /** `handleVolumeChange`: the volume is always stored; with an element it is
        written to it and the player is muted exactly at volume zero. */
    method VolumeChange(value: real)
      modifies this`volume, this`isMuted, video
      ensures volume == value
      ensures video == null ==> isMuted == old(isMuted)
      ensures video != null ==> video.volume == value && (isMuted <==> value == 0.0)
      ensures video != null ==> unchanged(video`currentTime, video`duration, video`muted, video`paused)
    {
      volume := value;
      if video != null {
        video.volume := value;
        isMuted := value == 0.0;
      }
    }

    /** `toggleMute`: unmuting restores the stored volume on the element. */
    method ToggleMute()
      modifies this`isMuted, video
      ensures video == null ==> isMuted == old(isMuted)
      ensures video != null ==> isMuted == !old(isMuted) && video.muted == !old(isMuted)
      ensures video != null && old(isMuted) ==> video.volume == volume
      ensures video != null && !old(isMuted) ==> video.volume == old(video.volume)
      ensures video != null ==> unchanged(video`currentTime, video`duration, video`paused)
    {
      if video == null {
        return;
      }
      if isMuted {
        video.volume := volume;
        video.muted := false;
      } else {
        video.muted := true;
      }
      isMuted := !isMuted;
    }

    /** `handleSeek` with the slider's percentage. */
    method Seek(value: real)
      modifies this`progress, this`currentTime, video
      ensures progress == value && currentTime == value / 100.0 * duration
      ensures video != null ==> video.currentTime == currentTime
      ensures video != null ==> unchanged(video`duration, video`volume, video`muted, video`paused)
    {
      var newTime := value / 100.0 * duration;
      progress := value;
      currentTime := newTime;
      if video != null {
        video.currentTime := newTime;
      }
    }

    /** `toggleFullScreen`; `containerFound` is whether the page has a player
        container to put in full screen. */
    method ToggleFullScreen(containerFound: bool)
      modifies this`isFullScreen
      ensures isFullScreen == if containerFound then !old(isFullScreen) else old(isFullScreen)
    {
      if !containerFound {
        return;
      }
      isFullScreen := !isFullScreen;
    }

    /** `skip(amount)`: moves the element's time, clamped to the video. */
    method Skip(amount: real)
      modifies video
      ensures video != null ==>
        video.currentTime == SkipTarget(old(video.currentTime), amount, video.duration)
      ensures video != null && video.duration >= 0.0 ==> 0.0 <= video.currentTime <= video.duration
      ensures video != null ==> unchanged(video`duration, video`volume, video`muted, video`paused)
    {
      if video == null {
        return;
      }
      video.currentTime := SkipTarget(video.currentTime, amount, video.duration);
    }
  }
}
