/** `components/VideoGrid.tsx`: the grid of generated videos and the player
    each one gets. The player's state and the few fields of its `<video>`
    element that the handlers touch are modelled together; numbers are exact
    reals (the slider yields multiples of 0.05 in [0, 1]). */
module VideoGrid {
  import opened Wrappers
  import opened JsStrings

  // ------------------------------------------------------------ durations

  /** `formatDuration(seconds)` for a number that is not NaN: `"00:00"` below
      zero, otherwise whole minutes and the whole seconds left over, each
      padded to two digits. */
  function FormatDuration(seconds: real): (r: string)
    ensures seconds < 0.0 ==> r == "00:00"
    ensures |r| >= 5
  {
    if seconds < 0.0 then "00:00"
    else
      PadStart2(NatToString(Minutes(seconds))) + ":" + PadStart2(NatToString(RemainingSeconds(seconds)))
  }

  /** `Math.floor(seconds / 60)`. */
  function Minutes(seconds: real): (m: nat)
    requires seconds >= 0.0
    ensures 60.0 * m as real <= seconds < 60.0 * m as real + 60.0
  {
    (seconds / 60.0).Floor
  }

  /** `Math.floor(seconds % 60)`; the remainder is exact for a non-negative
      double. */
  function RemainingSeconds(seconds: real): (s: nat)
    requires seconds >= 0.0
    ensures s < 60 && Minutes(seconds) * 60 + s == seconds.Floor
  {
    (seconds - 60.0 * Minutes(seconds) as real).Floor
  }

  /** A duration reads back: two colon-separated fields of digits, the
      seconds field exactly two digits below 60, the minutes field at least
      two digits and never cut short, together giving the whole seconds. */
  lemma FormatDurationReadsBack(seconds: real)
    requires seconds >= 0.0
    ensures var parts := Split(FormatDuration(seconds), ':');
      && |parts| == 2
      && (forall k, i :: 0 <= k < 2 && 0 <= i < |parts[k]| ==> IsDigit(parts[k][i]))
      && |parts[0]| >= 2 && |parts[1]| == 2
      && ParseDecimal(parts[0]) == Minutes(seconds)
      && ParseDecimal(parts[1]) < 60
      && ParseDecimal(parts[0]) * 60 + ParseDecimal(parts[1]) == seconds.Floor
  {
    var minutes, remaining := Minutes(seconds), RemainingSeconds(seconds);
    PadStart2Decimal(minutes);
    PadStart2Decimal(remaining);
    SplitDigitFields(PadStart2(NatToString(minutes)), PadStart2(NatToString(remaining)));
  }

  /** Two digit strings joined by a colon split back into the two. */
  lemma SplitDigitFields(mm: string, ss: string)
    requires forall i :: 0 <= i < |mm| ==> IsDigit(mm[i])
    requires forall i :: 0 <= i < |ss| ==> IsDigit(ss[i])
    ensures Split(mm + ":" + ss, ':') == [mm, ss]
  {
    assert ':' !in mm && ':' !in ss;
    SplitFirst(mm, ':', ss);
    SplitWithout(ss, ':');
    assert mm + ":" + ss == mm + [':'] + ss;
  }

  // ------------------------------------------------------------ downloads

  const FileNamePrefix: string := "veo-generated-video-"
  const FileNameSuffix: string := ".mp4"

  /** `veo-generated-video-${index + 1}.mp4`: the video's position counted
      from one. */
  function DownloadFileName(index: nat): (name: string)
    ensures |name| > |FileNamePrefix| + |FileNameSuffix|
    ensures name[..|FileNamePrefix|] == FileNamePrefix
    ensures name[|name| - |FileNameSuffix|..] == FileNameSuffix
    ensures name[|FileNamePrefix|..|name| - |FileNameSuffix|] == NatToString(index + 1)
  {
    FileNamePrefix + NatToString(index + 1) + FileNameSuffix
  }

  /** Different positions give different file names. */
  lemma DownloadFileNameInjective(i: nat, j: nat)
    requires DownloadFileName(i) == DownloadFileName(j)
    ensures i == j
  {
    var a, b := DownloadFileName(i), DownloadFileName(j);
    assert a[|FileNamePrefix|..|a| - |FileNameSuffix|] == b[|FileNamePrefix|..|b| - |FileNameSuffix|];
    NatToStringInjective(i + 1, j + 1);
  }

  // ----------------------------------------------------------------- grid

  /** The props one `VideoPlayer` gets. */
  datatype PlayerProps = PlayerProps(videoUrl: string, index: nat)

  /** `VideoGrid`: nothing for an empty list, otherwise one player per URL,
      in list order, each with its position. */
  function Grid(videos: seq<string>): (r: Option<seq<PlayerProps>>)
    ensures r.None? <==> videos == []
    ensures r.Some? ==> |r.value| == |videos|
    ensures r.Some? ==> forall i :: 0 <= i < |videos| ==> r.value[i].videoUrl == videos[i] && r.value[i].index == i
  {
    if videos == [] then None
    else Some(seq(|videos|, i requires 0 <= i < |videos| => PlayerProps(videos[i], i)))
  }

  /** Downloading from two different players of one grid never saves under
      the same name, even when the URLs are the same. */
  lemma GridFileNamesDistinct(videos: seq<string>, i: nat, j: nat)
    requires i < |videos| && j < |videos| && i != j
    ensures DownloadFileName(Grid(videos).value[i].index) != DownloadFileName(Grid(videos).value[j].index)
  {
    if DownloadFileName(i) == DownloadFileName(j) {
      DownloadFileNameInjective(i, j);
    }
  }

  // --------------------------------------------------------------- player

  /** The player's state (`isPlaying`, `volume`, `isMuted`, `progress`,
      `duration`) and its element's (`paused`, `muted`, `volume`,
      `currentTime`). */
  datatype Player = Player(isPlaying: bool, volume: real, isMuted: bool, progress: real,
                           duration: Option<string>, paused: bool, muted: bool,
                           elementVolume: real, currentTime: real)

  /** The state agrees with the element: playing exactly when not paused,
      muted together, the same volume, within the slider's range. */
  predicate InSync(p: Player)
  {
    p.isPlaying == !p.paused && p.muted == p.isMuted && p.elementVolume == p.volume && 0.0 <= p.volume <= 1.0
  }

  /** Sound comes out: the element is neither muted nor at volume 0. */
  predicate Audible(p: Player)
  {
    !p.muted && p.elementVolume > 0.0
  }

  /** A freshly mounted player: paused, muted by the effect, at full volume. */
  const Mounted: Player := Player(false, 1.0, true, 0.0, None, true, true, 1.0, 0.0)

  /** `togglePlayPause`: a paused video plays, any other pauses. */
  function PlayPauseToggled(p: Player): (r: Player)
    ensures r.paused == !p.paused && r.isPlaying == p.paused
    ensures InSync(p) ==> InSync(r) && r.isPlaying == !p.isPlaying
  {
    if p.paused then p.(paused := false, isPlaying := true)
    else p.(paused := true, isPlaying := false)
  }

  /** `handleVolumeChange`: the new volume everywhere, and unmuted when it is
      above zero while muted. */
  function VolumeChanged(p: Player, v: real): (r: Player)
    requires 0.0 <= v <= 1.0
    ensures r.volume == v && r.elementVolume == v
    ensures r.isMuted == (p.isMuted && !(v > 0.0))
    ensures InSync(p) ==> InSync(r)
    ensures InSync(p) && v > 0.0 ==> Audible(r)
  {
    var q := p.(volume := v, elementVolume := v);
    if v > 0.0 && p.isMuted then q.(isMuted := false, muted := false) else q
  }

  /** `toggleMute`: flips muting; unmuting at volume 0 restores half volume. */
  function MuteToggled(p: Player): (r: Player)
    ensures r.isMuted == !p.isMuted && r.muted == r.isMuted
    ensures r.volume == (if p.isMuted && p.volume == 0.0 then 0.5 else p.volume)
    ensures InSync(p) ==> InSync(r)
    ensures InSync(p) && p.isMuted ==> Audible(r)
  {
    var q := p.(isMuted := !p.isMuted, muted := !p.isMuted);
    if !q.isMuted && p.volume == 0.0 then q.(volume := 0.5, elementVolume := 0.5) else q
  }

  /** Muting and unmuting again changes nothing, unless the volume was 0. */
  lemma MuteToggledTwice(p: Player)
    requires InSync(p) && p.volume != 0.0
    ensures MuteToggled(MuteToggled(p)) == p
  {
  }

  /** `handleEnded`, after the element stopped at the end: back to the start. */
  function Ended(p: Player): (r: Player)
    ensures !r.isPlaying && r.progress == 0.0 && r.currentTime == 0.0
    ensures InSync(p.(paused := true)) ==> InSync(r)
  {
    p.(paused := true, isPlaying := false, progress := 0.0, currentTime := 0.0)
  }

  /** `handleTimeUpdate`: the position as a percentage, when the duration is
      known and not zero. */
  function TimeUpdated(p: Player, currentTime: real, elementDuration: real): (r: Player)
    ensures r == p.(currentTime := currentTime, progress := r.progress)
    ensures elementDuration != 0.0 ==> r.progress * elementDuration == currentTime * 100.0
    ensures elementDuration == 0.0 ==> r.progress == p.progress
    ensures elementDuration > 0.0 && 0.0 <= currentTime <= elementDuration ==> 0.0 <= r.progress <= 100.0
    ensures InSync(p) ==> InSync(r)
  {
    var q := p.(currentTime := currentTime);
    if elementDuration != 0.0 then q.(progress := currentTime / elementDuration * 100.0) else q
  }

  /** With a positive duration the percentage is 0 at the start, 100 at the
      end, and never goes back while the position moves forward. */
  lemma TimeUpdatedMonotone(p: Player, earlier: real, later: real, elementDuration: real)
    requires elementDuration > 0.0 && earlier <= later
    ensures TimeUpdated(p, 0.0, elementDuration).progress == 0.0
    ensures TimeUpdated(p, elementDuration, elementDuration).progress == 100.0
    ensures TimeUpdated(p, earlier, elementDuration).progress <= TimeUpdated(p, later, elementDuration).progress
  {
    var a := TimeUpdated(p, earlier, elementDuration).progress;
    var b := TimeUpdated(p, later, elementDuration).progress;
    assert (b - a) * elementDuration == (later - earlier) * 100.0;
  }

  /** `handleMetadataLoaded`: the formatted duration. */
  function MetadataLoaded(p: Player, elementDuration: real): (r: Player)
    ensures r.duration.Some? && InSync(p) == InSync(r)
    ensures |r.duration.value| >= 5
  {
    p.(duration := Some(FormatDuration(elementDuration)))
  }

  /** `VideoPlayer`, from the moment its element is mounted. */
  class VideoPlayer {
    const videoUrl: string
    const index: nat
    var isPlaying: bool
    var volume: real
    var isMuted: bool
    var progress: real
    var duration: Option<string>
    var paused: bool
    var muted: bool
    var elementVolume: real
    var currentTime: real

    function State(): Player
      reads this
    {
      Player(isPlaying, volume, isMuted, progress, duration, paused, muted, elementVolume, currentTime)
    }

    predicate Valid()
      reads this
    {
      InSync(State())
    }

    constructor (url: string, position: nat)
      ensures Valid() && State() == Mounted && videoUrl == url && index == position
    {
      videoUrl, index := url, position;
      isPlaying, volume, isMuted, progress, duration := false, 1.0, true, 0.0, None;
      paused, elementVolume, currentTime := true, 1.0, 0.0;
      // The effect: `video.muted = isMuted`.
      muted := true;
    }

    method TogglePlayPause()
      requires Valid()
      modifies this
      ensures Valid() && State() == PlayPauseToggled(old(State()))
    {
      if paused {
        paused := false;
        isPlaying := true;
      } else {
        paused := true;
        isPlaying := false;
      }
    }

    method HandleVolumeChange(newVolume: real)
      requires Valid() && 0.0 <= newVolume <= 1.0
      modifies this
      ensures Valid() && State() == VolumeChanged(old(State()), newVolume)
    {
      volume := newVolume;
      elementVolume := newVolume;
      if newVolume > 0.0 && isMuted {
        isMuted := false;
        muted := false;
      }
    }

    method ToggleMute()
      requires Valid()
      modifies this
      ensures Valid() && State() == MuteToggled(old(State()))
    {
      var newMutedState := !isMuted;
      isMuted := newMutedState;
      muted := newMutedState;
      if !newMutedState && volume == 0.0 {
        volume := 0.5;
        elementVolume := 0.5;
      }
    }

    /** The element reached the end (and paused), then `handleEnded` ran. */
    method HandleEnded()
      requires Valid()
      modifies this
      ensures Valid() && State() == Ended(old(State()))
    {
      paused := true;
      isPlaying := false;
      progress := 0.0;
      currentTime := 0.0;
    }

    method HandleTimeUpdate(position: real, elementDuration: real)
      requires Valid()
      modifies this
      ensures Valid() && State() == TimeUpdated(old(State()), position, elementDuration)
    {
      currentTime := position;
      if elementDuration != 0.0 {
        progress := position / elementDuration * 100.0;
      }
    }

    method HandleMetadataLoaded(elementDuration: real)
      requires Valid()
      modifies this
      ensures Valid() && State() == MetadataLoaded(old(State()), elementDuration)
    {
      duration := Some(FormatDuration(elementDuration));
    }

    /** `handleDownload`: the link's `href` and `download` attributes. */
    method HandleDownload() returns (href: string, download: string)
      ensures href == videoUrl && download == DownloadFileName(index)
    {
      href := videoUrl;
      download := FileNamePrefix + NatToString(index + 1) + FileNameSuffix;
    }

    /** The slider shows 0 while muted. */
    function SliderValue(): (v: real)
      reads this
      ensures isMuted ==> v == 0.0
      ensures !isMuted ==> v == volume
    {
      if isMuted then 0.0 else volume
    }

    /** The muted icon shows exactly when no sound can come out. */
    predicate ShowsMutedIcon()
      reads this
      ensures Valid() ==> (ShowsMutedIcon() <==> !Audible(State()))
    {
      isMuted || volume == 0.0
    }
  }
}
