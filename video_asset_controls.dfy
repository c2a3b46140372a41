/**
 * The handler logic of the video tile's controls
 * (app/components/VideoAssetControls.tsx): volume and mute, pausing while the
 * progress slider is dragged and resuming on release, the play/pause/replay
 * icon, and the title-bar drag guards.
 *
 * The state cells the handlers work on — `muted`, `volume`, `localProgress`
 * (owned by the enclosing video tile), `videoWasPlaying` (owned by the
 * controls) and the asset's `playing` and `draggable` flags (owned by the
 * store) — are the fields of class `VideoAssetControls`. The store actions
 * `stopVideo`, `playVideo`, `enableDragging` and `disableDragging` are not
 * defined by the store in app/store/AssetsStore.tsx; the model treats them as
 * setting `playing` or `draggable` to false or true, and each handler reports
 * whether it invoked one.
 */
module VideoControls {
  import opened Interfaces

  datatype Icon = ReplayIcon | PauseIcon | PlayIcon

  /** A snapshot of the state cells, as one render of the controls sees them. */
  datatype ControlsState = ControlsState(
    muted: bool,
    volume: int,
    localProgress: real,
    duration: Option<real>,
    videoWasPlaying: bool,
    playing: bool,
    draggable: bool)

  /** `isVideoOver`: progress is non-zero and has reached the duration. */
  predicate IsVideoOver(localProgress: real, duration: Option<real>): (over: bool)
    ensures over ==> duration.Some? && duration.value != 0.0
    ensures duration.Some? && duration.value != 0.0 ==> (over <==> localProgress == duration.value)
  {
    localProgress != 0.0 && duration == Some(localProgress)
  }

  /** `PlayingIcon`: replay once the video is over, else pause while playing, else play. */
  function PlayingIcon(localProgress: real, duration: Option<real>, playing: bool): (icon: Icon)
    ensures icon == ReplayIcon <==> localProgress != 0.0 && duration == Some(localProgress)
    ensures icon == PauseIcon <==> !IsVideoOver(localProgress, duration) && playing
    ensures icon == PlayIcon <==> !IsVideoOver(localProgress, duration) && !playing
  {
    if IsVideoOver(localProgress, duration) then ReplayIcon
    else if playing then PauseIcon
    else PlayIcon
  }

  /** The value the volume slider shows: 0 while muted, the volume otherwise. */
  function VolumeSliderValue(muted: bool, volume: int): (shown: int)
    ensures shown == 0 <==> muted || volume == 0
    ensures shown != 0 ==> shown == volume
  {
    if muted then 0 else volume
  }

  // ---------------------------------------------------------------------------
  // The handlers as transitions on a snapshot
  // ---------------------------------------------------------------------------

  /** `handleChangeVolume(value)`: the volume becomes `value`, muted exactly when it is 0. */
  function ChangeVolume(s: ControlsState, value: int): (r: ControlsState)
    ensures r.volume == value && (r.muted <==> value == 0)
    ensures r.(muted := s.muted, volume := s.volume) == s
  {
    s.(muted := value == 0, volume := value)
  }

  /**
   * `handleChangeMuted`: always flips `muted`; unmuting a player that was
   * muted at volume 0 restores volume 100.
   */
  function ChangeMuted(s: ControlsState): (r: ControlsState)
    ensures r.muted == !s.muted
    ensures r.volume == (if s.muted && s.volume == 0 then 100 else s.volume)
    ensures r.(muted := s.muted, volume := s.volume) == s
  {
    s.(volume := if s.muted && s.volume == 0 then 100 else s.volume, muted := !s.muted)
  }

  /**
   * `handleChangeProgress(value)`: a playing video is stopped and remembered
   * as having played; then, if the player is mounted, the local progress
   * moves to `value`.
   */
  function ChangeProgress(s: ControlsState, playerMounted: bool, value: real): (r: ControlsState)
    ensures s.playing ==> r.videoWasPlaying && !r.playing
    ensures !s.playing ==> r.videoWasPlaying == s.videoWasPlaying && !r.playing
    ensures r.localProgress == (if playerMounted then value else s.localProgress)
    ensures r.(videoWasPlaying := s.videoWasPlaying, playing := s.playing, localProgress := s.localProgress) == s
  {
    var stopped := if s.playing then s.(videoWasPlaying := true, playing := false) else s;
    if playerMounted then stopped.(localProgress := value) else stopped
  }

  /**
   * `handleChangeProgressCommited`: clears `videoWasPlaying` and resumes
   * playback if the video had been playing before the drag and is not now.
   * The condition reads the values of the snapshot the handler runs in.
   */
  function CommitProgress(s: ControlsState): (r: ControlsState)
    ensures !r.videoWasPlaying
    ensures r.playing == (s.playing || s.videoWasPlaying)
    ensures r.(videoWasPlaying := s.videoWasPlaying, playing := s.playing) == s
  {
    var cleared := s.(videoWasPlaying := false);
    if s.videoWasPlaying && !s.playing then cleared.(playing := true) else cleared
  }

  /** Mouse entering the title bar: enable dragging unless it already is. */
  function MouseEnter(s: ControlsState): (r: ControlsState)
    ensures r.draggable
    ensures r.(draggable := s.draggable) == s
  {
    if !s.draggable then s.(draggable := true) else s
  }

  /** Mouse leaving the title bar: disable dragging if it is enabled. */
  function MouseLeave(s: ControlsState): (r: ControlsState)
    ensures !r.draggable
    ensures r.(draggable := s.draggable) == s
  {
    if s.draggable then s.(draggable := false) else s
  }

  // ---------------------------------------------------------------------------
  // Properties across handlers
  // ---------------------------------------------------------------------------

  /** After a volume change the slider shows exactly the chosen value. */
  lemma VolumeChangeIsShown(s: ControlsState, value: int)
    ensures var r := ChangeVolume(s, value);
      VolumeSliderValue(r.muted, r.volume) == value
  {
  }

  /**
   * Toggling mute twice restores the state exactly when the volume is not 0;
   * at volume 0 the round trip ends at volume 100.
   */
  lemma ToggleMuteTwice(s: ControlsState)
    ensures ChangeMuted(ChangeMuted(s)) == s <==> s.volume != 0
    ensures s.volume == 0 ==> ChangeMuted(ChangeMuted(s)).volume == 100
  {
  }

  /** Unmuting shows the volume on the slider again, or 100 if it was 0. */
  lemma UnmuteShowsVolume(s: ControlsState)
    requires s.muted
    ensures var r := ChangeMuted(s);
      VolumeSliderValue(r.muted, r.volume) == (if s.volume == 0 then 100 else s.volume)
  {
  }

  /**
   * A drag of the progress slider followed by its release leaves the video
   * playing exactly when it was playing before the drag (or was already
   * marked as having played), and leaves `videoWasPlaying` cleared.
   */
  lemma ScrubThenCommit(s: ControlsState, playerMounted: bool, value: real)
    ensures var r := CommitProgress(ChangeProgress(s, playerMounted, value));
      && r.playing == (s.playing || s.videoWasPlaying)
      && !r.videoWasPlaying
  {
  }

  /** Repeated mouse-enter or mouse-leave events change nothing more. */
  lemma DragGuardsIdempotent(s: ControlsState)
    ensures MouseEnter(MouseEnter(s)) == MouseEnter(s)
    ensures MouseLeave(MouseLeave(s)) == MouseLeave(s)
    ensures MouseLeave(MouseEnter(s)) == s.(draggable := false)
  {
  }

  // ---------------------------------------------------------------------------
  // The component
  // ---------------------------------------------------------------------------

  /** The controls of one video tile and the state cells its handlers update. */
  class VideoAssetControls {
    var muted: bool
    var volume: int
    var localProgress: real
    var duration: Option<real>
    var videoWasPlaying: bool
    var playing: bool
    var draggable: bool

    function State(): ControlsState
      reads this
    {
      ControlsState(muted, volume, localProgress, duration, videoWasPlaying, playing, draggable)
    }

    /**
     * A freshly mounted tile for `asset`: unmuted at volume 100, local progress
     * from the asset (`progress || 0`), nothing remembered as playing.
     */
    constructor (asset: Asset)
      ensures !muted && volume == 100 && !videoWasPlaying
      ensures localProgress == (if asset.progress.Some? then asset.progress.value else 0.0)
      ensures duration == asset.duration
      ensures playing == (asset.playing == Some(true))
      ensures draggable == (asset.draggable == Some(true))
    {
      muted := false;
      volume := 100;
      localProgress := if asset.progress.Some? then asset.progress.value else 0.0;
      duration := asset.duration;
      videoWasPlaying := false;
      playing := asset.playing == Some(true);
      draggable := asset.draggable == Some(true);
    }

    /** The icon drawn in the middle of the tile. */
    function CurrentIcon(): (icon: Icon)
      reads this
      ensures icon == ReplayIcon <==> IsVideoOver(localProgress, duration)
      ensures icon == PauseIcon <==> !IsVideoOver(localProgress, duration) && playing
      ensures icon == PlayIcon <==> !IsVideoOver(localProgress, duration) && !playing
    {
      PlayingIcon(localProgress, duration, playing)
    }

    /** The value the volume slider is drawn at. */
    function SliderValue(): (shown: int)
      reads this
      ensures shown == 0 <==> muted || volume == 0
      ensures shown != 0 ==> shown == volume
    {
      VolumeSliderValue(muted, volume)
    }

    method HandleChangeVolume(value: int)
      modifies this
      ensures State() == ChangeVolume(old(State()), value)
    {
      muted := value == 0;
      volume := value;
    }

    method HandleChangeMuted()
      modifies this
      ensures State() == ChangeMuted(old(State()))
    {
      if muted && volume == 0 {
        volume := 100;
      }
      muted := !muted;
    }

    /** Returns whether `stopVideo` was invoked. */
    method HandleChangeProgress(playerMounted: bool, value: real) returns (stopCalled: bool)
      modifies this
      ensures stopCalled == old(playing)
      ensures State() == ChangeProgress(old(State()), playerMounted, value)
    {
      stopCalled := false;
      if playing {
        videoWasPlaying := true;
        playing := false;
        stopCalled := true;
      }
      if !playerMounted {
        return;
      }
      localProgress := value;
    }

    /** Returns whether `playVideo` was invoked. */
    method HandleChangeProgressCommitted() returns (playCalled: bool)
      modifies this
      ensures playCalled == (old(videoWasPlaying) && !old(playing))
      ensures State() == CommitProgress(old(State()))
    {
      var wasPlaying := videoWasPlaying;
      videoWasPlaying := false;
      playCalled := wasPlaying && !playing;
      if playCalled {
        playing := true;
      }
    }

    /** Returns whether `enableDragging` was invoked. */
    method HandleTitleMouseEnter() returns (enableCalled: bool)
      modifies this
      ensures enableCalled == !old(draggable)
      ensures State() == MouseEnter(old(State()))
    {
      enableCalled := !draggable;
      if enableCalled {
        draggable := true;
      }
    }

    /** Returns whether `disableDragging` was invoked. */
    method HandleTitleMouseLeave() returns (disableCalled: bool)
      modifies this
      ensures disableCalled == old(draggable)
      ensures State() == MouseLeave(old(State()))
    {
      disableCalled := draggable;
      if disableCalled {
        draggable := false;
      }
    }
  }
}
