/** The video player of the editorial tab: its time display and the
    play/pause, mute and volume state. */
module Editorial {
  import opened Maybe
  import opened Text
  import AdminUpload

  /** `formatTime` on whole seconds: minutes, a colon, a `0` when the seconds
      are below ten, and the seconds. The player shows times exactly as the
      upload page shows durations, so its text reads back into the same
      minutes and seconds. */
  function FormatTime(seconds: nat): (r: string)
    ensures r == AdminUpload.FormatDuration(seconds)
    ensures AdminUpload.ParseClock(r) == Some((seconds / 60, seconds % 60))
  {
    var mins := seconds / 60;
    var secs := seconds % 60;
    var n := NatToString(secs);
    if secs < 10 then
      assert PadStart(n, 2, '0') == "0" + n;
      AdminUpload.FormatDurationRoundTrip(seconds);
      NatToString(mins) + ":" + "0" + n
    else
      assert NatToString(secs / 10) == [DigitChar(secs / 10)];
      assert PadStart(n, 2, '0') == n;
      AdminUpload.FormatDurationRoundTrip(seconds);
      NatToString(mins) + ":" + "" + n
  }

  /** The player's state. `hasVideo` says whether the video element is
      mounted; `volume` matters here only as zero or not. */
  class Player {
    const hasVideo: bool
    var isPlaying: bool
    var isMuted: bool
    var volume: real

    constructor (hasVideo: bool)
      ensures this.hasVideo == hasVideo
      ensures !isPlaying && !isMuted && volume == 1.0
    {
      this.hasVideo := hasVideo;
      isPlaying := false;
      isMuted := false;
      volume := 1.0;
    }

    /** `togglePlayPause`: flips `isPlaying` when the element exists. */
    method TogglePlayPause()
      modifies this`isPlaying
      ensures hasVideo ==> isPlaying == !old(isPlaying)
      ensures !hasVideo ==> isPlaying == old(isPlaying)
    {
      if hasVideo {
        isPlaying := !isPlaying;
      }
    }

    /** `toggleMute`: flips `isMuted` when the element exists. */
    method ToggleMute()
      modifies this`isMuted
      ensures hasVideo ==> isMuted == !old(isMuted)
      ensures !hasVideo ==> isMuted == old(isMuted)
    {
      if hasVideo {
        isMuted := !isMuted;
      }
    }

    /** `handleVolumeChange`: the volume is always stored; with the element,
        the player is muted afterwards exactly when the new volume is 0. */
    method VolumeChange(newVolume: real)
      modifies this`volume, this`isMuted
      ensures volume == newVolume
      ensures hasVideo ==> (isMuted <==> newVolume == 0.0)
      ensures !hasVideo ==> isMuted == old(isMuted)
    {
      volume := newVolume;
      if hasVideo {
        if newVolume == 0.0 {
          isMuted := true;
        } else if isMuted {
          isMuted := false;
        }
      }
    }

    /** The `ended` listener. */
    method Ended()
      modifies this`isPlaying
      ensures !isPlaying
    {
      isPlaying := false;
    }
  }

  /** Toggling play twice restores the original state. */
  method ToggleTwiceRestores(p: Player)
    modifies p
    ensures p.isPlaying == old(p.isPlaying)
    ensures p.isMuted == old(p.isMuted) && p.volume == old(p.volume)
  {
    p.TogglePlayPause();
    p.TogglePlayPause();
  }
}
