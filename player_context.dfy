/**
 * The player provider of src/context/PlayerContext.tsx as an object: its
 * eight state variables and the two module-level handles are fields, and
 * every command and callback updates them in place. Each method is proved
 * to perform exactly the transition PlayerSession defines for it, and to
 * keep PlayerSession.Consistent.
 */
module PlayerContext {
  import opened Wrappers
  import opened Songs
  import S = PlayerSession

  class Player {
    var isPlaying: bool
    var currentTrack: Option<Song>
    var currentTrackArtUrl: Option<string>
    var isLoading: bool
    var progress: real
    var duration: int
    var currentTime: real
    var isPlayerVisible: bool
    var soundInstance: Option<S.SoundId>
    var progressInterval: Option<S.Interval>
    var engineCalls: seq<S.EngineCall>

    /** The provider's state as a session value. */
    function Snapshot(): S.Session
      reads this
    {
      S.Session(isPlaying, currentTrack, currentTrackArtUrl, isLoading, progress, duration,
                currentTime, isPlayerVisible, soundInstance, progressInterval, engineCalls)
    }

    constructor ()
      ensures Snapshot() == S.Initial && S.Consistent(Snapshot())
    {
      isPlaying, currentTrack, currentTrackArtUrl, isLoading := false, None, None, false;
      progress, duration, currentTime, isPlayerVisible := 0.0, 0, 0.0, false;
      soundInstance, progressInterval, engineCalls := None, None, [];
    }

    method Cleanup()
      modifies this
      ensures Snapshot() == S.Cleanup(old(Snapshot()))
      ensures S.IsReset(Snapshot()) && S.Consistent(Snapshot())
    {
      if progressInterval.Some? {
        progressInterval := None;
      }
      if soundInstance.Some? {
        engineCalls := engineCalls + [S.ReleaseSound(soundInstance.value)];
        soundInstance := None;
      }
      isPlaying := false;
      currentTrack := None;
      currentTrackArtUrl := None;
      isLoading := false;
      progress := 0.0;
      duration := 0;
      currentTime := 0.0;
    }

    method StopSong()
      modifies this
      ensures Snapshot() == S.StopSong(old(Snapshot()))
      ensures S.IsReset(Snapshot()) && !isPlayerVisible && S.Consistent(Snapshot())
    {
      Cleanup();
      HidePlayer();
    }

    method ShowPlayer()
      modifies this
      ensures Snapshot() == S.ShowPlayer(old(Snapshot()))
      ensures S.Consistent(old(Snapshot())) ==> S.Consistent(Snapshot())
    {
      isPlayerVisible := true;
    }

    method HidePlayer()
      modifies this
      ensures Snapshot() == S.HidePlayer(old(Snapshot()))
      ensures S.Consistent(old(Snapshot())) ==> S.Consistent(Snapshot())
    {
      isPlayerVisible := false;
    }

    /** The synchronous part of `playSong`; returns the signed-URL request, if one is sent. */
    method PlaySong(song: Song, imageUrl: Option<string>) returns (request: Option<S.UrlRequest>)
      modifies this
      ensures (Snapshot(), request) == S.PlaySong(old(Snapshot()), song, imageUrl)
      ensures S.Consistent(Snapshot())
    {
      Cleanup();
      if !Truthy(song.audioFilePath) {
        return None;
      }
      isLoading := true;
      currentTrack := Some(song);
      currentTrackArtUrl := OrNull(imageUrl);
      request := Some(S.UrlRequest(S.AudioBucket, song.audioFilePath.value, S.SignedUrlValiditySeconds));
    }

    /** The signed-URL reply reaches `playSong`'s continuation. */
    method SignedUrlArrived(response: S.UrlResponse)
      modifies this
      ensures Snapshot() == S.OnSignedUrl(old(Snapshot()), response)
      ensures S.Consistent(old(Snapshot())) ==> S.Consistent(Snapshot())
    {
      if S.UrlFailed(response) {
        Cleanup();
        return;
      }
      engineCalls := engineCalls + [S.LoadUrl(response.signedUrl.value)];
    }

    /** The engine's load callback for the sound object `sound`. */
    method LoadFinished(sound: S.SoundId, outcome: S.LoadOutcome)
      modifies this
      ensures Snapshot() == S.OnLoad(old(Snapshot()), sound, outcome)
      ensures S.Consistent(old(Snapshot())) && (outcome.Loaded? ==> old(isLoading)) ==> S.Consistent(Snapshot())
    {
      ghost var before := Snapshot();
      if outcome.LoadError? {
        Cleanup();
        return;
      }
      soundInstance := Some(sound);
      var songDuration := S.Round(outcome.engineDuration);
      duration := songDuration;
      progressInterval := Some(S.Interval(songDuration));
      engineCalls := engineCalls + [S.PlaySound(sound)];
      isPlaying := true;
      isLoading := false;
      if S.Consistent(before) && before.isLoading {
        S.StepPreservesConsistent(before, S.LoadFinished(sound, outcome));
      }
    }

    /** One firing of the progress timer, with the position the engine reported. */
    method ProgressTick(seconds: real)
      modifies this
      ensures Snapshot() == S.OnTick(old(Snapshot()), seconds)
      ensures S.Consistent(old(Snapshot())) ==> S.Consistent(Snapshot())
    {
      if progressInterval.Some? && soundInstance.Some? {
        currentTime := seconds;
        if progressInterval.value.songDuration > 0 {
          progress := seconds / progressInterval.value.songDuration as real;
        }
      }
    }

    /** Completion callback of the playback started on load. */
    method PlaybackFinished(success: bool)
      modifies this
      ensures Snapshot() == S.OnPlayFinished(old(Snapshot()), success)
      ensures S.IsReset(Snapshot()) && !isPlayerVisible && S.Consistent(Snapshot())
    {
      StopSong();
    }

    /** Completion callback of the playback restarted by `resumeSong`. */
    method ResumedPlaybackFinished(success: bool)
      modifies this
      ensures Snapshot() == S.OnResumeFinished(old(Snapshot()), success)
      ensures S.Consistent(old(Snapshot())) ==> S.Consistent(Snapshot())
    {
      if !success {
        StopSong();
      }
    }

    method PauseSong()
      modifies this
      ensures Snapshot() == S.PauseSong(old(Snapshot()))
      ensures S.Consistent(old(Snapshot())) ==> S.Consistent(Snapshot())
    {
      if soundInstance.Some? {
        engineCalls := engineCalls + [S.PauseSound(soundInstance.value)];
        isPlaying := false;
      }
    }

    method ResumeSong()
      modifies this
      ensures Snapshot() == S.ResumeSong(old(Snapshot()))
      ensures S.Consistent(old(Snapshot())) ==> S.Consistent(Snapshot())
    {
      if soundInstance.Some? {
        engineCalls := engineCalls + [S.PlaySound(soundInstance.value)];
        isPlaying := true;
      }
    }
  }
}
