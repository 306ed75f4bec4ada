/**
 * The player session of src/context/PlayerContext.tsx as a value: the eight
 * published state fields, the module-level sound handle and progress timer,
 * and the calls issued to the native audio engine. Every command and every
 * asynchronous callback of the provider is a function from one session to
 * the next; class Player in module PlayerContext runs them in place.
 */
module PlayerSession {
  import opened Wrappers
  import opened Songs

  /** A native sound object, named by the engine that created it. */
  type SoundId = nat

  /**
   * A call into the native audio engine. The engine is opaque: the model
   * records what it is told to do, not what it does.
   */
  datatype EngineCall =
    | LoadUrl(url: string)
    | PlaySound(sound: SoundId)
    | PauseSound(sound: SoundId)
    | ReleaseSound(sound: SoundId)

  /** The 250 ms progress timer, with the rounded duration its closure captured when it was started. */
  datatype Interval = Interval(songDuration: int)

  /** The storage bucket that holds the audio files. */
  const AudioBucket := "song-audio"

  /** How long a signed audio URL stays valid: five minutes. */
  const SignedUrlValiditySeconds := 60 * 5

  /** The `createSignedUrl(path, expiresIn)` request that `playSong` sends to storage. */
  datatype UrlRequest = UrlRequest(bucket: string, path: string, expiresIn: int)

  /** The storage reply: an error, or data that may or may not carry a signed URL. */
  datatype UrlResponse = UrlResponse(error: Option<string>, signedUrl: Option<string>)

  /** What the engine reports to the load callback of `new Sound(url, …)`. */
  datatype LoadOutcome = LoadError | Loaded(engineDuration: real)

  datatype Session = Session(
    isPlaying: bool,
    currentTrack: Option<Song>,
    artUrl: Option<string>,
    isLoading: bool,
    progress: real,
    duration: int,
    currentTime: real,
    isPlayerVisible: bool,
    sound: Option<SoundId>,          // module-level `soundInstance`
    interval: Option<Interval>,      // module-level `progressInterval`
    engine: seq<EngineCall>)         // every call issued to the engine so far

  /** The provider's initial state: nothing loaded, player hidden. */
  const Initial := Session(false, None, None, false, 0.0, 0, 0.0, false, None, None, [])

  /** The state `cleanup` leaves: seven fields at their initial values, no handle, no timer. */
  predicate IsReset(s: Session) {
    && !s.isPlaying && s.currentTrack == None && s.artUrl == None && !s.isLoading
    && s.progress == 0.0 && s.duration == 0 && s.currentTime == 0.0
    && s.sound == None && s.interval == None
  }

  /** The engine call `cleanup` issues for the handle it finds: a release, or nothing. */
  function ReleaseCalls(sound: Option<SoundId>): seq<EngineCall> {
    if sound.Some? then [ReleaseSound(sound.value)] else []
  }

  // ---- Commands ----------------------------------------------------------

  function Cleanup(s: Session): (r: Session)
    ensures IsReset(r) && Consistent(r)
    ensures r.isPlayerVisible == s.isPlayerVisible
    ensures r.engine == s.engine + ReleaseCalls(s.sound)
  {
    Session(false, None, None, false, 0.0, 0, 0.0, s.isPlayerVisible, None, None,
            s.engine + ReleaseCalls(s.sound))
  }

  /** `showPlayer`: the player becomes visible; nothing else changes. */
  function ShowPlayer(s: Session): (t: Session)
    ensures t.isPlayerVisible && t.(isPlayerVisible := s.isPlayerVisible) == s
    ensures Consistent(s) ==> Consistent(t)
  {
    s.(isPlayerVisible := true)
  }

  /** `hidePlayer`: the player is hidden; nothing else changes. */
  function HidePlayer(s: Session): (t: Session)
    ensures !t.isPlayerVisible && t.(isPlayerVisible := s.isPlayerVisible) == s
    ensures Consistent(s) ==> Consistent(t)
  {
    s.(isPlayerVisible := false)
  }

  /** `stopSong`: cleanup, then the player is hidden. */
  function StopSong(s: Session): (t: Session)
    ensures IsReset(t) && !t.isPlayerVisible && Consistent(t)
    ensures t.engine == s.engine + ReleaseCalls(s.sound)
  {
    HidePlayer(Cleanup(s))
  }

  /**
   * The synchronous part of `playSong`, up to the awaited signed-URL request.
   * Returns the new session and the request sent to storage, if any.
   */
  function PlaySong(s: Session, song: Song, imageUrl: Option<string>): (r: (Session, Option<UrlRequest>))
    ensures Consistent(r.0) && r.0.sound.None? && !r.0.isPlaying
    ensures r.1.Some? <==> Truthy(song.audioFilePath)
    ensures r.0.isLoading <==> Truthy(song.audioFilePath)
  {
    var c := Cleanup(s);
    if !Truthy(song.audioFilePath) then (c, None)
    else
      (c.(isLoading := true, currentTrack := Some(song), artUrl := OrNull(imageUrl)),
       Some(UrlRequest(AudioBucket, song.audioFilePath.value, SignedUrlValiditySeconds)))
  }

  function PauseSong(s: Session): (r: Session)
    ensures r.sound == s.sound && r.interval == s.interval && r.currentTrack == s.currentTrack
    ensures s.sound.Some? ==> !r.isPlaying
    ensures s.sound.None? ==> r == s
  {
    match s.sound
    case None => s
    case Some(h) => s.(engine := s.engine + [PauseSound(h)], isPlaying := false)
  }

  function ResumeSong(s: Session): (r: Session)
    ensures r.sound == s.sound && r.interval == s.interval && r.currentTrack == s.currentTrack
    ensures s.sound.Some? ==> r.isPlaying
    ensures s.sound.None? ==> r == s
  {
    match s.sound
    case None => s
    case Some(h) => s.(engine := s.engine + [PlaySound(h)], isPlaying := true)
  }

  // ---- Asynchronous events -----------------------------------------------

  /** The signed-URL reply counts as a failure when it carries an error or no usable URL. */
  predicate UrlFailed(r: UrlResponse): (b: bool)
    ensures b <==> r.error.Some? || r.signedUrl == None || r.signedUrl == Some("")
  {
    r.error.Some? || !Truthy(r.signedUrl)
  }

  /** The continuation of `playSong` after the signed-URL request: clean up, or ask the engine to load. */
  function OnSignedUrl(s: Session, r: UrlResponse): (t: Session)
    ensures UrlFailed(r) ==> IsReset(t) && t.isPlayerVisible == s.isPlayerVisible
    ensures !UrlFailed(r) ==> t.(engine := s.engine) == s && t.engine == s.engine + [LoadUrl(r.signedUrl.value)]
  {
    if UrlFailed(r) then Cleanup(s)
    else s.(engine := s.engine + [LoadUrl(r.signedUrl.value)])
  }

  /** `Math.round` on a real number: to the nearest integer, halves upwards. */
  function Round(x: real): (n: int)
    ensures n as real - 0.5 <= x < n as real + 0.5
  {
    (x + 0.5).Floor
  }

  /**
   * The load callback of the sound created for `sound`: on an error clean up;
   * otherwise make it the live handle, start the timer and playback.
   */
  function OnLoad(s: Session, sound: SoundId, outcome: LoadOutcome): (r: Session)
    ensures outcome.LoadError? ==> IsReset(r) && r.isPlayerVisible == s.isPlayerVisible
    ensures outcome.Loaded? ==>
      && r.isPlaying && !r.isLoading && r.sound == Some(sound)
      && r.duration == Round(outcome.engineDuration) && r.interval == Some(Interval(r.duration))
      && r.currentTrack == s.currentTrack && r.artUrl == s.artUrl && r.isPlayerVisible == s.isPlayerVisible
  {
    match outcome
    case LoadError => Cleanup(s)
    case Loaded(d) =>
      var n := Round(d);
      s.(sound := Some(sound), duration := n, interval := Some(Interval(n)),
         engine := s.engine + [PlaySound(sound)], isPlaying := true, isLoading := false)
  }

  /** A timer tick that sampled `seconds` from the engine; no timer or no handle means no update. */
  function OnTick(s: Session, seconds: real): (r: Session)
    ensures r.(currentTime := s.currentTime, progress := s.progress) == s
    ensures s.interval.None? || s.sound.None? ==> r == s
  {
    match s.interval
    case None => s
    case Some(iv) =>
      if s.sound.None? then s
      else s.(currentTime := seconds,
              progress := if iv.songDuration > 0 then seconds / iv.songDuration as real else s.progress)
  }

  /** Completion of the playback started by the load callback: stop, whatever the outcome. */
  function OnPlayFinished(s: Session, success: bool): (r: Session)
    ensures IsReset(r) && !r.isPlayerVisible
  {
    StopSong(s)
  }

  /** Completion of the playback restarted by `resumeSong`: stop only on failure. */
  function OnResumeFinished(s: Session, success: bool): (r: Session)
    ensures success ==> r == s
    ensures !success ==> IsReset(r) && !r.isPlayerVisible
  {
    if success then s else StopSong(s)
  }

  // ---- Event sequences ---------------------------------------------------

  datatype Event =
    | PlayRequested(song: Song, imageUrl: Option<string>)
    | StopRequested
    | PauseRequested
    | ResumeRequested
    | ShowRequested
    | HideRequested
    | SignedUrlArrived(response: UrlResponse)
    | LoadFinished(loaded: SoundId, outcome: LoadOutcome)
    | Tick(seconds: real)
    | PlaybackFinished(success: bool)
    | ResumedPlaybackFinished(success: bool)

  function Step(s: Session, e: Event): Session {
    match e
    case PlayRequested(song, img) => PlaySong(s, song, img).0
    case StopRequested => StopSong(s)
    case PauseRequested => PauseSong(s)
    case ResumeRequested => ResumeSong(s)
    case ShowRequested => ShowPlayer(s)
    case HideRequested => HidePlayer(s)
    case SignedUrlArrived(r) => OnSignedUrl(s, r)
    case LoadFinished(h, o) => OnLoad(s, h, o)
    case Tick(t) => OnTick(s, t)
    case PlaybackFinished(ok) => OnPlayFinished(s, ok)
    case ResumedPlaybackFinished(ok) => OnResumeFinished(s, ok)
  }

  function Run(s: Session, es: seq<Event>): Session
    decreases |es|
  {
    if es == [] then s else Run(Step(s, es[0]), es[1..])
  }

  /**
   * The one ordering restriction the invariant needs: a successful load
   * callback fires only while some load is awaited. It need not be the load
   * of the current request: a superseded load may still arrive while a newer
   * one is awaited, and is then installed for the newer track.
   */
  predicate Sequential(s: Session, es: seq<Event>)
    decreases |es|
  {
    es == [] ||
    ((es[0].LoadFinished? && es[0].outcome.Loaded? ==> s.isLoading) && Sequential(Step(s, es[0]), es[1..]))
  }

  /**
   * The consistency the UI relies on: playing implies a live handle, a live
   * handle implies a track and a running timer, and a load in progress has a
   * track and no handle yet.
   */
  predicate Consistent(s: Session): (b: bool)
    ensures b ==> (s.isPlaying ==> s.currentTrack.Some? && s.sound.Some?)
  {
    && (s.isPlaying ==> s.sound.Some?)
    && (s.sound.Some? ==> s.currentTrack.Some?)
    && (s.sound.Some? <==> s.interval.Some?)
    && (s.isLoading ==> s.currentTrack.Some? && s.sound.None?)
  }

  // ---- Properties --------------------------------------------------------

  lemma CleanupResets(s: Session)
    ensures IsReset(Cleanup(s))
    ensures Cleanup(s).isPlayerVisible == s.isPlayerVisible
    ensures Cleanup(s).engine == s.engine + ReleaseCalls(s.sound)
  {
  }

  /** A second cleanup changes nothing: in particular it releases no handle twice. */
  lemma CleanupIdempotent(s: Session)
    ensures Cleanup(Cleanup(s)) == Cleanup(s)
  {
  }

  lemma StopSongIsCleanupThenHide(s: Session)
    ensures IsReset(StopSong(s)) && !StopSong(s).isPlayerVisible
    ensures StopSong(s) == Cleanup(s).(isPlayerVisible := false)
  {
  }

  lemma PlaySongOutcome(s: Session, song: Song, imageUrl: Option<string>)
    ensures var (r, req) := PlaySong(s, song, imageUrl);
      && r.engine == s.engine + ReleaseCalls(s.sound)
      && r.sound == None && r.interval == None && !r.isPlaying
      && r.isPlayerVisible == s.isPlayerVisible
      && (!Truthy(song.audioFilePath) ==> IsReset(r) && req == None)
      && (Truthy(song.audioFilePath) ==>
            && r.isLoading && r.currentTrack == Some(song) && r.artUrl == OrNull(imageUrl)
            && r.progress == 0.0 && r.duration == 0 && r.currentTime == 0.0
            && req == Some(UrlRequest("song-audio", song.audioFilePath.value, 300)))
  {
  }

  /** A failed URL step or a failed load returns the session to the reset state. */
  lemma FailuresReset(s: Session, r: UrlResponse, h: SoundId)
    ensures UrlFailed(r) ==> IsReset(OnSignedUrl(s, r))
    ensures IsReset(OnLoad(s, h, LoadError))
    ensures OnLoad(s, h, LoadError).isPlayerVisible == s.isPlayerVisible
  {
  }

  /**
   * With no command in between, playSong, a signed URL and a successful
   * load leave the song playing on the new handle, with nothing left of
   * the previous session but the visibility flag and the engine's log.
   */
  lemma PlayThenLoad(s: Session, song: Song, imageUrl: Option<string>, url: string, h: SoundId, d: real)
    requires Truthy(song.audioFilePath) && url != ""
    ensures var r := OnLoad(OnSignedUrl(PlaySong(s, song, imageUrl).0, UrlResponse(None, Some(url))), h, Loaded(d));
      && r.isPlaying && !r.isLoading && r.sound == Some(h) && r.currentTrack == Some(song)
      && r.artUrl == OrNull(imageUrl) && r.duration == Round(d) && r.interval == Some(Interval(Round(d)))
      && r.progress == 0.0 && r.currentTime == 0.0 && r.isPlayerVisible == s.isPlayerVisible
      && r.engine == s.engine + ReleaseCalls(s.sound) + [LoadUrl(url), PlaySound(h)]
      && Consistent(r)
  {
  }

  /** Neither a stop nor a new play: the commands that cannot disturb a load in progress. */
  predicate Harmless(e: Event) {
    e.PauseRequested? || e.ResumeRequested? || e.ShowRequested? || e.HideRequested? || e.Tick?
  }

  /** While a load is awaited, harmless commands change at most the visibility flag. */
  lemma {:induction false} HarmlessWhileLoading(s: Session, es: seq<Event>)
    requires s.sound.None? && s.interval.None?
    requires forall i :: 0 <= i < |es| ==> Harmless(es[i])
    ensures Run(s, es) == s.(isPlayerVisible := Run(s, es).isPlayerVisible)
    decreases |es|
  {
    if es != [] {
      var t := Step(s, es[0]);
      assert t == s.(isPlayerVisible := t.isPlayerVisible);
      HarmlessWhileLoading(t, es[1..]);
    }
  }

  /**
   * The same holds when pauses, resumes, ticks and visibility changes arrive
   * before the signed URL or before the load callback.
   */
  lemma PlayThenLoadDespiteHarmless(s: Session, song: Song, imageUrl: Option<string>,
                                    before: seq<Event>, url: string, between: seq<Event>, h: SoundId, d: real)
    requires Truthy(song.audioFilePath) && url != ""
    requires forall i :: 0 <= i < |before| ==> Harmless(before[i])
    requires forall i :: 0 <= i < |between| ==> Harmless(between[i])
    ensures var a := Run(PlaySong(s, song, imageUrl).0, before);
      var b := Run(OnSignedUrl(a, UrlResponse(None, Some(url))), between);
      var r := OnLoad(b, h, Loaded(d));
      && r.isPlaying && !r.isLoading && r.sound == Some(h) && r.currentTrack == Some(song)
      && r.artUrl == OrNull(imageUrl) && r.duration == Round(d) && Consistent(r)
  {
    var p := PlaySong(s, song, imageUrl).0;
    HarmlessWhileLoading(p, before);
    var a := Run(p, before);
    var u := OnSignedUrl(a, UrlResponse(None, Some(url)));
    HarmlessWhileLoading(u, between);
  }

  /** A progress tick records the sampled time, and progress is that time over the captured duration. */
  lemma TickProgress(s: Session, seconds: real)
    requires s.interval.Some? && s.sound.Some?
    ensures OnTick(s, seconds).currentTime == seconds
    ensures var d := s.interval.value.songDuration;
      if d > 0 then OnTick(s, seconds).progress * d as real == seconds
      else OnTick(s, seconds).progress == s.progress
    ensures OnTick(s, seconds) == s.(currentTime := seconds, progress := OnTick(s, seconds).progress)
  {
  }

  /** Completion of the first playback always stops; completion after a resume stops only on failure. */
  lemma CompletionStops(s: Session, success: bool)
    ensures OnPlayFinished(s, success) == StopSong(s)
    ensures OnResumeFinished(s, true) == s
    ensures OnResumeFinished(s, false) == StopSong(s)
  {
  }

  lemma PauseResumeGuarded(s: Session)
    ensures s.sound.None? ==> PauseSong(s) == s && ResumeSong(s) == s
    ensures s.sound.Some? ==> PauseSong(s) == s.(isPlaying := false, engine := s.engine + [PauseSound(s.sound.value)])
    ensures s.sound.Some? ==> ResumeSong(s) == s.(isPlaying := true, engine := s.engine + [PlaySound(s.sound.value)])
  {
  }

  /**
   * Two pauses leave the same state as one; only the engine is told to
   * pause a second time.
   */
  lemma PauseIdempotent(s: Session)
    ensures PauseSong(PauseSong(s)).(engine := []) == PauseSong(s).(engine := [])
    ensures s.sound.Some? ==>
      PauseSong(PauseSong(s)).engine == s.engine + [PauseSound(s.sound.value), PauseSound(s.sound.value)]
  {
  }

  /** Every single event keeps the consistency invariant, a successful load provided it was awaited. */
  lemma StepPreservesConsistent(s: Session, e: Event)
    requires Consistent(s)
    requires e.LoadFinished? && e.outcome.Loaded? ==> s.isLoading
    ensures Consistent(Step(s, e))
  {
  }

  /** From any consistent state, every sequential run of events stays consistent. */
  lemma {:induction false} RunPreservesConsistent(s: Session, es: seq<Event>)
    requires Consistent(s) && Sequential(s, es)
    ensures Consistent(Run(s, es))
    decreases |es|
  {
    if es != [] {
      StepPreservesConsistent(s, es[0]);
      RunPreservesConsistent(Step(s, es[0]), es[1..]);
    }
  }

  lemma InitialConsistent()
    ensures Consistent(Initial) && IsReset(Initial) && !Initial.isPlayerVisible
  {
  }
}
