# Rainbow Music mobile client: player session, favourites, karaoke and form logic in Dafny

This project models the sequential core of a React Native music-streaming
client, and proves properties of that model.

- **Player session** (`PlayerContext.tsx`). There is one shared native sound
  handle and one progress timer, and eight published state fields: playing,
  current track, artwork URL, loading, progress, duration, current time and
  player visibility. The commands are `cleanup`, `stopSong`, `playSong`,
  `pauseSong`, `resumeSong`, `showPlayer` and `hidePlayer`. The asynchronous
  events are the signed-URL reply, the engine's load callback, the 250 ms
  progress tick and the two playback-completion callbacks.
  - `player_session.dfy` defines each of these as a function on a `Session`
    value. Each event is one `Event`, and `Run` applies a sequence of them.
  - `player_context.dfy` is class `Player`. Its fields are the provider's
    variables and the two module-level handles. Each method changes them step
    by step, as the source does, and is proved to perform exactly its
    `PlayerSession` transition.
  - The audio engine is opaque. The model only records the calls sent to it:
    load a URL, play, pause and release a handle.
- **Favourites** (`FavoritesContext.tsx`): the favourite song ids. Adding
  appends and removing filters, only with a session and only when the backend
  reports no error. The fetch effect replaces the whole list. `isFavorite` is
  a membership test.
- **Karaoke** (`KaraokeView.tsx`): timed lyrics are converted from
  milliseconds to seconds. `findCurrentWordIndex` finds the first word whose
  closed interval contains the playback time. The view shows a placeholder,
  or the words with at most one of them highlighted.
- **Category grid** (`CategoriesScreen.tsx`): `formatData` pads the list with
  blank tiles until the last row is full. Each tile is coloured by its
  position.
- **Change password** (`ChangePasswordScreen.tsx`): the length guard, then the
  confirmation guard, then one awaited update with the loading flag raised
  around it.
- **Create playlist** (`CreatePlaylistScreen.tsx`): the trimmed-name guard,
  then the user guard, then a random colour from the eight-colour palette and
  one awaited creation, with the loading flag reset in `finally`.

Backend calls, the auth session, `Math.random()` and the engine's replies are
parameters of the methods that receive them. An `await` is modelled as the
end of one method and the start of the next (`Submit` / `UpdateFinished`,
`BeginFetch` / `FetchFinished`, `PlaySong` / `SignedUrlArrived` /
`LoadFinished`). A handler method composes the halves for the case where
nothing runs in between.

Facts about the player in `src/context/PlayerContext.tsx` that the model keeps:
- The player has no queue, no next/previous and no rendition switching; it
  plays one song at a time through `playSong` (PlayerContext.tsx:66).
- Completion of the playback started on load stops the session, on success as
  well as on failure (PlayerContext.tsx:112-119).
- A tick with duration 0 leaves progress unchanged (PlayerContext.tsx:106).
- Nothing guards against callbacks of a superseded `playSong`
  (PlayerContext.tsx:92-121).

## Model

| member | source | states |
|---|---|---|
| `Songs.Truthy` | src/context/PlayerContext.tsx:69 | JavaScript truthiness of a nullable string: falsy exactly for null and the empty string (also read at PlayerContext.tsx:76 and FavoritesContext.tsx:26, 47, 57) |
| `Songs.OrNull` | src/context/PlayerContext.tsx:76 | the art URL or null: a value exactly when the input is truthy, and then the input itself |
| `PlayerSession.Consistent` | src/context/PlayerContext.tsx:29-40 | the invariant over the handle, the timer and the eight fields; it implies that playing goes with a current track and a live handle |
| `PlayerSession.Cleanup` | src/context/PlayerContext.tsx:42-59 | the reset state, consistent, with visibility kept and a release sent for the live handle, if any |
| `PlayerSession.StopSong` | src/context/PlayerContext.tsx:61-64 | the reset, hidden, consistent state, with a release sent for the live handle, if any |
| `PlayerSession.ShowPlayer` | src/context/PlayerContext.tsx:144-146 | visible, everything else unchanged; the invariant is kept |
| `PlayerSession.HidePlayer` | src/context/PlayerContext.tsx:148-150 | hidden, everything else unchanged; the invariant is kept |
| `PlayerSession.PlaySong` | src/context/PlayerContext.tsx:66-81 | consistent, nothing playing and no handle; a URL request is sent and loading is set exactly when the song's audio path is truthy |
| `PlayerSession.PauseSong` | src/context/PlayerContext.tsx:125-130 | handle, timer and track unchanged; not playing when a handle is live; nothing changes without one |
| `PlayerSession.ResumeSong` | src/context/PlayerContext.tsx:132-142 | handle, timer and track unchanged; playing when a handle is live; nothing changes without one |
| `PlayerSession.UrlFailed` | src/context/PlayerContext.tsx:83 | the failure test on the signed-URL reply: true exactly for an error, a missing URL or an empty URL |
| `PlayerSession.OnSignedUrl` | src/context/PlayerContext.tsx:79-92 | a failed reply gives the reset state with visibility kept; a usable URL keeps every field and the engine log, and appends one load call for that signed URL |
| `PlayerSession.OnLoad` | src/context/PlayerContext.tsx:92-122 | a load error gives the reset state; a successful load plays on the new handle with the rounded duration and a timer carrying it, loading cleared, track, art and visibility kept |
| `PlayerSession.OnTick` | src/context/PlayerContext.tsx:103-110 | only currentTime and progress can change, and nothing does without a timer and a handle |
| `PlayerSession.OnPlayFinished` | src/context/PlayerContext.tsx:112-119 | reset and hidden, whatever the outcome |
| `PlayerSession.OnResumeFinished` | src/context/PlayerContext.tsx:134-139 | a successful completion changes nothing; a failed one gives the reset, hidden state |
| `PlayerSession.CleanupResets` | src/context/PlayerContext.tsx:42-59 | cleanup clears the timer, releases the live handle (if any) through the engine, and resets playing, track, art, loading, progress, duration and time; visibility is untouched |
| `PlayerSession.CleanupIdempotent` | src/context/PlayerContext.tsx:42-50 | a second cleanup changes nothing; in particular no handle is released twice |
| `PlayerSession.StopSongIsCleanupThenHide` | src/context/PlayerContext.tsx:61-64 | stopSong is cleanup followed by hiding the player, nothing else |
| `PlayerSession.PlaySongOutcome` | src/context/PlayerContext.tsx:66-81 | playSong always cleans up first; with no audio path it ends reset with no request; otherwise loading, the song as current track, art = imageUrl or null, nothing playing, no handle, and a signed-URL request for bucket song-audio, the song's path, 300 seconds |
| `PlayerSession.FailuresReset` | src/context/PlayerContext.tsx:83-97 | a URL reply with an error or without a URL, and a load error, both return the session to the reset state |
| `PlayerSession.Round` | src/context/PlayerContext.tsx:100 | `Math.round`: the integer within one half of the engine duration, halves rounding up |
| `PlayerSession.PlayThenLoad` | src/context/PlayerContext.tsx:66-122 | playSong, a signed URL and a successful load leave the song playing on the new handle, with duration = rounded engine duration, a running timer, loading cleared, and the session consistent |
| `PlayerSession.HarmlessWhileLoading` | src/context/PlayerContext.tsx:103-150 | with no handle and no timer, pauses, resumes, ticks, show and hide change at most the visibility flag |
| `PlayerSession.PlayThenLoadDespiteHarmless` | src/context/PlayerContext.tsx:66-150 | the outcome of PlayThenLoad still holds when pauses, resumes, ticks and visibility changes arrive before the URL or the load callback |
| `PlayerSession.TickProgress` | src/context/PlayerContext.tsx:103-110 | a tick sets currentTime to the sampled seconds, and progress × duration = seconds when the captured duration is positive; otherwise progress keeps its value; nothing else changes |
| `PlayerSession.CompletionStops` | src/context/PlayerContext.tsx:112-138 | completion of the first playback runs stopSong whatever its outcome; after a resume only a failed completion does, a successful one changes nothing |
| `PlayerSession.PauseResumeGuarded` | src/context/PlayerContext.tsx:125-142 | pause and resume do nothing without a live handle; otherwise they tell the engine to pause or play that handle and set playing false or true, nothing else |
| `PlayerSession.PauseIdempotent` | src/context/PlayerContext.tsx:125-130 | two pauses leave the same state as one; the engine receives the pause twice |
| `PlayerSession.StepPreservesConsistent` | src/context/PlayerContext.tsx:42-150 | every event keeps the invariant, a successful load only when it arrives while loading: playing implies a live handle, a handle implies a track and a timer, loading implies a track and no handle |
| `PlayerSession.RunPreservesConsistent` | src/context/PlayerContext.tsx:42-150 | any sequential run of events keeps the invariant |
| `PlayerSession.InitialConsistent` | src/context/PlayerContext.tsx:29-40 | the initial session is reset, hidden and consistent |
| `PlayerContext.Player.constructor` | src/context/PlayerContext.tsx:29-40 | the provider starts in the initial session |
| `PlayerContext.Player.Cleanup` | src/context/PlayerContext.tsx:42-59 | updates the fields exactly as PlayerSession.Cleanup, leaving them reset and consistent |
| `PlayerContext.Player.StopSong` | src/context/PlayerContext.tsx:61-64 | exactly PlayerSession.StopSong: reset, hidden, consistent |
| `PlayerContext.Player.ShowPlayer` | src/context/PlayerContext.tsx:144-146 | sets visibility only; keeps the invariant |
| `PlayerContext.Player.HidePlayer` | src/context/PlayerContext.tsx:148-150 | clears visibility only; keeps the invariant |
| `PlayerContext.Player.PlaySong` | src/context/PlayerContext.tsx:66-81 | exactly PlayerSession.PlaySong, returning the signed-URL request; the result is consistent |
| `PlayerContext.Player.SignedUrlArrived` | src/context/PlayerContext.tsx:83-92 | exactly PlayerSession.OnSignedUrl; keeps the invariant |
| `PlayerContext.Player.LoadFinished` | src/context/PlayerContext.tsx:92-122 | exactly PlayerSession.OnLoad; keeps the invariant when a successful load arrives while loading |
| `PlayerContext.Player.ProgressTick` | src/context/PlayerContext.tsx:103-110 | exactly PlayerSession.OnTick; keeps the invariant |
| `PlayerContext.Player.PlaybackFinished` | src/context/PlayerContext.tsx:112-119 | exactly PlayerSession.OnPlayFinished: reset, hidden and consistent |
| `PlayerContext.Player.ResumedPlaybackFinished` | src/context/PlayerContext.tsx:134-139 | exactly PlayerSession.OnResumeFinished; keeps the invariant |
| `PlayerContext.Player.PauseSong` | src/context/PlayerContext.tsx:125-130 | exactly PlayerSession.PauseSong; keeps the invariant |
| `PlayerContext.Player.ResumeSong` | src/context/PlayerContext.tsx:132-142 | exactly PlayerSession.ResumeSong; keeps the invariant |
| `Favorites.Includes` | src/context/FavoritesContext.tsx:67 | `includes` is exactly sequence membership |
| `Favorites.Without` | src/context/FavoritesContext.tsx:60 | `filter(id => id !== x)` leaves no occurrence of x and is no longer than the input |
| `Favorites.Ids` | src/context/FavoritesContext.tsx:30 | `map(song => song.id)`: one id per song, in order |
| `Favorites.WithoutMembers` | src/context/FavoritesContext.tsx:59-60 | after filtering out x, an id is present iff it was present and differs from x |
| `Favorites.WithoutAppend` | src/context/FavoritesContext.tsx:60 | filtering distributes over concatenation, so the remaining ids keep their relative order |
| `Favorites.WithoutAbsent` | src/context/FavoritesContext.tsx:60 | filtering out an absent id leaves the list as it was |
| `Favorites.WithoutIdempotent` | src/context/FavoritesContext.tsx:60 | every occurrence goes at once: a second removal changes nothing |
| `Favorites.AddThenRemoveMembership` | src/context/FavoritesContext.tsx:49-68 | an id is a favourite after it is appended and is not after it is filtered out |
| `Favorites.FavoritesProvider.constructor` | src/context/FavoritesContext.tsx:20-21 | the list starts empty and loading starts true |
| `Favorites.FavoritesProvider.SessionChanged` | src/context/FavoritesContext.tsx:19 | a new auth session replaces the session and touches nothing else |
| `Favorites.FavoritesProvider.BeginFetch` | src/context/FavoritesContext.tsx:26-40 | with a truthy user id: loading set and that user's favourites requested; otherwise (no session or an empty id): list emptied and loading cleared |
| `Favorites.FavoritesProvider.FetchFinished` | src/context/FavoritesContext.tsx:29-35 | a returned song list replaces the ids with the songs' ids in order; a failure keeps the list; loading is cleared either way |
| `Favorites.FavoritesProvider.FetchFavorites` | src/context/FavoritesContext.tsx:24-43 | the whole effect: without a truthy user id the list becomes empty, with one it becomes the fetched ids, or stays as it was on failure; loading ends false |
| `Favorites.FavoritesProvider.AddFavorite` | src/context/FavoritesContext.tsx:46-54 | without a truthy user id nothing is requested and nothing changes; with one, the id is appended (no de-duplication) unless the backend failed |
| `Favorites.FavoritesProvider.RemoveFavorite` | src/context/FavoritesContext.tsx:56-64 | without a truthy user id nothing is requested and nothing changes; with one, every occurrence of the id is filtered out unless the backend failed |
| `Favorites.FavoritesProvider.IsFavorite` | src/context/FavoritesContext.tsx:66-68 | true exactly when the id is in the list |
| `Karaoke.ToSeconds` | src/components/KaraokeView.tsx:18-22 | conversion keeps the word count and each word's text |
| `Karaoke.SecondsRoundTrip` | src/components/KaraokeView.tsx:18-22 | multiplying the converted times by 1000 gives back the stored words, so start and end are exactly divided by 1000 |
| `Karaoke.MillisecondsRoundTrip` | src/components/KaraokeView.tsx:18-22 | the conversion is also a left inverse of multiplying by 1000 |
| `Karaoke.FindCurrentWordIndex` | src/components/KaraokeView.tsx:27-29 | the least index whose word's closed interval contains t, or -1 exactly when no word contains t |
| `Karaoke.InclusiveBounds` | src/components/KaraokeView.tsx:28 | a time equal to a word's start or to its end selects that word when no earlier word contains it |
| `Karaoke.Render` | src/components/KaraokeView.tsx:31-63 | the placeholder exactly for empty lyrics; otherwise every word's text, highlighted exactly at the found index |
| `Karaoke.HighlightedWord` | src/components/KaraokeView.tsx:49-55 | at most one word is highlighted, it contains t, and none is when the index is -1 |
| `Karaoke.KaraokeView.constructor` | src/components/KaraokeView.tsx:13 | the lyrics start empty |
| `Karaoke.KaraokeView.TrackChanged` | src/components/KaraokeView.tsx:15-25 | the lyrics become the converted timed lyrics when the new track has them, and are kept otherwise |
| `Categories.Tile.Id` | src/screens/CategoriesScreen.tsx:24 | the list key that `keyExtractor` reads (CategoriesScreen.tsx:53): a category's own id, or `blank-` followed by a non-empty numeral for a blank tile |
| `Categories.Decimal` | src/screens/CategoriesScreen.tsx:24 | the template literal's numeral for a slot: a non-empty string of decimal digits |
| `Categories.Padded` | src/screens/CategoriesScreen.tsx:19-28 | the closed form of the padding: the data first and unchanged, then fewer than columns extra tiles |
| `Categories.FormatData` | src/screens/CategoriesScreen.tsx:19-28 | the loop returns Padded(data, columns): whole rows only, the input first and unchanged, fewer than columns blanks after it, all blank |
| `Categories.PaddedShape` | src/screens/CategoriesScreen.tsx:19-28 | the padded length is the least multiple of columns not below the input length; no blanks exactly when the input fills whole rows (including empty input); the blanks have slots r … columns-1 where r = length mod columns |
| `Categories.DecimalInjective` | src/screens/CategoriesScreen.tsx:24 | different slot numbers have different decimal numerals |
| `Categories.BlankIdsDistinct` | src/screens/CategoriesScreen.tsx:24 | blank tiles with different slots have different `blank-<n>` ids |
| `Categories.TileColor` | src/screens/CategoriesScreen.tsx:52 | every tile colour is one of the five category colours |
| `Categories.TileColorCycle` | src/screens/CategoriesScreen.tsx:52 | colours repeat every five tiles and neighbouring tiles differ |
| `Categories.RenderTile` | src/screens/CategoriesScreen.tsx:30-39 | a blank renders as an empty cell; a category renders with its title in colour index mod 5 |
| `Categories.ScreenGrid` | src/screens/CategoriesScreen.tsx:8-16 | the screen's five categories in three columns give six tiles, the sixth the blank with id `blank-2` |
| `ChangePassword.CheckPasswords` | src/screens/ChangePasswordScreen.tsx:15-22 | the length error iff fewer than 6 characters; the mismatch error iff long enough but different from the confirmation; no error iff both pass |
| `ChangePassword.LengthCheckFirst` | src/screens/ChangePasswordScreen.tsx:15-22 | a short, mismatched pair gets only the length error |
| `ChangePassword.RejectionAlert` | src/screens/ChangePasswordScreen.tsx:16-22 | an error-titled alert dismissed by OK; the length message exactly for the length error |
| `ChangePassword.UpdateAlert` | src/screens/ChangePasswordScreen.tsx:28-34 | an update error shows its own message; only success shows the notice whose OK goes back |
| `ChangePassword.ChangePasswordForm.constructor` | src/screens/ChangePasswordScreen.tsx:9-11 | empty fields, not loading |
| `ChangePassword.ChangePasswordForm.SetFields` | src/screens/ChangePasswordScreen.tsx:45-66 | the text inputs set the two fields and nothing else |
| `ChangePassword.ChangePasswordForm.Submit` | src/screens/ChangePasswordScreen.tsx:15-25 | a failed guard gives its alert with loading untouched; otherwise loading is raised and the new password is sent |
| `ChangePassword.ChangePasswordForm.UpdateFinished` | src/screens/ChangePasswordScreen.tsx:26-34 | loading is cleared whatever the outcome, then the outcome's alert |
| `ChangePassword.ChangePasswordForm.HandlePasswordUpdate` | src/screens/ChangePasswordScreen.tsx:14-35 | exactly one update, carrying the new password, when the guards pass and none otherwise; loading ends false after an update |
| `CreatePlaylist.IsWhitespace` | src/screens/CreatePlaylistScreen.tsx:24 | the ECMAScript whitespace and line terminators `trim()` removes: space, tab, line feed, carriage return, no-break and ideographic space are among them, and no visible ASCII character is |
| `CreatePlaylist.TrimStart` | src/screens/CreatePlaylistScreen.tsx:24 | a suffix of the name that starts with no whitespace, everything dropped before it being whitespace |
| `CreatePlaylist.TrimEnd` | src/screens/CreatePlaylistScreen.tsx:24 | a prefix of the name that ends with no whitespace, everything dropped after it being whitespace |
| `CreatePlaylist.Trim` | src/screens/CreatePlaylistScreen.tsx:24 | `trim()`: no longer than the name, and neither starting nor ending with whitespace |
| `CreatePlaylist.TrimEmptyIffBlank` | src/screens/CreatePlaylistScreen.tsx:24 | the trimmed name is empty exactly when the name is all JavaScript whitespace |
| `CreatePlaylist.ColorIndex` | src/screens/CreatePlaylistScreen.tsx:14 | floor(random × 8) is a palette index for every random number in [0, 1) |
| `CreatePlaylist.RandomColor` | src/screens/CreatePlaylistScreen.tsx:13-15 | the picked colour is always one of the eight palette entries |
| `CreatePlaylist.CheckCreate` | src/screens/CreatePlaylistScreen.tsx:24-31 | the name error iff the trimmed name is empty; the login error iff the name is fine but there is no user; no error iff both pass |
| `CreatePlaylist.NameCheckFirst` | src/screens/CreatePlaylistScreen.tsx:24-31 | a blank name without a user gets only the name error |
| `CreatePlaylist.RejectionAlert` | src/screens/CreatePlaylistScreen.tsx:24-31 | an error-titled alert dismissed by OK; the empty-name message exactly for the name error |
| `CreatePlaylist.CreatedAlert` | src/screens/CreatePlaylistScreen.tsx:36-39 | success alert exactly without an error; an error shows its message, or the default text when the message is empty |
| `CreatePlaylist.CreatePlaylistForm.constructor` | src/screens/CreatePlaylistScreen.tsx:20-21 | empty name, not loading |
| `CreatePlaylist.CreatePlaylistForm.SetName` | src/screens/CreatePlaylistScreen.tsx:48-53 | the text input sets the name and nothing else |
| `CreatePlaylist.CreatePlaylistForm.Submit` | src/screens/CreatePlaylistScreen.tsx:23-35 | a failed guard gives its alert with loading untouched; otherwise loading is raised and a playlist is requested with the untrimmed name, the user's id and a palette colour |
| `CreatePlaylist.CreatePlaylistForm.CreateFinished` | src/screens/CreatePlaylistScreen.tsx:36-42 | the outcome's alert, going back only on success, and loading cleared on success and failure |
| `CreatePlaylist.CreatePlaylistForm.HandleCreate` | src/screens/CreatePlaylistScreen.tsx:23-43 | at most one creation, with the untrimmed name and a palette colour, exactly when both guards pass; loading ends false after a creation |

## Left out

- Queue, next/previous, vocal/instrumental switching and intent tokens: the player code has none of these. `NewReleasesScreen.tsx` uses a `playQueue` that the player context does not provide.
- Interleavings of asynchronous callbacks. A callback from a superseded `playSong` can still be applied as an event. But the invariant is claimed only for runs in which a successful load arrives while a load is awaited (`Sequential`). Example: `stopSong` during a load, after which the load callback sets playing with no track. That run is not claimed, and the model does not show that the superseded sound object is never released.
- A failed load issues no release of the sound object that failed, as in the source. The engine's own handling of that object is not modelled.
- The audio engine (`react-native-sound`): `getDuration`, `getCurrentTime`, `play`, `pause` and `release` are opaque. Their replies are parameters, and the calls are recorded in the engine log. The asynchronous `getCurrentTime` callback is folded into the tick.
- The 250 ms period of the progress timer: a tick is an event. Times and progress are `real` numbers, not floating point.
- `PlayerSession.TickProgress`: no bound on progress is stated. The source does not clamp it, so a sample larger than the duration gives progress above 1.
- The unmount cleanup of the player provider is `PlayerContext.Player.Cleanup` called by the environment. The `usePlayer` and `useFavorites` guards that throw outside a provider are left out, because they are React plumbing.
- Console logging, alerts as dialogs and navigation: alerts are `Alert` values, and going back is a result flag or the alert's `onOk`.
- Backend calls (`src/services/api.ts`, Supabase storage and auth): only their outcome is modelled, as an error message or returned data. Which session the auth context holds is an input (`SessionChanged`). Re-running the fetch effect when the session changes is left to the caller.
- `Categories.FormatData`: requires columns > 0. With 0 columns the source's arithmetic yields NaN and its loop never ends. Non-integer column counts are not modelled.
- `Karaoke.ToSeconds`: `lyrics_timed` is taken to be an array of words with text, start and end in milliseconds. Other fields of a word, carried along by the spread, are dropped. The space printed after each word is not modelled.
- `ChangePassword.CheckPasswords`: the length is counted in Unicode scalar values. JavaScript counts UTF-16 code units, so the two differ for characters outside the Basic Multilingual Plane.
- A rejected `updateUser` or `createSignedUrl` promise: neither call is wrapped in try/finally (ChangePasswordScreen.tsx:24-26, PlayerContext.tsx:79-81), so in the source `loading` / `isLoading` stays true. In the model that is a `Submit` never followed by `UpdateFinished`, or a `PlaySong` never followed by `SignedUrlArrived`. The "loading ends false" of `ChangePassword.ChangePasswordForm.HandlePasswordUpdate` holds for an update that resolves.
- The favourites session is modelled by its user id, `session?.user?.id`: None stands for no session or no user, and an empty id is treated as falsy, as the source's truthiness tests do.
- The disabled state of the submit buttons while loading is view glue. `Submit` can be called while loading.
- All other UI: screens, navigators, mini and full-screen players, tab bar, background, and the login, register and profile screens.
