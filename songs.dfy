/** The records the client reads from the backend, and JavaScript truthiness of their nullable fields. */
module Songs {
  import opened Wrappers

  /** One word of a song's timed lyrics as the backend stores it: times in milliseconds. */
  datatype TimedWord = TimedWord(text: string, startMs: real, endMs: real)

  /**
   * A song row (src/services/api.ts:5-15), restricted to the fields the player,
   * the favourites list and the karaoke view read. `audioFilePath` and
   * `lyricsTimed` are nullable columns.
   */
  datatype Song = Song(
    id: string,
    title: string,
    artist: string,
    audioFilePath: Option<string>,
    lyricsTimed: Option<seq<TimedWord>>)

  /** JavaScript truthiness of a nullable string: null and "" are both falsy. */
  predicate Truthy(s: Option<string>): (b: bool)
    ensures !b <==> s == None || s == Some("")
  {
    s.Some? && s.value != ""
  }

  /** `value || null` for a nullable string. */
  function OrNull(s: Option<string>): (r: Option<string>)
    ensures r.Some? <==> Truthy(s)
    ensures r.Some? ==> r == s
  {
    if Truthy(s) then s else None
  }
}
