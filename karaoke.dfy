/**
 * The karaoke view of src/components/KaraokeView.tsx: timed lyrics converted
 * from milliseconds to seconds, and the word under the playback position.
 */
module Karaoke {
  import opened Wrappers
  import opened Songs

  /** A lyric word with its start and end in seconds. */
  datatype Word = Word(text: string, start: real, end: real)

  /** The effect's conversion: each stored word with its times divided by 1000. */
  function ToSeconds(raw: seq<TimedWord>): (words: seq<Word>)
    ensures |words| == |raw|
    ensures forall i :: 0 <= i < |raw| ==> words[i].text == raw[i].text
  {
    seq(|raw|, i requires 0 <= i < |raw| => Word(raw[i].text, raw[i].startMs / 1000.0, raw[i].endMs / 1000.0))
  }

  /** The inverse conversion, back to the stored milliseconds. */
  function ToMilliseconds(words: seq<Word>): (raw: seq<TimedWord>)
    ensures |raw| == |words|
  {
    seq(|words|, i requires 0 <= i < |words| => TimedWord(words[i].text, words[i].start * 1000.0, words[i].end * 1000.0))
  }

  /** Converting to seconds loses nothing: converting back gives the stored words again. */
  lemma SecondsRoundTrip(raw: seq<TimedWord>)
    ensures ToMilliseconds(ToSeconds(raw)) == raw
  {
    var back := ToMilliseconds(ToSeconds(raw));
    forall i | 0 <= i < |raw| ensures back[i] == raw[i] {
      assert ToSeconds(raw)[i].start * 1000.0 == raw[i].startMs;
      assert ToSeconds(raw)[i].end * 1000.0 == raw[i].endMs;
    }
  }

  lemma MillisecondsRoundTrip(words: seq<Word>)
    ensures ToSeconds(ToMilliseconds(words)) == words
  {
  }

  /** The word's interval, closed at both ends, contains the time t. */
  predicate Spans(w: Word, t: real) {
    t >= w.start && t <= w.end
  }

  /** `lyrics.findIndex(...)`: the first word whose interval contains t, or -1. */
  function FindCurrentWordIndex(lyrics: seq<Word>, t: real): (r: int)
    ensures -1 <= r < |lyrics|
    ensures r == -1 <==> forall i :: 0 <= i < |lyrics| ==> !Spans(lyrics[i], t)
    ensures r >= 0 ==> Spans(lyrics[r], t) && forall j :: 0 <= j < r ==> !Spans(lyrics[j], t)
    decreases |lyrics|
  {
    if lyrics == [] then -1
    else if Spans(lyrics[0], t) then 0
    else
      var k := FindCurrentWordIndex(lyrics[1..], t);
      if k == -1 then -1 else k + 1
  }

  /** The bounds are inclusive: a time equal to a word's start or end selects it, when no earlier word does. */
  lemma InclusiveBounds(lyrics: seq<Word>, i: nat)
    requires i < |lyrics| && lyrics[i].start <= lyrics[i].end
    requires forall j :: 0 <= j < i ==> !Spans(lyrics[j], lyrics[i].start) && !Spans(lyrics[j], lyrics[i].end)
    ensures FindCurrentWordIndex(lyrics, lyrics[i].start) == i
    ensures FindCurrentWordIndex(lyrics, lyrics[i].end) == i
  {
  }

  /** What the view renders: the placeholder, or each word with whether it is highlighted. */
  datatype View = Placeholder | Words(words: seq<(string, bool)>)

  function Render(lyrics: seq<Word>, t: real): (v: View)
    ensures v.Placeholder? <==> lyrics == []
    ensures v.Words? ==> |v.words| == |lyrics|
    ensures v.Words? ==> forall i :: 0 <= i < |lyrics| ==>
      v.words[i].0 == lyrics[i].text && (v.words[i].1 <==> i == FindCurrentWordIndex(lyrics, t))
  {
    if lyrics == [] then Placeholder
    else
      var k := FindCurrentWordIndex(lyrics, t);
      Words(seq(|lyrics|, i requires 0 <= i < |lyrics| => (lyrics[i].text, i == k)))
  }

  /** At most one word is highlighted; it contains t, and none is highlighted when no word does. */
  lemma HighlightedWord(lyrics: seq<Word>, t: real, i: nat, j: nat)
    requires Render(lyrics, t).Words?
    requires i < |lyrics| && j < |lyrics|
    ensures var w := Render(lyrics, t).words;
      && (w[i].1 && w[j].1 ==> i == j)
      && (w[i].1 ==> Spans(lyrics[i], t))
      && (FindCurrentWordIndex(lyrics, t) == -1 ==> !w[i].1)
  {
  }

  class KaraokeView {
    var lyrics: seq<Word>

    constructor ()
      ensures lyrics == []
    {
      lyrics := [];
    }

    /** The effect that runs when the current track changes: replace the lyrics only if the track has timed lyrics. */
    method TrackChanged(currentTrack: Option<Song>)
      modifies this
      ensures currentTrack.Some? && currentTrack.value.lyricsTimed.Some? ==>
        lyrics == ToSeconds(currentTrack.value.lyricsTimed.value)
      ensures !(currentTrack.Some? && currentTrack.value.lyricsTimed.Some?) ==> lyrics == old(lyrics)
    {
      if currentTrack.Some? && currentTrack.value.lyricsTimed.Some? {
        lyrics := ToSeconds(currentTrack.value.lyricsTimed.value);
      }
    }
  }
}
