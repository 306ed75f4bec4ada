/**
 * The favourites provider of src/context/FavoritesContext.tsx: the list of
 * favourite song ids, kept in step with the backend when a user is signed in.
 * Backend calls are not modelled; their outcome is a parameter.
 */
module Favorites {
  import opened Wrappers
  import opened Songs

  /** `ids.filter(id => id !== x)`. */
  function Without(ids: seq<string>, x: string): (r: seq<string>)
    ensures |r| <= |ids| && x !in r
    decreases |ids|
  {
    if ids == [] then []
    else if ids[0] == x then Without(ids[1..], x)
    else [ids[0]] + Without(ids[1..], x)
  }

  /** `ids.includes(x)`, scanning from the front. */
  function Includes(ids: seq<string>, x: string): (r: bool)
    ensures r <==> x in ids
    decreases |ids|
  {
    assert ids != [] ==> ids == [ids[0]] + ids[1..];
    ids != [] && (ids[0] == x || Includes(ids[1..], x))
  }

  /** `songs.map(song => song.id)`. */
  function Ids(songs: seq<Song>): (ids: seq<string>)
    ensures |ids| == |songs|
    ensures forall i :: 0 <= i < |songs| ==> ids[i] == songs[i].id
  {
    seq(|songs|, i requires 0 <= i < |songs| => songs[i].id)
  }

  /** Removing keeps exactly the other ids: x is gone, every other id stays. */
  lemma {:induction false} WithoutMembers(ids: seq<string>, x: string, y: string)
    ensures y in Without(ids, x) <==> y in ids && y != x
    decreases |ids|
  {
    if ids != [] {
      WithoutMembers(ids[1..], x, y);
      assert ids == [ids[0]] + ids[1..];
    }
  }

  /** Removing distributes over concatenation, so the remaining ids keep their relative order. */
  lemma {:induction false} WithoutAppend(a: seq<string>, b: seq<string>, x: string)
    ensures Without(a + b, x) == Without(a, x) + Without(b, x)
    decreases |a|
  {
    if a != [] {
      assert (a + b)[1..] == a[1..] + b;
      WithoutAppend(a[1..], b, x);
    } else {
      assert a + b == b;
    }
  }

  /** Removing an id that is not there changes nothing. */
  lemma {:induction false} WithoutAbsent(ids: seq<string>, x: string)
    requires x !in ids
    ensures Without(ids, x) == ids
    decreases |ids|
  {
    if ids != [] {
      WithoutAbsent(ids[1..], x);
      assert ids == [ids[0]] + ids[1..];
    }
  }

  /** Removing every occurrence at once: a second removal of the same id changes nothing. */
  lemma WithoutIdempotent(ids: seq<string>, x: string)
    ensures Without(Without(ids, x), x) == Without(ids, x)
  {
    WithoutMembers(ids, x, x);
    WithoutAbsent(Without(ids, x), x);
  }

  /** After adding an id it is a favourite; after removing it, it is not. */
  lemma AddThenRemoveMembership(ids: seq<string>, x: string)
    ensures Includes(ids + [x], x)
    ensures !Includes(Without(ids, x), x)
  {
  }

  class FavoritesProvider {
    /**
     * The session's user id, `session?.user?.id`: None without a session.
     * Every operation tests its truthiness, so an empty id counts as signed out.
     */
    var session: Option<string>
    var favoriteSongIds: seq<string>
    var loading: bool

    constructor (session: Option<string>)
      ensures this.session == session && favoriteSongIds == [] && loading
    {
      this.session := session;
      favoriteSongIds := [];
      loading := true;
    }

    /** The auth context reports a new session. */
    method SessionChanged(session: Option<string>)
      modifies this
      ensures this.session == session
      ensures favoriteSongIds == old(favoriteSongIds) && loading == old(loading)
    {
      this.session := session;
    }

    /**
     * The synchronous start of the fetch effect. With a session it sets
     * loading and returns the user whose favourites are requested; without
     * one it empties the list and clears loading.
     */
    method BeginFetch() returns (request: Option<string>)
      modifies this
      ensures session == old(session)
      ensures request == if Truthy(session) then session else None
      ensures Truthy(session) ==> loading && favoriteSongIds == old(favoriteSongIds)
      ensures !Truthy(session) ==> !loading && favoriteSongIds == []
    {
      if Truthy(session) {
        loading := true;
        return session;
      }
      favoriteSongIds := [];
      loading := false;
      request := None;
    }

    /** The awaited favourites query returns: the songs, or None when it threw. */
    method FetchFinished(fetched: Option<seq<Song>>)
      modifies this
      ensures !loading && session == old(session)
      ensures favoriteSongIds == if fetched.Some? then Ids(fetched.value) else old(favoriteSongIds)
    {
      if fetched.Some? {
        favoriteSongIds := Ids(fetched.value);
      }
      loading := false;
    }

    /** The whole fetch effect, with the query's outcome as a parameter. */
    method FetchFavorites(fetched: Option<seq<Song>>)
      modifies this
      ensures !loading && session == old(session)
      ensures !Truthy(session) ==> favoriteSongIds == []
      ensures Truthy(session) ==>
        favoriteSongIds == if fetched.Some? then Ids(fetched.value) else old(favoriteSongIds)
    {
      var request := BeginFetch();
      if request.Some? {
        FetchFinished(fetched);
      }
    }

    /**
     * `addFavorite`: with a session the backend is asked to add the id
     * (`requested`); only when it reports no error is the id appended.
     */
    method AddFavorite(songId: string, backendError: Option<string>) returns (requested: bool)
      modifies this
      ensures requested == Truthy(session) && session == old(session) && loading == old(loading)
      ensures favoriteSongIds ==
        if requested && backendError.None? then old(favoriteSongIds) + [songId] else old(favoriteSongIds)
    {
      if !Truthy(session) {
        return false;
      }
      requested := true;
      if backendError.None? {
        favoriteSongIds := favoriteSongIds + [songId];
      }
    }

    /**
     * `removeFavorite`: with a session the backend is asked to remove the id;
     * only when it reports no error are its occurrences filtered out.
     */
    method RemoveFavorite(songId: string, backendError: Option<string>) returns (requested: bool)
      modifies this
      ensures requested == Truthy(session) && session == old(session) && loading == old(loading)
      ensures favoriteSongIds ==
        if requested && backendError.None? then Without(old(favoriteSongIds), songId) else old(favoriteSongIds)
    {
      if !Truthy(session) {
        return false;
      }
      requested := true;
      if backendError.None? {
        favoriteSongIds := Without(favoriteSongIds, songId);
      }
    }

    function IsFavorite(songId: string): (r: bool)
      reads this
      ensures r <==> songId in favoriteSongIds
    {
      Includes(favoriteSongIds, songId)
    }
  }
}
