/**
 * Playlist store access: the playlist table is a map from playlist id to the
 * stored playlist. Loading fails when the id is absent; saving overwrites the
 * whole entity stored under the playlist's id.
 */
module PlaylistDao {
  import opened Models

  /** Every playlist is stored under its own id (the table's hash key). */
  predicate KeyedById(playlists: map<string, Playlist>)
  {
    forall id :: id in playlists ==> playlists[id].id == id
  }

  /** Loads the playlist stored under `id`, or fails with PlaylistNotFound. */
  function GetPlaylist(playlists: map<string, Playlist>, id: string): (r: Result<Playlist>)
    ensures r.Success? <==> id in playlists
    ensures r.Success? ==> r.value == playlists[id]
    ensures r.Failure? ==> r.error == PlaylistNotFound
    ensures r.Success? && KeyedById(playlists) ==> r.value.id == id
  {
    if id in playlists then Success(playlists[id]) else Failure(PlaylistNotFound)
  }

  /** The table after saving `playlist`: its entry replaced, all others kept. */
  function Saved(playlists: map<string, Playlist>, playlist: Playlist): (r: map<string, Playlist>)
    ensures r.Keys == playlists.Keys + {playlist.id}
    ensures GetPlaylist(r, playlist.id) == Success(playlist)
    ensures forall id :: id != playlist.id ==> GetPlaylist(r, id) == GetPlaylist(playlists, id)
    ensures KeyedById(playlists) ==> KeyedById(r)
  {
    playlists[playlist.id := playlist]
  }

  /** The playlist table, which the add-song activity updates in place. */
  class PlaylistStore {
    var playlists: map<string, Playlist>

    ghost predicate Valid()
      reads this
    {
      KeyedById(playlists)
    }

    constructor (initial: map<string, Playlist>)
      requires KeyedById(initial)
      ensures Valid() && playlists == initial
    {
      playlists := initial;
    }

    /**
     * Overwrites the whole entity stored under `playlist.id` (no merge, no
     * version check) and returns the persisted state.
     */
    method SavePlaylist(playlist: Playlist) returns (saved: Playlist)
      requires Valid()
      modifies this
      ensures Valid()
      ensures playlists == Saved(old(playlists), playlist)
      ensures saved == playlist
    {
      playlists := playlists[playlist.id := playlist];
      saved := playlist;
    }
  }
}
