/**
 * Retrieval: load a playlist and return its stored song list, converted song
 * by song, in stored order.
 */
module GetPlaylistSongsActivity {
  import opened Models
  import opened ModelConverter
  import opened PlaylistDao

  /**
   * The song list is read without a null check, so an existing playlist must
   * have a (possibly empty) song list.
   */
  predicate SongListPresent(playlists: map<string, Playlist>, id: string)
  {
    id in playlists ==> playlists[id].songList.Some?
  }

  /**
   * Fails with PlaylistNotFound exactly when the id is absent; otherwise
   * returns the stored songs converted one by one in stored order. The
   * requested order is never read.
   */
  function HandleRequest(playlists: map<string, Playlist>, request: GetPlaylistSongsRequest): (r: Result<seq<SongModel>>)
    requires SongListPresent(playlists, request.id)
    ensures r.Failure? <==> request.id !in playlists
    ensures r.Failure? ==> r.error == PlaylistNotFound
    ensures r.Success? ==>
      var stored := playlists[request.id].songList.value;
      && |r.value| == |stored|
      && forall i :: 0 <= i < |stored| ==> r.value[i] == ToSongModel(stored[i])
    ensures r.Success? ==> (r.value == [] <==> playlists[request.id].songList.value == [])
  {
    var loaded := GetPlaylist(playlists, request.id);
    if loaded.Failure? then Failure(loaded.error)
    else Success(SongModels(loaded.value.songList.value))
  }

  /** The result is the same for every requested order, absent included. */
  lemma OrderIgnored(playlists: map<string, Playlist>, request: GetPlaylistSongsRequest, order: Option<SongOrder>)
    requires SongListPresent(playlists, request.id)
    ensures HandleRequest(playlists, request) == HandleRequest(playlists, request.(order := order))
  {
  }

  /** The result is determined by the stored song list alone. */
  lemma ResultDeterminedBySongList(playlists: map<string, Playlist>, other: map<string, Playlist>, request: GetPlaylistSongsRequest)
    requires SongListPresent(playlists, request.id) && SongListPresent(other, request.id)
    requires request.id in playlists && request.id in other
    ensures HandleRequest(playlists, request) == HandleRequest(other, request)
        <==> playlists[request.id].songList == other[request.id].songList
  {
    SongModelsInjective(playlists[request.id].songList.value, other[request.id].songList.value);
  }
}
