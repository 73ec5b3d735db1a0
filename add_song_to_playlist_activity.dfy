/**
 * Adding a song: load the playlist, resolve the album track, insert it at the
 * head or the tail of a copy of the song list, save the playlist and return
 * the new list converted to song models.
 */
module AddSongToPlaylist {
  import opened Models
  import opened ModelConverter
  import opened AlbumTrackDao
  import opened PlaylistDao
  import GetPlaylistSongsActivity

  /** The song list to start from: a null list counts as the empty one. */
  function SongListOrEmpty(songList: Option<seq<AlbumTrack>>): (songs: seq<AlbumTrack>)
    ensures songList.Some? ==> songs == songList.value
    ensures songList.None? ==> songs == []
  {
    if songList.Some? then songList.value else []
  }

  /**
   * The ordering policy: with `queueNext` the track goes in front, otherwise
   * at the end; the other songs keep their order and nothing is deduplicated.
   */
  function Insert(songs: seq<AlbumTrack>, track: AlbumTrack, queueNext: bool): (r: seq<AlbumTrack>)
    ensures |r| == |songs| + 1
    ensures queueNext ==> r[0] == track && r[1..] == songs
    ensures !queueNext ==> r[|songs|] == track && r[..|songs|] == songs
    ensures multiset(r) == multiset(songs) + multiset{track}
  {
    if queueNext then [track] + songs else songs + [track]
  }

  /** With `queueNext`, the response is the new song followed by the old ones, converted in order. */
  lemma QueueNextResponse(songs: seq<AlbumTrack>, track: AlbumTrack)
    ensures SongModels(Insert(songs, track, true)) == [ToSongModel(track)] + SongModels(songs)
  {
  }

  /** Without `queueNext`, the response is the old songs converted in order, then the new song. */
  lemma AppendResponse(songs: seq<AlbumTrack>, track: AlbumTrack)
    ensures SongModels(Insert(songs, track, false)) == SongModels(songs) + [ToSongModel(track)]
  {
  }

  /** Adding a track twice gives two more occurrences of it, whatever the positions. */
  lemma NoDeduplication(songs: seq<AlbumTrack>, track: AlbumTrack, first: bool, second: bool)
    ensures multiset(Insert(Insert(songs, track, first), track, second))[track] == multiset(songs)[track] + 2
    ensures |Insert(Insert(songs, track, first), track, second)| == |songs| + 2
  {
  }

  /** A playlist with a null song list ends up holding only the new track. */
  lemma NullSongListGivesSingleTrack(track: AlbumTrack, queueNext: bool)
    ensures Insert(SongListOrEmpty(None), track, queueNext) == [track]
    ensures SongModels(Insert(SongListOrEmpty(None), track, queueNext)) == [ToSongModel(track)]
  {
  }

  /** Playlist [A1] plus track B gives [A1, B] at the tail and [B, A1] at the head. */
  lemma HeadAndTailScenario(a1: AlbumTrack, b: AlbumTrack)
    ensures Insert([a1], b, false) == [a1, b]
    ensures Insert([a1], b, true) == [b, a1]
  {
  }

  /** The add-song request handler, over the playlist table and the track catalog. */
  class AddSongToPlaylistActivity {
    const playlistDao: PlaylistStore
    const catalog: map<TrackKey, AlbumTrack>

    constructor (playlistDao: PlaylistStore, catalog: map<TrackKey, AlbumTrack>)
      ensures this.playlistDao == playlistDao && this.catalog == catalog
    {
      this.playlistDao := playlistDao;
      this.catalog := catalog;
    }

    /**
     * Fails fast, in this order, on a null request, a missing playlist and a
     * missing album track, leaving the table untouched. Otherwise stores the
     * playlist with the track inserted into its song list (no other field and
     * no other playlist changes) and returns that list converted in order,
     * which is what a later retrieval of the playlist returns.
     */
    method HandleRequest(request: Option<AddSongToPlaylistRequest>) returns (r: Result<seq<SongModel>>)
      requires playlistDao.Valid()
      modifies playlistDao
      ensures playlistDao.Valid()
      ensures request.None? ==> r == Failure(InvalidRequest)
      ensures request.Some? && request.value.id !in old(playlistDao.playlists) ==> r == Failure(PlaylistNotFound)
      ensures (request.Some? && request.value.id in old(playlistDao.playlists)
               && (request.value.asin, request.value.trackNumber) !in catalog) ==> r == Failure(AlbumTrackNotFound)
      ensures r.Failure? ==> playlistDao.playlists == old(playlistDao.playlists)
      ensures r.Success? <==> (request.Some? && request.value.id in old(playlistDao.playlists)
                               && (request.value.asin, request.value.trackNumber) in catalog)
      ensures r.Success? ==>
        var req := request.value;
        var before := old(playlistDao.playlists)[req.id];
        var songs := Insert(SongListOrEmpty(before.songList), catalog[(req.asin, req.trackNumber)], req.queueNext);
        && playlistDao.playlists.Keys == old(playlistDao.playlists).Keys
        && playlistDao.playlists[req.id] == before.(songList := Some(songs))
        && (forall id :: id in old(playlistDao.playlists) && id != req.id ==>
              playlistDao.playlists[id] == old(playlistDao.playlists)[id])
        && r.value == SongModels(songs)
      ensures r.Success? ==>
        GetPlaylistSongsActivity.HandleRequest(playlistDao.playlists, GetPlaylistSongsRequest(request.value.id, None)) == r
    {
      if request.None? {
        return Failure(InvalidRequest);
      }
      var req := request.value;

      var loaded := GetPlaylist(playlistDao.playlists, req.id);
      if loaded.Failure? {
        return Failure(loaded.error);
      }
      var playlist := loaded.value;

      var found := GetAlbumTrack(catalog, req.asin, req.trackNumber);
      if found.Failure? {
        return Failure(found.error);
      }
      var albumTrack := found.value;

      // A fresh copy of the song list, or a fresh empty list.
      var songList := SongListOrEmpty(playlist.songList);
      if req.queueNext {
        songList := [albumTrack] + songList;
      } else {
        songList := songList + [albumTrack];
      }
      playlist := playlist.(songList := Some(songList));

      // The persisted state returned by the save is not used.
      var _ := playlistDao.SavePlaylist(playlist);

      r := Success(SongModels(songList));
    }
  }
}
