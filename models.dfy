/**
 * The records of the music playlist service: the catalog's album tracks, the
 * stored playlists, the API shapes they are converted to, the two requests of
 * the core and the errors it reports.
 */
module Models {

  /** A catalog entry, keyed by its album (asin) and its track number. */
  datatype AlbumTrack = AlbumTrack(
    asin: string,
    trackNumber: int,
    albumName: string,
    songTitle: string)

  /** The composite key of the album-track table: (asin, trackNumber). */
  type TrackKey = (string, int)

  function KeyOf(track: AlbumTrack): TrackKey
  {
    (track.asin, track.trackNumber)
  }

  /**
   * A stored playlist. `songList` is `None` when the playlist has never had a
   * song list (a null list), which is distinct from an empty one.
   */
  datatype Playlist = Playlist(
    id: string,
    name: string,
    customerId: string,
    songCount: int,
    tags: set<string>,
    songList: Option<seq<AlbumTrack>>)

  /** The boundary shape of a song: a flat copy of an album track. */
  datatype SongModel = SongModel(
    asin: string,
    trackNumber: int,
    albumName: string,
    songTitle: string)

  /** The boundary shape of a playlist; absent fields are `None`. */
  datatype PlaylistModel = PlaylistModel(
    id: string,
    name: Option<string>,
    customerId: Option<string>,
    songCount: Option<int>,
    tags: Option<seq<string>>)

  /** The requested song order; only `Default` has defined semantics. */
  datatype SongOrder = Default | Other(name: string)

  datatype AddSongToPlaylistRequest = AddSongToPlaylistRequest(
    id: string,
    asin: string,
    trackNumber: int,
    queueNext: bool)

  datatype GetPlaylistSongsRequest = GetPlaylistSongsRequest(
    id: string,
    order: Option<SongOrder>)

  /**
   * The three terminal errors of the core: a null request
   * (IllegalArgumentException), a missing playlist and a missing album track.
   */
  datatype ServiceError = InvalidRequest | PlaylistNotFound | AlbumTrackNotFound

  datatype Option<+T> = None | Some(value: T)

  /** A call either returns a value or fails with one of the service errors. */
  datatype Result<+T> = Success(value: T) | Failure(error: ServiceError)
}
