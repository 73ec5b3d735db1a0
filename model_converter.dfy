/**
 * Conversion of internal records to their API shapes. Every conversion is a
 * total, side-effect-free projection.
 */
module ModelConverter {
  import opened Models

  /** Copies the four fields of an album track into a song model. */
  function ToSongModel(albumTrack: AlbumTrack): (song: SongModel)
    ensures song.asin == albumTrack.asin && song.trackNumber == albumTrack.trackNumber
    ensures song.albumName == albumTrack.albumName && song.songTitle == albumTrack.songTitle
  {
    SongModel(albumTrack.asin, albumTrack.trackNumber, albumTrack.albumName, albumTrack.songTitle)
  }

  /** The projection loses nothing: distinct tracks give distinct song models. */
  lemma ToSongModelInjective(a: AlbumTrack, b: AlbumTrack)
    ensures ToSongModel(a) == ToSongModel(b) <==> a == b
  {
  }

  /**
   * Exposes only the playlist's id; every other field of the result is left
   * absent.
   */
  function ToPlaylistModel(playlist: Playlist): (model: PlaylistModel)
    ensures model.id == playlist.id
    ensures model.name.None? && model.customerId.None? && model.songCount.None? && model.tags.None?
  {
    PlaylistModel(playlist.id, None, None, None, None)
  }

  /** Two playlists with the same id have the same API shape, whatever their songs. */
  lemma ToPlaylistModelOnlyId(p: Playlist, q: Playlist)
    ensures ToPlaylistModel(p) == ToPlaylistModel(q) <==> p.id == q.id
  {
  }

  /**
   * The list conversion as the converter defines it: a stub that returns the
   * empty list whatever it is given.
   */
  function ToSongModelList(songList: seq<AlbumTrack>): (songs: seq<SongModel>)
    ensures |songs| == 0
  {
    []
  }

  /**
   * The element-wise conversion the activities perform with a stream map:
   * same length, same order, element i converted from element i.
   */
  function SongModels(songList: seq<AlbumTrack>): (songs: seq<SongModel>)
    ensures |songs| == |songList|
    ensures forall i :: 0 <= i < |songs| ==> songs[i] == ToSongModel(songList[i])
  {
    if songList == [] then [] else [ToSongModel(songList[0])] + SongModels(songList[1..])
  }

  /** The conversion distributes over concatenation. */
  lemma SongModelsAppend(front: seq<AlbumTrack>, back: seq<AlbumTrack>)
    ensures SongModels(front + back) == SongModels(front) + SongModels(back)
  {
  }

  /** Distinct song lists give distinct song-model lists. */
  lemma SongModelsInjective(s: seq<AlbumTrack>, t: seq<AlbumTrack>)
    ensures SongModels(s) == SongModels(t) <==> s == t
  {
  }

  /** The stub disagrees with the element-wise conversion on every non-empty list. */
  lemma ToSongModelListDropsSongs(songList: seq<AlbumTrack>)
    requires songList != []
    ensures ToSongModelList(songList) != SongModels(songList)
    ensures |SongModels(songList)| == |songList| > |ToSongModelList(songList)|
  {
  }
}
