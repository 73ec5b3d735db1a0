# Music playlist service: song-list core

A Dafny model of the song-list logic of a playlist backend. Two request
handlers work over two tables:

- **AddSongToPlaylist** loads a playlist by id and resolves an album track by
  (asin, trackNumber). It fails fast on a null request, a missing playlist or a
  missing track, in that order. It then inserts the track at the head of a copy
  of the song list (`queueNext`) or appends it, saves the playlist and returns
  the new list converted to song models.
- **GetPlaylistSongs** loads a playlist and returns its stored song list,
  converted song by song in stored order. The requested order is never read.

Modules, following the source's classes:

- `Models`: album tracks, playlists, the API shapes, the requests, the
  `Result` type and the three service errors.
- `ModelConverter`: the field-copying conversions and the element-wise list
  conversion.
- `AlbumTrackDao`: track lookup over the catalog, a map keyed by
  (asin, trackNumber).
- `PlaylistDao`: loading from the playlist table (a map keyed by id), the
  whole-entity save, and the `PlaylistStore` class that holds the table.
- `GetPlaylistSongsActivity`: retrieval, as a function of the table.
- `AddSongToPlaylist`: the insertion policy `Insert`, and the activity class
  whose `HandleRequest` method updates the table.

The null references of the source are explicit: a null request is
`Option.None`, and a null song list is `songList == None`. Exceptions are
`Result.Failure` values. `IllegalArgumentException` is `InvalidRequest`,
`PlaylistNotFoundException` is `PlaylistNotFound`, and
`AlbumTrackNotFoundException` is `AlbumTrackNotFound`.

## Model

| member | source | states |
|---|---|---|
| `ModelConverter.ToSongModel` | src/com/amazon/ata/music/playlist/service/converters/ModelConverter.java:27-34 | asin, trackNumber, albumName and songTitle are copied verbatim; total and side-effect free |
| `ModelConverter.ToSongModelInjective` | src/com/amazon/ata/music/playlist/service/converters/ModelConverter.java:27-34 | two tracks give equal song models exactly when they are equal, so the projection loses no track data |
| `ModelConverter.ToPlaylistModel` | src/com/amazon/ata/music/playlist/service/converters/ModelConverter.java:16-20 | only the id is copied; name, customerId, songCount and tags are left absent |
| `ModelConverter.ToPlaylistModelOnlyId` | src/com/amazon/ata/music/playlist/service/converters/ModelConverter.java:16-20 | two playlists get the same API shape exactly when their ids are equal |
| `ModelConverter.ToSongModelList` | src/com/amazon/ata/music/playlist/service/converters/ModelConverter.java:36-38 | the stub returns the empty list for every input |
| `ModelConverter.ToSongModelListDropsSongs` | src/com/amazon/ata/music/playlist/service/converters/ModelConverter.java:36-38 | on any non-empty list the stub differs from the element-wise conversion and is shorter than it |
| `ModelConverter.SongModels` | src/com/amazon/ata/music/playlist/service/activity/AddSongToPlaylistActivity.java:78-80 | the stream map keeps the length, and element i is the conversion of element i, so order is preserved |
| `ModelConverter.SongModelsAppend` | src/com/amazon/ata/music/playlist/service/activity/AddSongToPlaylistActivity.java:78-80 | converting a concatenation is concatenating the conversions |
| `ModelConverter.SongModelsInjective` | src/com/amazon/ata/music/playlist/service/activity/GetPlaylistSongsActivity.java:54-56 | two song lists convert to equal model lists exactly when they are equal |
| `AlbumTrackDao.GetAlbumTrack` | src/com/amazon/ata/music/playlist/service/dynamodb/AlbumTrackDao.java:31-39 | succeeds exactly when the catalog has the key and then returns that entry; otherwise fails with AlbumTrackNotFound and nothing else, for any track number, -1 included; read-only |
| `PlaylistDao.GetPlaylist` | src/com/amazon/ata/music/playlist/service/activity/AddSongToPlaylistActivity.java:44-47 | succeeds exactly when the id is stored and returns that playlist; otherwise fails with PlaylistNotFound |
| `PlaylistDao.Saved` | src/com/amazon/ata/music/playlist/service/activity/AddSongToPlaylistActivity.java:72-75 | after a save, loading the saved id gives the saved playlist and loading any other id gives what it gave before; keying by id is kept |
| `PlaylistDao.PlaylistStore.SavePlaylist` | src/com/amazon/ata/music/playlist/service/activity/AddSongToPlaylistActivity.java:75 | overwrites the whole entity under the playlist's id, keeps the table keyed by id, and returns the saved playlist |
| `GetPlaylistSongsActivity.HandleRequest` | src/com/amazon/ata/music/playlist/service/activity/GetPlaylistSongsActivity.java:49-60 | fails with PlaylistNotFound exactly when the id is absent; otherwise same length as the stored list, element i converted from stored element i, and empty exactly when the stored list is empty; requires a non-null stored song list; reads the table only |
| `GetPlaylistSongsActivity.OrderIgnored` | src/com/amazon/ata/music/playlist/service/activity/GetPlaylistSongsActivity.java:49-60 | the result is the same whatever order is requested, absent included |
| `GetPlaylistSongsActivity.ResultDeterminedBySongList` | src/com/amazon/ata/music/playlist/service/activity/GetPlaylistSongsActivity.java:54-56 | for two stored playlists, the results are equal exactly when their stored song lists are equal |
| `AddSongToPlaylist.SongListOrEmpty` | src/com/amazon/ata/music/playlist/service/activity/AddSongToPlaylistActivity.java:61-63 | the stored list is copied as it is; a null list becomes the empty list |
| `AddSongToPlaylist.Insert` | src/com/amazon/ata/music/playlist/service/activity/AddSongToPlaylistActivity.java:66-70 | length n+1; with queueNext the track is first and the rest is the old list; otherwise the track is last and the first n are the old list; the multiset gains exactly one copy of the track |
| `AddSongToPlaylist.QueueNextResponse` | src/com/amazon/ata/music/playlist/service/activity/AddSongToPlaylistActivity.java:66-80 | with queueNext the response is the new song's model followed by the old songs' models in order |
| `AddSongToPlaylist.AppendResponse` | src/com/amazon/ata/music/playlist/service/activity/AddSongToPlaylistActivity.java:68-80 | without queueNext the response is the old songs' models in order followed by the new song's model |
| `AddSongToPlaylist.NoDeduplication` | src/com/amazon/ata/music/playlist/service/activity/AddSongToPlaylistActivity.java:66-70 | adding the same track twice gives two more occurrences of it and two more songs |
| `AddSongToPlaylist.NullSongListGivesSingleTrack` | src/com/amazon/ata/music/playlist/service/activity/AddSongToPlaylistActivity.java:61-70 | a playlist with a null song list ends up holding only the new track, and the response is its single model |
| `AddSongToPlaylist.HeadAndTailScenario` | src/com/amazon/ata/music/playlist/service/activity/AddSongToPlaylistActivity.java:66-70 | the list [A1] plus B becomes [A1, B] when appended and [B, A1] with queueNext |
| `AddSongToPlaylist.AddSongToPlaylistActivity.HandleRequest` | src/com/amazon/ata/music/playlist/service/activity/AddSongToPlaylistActivity.java:36-85 | fails with InvalidRequest, then PlaylistNotFound, then AlbumTrackNotFound, with the table unchanged on every failure; succeeds exactly when the request is non-null, the playlist exists and the track exists; on success only the requested playlist's song list changes, to the inserted list; the response is that list converted in order and equals what a later retrieval returns; the table stays keyed by id |

## Left out

- `PlaylistDao.java`, `Playlist.java` and `SongOrder.java` are not part of this model. Loading is a lookup that fails on a missing id; saving is a whole-entity overwrite under the playlist's id. The fields of `Playlist` follow the class diagram in the tests. `SongOrder` is `Default` or any other value.
- Both the DAO's exception and the activity's own null check for a missing playlist (and, likewise, for a missing track) lead to the same error. The model has one failure path for each.
- `AddSongToPlaylist.AddSongToPlaylistActivity.HandleRequest` updates the stored playlist value. The source instead mutates the loaded `Playlist` object with `setSongList`. That object is a fresh copy from the store, so no aliasing is modelled.
- The request's fields are non-null values here. A null playlist id, asin or boxed track number, and the null-pointer errors they would cause, are not modelled. A request built without `queueNext` is modelled with `queueNext == false`, which is how the source's default behaves.
- `GetPlaylistSongsActivity.HandleRequest` requires a non-null stored song list for an existing playlist, because the source dereferences it without a check. A null `GetPlaylistSongsRequest` is not modelled either: the source dereferences it at once.
- Track numbers are Java `int`s, but they are only used as keys here, so no 32-bit range is modelled.
- `songCount` is not updated when a song is added. The model keeps it unchanged, as the source does.
- The value returned by `savePlaylist` is ignored, and the response comes from the local list, as in the source.
- Logging, the Lambda `Context` and request-handler plumbing, the result and model builders, and the DynamoDB mapper are not modelled.
- Concurrent calls on the same playlist are not modelled. Each call is atomic against the table, and the last save wins.

## Findings

| source | as written | input that shows it | evidently intended | confidence | as-written member | corrected member |
|---|---|---|---|---|---|---|
| src/com/amazon/ata/music/playlist/service/converters/ModelConverter.java:36-38 | `toSongModelList` returns the empty list for every input | any non-empty song list, e.g. one track | convert each track in order, as both activities do with a stream map | medium, not executed; the stub has no caller in the core | `ModelConverter.ToSongModelListDropsSongs` | `ModelConverter.SongModels` |
