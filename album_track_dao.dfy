/**
 * Track lookup: the album-track table is a map from (asin, trackNumber) to the
 * catalog entry stored under that key.
 */
module AlbumTrackDao {
  import opened Models

  /** Every entry is stored under its own (asin, trackNumber). */
  predicate CatalogKeyed(catalog: map<TrackKey, AlbumTrack>)
  {
    forall k :: k in catalog ==> KeyOf(catalog[k]) == k
  }

  /**
   * Loads the track stored under (asin, trackNumber). No range check is made
   * on the track number: any key without an entry, a negative track number
   * included, fails with AlbumTrackNotFound and with no other error.
   */
  function GetAlbumTrack(catalog: map<TrackKey, AlbumTrack>, asin: string, trackNumber: int): (r: Result<AlbumTrack>)
    ensures r.Success? <==> (asin, trackNumber) in catalog
    ensures r.Success? ==> r.value == catalog[(asin, trackNumber)]
    ensures r.Failure? ==> r.error == AlbumTrackNotFound
    ensures r.Success? && CatalogKeyed(catalog) ==> r.value.asin == asin && r.value.trackNumber == trackNumber
  {
    if (asin, trackNumber) in catalog then Success(catalog[(asin, trackNumber)]) else Failure(AlbumTrackNotFound)
  }
}
