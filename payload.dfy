/**
 * The Spotify Web API responses the loaders read, as typed records.  Every
 * key the code reads with `obj["key"]` is a `Field`, so that a missing key
 * can be represented; a value the API may send as JSON null is an `Option`.
 * The client is not called: its answers are given as data.
 */
module Payload {
  import opened Wrappers
  import Store

  /** A key of a JSON object: missing, or present with a value. */
  datatype Field<+T> = Absent | Present(value: T)

  /** An entry of a track's `artists` list. */
  datatype ArtistPayload = ArtistPayload(id: Field<string>, name: Field<string>)

  datatype AlbumPayload = AlbumPayload(name: Field<Option<string>>, releaseDate: Field<Option<string>>)

  /** A track object: an item of the top-tracks page, or the `track` of a recent play. */
  datatype TrackPayload = TrackPayload(
    id: Field<string>,
    name: Field<string>,
    artists: Field<seq<ArtistPayload>>,
    album: Field<AlbumPayload>,
    durationMs: Field<Option<int>>,
    popularity: Field<Option<int>>)

  /** A play's `context` object; `kind` is `.get("type", None)`, None when the key is missing or null. */
  datatype ContextPayload = ContextPayload(kind: Option<string>)

  /** An item of the recently-played page; `context` may be missing, null, or an object. */
  datatype PlayPayload = PlayPayload(
    track: Field<TrackPayload>,
    playedAt: Field<string>,
    context: Field<Option<ContextPayload>>)

  /** An audio-features object with the twelve keys the loader reads. */
  datatype FeaturePayload = FeaturePayload(
    id: Field<string>,
    danceability: Field<Option<real>>,
    energy: Field<Option<real>>,
    key: Field<Option<int>>,
    loudness: Field<Option<real>>,
    mode: Field<Option<int>>,
    speechiness: Field<Option<real>>,
    acousticness: Field<Option<real>>,
    instrumentalness: Field<Option<real>>,
    liveness: Field<Option<real>>,
    valence: Field<Option<real>>,
    tempo: Field<Option<real>>)

  /** An entry of the audio-features list: null, an empty object (both falsy), or a non-empty object. */
  datatype FeatureEntry = NullEntry | EmptyObject | FeatureObject(fields: FeaturePayload)

  /**
   * The answers of the authenticated client.  `topItems` and `recentItems`
   * are `results.get("items", [])` of the two pages (None when the key is
   * missing or null); `artistGenres` answers `sp.artist(id)`, an id outside
   * it being a request that raises, and its value None an artist object
   * without a "genres" key; `audioFeatures` is the list `sp.audio_features`
   * returns.
   */
  datatype Client = Client(
    topItems: Option<seq<TrackPayload>>,
    recentItems: Option<seq<PlayPayload>>,
    artistGenres: map<string, Option<seq<string>>>,
    audioFeatures: seq<FeatureEntry>)

  /** The exceptions a load can raise. */
  datatype EtlError =
    | MissingKey(key: string)              // KeyError on obj["key"]
    | NoPrimaryArtist                      // IndexError on track["artists"][0]
    | ContextIsNull                        // AttributeError: .get called on a null context
    | ArtistLookupFailed(artistId: string) // sp.artist(artist_id) raised
    | Database(cause: Store.DbError)       // sqlite3 raised inside the write block

  /** `obj["key"]`: the value, or a KeyError. */
  function Get<T>(f: Field<T>, key: string): (r: Result<T, EtlError>)
    ensures f.Present? <==> r.Ok?
    ensures r.Ok? ==> r.value == f.value
    ensures r.Err? ==> r.error == MissingKey(key)
  {
    match f
    case Absent => Err(MissingKey(key))
    case Present(v) => Ok(v)
  }
}
