/**
 * The relational schema that `init_db` creates: four tables, each a map from
 * its primary key to its row, and one secondary index.  Columns declared
 * NOT NULL have a plain type; every other column is an `Option`.
 */
module Schema {
  import opened Wrappers

  /** A row of `artists`: primary key `artist_id`, `name` NOT NULL. */
  datatype ArtistRow = ArtistRow(artistId: string, name: string, genres: Option<string>)

  /** A row of `tracks`: primary key `track_id`, `name` NOT NULL, `artist_id` references `artists`. */
  datatype TrackRow = TrackRow(
    trackId: string,
    name: string,
    artistId: Option<string>,
    albumName: Option<string>,
    releaseDate: Option<string>,
    durationMs: Option<int>,
    popularity: Option<int>)

  /** A row of `audio_features`: primary key `track_id`, which also references `tracks`. */
  datatype FeatureRow = FeatureRow(
    trackId: string,
    danceability: Option<real>,
    energy: Option<real>,
    key: Option<int>,
    loudness: Option<real>,
    mode: Option<int>,
    speechiness: Option<real>,
    acousticness: Option<real>,
    instrumentalness: Option<real>,
    liveness: Option<real>,
    valence: Option<real>,
    tempo: Option<real>)

  /** A row of `plays`: primary key `play_id`; `track_id` and `played_at` NOT NULL, `track_id` references `tracks`. */
  datatype PlayRow = PlayRow(playId: string, trackId: string, playedAt: string, context: Option<string>)

  // The primary key of each kind of row.
  function ArtistKey(r: ArtistRow): string { r.artistId }
  function TrackKey(r: TrackRow): string { r.trackId }
  function FeatureKey(r: FeatureRow): string { r.trackId }
  function PlayKey(r: PlayRow): string { r.playId }

  // The foreign-key column of each kind of row (None: no reference, or a NULL reference).
  function ArtistParent(r: ArtistRow): Option<string> { None }
  function TrackParent(r: TrackRow): Option<string> { r.artistId }
  function FeatureParent(r: FeatureRow): Option<string> { Some(r.trackId) }
  function PlayParent(r: PlayRow): Option<string> { Some(r.trackId) }

  /** The contents of the four tables. */
  datatype Tables = Tables(
    artists: map<string, ArtistRow>,
    tracks: map<string, TrackRow>,
    audioFeatures: map<string, FeatureRow>,
    plays: map<string, PlayRow>)

  const NoRows: Tables := Tables(map[], map[], map[], map[])

  /** The objects the DDL script creates. */
  datatype SchemaObject = ArtistsTable | TracksTable | AudioFeaturesTable | PlaysTable | PlayedAtIndex

  /** A statement of the DDL script; each one is `CREATE ... IF NOT EXISTS`. */
  datatype DdlStatement = CreateIfNotExists(creates: SchemaObject)

  /** The DDL script, in the order it creates things. */
  const Ddl: seq<DdlStatement> := [
    CreateIfNotExists(ArtistsTable),
    CreateIfNotExists(TracksTable),
    CreateIfNotExists(AudioFeaturesTable),
    CreateIfNotExists(PlaysTable),
    CreateIfNotExists(PlayedAtIndex)
  ]

  const DdlObjects: set<SchemaObject> := {ArtistsTable, TracksTable, AudioFeaturesTable, PlaysTable, PlayedAtIndex}

  /** Every row is stored under its own primary key, so each key has at most one row. */
  ghost predicate KeyedByPrimaryKey(t: Tables) {
    && (forall k :: k in t.artists ==> t.artists[k].artistId == k)
    && (forall k :: k in t.tracks ==> t.tracks[k].trackId == k)
    && (forall k :: k in t.audioFeatures ==> t.audioFeatures[k].trackId == k)
    && (forall k :: k in t.plays ==> t.plays[k].playId == k)
  }

  /** The three FOREIGN KEY clauses of the schema; a NULL `tracks.artist_id` references nothing. */
  ghost predicate ForeignKeysHold(t: Tables) {
    && (forall k :: k in t.tracks && t.tracks[k].artistId.Some? ==> t.tracks[k].artistId.value in t.artists)
    && (forall k :: k in t.audioFeatures ==> k in t.tracks)
    && (forall k :: k in t.plays ==> t.plays[k].trackId in t.tracks)
  }

  ghost predicate Consistent(t: Tables) {
    KeyedByPrimaryKey(t) && ForeignKeysHold(t)
  }

  /** A table that has not been created holds no rows. */
  ghost predicate AbsentTablesEmpty(t: Tables, schema: set<SchemaObject>) {
    && (ArtistsTable !in schema ==> t.artists == map[])
    && (TracksTable !in schema ==> t.tracks == map[])
    && (AudioFeaturesTable !in schema ==> t.audioFeatures == map[])
    && (PlaysTable !in schema ==> t.plays == map[])
  }
}
