# Spotify Insights Dashboard — ETL and persistence layer in Dafny

This project models the ingestion and persistence core of the Spotify
Insights Dashboard:

- the SQLite schema of `db.py`: tables `artists`, `tracks`, `audio_features` and `plays`, plus the index on `plays.played_at`;
- the `get_conn` context manager, which commits only when the block completes and always closes;
- `init_db`;
- the two loaders of `etl.py`, `load_recently_played` and `load_top_tracks`;
- the two dashboard queries `df_top_tracks` and `df_recent_activity`.

Modules:

- **Schema** (`schema.dfy`): the rows and the four tables. Each table is a map from primary key to row. The module also holds the DDL as a list of `CREATE ... IF NOT EXISTS` statements and the table invariants (one row per primary key, foreign keys).
- **Upsert** (`upsert.dfy`): `cursor.executemany("INSERT OR IGNORE ...")` with `PRAGMA foreign_keys = ON`.
  - A row whose key is already present is skipped, and the first row of a batch wins.
  - A new row whose foreign key names no parent raises, because OR IGNORE does not cover foreign keys.
- **Store** (`store.dfy`): the classes `Database` (the committed state of the file) and `Connection` (an open transaction). `Release` is the exit of `with get_conn()`. `InitDb` is `init_db`.
- **Payload** (`payload.dfy`): the Spotify responses as data.
  - A key may be missing (`Absent`, which raises `KeyError` when subscripted) or present.
  - The client is an input value: the two pages, the artist-genre lookups and the audio-features response.
- **Transform** (`transform.dfy`): the item loops of both loaders and the audio-features loop.
  - Each loop is specified by a fold (`RecentLoop`, `TopLoop`, `FeatureRows`).
  - Each loop is also written as a `while` method that is proved equal to its fold.
- **Etl** (`etl.dfy`): each loader as a function from the committed tables to the outcome and the new committed tables. The methods `LoadRecentlyPlayed` and `LoadTopTracks` open a `Connection`, issue the statements and release it, and are proved to agree with those functions.
- **Ordering** and **Views** (`ordering.dfy`, `views.dfy`): the two queries as the join of the stored rows, sorted by `ORDER BY ... DESC`.
  - Rows that tie on the sort column come out in an order the model leaves open, as SQL does.
  - NULL popularity sorts last, since SQLite ranks NULL below every number.
- **Corrected** (`corrected.dfy`): the loaders as their docstrings describe them, next to concrete pages on which the code as written differs (see Findings).

The code behaves as follows where its docstrings or a reader might expect otherwise:

- `load_top_tracks` writes only `artists` and never writes `tracks` or `audio_features`.
- Neither loader returns a count on a non-empty page.
- One malformed item (a missing key, a failed artist lookup, a null `context`) raises inside the item loop. That aborts the whole call before any write, rather than skipping the one item.
- `load_top_tracks` looks genres up once per item, a repeated artist included. `load_recently_played` looks them up once per distinct artist.
- A `duration_ms` or `popularity` that is JSON null is stored as NULL. A missing key raises.

## Model

| member | source | states |
|---|---|---|
| Upsert.InsertOrIgnore | etl.py:104-118 | on success the table gains exactly the batch's keys and every row it had is kept unchanged |
| Upsert.InsertOrIgnoreFailsIff | db.py:10 | with foreign keys on, the statement raises exactly when some row that would be inserted (new key, first in the batch) has a non-NULL foreign key with no parent row |
| Upsert.InsertOrIgnoreFirstSeen | etl.py:110-113 | a key the batch adds holds the first row of the batch with that key (first seen wins, duplicates within a batch included) |
| Upsert.InsertOrIgnoreKeepsKeys | db.py:20-60 | a table whose rows sit under their own primary key with valid references keeps that property through the batch |
| Upsert.InsertOrIgnoreSucceeds | etl.py:105-118 | a batch whose rows all find their parent never raises |
| Upsert.InsertOrIgnorePresentIsNoop | etl.py:116-118 | a batch whose keys are all present already changes nothing and does not raise |
| Upsert.ExecuteMany | etl.py:116-118 | the row-by-row `executemany` loop returns what InsertOrIgnore specifies |
| Store.ExecuteInsert | etl.py:105-118 | one statement: a missing table raises; on success tables only grow, only the target table gains keys, and it gains exactly the statement's keys |
| Store.ExecuteAll | etl.py:101-118 | a block of statements in order; on success the tables only grow |
| Store.ExecuteInsertPreservesConsistency | db.py:20-60 | a statement that succeeds keeps one row per primary key, keeps every foreign key valid, and writes nothing into a table that does not exist |
| Store.ExecuteAllPreservesConsistency | db.py:20-60 | the same for a whole block |
| Store.InsertArtistsConsistent | db.py:20-24 | an `artists` insert that succeeds keeps the store consistent |
| Store.InsertTracksConsistent | db.py:27-36 | a `tracks` insert that succeeds keeps the store consistent: every new track names a stored artist or none (the FOREIGN KEY at db.py:35) |
| Store.InsertFeaturesConsistent | db.py:38-52 | an `audio_features` insert that succeeds keeps the store consistent: every new row names a stored track (db.py:51) |
| Store.InsertPlaysConsistent | db.py:54-60 | a `plays` insert that succeeds keeps the store consistent: every new play names a stored track (db.py:59) |
| Store.ExecuteInsertSucceeds | db.py:35 | a statement on an existing table whose rows all reference rows already stored never raises |
| Store.InsertArtistsFirstSeen | etl.py:104-107 | an artist key the statement adds holds the first new row of the batch with that key |
| Store.InsertTracksFirstSeen | etl.py:110-113 | a track key the statement adds holds the first new row of the batch with that key |
| Store.InsertPlaysFirstSeen | etl.py:116-118 | a play key the statement adds holds the first new row of the batch with that key |
| Store.ExecuteInsertRepeat | etl.py:105-118 | re-running a statement that succeeded, on any state that kept its rows, succeeds and changes nothing |
| Store.ExecuteAllRepeat | etl.py:101-118 | a block that succeeded, re-run on its own result, succeeds and changes nothing |
| Store.Database.constructor | db.py:9 | a freshly created database file has no tables and no rows |
| Store.Connection.Open | db.py:8-10 | a connection's transaction starts from the committed state |
| Store.Connection.Execute | etl.py:104-118 | `executemany` on the open transaction: on success the transaction holds ExecuteInsert's tables and stays consistent; otherwise it returns ExecuteInsert's error |
| Store.Connection.ExecuteScript | db.py:17-63 | each `CREATE ... IF NOT EXISTS` adds its object when absent; no row changes |
| Store.Connection.Commit | db.py:13 | the transaction becomes the committed state |
| Store.Connection.Close | db.py:14-15 | the connection is closed |
| Store.Release | db.py:11-15 | when the block completed, its writes are committed; when it raised, the committed state is what it was; in both cases the connection is closed |
| Store.InitDb | db.py:65-67 | the missing tables and index are created, existing ones and every stored row are untouched, so a second call changes nothing |
| Transform.JoinGenres | etl.py:29 | an empty genre list gives "" |
| Transform.GenresRoundTrip | etl.py:29 | for a non-empty genre list in which no genre contains a comma, splitting the genres column on ", " gives the list back (an empty list is stored as "", which splits to [""]) |
| Transform.PlayIdSeparatesTimestamps | etl.py:94 | for one track, two plays get the same key exactly when their timestamps are equal |
| Transform.PlayIdInjective | etl.py:94 | for ids without ':', two plays get the same key exactly when track and timestamp both agree |
| Transform.FirstSeenGrows | etl.py:36-37 | the artist dict keeps what it had, gains exactly the candidates' ids, and holds one entry per id |
| Transform.FirstSeenPicksFirst | etl.py:97-99 | every entry the dict gains is the first candidate with its id |
| Transform.FirstSeenFromEmpty | etl.py:36-37 | built from an empty dict: one entry per distinct id, each the first candidate with that id |
| Transform.FeatureRowsSkipsFalsy | etl.py:42-48 | falsy audio-feature entries are skipped; the loop raises exactly when a truthy entry lacks a key, and otherwise gives one row per truthy entry, in order |
| Transform.FeatureRowsOkIff | etl.py:42-48 | the audio-features loop raises exactly when some truthy entry lacks a key |
| Transform.FeatureRowsValues | etl.py:42-48 | when the loop finishes, its i-th row is read from the i-th truthy entry |
| Transform.RecentLoopBuilds | etl.py:80-99 | a finished recent-plays loop read every item, appended one play row and one track row per item, and filled the dict first-seen |
| Transform.RecentLoopLookups | etl.py:97-98 | the recent-plays loop looks genres up once per artist it adds, in the same order |
| Transform.TopLoopBuilds | etl.py:23-37 | a finished top-tracks loop read every item, appended one track row and one genre lookup per item, and filled the dict first-seen |
| Transform.TopLoopRows | etl.py:23-35 | a finished top-tracks loop read every item and appended one track row and one genre lookup per item, in page order |
| Transform.TopLoopDict | etl.py:36-37 | the top-tracks loop fills the artist dict first-seen from the items' primary artists |
| Transform.ScanRecentRows | etl.py:80-96 | item i gives play row `track_id::played_at` and its track row; every track names an artist of the dict, every play a track of the batch |
| Transform.RecentRowsClosed | etl.py:94-99 | every track row read from a page names an artist of its dict, and every play row a track of the batch |
| Transform.ScanRecentArtists | etl.py:97-99 | one dict entry per distinct primary-artist id of the page, each from the first item with that id, and one lookup per entry |
| Transform.RecentDictIds | etl.py:97-99 | the recent-plays dict has one entry per distinct primary-artist id of the page |
| Transform.RecentDictFirstSeen | etl.py:97-99 | each entry of the recent-plays dict is built from the first item with its id |
| Transform.ScanTopRows | etl.py:23-48 | one track row and one genre lookup per item (repeats included), the feature request in page order, one feature row per truthy entry |
| Transform.ScanTopArtists | etl.py:36-37 | one dict entry per distinct primary-artist id of a top-tracks page, each from the first item with that id |
| Transform.TopLoopArtists | etl.py:23-37 | the same for the item loop alone |
| Transform.TopDictIds | etl.py:36-37 | the top-tracks dict has one entry per distinct primary-artist id of the page |
| Transform.TopDictFirstSeen | etl.py:36-37 | each entry of the top-tracks dict is built from the first item with its id |
| Transform.ScanRecentlyPlayed | etl.py:80-99 | the `for item in items` loop of `load_recently_played` computes the fold RecentLoop |
| Transform.ReadFeatureEntries | etl.py:42-48 | the `for af in audio_features_list` loop computes FeatureRows |
| Transform.ScanTopTracks | etl.py:19-48 | the transform of `load_top_tracks` computes ScanTop |
| Etl.WriteBlock | etl.py:101-118 | a write block that raises leaves the committed tables as they were; one that completes returns None and the tables only grow |
| Etl.LoadRecent | etl.py:59-118 | an empty page returns 0 and writes nothing; an exception leaves the store unchanged; a non-empty page that succeeds returns None and the tables only grow |
| Etl.LoadTop | etl.py:1-56 | the same three cases for `load_top_tracks` |
| Etl.LoadRecentlyPlayed | etl.py:59-118 | the method that opens the connection and issues the three inserts leaves the database exactly as LoadRecent says and returns its outcome |
| Etl.LoadTopTracks | etl.py:1-56 | the same for `load_top_tracks` and LoadTop |
| Etl.RecentWritesSucceed | etl.py:104-118 | artists go in before tracks and tracks before plays, so a batch whose references are closed never raises; each table gains exactly the batch's keys |
| Etl.RecentBatchKeys | etl.py:94-96 | the batch's play and track keys are exactly the page's play ids and track ids |
| Etl.PagePlayKeys | etl.py:94-95 | play rows read item by item carry exactly the page's `track_id::played_at` ids |
| Etl.PageTrackKeys | etl.py:96 | track rows read item by item carry exactly the page's track ids |
| Etl.LoadRecentEffect | etl.py:80-118 | a malformed item or failed lookup ends the call with that error and no write; otherwise it returns None and artists, tracks and plays gain exactly the page's keys, with audio_features untouched |
| Etl.WriteBlockRepeat | etl.py:101-118 | a block that committed, run again on what it committed, commits nothing new |
| Etl.WriteBlockPreservesConsistency | etl.py:101-118 | a write block keeps primary keys and foreign keys valid, whatever its outcome |
| Etl.LoadRecentPreservesConsistency | etl.py:105-118 | `load_recently_played` keeps every table keyed by its primary key and every foreign key valid |
| Etl.LoadRecentIdempotent | etl.py:105-118 | re-running `load_recently_played` on an identical response returns the same outcome and leaves every table unchanged |
| Etl.RecentWritesTracksFirstSeen | etl.py:105-113 | a track key the write block adds holds the first track row of the batch with that key |
| Etl.RecentWritesPlaysFirstSeen | etl.py:105-118 | a play key the write block adds holds the first play row of the batch with that key |
| Etl.TracksFirstSeenPerItem | etl.py:96-113 | a track key the block adds holds the track row of the first item of the page with that track |
| Etl.PlaysFirstSeenPerItem | etl.py:94-118 | a play key the block adds holds the play row of the first item of the page with that key |
| Etl.LoadRecentTracksFirstSeen | etl.py:96-113 | after `load_recently_played`, a new track holds the row built from the first item with that track, even when the page repeats it |
| Etl.LoadRecentPlaysFirstSeen | etl.py:94-118 | after `load_recently_played`, a new play holds the row of the first item with that key |
| Etl.RecentWritesArtistsFirstSeen | etl.py:104-107 | an artist key the write block adds holds the first artist row of the batch with that key |
| Etl.LoadRecentArtistsFirstSeen | etl.py:97-107 | after `load_recently_played`, a new artist holds the name from the first item whose primary artist it is, and that artist's genres |
| Etl.LoadRecentPlayKeys | etl.py:94-95 | every item's play is stored; same track and same time collapse to one row, different times give two |
| Etl.LoadTopWritesOnlyArtists | etl.py:50-56 | `load_top_tracks` leaves tracks, audio_features and plays as they were, on every input |
| Etl.LoadTopEffect | etl.py:23-56 | a malformed item or failed lookup ends the call with no write; otherwise it returns None and artists gains exactly the page's primary-artist ids |
| Etl.TopWritesArtistsFirstSeen | etl.py:50-56 | an artist key the write block of `load_top_tracks` adds holds the first artist row of the batch with that key |
| Etl.TopArtistsFirstSeenPerItem | etl.py:26-56 | an artist key that block adds holds the row built from the first item of the page whose primary artist it is |
| Etl.LoadTopArtistsFirstSeen | etl.py:26-56 | after `load_top_tracks`, a new artist holds the name from the first item whose primary artist it is, and that artist's genres |
| Etl.LoadTopPreservesConsistency | etl.py:50-56 | `load_top_tracks` keeps the store consistent |
| Etl.LoadTopIdempotent | etl.py:54-56 | re-running `load_top_tracks` on an identical response changes nothing |
| Corrected.LoadTopIntended | etl.py:2-10 | the documented `load_top_tracks`: empty page gives 0; an error leaves the store unchanged; success returns the number of tracks and the tables only grow |
| Corrected.LoadRecentIntended | etl.py:66-67 | the documented `load_recently_played`: the same tables as the code, the same error when the code raises, and the number of plays on success |
| Corrected.TopWritesIntendedSucceed | etl.py:19-48 | the intended artists, tracks and features block never raises on a batch with closed references; each table gains exactly the batch's keys |
| Corrected.TopBatchClosed | etl.py:40-48 | when the response describes only the requested tracks, every feature row names a track of the batch and every track an artist of the batch |
| Corrected.LoadTopIntendedStores | etl.py:2 | the intended loader stores every track of the page, its artist and its feature rows, and returns the number of tracks |
| Corrected.LoadTopDropsTracks | etl.py:50-56 | on a one-track page the code stores the artist but no track and returns None; the intended loader stores the track and returns 1 |
| Corrected.LoadTopSampleAsWritten | etl.py:50-56 | on the one-track page the code returns None, stores artist "a1" and leaves `tracks` empty |
| Corrected.LoadTopSampleIntended | etl.py:2-10 | on the same page the intended loader returns 1 and stores track "t1" |
| Corrected.LoadRecentReturnsNone | etl.py:101-118 | on a one-play page the code stores the play and returns None; the intended loader returns 1 |
| Ordering.SortDesc | etl.py:133 | every row of the set exactly once, in non-increasing order of a total preorder |
| Ordering.MaxOf | etl.py:133 | a non-empty set of rows has a greatest row under a total preorder: the row `ORDER BY ... DESC` puts first |
| Ordering.NullableGeIsTotalPreorder | etl.py:133 | comparing nullable integers with NULL lowest is total and transitive |
| Ordering.TextLeTotal | etl.py:149 | any two TEXT values compare under the BINARY collation |
| Ordering.TextLeTransitive | etl.py:149 | the BINARY collation is transitive |
| Views.PopularityGeIsTotalPreorder | etl.py:133 | `ORDER BY t.popularity DESC` is a total preorder on result rows |
| Views.TopTracksView | etl.py:126-134 | every row is the joined row of a stored track whose artist is stored, every such track appears, no row repeats, popularity is non-increasing |
| Views.TopTrackRowAt | etl.py:127-132 | each row of `df_top_tracks` is the joined row of the track stored under its own id |
| Views.TopTracksOnePerTrack | etl.py:130-132 | exactly one row per track whose artist is stored: the track ids are distinct and are exactly those tracks |
| Views.TopTrackIdsDistinct | etl.py:130-132 | no two rows of `df_top_tracks` share a track id |
| Views.TopTrackIdsCover | etl.py:130-132 | the track ids of `df_top_tracks` are exactly the stored tracks whose artist is stored |
| Views.TopTracksNullFeatures | etl.py:132 | a track without an audio_features row is shown with NULL danceability, energy and valence; one with a row shows its values |
| Views.PlayedAtGeIsTotalPreorder | etl.py:149 | `ORDER BY p.played_at DESC` is a total preorder on result rows |
| Views.RecentActivityView | etl.py:144-150 | every row is the joined row of a stored play whose track and artist are stored, every such play appears, no row repeats, played_at is non-increasing |
| Views.ActivityRowAt | etl.py:145-148 | each row of `df_recent_activity` is the joined row of the play stored under its own id |
| Views.ActivityIdsDistinct | etl.py:145-146 | with rows keyed by primary key, no two rows of `df_recent_activity` share a play id |
| Views.ActivityCoversPlays | etl.py:146-148 | every stored play whose track and artist are stored has a row |
| Views.RecentActivityOnePerPlay | etl.py:146-148 | on a consistent store whose tracks all name an artist, exactly one row per stored play |
| Views.ViewsOfEmptyStore | etl.py:121-153 | on an empty store both queries return no rows |
| Views.LoadRecentShowsPlays | etl.py:116-150 | after a successful `load_recently_played` on a consistent store whose tracks all name an artist, every play of the page is a row of `df_recent_activity` |
| Views.LoadTopLeavesTopTracksView | etl.py:50-56 | on a consistent store `load_top_tracks` never changes what `df_top_tracks` returns |
| Views.TopTrackRowsUnderNewArtists | etl.py:130-132 | adding artists to a consistent store, tracks and audio features unchanged, changes no joined row of `df_top_tracks` |

## Left out

- `time_range` and `limit` are only forwarded to the API (etl.py:1, 59); the page the client returns is an input value.
- Network calls (`sp.current_user_top_tracks`, `sp.current_user_recently_played`, `sp.artist`, `sp.audio_features`), OAuth and Spotipy are left out. Their responses are the fields of the `Client` value.
- A JSON null where the code reads an id, a name or `played_at` is not modelled. Those fields are either missing (raises) or a string. A null album, artist list or track is not modelled either.
- The audio-features response is an independent input. The model does not tie it to the requested ids; `Corrected.LoadTopIntendedStores` states that tie as a precondition.
- A JSON null `"genres"` in an artist response is not modelled. The code's `", ".join(None)` would raise at etl.py:29 and etl.py:98. The model has only a missing key, which gives "", or a list of strings.
- Audio-feature values are opaque `real`s. Nothing is computed on them.
- Store.Connection.Execute: on an exception the statement's partial effect on the open transaction is not stated. Every caller then skips the commit, so nothing of it reaches the file.
- SQLite type affinity is not modelled. The model stores `tracks.artist_id` (declared INTEGER at db.py:30) as the artist's text id, which is what comparisons see for non-numeric ids.
- The order of rows that tie on `popularity` or `played_at` is left open. The view functions choose one order, and no lemma depends on which.
- pandas `read_sql_query` is modelled only by the query's result set. The views read the committed tables directly, since the connection they open writes nothing.
- `PRAGMA foreign_keys = ON` at the top of the DDL script is not modelled as a statement. Foreign keys are enforced on every connection (db.py:10).
- The `plays.played_at` index is a schema object only. It does not change any result.
- app.py, dashboards.py, spotify_client.py and ui_wireframe.py are not part of this model. They hold UI, charts, OAuth and client construction.

## Findings

| source | as written | input that shows it | evidently intended | confidence | as-written member | corrected member |
|---|---|---|---|---|---|---|
| etl.py:50-56 | the `with get_conn()` block of `load_top_tracks` inserts only `artists_data`; `tracks_data` and `audio_features_data` are built and dropped | a one-track page (track "t1", artist "a1", no audio features): `tracks` stays empty; on any consistent store the call leaves `df_top_tracks` unchanged (Views.LoadTopLeavesTopTracksView) | insert artists, then tracks, then audio features, as the docstring says ("Load user's top tracks and their audio features into the DB") | not executed | Corrected.LoadTopDropsTracks | Corrected.LoadTopIntendedStores |
| etl.py:9-10, 66-67 | both loaders end after the write block with no `return` on a non-empty page, so they return None | the same one-track page, or a one-play page: the call returns None | return the number of tracks or plays loaded, as the docstrings promise | not executed | Corrected.LoadRecentReturnsNone | Corrected.LoadRecentIntended |
