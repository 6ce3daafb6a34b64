/**
 * The two loaders of the ETL layer, `load_recently_played` and
 * `load_top_tracks`.  Each fetches one page, returns 0 when it is empty,
 * runs its transform loop (module Transform), and then issues its
 * `INSERT OR IGNORE` statements inside one `with get_conn()` block.
 *
 * A loader is specified by a function from the committed tables and schema
 * to the outcome and the committed tables afterwards; the methods, which open
 * a connection and issue the statements one by one, are proved to agree
 * with it.
 */
module Etl {
  import opened Wrappers
  import opened Schema
  import opened Upsert
  import opened Store
  import opened Payload
  import opened Transform

  /** How a call ends: `return 0` is Ok(Some(0)), falling off the end is Ok(None), an exception is Err. */
  type Outcome = Result<Option<nat>, EtlError>

  /** `results.get("items", [])`: a missing or null list reads as empty (both are falsy). */
  function PageItems<T>(items: Option<seq<T>>): seq<T> {
    if items.None? then [] else items.value
  }

  /** The statements of the write block of `load_recently_played`: artists, then tracks, then plays. */
  function RecentWrites(s: Scan): seq<Insert> {
    [InsertArtists(s.artists), InsertTracks(s.tracks), InsertPlays(s.plays)]
  }

  /** The statements of the write block of `load_top_tracks` as written: artists only. */
  function TopWrites(b: TopBatch): seq<Insert> {
    [InsertArtists(b.artists)]
  }

  /**
   * One `with get_conn()` block of inserts followed by the end of the
   * function: committed tables on success, the tables as they were on an
   * exception.
   */
  function WriteBlock(t: Tables, schema: set<SchemaObject>, stmts: seq<Insert>): (r: (Outcome, Tables))
    ensures r.0.Err? ==> r.1 == t
    ensures r.0.Ok? ==> r.0 == Ok(None) && Grows(t, r.1)
  {
    match ExecuteAll(t, schema, stmts)
    case Err(e) => (Err(Database(e)), t)
    case Ok(t') => (Ok(None), t')
  }

  /**
   * `load_recently_played(sp)` against the committed tables `t`: the
   * outcome and the committed tables afterwards.  An empty page returns 0
   * and writes nothing; an exception writes nothing.
   */
  function LoadRecent(t: Tables, schema: set<SchemaObject>, sp: Client): (r: (Outcome, Tables))
    ensures PageItems(sp.recentItems) == [] ==> r == (Ok(Some(0)), t)
    ensures r.0.Err? ==> r.1 == t
    ensures PageItems(sp.recentItems) != [] && r.0.Ok? ==> r.0 == Ok(None) && Grows(t, r.1)
  {
    var items := PageItems(sp.recentItems);
    if items == [] then (Ok(Some(0)), t)
    else
      match ScanRecent(items, sp)
      case Err(e) => (Err(e), t)
      case Ok(s) => WriteBlock(t, schema, RecentWrites(s))
  }

  /** `load_top_tracks(sp)` as written: the same shape, but the write block inserts artists only. */
  function LoadTop(t: Tables, schema: set<SchemaObject>, sp: Client): (r: (Outcome, Tables))
    ensures PageItems(sp.topItems) == [] ==> r == (Ok(Some(0)), t)
    ensures r.0.Err? ==> r.1 == t
    ensures PageItems(sp.topItems) != [] && r.0.Ok? ==> r.0 == Ok(None) && Grows(t, r.1)
  {
    var items := PageItems(sp.topItems);
    if items == [] then (Ok(Some(0)), t)
    else
      match ScanTop(items, sp)
      case Err(e) => (Err(e), t)
      case Ok(b) => WriteBlock(t, schema, TopWrites(b))
  }

  /** A one-statement block, unfolded. */
  lemma WriteBlockOne(t: Tables, schema: set<SchemaObject>, a: Insert)
    ensures WriteBlock(t, schema, [a]) ==
      match ExecuteInsert(t, schema, a)
      case Err(e) => (Err(Database(e)), t)
      case Ok(t1) => (Ok(None), t1)
  {
    assert [a][1..] == [];
    if ExecuteInsert(t, schema, a).Ok? {
      assert ExecuteAll(t, schema, [a]) == ExecuteAll(ExecuteInsert(t, schema, a).value, schema, []);
    }
  }

  /** A three-statement block, unfolded: the first exception ends it and discards the earlier statements. */
  lemma WriteBlockThree(t: Tables, schema: set<SchemaObject>, a: Insert, b: Insert, c: Insert)
    ensures WriteBlock(t, schema, [a, b, c]) ==
      match ExecuteInsert(t, schema, a)
      case Err(e) => (Err(Database(e)), t)
      case Ok(t1) =>
        match ExecuteInsert(t1, schema, b)
        case Err(e) => (Err(Database(e)), t)
        case Ok(t2) =>
          match ExecuteInsert(t2, schema, c)
          case Err(e) => (Err(Database(e)), t)
          case Ok(t3) => (Ok(None), t3)
  {
    assert [a, b, c][1..] == [b, c];
    assert [b, c][1..] == [c];
    assert [c][1..] == [];
    var r1 := ExecuteInsert(t, schema, a);
    if r1.Ok? {
      assert ExecuteAll(t, schema, [a, b, c]) == ExecuteAll(r1.value, schema, [b, c]);
      var r2 := ExecuteInsert(r1.value, schema, b);
      if r2.Ok? {
        assert ExecuteAll(r1.value, schema, [b, c]) == ExecuteAll(r2.value, schema, [c]);
        var r3 := ExecuteInsert(r2.value, schema, c);
        if r3.Ok? {
          assert ExecuteAll(r2.value, schema, [c]) == ExecuteAll(r3.value, schema, []);
        }
      }
    }
  }

  // ------------------------------------------------------------ the methods

  /** `load_recently_played(sp)` on the database file. */
  method LoadRecentlyPlayed(db: Database, sp: Client) returns (r: Outcome)
    requires db.Valid()
    modifies db
    ensures db.Valid() && db.schema == old(db.schema)
    ensures (r, db.committed) == LoadRecent(old(db.committed), old(db.schema), sp)
  {
    var items := PageItems(sp.recentItems);
    if items == [] {
      return Ok(Some(0));
    }
    var scan := ScanRecentlyPlayed(items, sp);
    if scan.Err? {
      return Err(scan.error);
    }
    var s := scan.value;
    ghost var t, schema := db.committed, db.schema;
    assert LoadRecent(t, schema, sp) == WriteBlock(t, schema, RecentWrites(s));
    WriteBlockThree(t, schema, InsertArtists(s.artists), InsertTracks(s.tracks), InsertPlays(s.plays));
    var conn := new Connection.Open(db);
    var w := conn.Execute(InsertArtists(s.artists));
    if w.Ok? {
      w := conn.Execute(InsertTracks(s.tracks));
      if w.Ok? {
        w := conn.Execute(InsertPlays(s.plays));
      }
    }
    Release(conn, w.Ok?);
    r := if w.Ok? then Ok(None) else Err(Database(w.error));
  }

  /** `load_top_tracks(sp)` on the database file. */
  method LoadTopTracks(db: Database, sp: Client) returns (r: Outcome)
    requires db.Valid()
    modifies db
    ensures db.Valid() && db.schema == old(db.schema)
    ensures (r, db.committed) == LoadTop(old(db.committed), old(db.schema), sp)
  {
    var items := PageItems(sp.topItems);
    if items == [] {
      return Ok(Some(0));
    }
    var scan := ScanTopTracks(items, sp);
    if scan.Err? {
      return Err(scan.error);
    }
    var b := scan.value;
    ghost var t, schema := db.committed, db.schema;
    assert LoadTop(t, schema, sp) == WriteBlock(t, schema, TopWrites(b));
    WriteBlockOne(t, schema, InsertArtists(b.artists));
    var conn := new Connection.Open(db);
    var w := conn.Execute(InsertArtists(b.artists));
    Release(conn, w.Ok?);
    r := if w.Ok? then Ok(None) else Err(Database(w.error));
  }

  // ------------------------------------------------------------- the lemmas

  lemma ArtistKeysAreIds(artists: seq<ArtistRow>)
    ensures KeysOf(artists, ArtistKey) == ArtistIds(artists)
  {
    forall k | k in ArtistIds(artists) ensures k in KeysOf(artists, ArtistKey) {
      var i :| 0 <= i < |artists| && artists[i].artistId == k;
      assert ArtistKey(artists[i]) == k;
    }
  }

  /** Every track of the batch names an artist of the batch, and every play a track of the batch. */
  ghost predicate ReferencesClosed(s: Scan) {
    && (forall i :: 0 <= i < |s.tracks| ==> s.tracks[i].artistId.Some? && s.tracks[i].artistId.value in ArtistIds(s.artists))
    && (forall i :: 0 <= i < |s.plays| ==> s.plays[i].trackId in KeysOf(s.tracks, TrackKey))
  }

  /**
   * With its three tables created, the write block of
   * `load_recently_played` never raises on a batch whose references are
   * closed: the batch's artists go in before the tracks that name them, and
   * its tracks before the plays that name them.  Each of the three tables
   * gains exactly the batch's keys, and `audio_features` is untouched.
   */
  lemma RecentWritesSucceed(t: Tables, schema: set<SchemaObject>, s: Scan)
    requires ArtistsTable in schema && TracksTable in schema && PlaysTable in schema
    requires ReferencesClosed(s)
    ensures var r := WriteBlock(t, schema, RecentWrites(s));
      && r.0 == Ok(None)
      && r.1.artists.Keys == t.artists.Keys + ArtistIds(s.artists)
      && r.1.tracks.Keys == t.tracks.Keys + KeysOf(s.tracks, TrackKey)
      && r.1.plays.Keys == t.plays.Keys + KeysOf(s.plays, PlayKey)
      && r.1.audioFeatures == t.audioFeatures
  {
    ArtistKeysAreIds(s.artists);
    RecentWritesSteps(t, schema, s);
    var a, b, c := InsertArtists(s.artists), InsertTracks(s.tracks), InsertPlays(s.plays);
    var t1 := ExecuteInsert(t, schema, a).value;
    var t2 := ExecuteInsert(t1, schema, b).value;
    var t3 := ExecuteInsert(t2, schema, c).value;
    assert TableKeys(t1, ArtistsTable) == TableKeys(t, ArtistsTable) + BatchKeys(a);
    assert TableKeys(t2, TracksTable) == TableKeys(t1, TracksTable) + BatchKeys(b);
    assert TableKeys(t3, PlaysTable) == TableKeys(t2, PlaysTable) + BatchKeys(c);
  }

  /** The write block of `load_recently_played` on a closed batch, statement by statement. */
  lemma RecentWritesSteps(t: Tables, schema: set<SchemaObject>, s: Scan)
    requires ArtistsTable in schema && TracksTable in schema && PlaysTable in schema
    requires ReferencesClosed(s)
    ensures ExecuteInsert(t, schema, InsertArtists(s.artists)).Ok?
    ensures var t1 := ExecuteInsert(t, schema, InsertArtists(s.artists)).value;
      && ExecuteInsert(t1, schema, InsertTracks(s.tracks)).Ok?
      && var t2 := ExecuteInsert(t1, schema, InsertTracks(s.tracks)).value;
      && ExecuteInsert(t2, schema, InsertPlays(s.plays)).Ok?
      && WriteBlock(t, schema, RecentWrites(s)) == (Ok(None), ExecuteInsert(t2, schema, InsertPlays(s.plays)).value)
  {
    ArtistKeysAreIds(s.artists);
    var a, b, c := InsertArtists(s.artists), InsertTracks(s.tracks), InsertPlays(s.plays);
    ExecuteInsertSucceeds(t, schema, a);
    var t1 := ExecuteInsert(t, schema, a).value;
    assert TableKeys(t1, ArtistsTable) == TableKeys(t, ArtistsTable) + BatchKeys(a);
    assert ReferencesFound(b, ParentKeys(t1, b));
    ExecuteInsertSucceeds(t1, schema, b);
    var t2 := ExecuteInsert(t1, schema, b).value;
    assert TableKeys(t2, TracksTable) == TableKeys(t1, TracksTable) + BatchKeys(b);
    assert ReferencesFound(c, ParentKeys(t2, c));
    ExecuteInsertSucceeds(t2, schema, c);
    WriteBlockThree(t, schema, a, b, c);
  }

  /** The keys of the play rows of a page: `track_id::played_at` of every item. */
  ghost function PagePlayIds(items: seq<PlayPayload>): set<string>
    requires AllPlaysRead(items)
  {
    set i | 0 <= i < |items| :: PlayId(ReadPlay(items[i]).value.head.trackId, ReadPlay(items[i]).value.playedAt)
  }

  /** The primary-track ids of a page. */
  ghost function PageTrackIds(items: seq<PlayPayload>): set<string>
    requires AllPlaysRead(items)
  {
    set i | 0 <= i < |items| :: ReadPlay(items[i]).value.head.trackId
  }

  /** The primary-artist ids of a page. */
  ghost function PageArtistIds(items: seq<PlayPayload>): set<string>
    requires AllPlaysRead(items)
  {
    set i | 0 <= i < |items| :: ReadPlay(items[i]).value.head.artistId
  }

  /** The batch the recent-plays transform builds has closed references and carries the page's keys. */
  lemma RecentBatchKeys(items: seq<PlayPayload>, sp: Client)
    requires ScanRecent(items, sp).Ok?
    ensures AllPlaysRead(items)
    ensures var s := ScanRecent(items, sp).value;
      && ReferencesClosed(s)
      && KeysOf(s.plays, PlayKey) == PagePlayIds(items)
      && KeysOf(s.tracks, TrackKey) == PageTrackIds(items)
      && ArtistIds(s.artists) == PageArtistIds(items)
  {
    ScanRecentRows(items, sp);
    var s := ScanRecent(items, sp).value;
    PagePlayKeys(items, s.plays);
    PageTrackKeys(items, s.tracks);
    ScanRecentArtists(items, sp);
  }

  /** Play rows read item by item carry exactly the page's play ids. */
  lemma PagePlayKeys(items: seq<PlayPayload>, plays: seq<PlayRow>)
    requires AllPlaysRead(items) && |plays| == |items|
    requires forall i :: 0 <= i < |items| ==>
      var p := ReadPlay(items[i]).value;
      plays[i] == PlayRow(PlayId(p.head.trackId, p.playedAt), p.head.trackId, p.playedAt, p.context)
    ensures KeysOf(plays, PlayKey) == PagePlayIds(items)
  {
    forall k | k in PagePlayIds(items) ensures k in KeysOf(plays, PlayKey) {
      var i :| 0 <= i < |items| && PlayId(ReadPlay(items[i]).value.head.trackId, ReadPlay(items[i]).value.playedAt) == k;
      assert PlayKey(plays[i]) == k;
    }
  }

  /** Track rows read item by item carry exactly the page's track ids. */
  lemma PageTrackKeys(items: seq<PlayPayload>, tracks: seq<TrackRow>)
    requires AllPlaysRead(items) && |tracks| == |items|
    requires forall i :: 0 <= i < |items| ==>
      var p := ReadPlay(items[i]).value;
      tracks[i] == TrackRowOf(p.head, p.tail)
    ensures KeysOf(tracks, TrackKey) == PageTrackIds(items)
  {
    forall k | k in PageTrackIds(items) ensures k in KeysOf(tracks, TrackKey) {
      var i :| 0 <= i < |items| && ReadPlay(items[i]).value.head.trackId == k;
      assert TrackKey(tracks[i]) == k;
    }
  }


  /**
   * `load_recently_played` on a non-empty page, with the schema in place:
   * a malformed item or a failed genre lookup ends the call with that
   * exception and the store unchanged; otherwise the call returns None and
   * each table gains exactly the page's keys (artist ids, track ids and
   * `track_id::played_at` play ids), `audio_features` untouched.
   */
  lemma LoadRecentEffect(t: Tables, schema: set<SchemaObject>, sp: Client)
    requires ArtistsTable in schema && TracksTable in schema && PlaysTable in schema
    requires PageItems(sp.recentItems) != []
    ensures var items := PageItems(sp.recentItems);
      var r := LoadRecent(t, schema, sp);
      && (ScanRecent(items, sp).Err? ==> r == (Err(ScanRecent(items, sp).error), t))
      && (ScanRecent(items, sp).Ok? ==>
            && AllPlaysRead(items)
            && r.0 == Ok(None)
            && r.1.artists.Keys == t.artists.Keys + PageArtistIds(items)
            && r.1.tracks.Keys == t.tracks.Keys + PageTrackIds(items)
            && r.1.plays.Keys == t.plays.Keys + PagePlayIds(items)
            && r.1.audioFeatures == t.audioFeatures)
  {
    var items := PageItems(sp.recentItems);
    if ScanRecent(items, sp).Ok? {
      RecentBatchKeys(items, sp);
      RecentWritesSucceed(t, schema, ScanRecent(items, sp).value);
    }
  }

  /** A write block that committed, run again on what it committed, commits nothing new. */
  lemma WriteBlockRepeat(t: Tables, schema: set<SchemaObject>, stmts: seq<Insert>)
    requires WriteBlock(t, schema, stmts).0.Ok?
    ensures WriteBlock(WriteBlock(t, schema, stmts).1, schema, stmts) == WriteBlock(t, schema, stmts)
  {
    ExecuteAllRepeat(t, schema, stmts);
  }

  /** A write block keeps primary keys and foreign keys valid, committed or not. */
  lemma WriteBlockPreservesConsistency(t: Tables, schema: set<SchemaObject>, stmts: seq<Insert>)
    requires Consistent(t) && AbsentTablesEmpty(t, schema)
    ensures Consistent(WriteBlock(t, schema, stmts).1) && AbsentTablesEmpty(WriteBlock(t, schema, stmts).1, schema)
  {
    if ExecuteAll(t, schema, stmts).Ok? {
      ExecuteAllPreservesConsistency(t, schema, stmts);
    }
  }

  /**
   * Referential integrity survives `load_recently_played`: when every
   * track's artist and every play's track exist before the call, they exist
   * after it, whatever the page holds.
   */
  lemma LoadRecentPreservesConsistency(t: Tables, schema: set<SchemaObject>, sp: Client)
    requires Consistent(t) && AbsentTablesEmpty(t, schema)
    ensures Consistent(LoadRecent(t, schema, sp).1) && AbsentTablesEmpty(LoadRecent(t, schema, sp).1, schema)
  {
    var items := PageItems(sp.recentItems);
    if items != [] && ScanRecent(items, sp).Ok? {
      WriteBlockPreservesConsistency(t, schema, RecentWrites(ScanRecent(items, sp).value));
    }
  }

  /** Re-running `load_recently_played` on an identical response leaves every table unchanged. */
  lemma LoadRecentIdempotent(t: Tables, schema: set<SchemaObject>, sp: Client)
    requires LoadRecent(t, schema, sp).0.Ok?
    ensures LoadRecent(LoadRecent(t, schema, sp).1, schema, sp) == LoadRecent(t, schema, sp)
  {
    var items := PageItems(sp.recentItems);
    if items != [] {
      WriteBlockRepeat(t, schema, RecentWrites(ScanRecent(items, sp).value));
    }
  }

  /**
   * Insert-or-ignore in the write block of `load_recently_played`: a track
   * key the block adds holds the FIRST track row of the batch with that key
   * (the batch may repeat a track); the rows already stored stay as they
   * were (`Grows`, in the contract of `LoadRecent`).
   */
  lemma RecentWritesTracksFirstSeen(t: Tables, schema: set<SchemaObject>, s: Scan)
    requires ArtistsTable in schema && TracksTable in schema && PlaysTable in schema
    requires ReferencesClosed(s)
    ensures var t' := WriteBlock(t, schema, RecentWrites(s)).1;
      forall k :: k in t'.tracks && k !in t.tracks ==>
        exists i :: 0 <= i < |s.tracks| && NewAt(t.tracks, s.tracks, TrackKey, i) && TrackKey(s.tracks[i]) == k && t'.tracks[k] == s.tracks[i]
  {
    RecentWritesSteps(t, schema, s);
    var t1 := ExecuteInsert(t, schema, InsertArtists(s.artists)).value;
    var t2 := ExecuteInsert(t1, schema, InsertTracks(s.tracks)).value;
    var t3 := ExecuteInsert(t2, schema, InsertPlays(s.plays)).value;
    assert Target(InsertArtists(s.artists)) == ArtistsTable;
    assert Target(InsertPlays(s.plays)) == PlaysTable;
    assert t1.tracks == t.tracks && t3.tracks == t2.tracks;
    InsertTracksFirstSeen(t1, schema, s.tracks);
  }

  /** The same for `plays`: a play key the block adds holds the FIRST play row of the batch with that key. */
  lemma RecentWritesPlaysFirstSeen(t: Tables, schema: set<SchemaObject>, s: Scan)
    requires ArtistsTable in schema && TracksTable in schema && PlaysTable in schema
    requires ReferencesClosed(s)
    ensures var t' := WriteBlock(t, schema, RecentWrites(s)).1;
      forall k :: k in t'.plays && k !in t.plays ==>
        exists i :: 0 <= i < |s.plays| && NewAt(t.plays, s.plays, PlayKey, i) && PlayKey(s.plays[i]) == k && t'.plays[k] == s.plays[i]
  {
    RecentWritesSteps(t, schema, s);
    var t1 := ExecuteInsert(t, schema, InsertArtists(s.artists)).value;
    var t2 := ExecuteInsert(t1, schema, InsertTracks(s.tracks)).value;
    assert Target(InsertArtists(s.artists)) == ArtistsTable;
    assert Target(InsertTracks(s.tracks)) == TracksTable;
    assert t2.plays == t.plays;
    InsertPlaysFirstSeen(t2, schema, s.plays);
  }

  /** The same for `artists`: an artist key the block adds holds the FIRST artist row of the batch with that key. */
  lemma RecentWritesArtistsFirstSeen(t: Tables, schema: set<SchemaObject>, s: Scan)
    requires ArtistsTable in schema && TracksTable in schema && PlaysTable in schema
    requires ReferencesClosed(s)
    ensures var t' := WriteBlock(t, schema, RecentWrites(s)).1;
      forall k :: k in t'.artists && k !in t.artists ==>
        exists i :: 0 <= i < |s.artists| && ArtistKey(s.artists[i]) == k && t'.artists[k] == s.artists[i]
  {
    RecentWritesSteps(t, schema, s);
    var t1 := ExecuteInsert(t, schema, InsertArtists(s.artists)).value;
    var t2 := ExecuteInsert(t1, schema, InsertTracks(s.tracks)).value;
    var t3 := ExecuteInsert(t2, schema, InsertPlays(s.plays)).value;
    assert Target(InsertTracks(s.tracks)) == TracksTable;
    assert Target(InsertPlays(s.plays)) == PlaysTable;
    assert t3.artists == t2.artists == t1.artists;
    InsertArtistsFirstSeen(t, schema, s.artists);
  }

  /** The track rows of a batch are those of the page's items, in order. */
  ghost predicate TracksFromPage(s: Scan, items: seq<PlayPayload>)
    requires AllPlaysRead(items)
  {
    |s.tracks| == |items| &&
    forall i :: 0 <= i < |items| ==> s.tracks[i] == TrackRowOf(ReadPlay(items[i]).value.head, ReadPlay(items[i]).value.tail)
  }

  lemma TracksFirstSeenPerItem(t: Tables, schema: set<SchemaObject>, s: Scan, items: seq<PlayPayload>)
    requires ArtistsTable in schema && TracksTable in schema && PlaysTable in schema
    requires ReferencesClosed(s) && AllPlaysRead(items) && TracksFromPage(s, items)
    ensures var t' := WriteBlock(t, schema, RecentWrites(s)).1;
      forall k :: k in t'.tracks && k !in t.tracks ==>
        exists i :: && 0 <= i < |items| && ReadPlay(items[i]).value.head.trackId == k
                    && t'.tracks[k] == TrackRowOf(ReadPlay(items[i]).value.head, ReadPlay(items[i]).value.tail)
                    && forall j :: 0 <= j < i ==> ReadPlay(items[j]).value.head.trackId != k
  {
    var t' := WriteBlock(t, schema, RecentWrites(s)).1;
    RecentWritesTracksFirstSeen(t, schema, s);
    forall k | k in t'.tracks && k !in t.tracks
      ensures exists i :: && 0 <= i < |items| && ReadPlay(items[i]).value.head.trackId == k
                          && t'.tracks[k] == TrackRowOf(ReadPlay(items[i]).value.head, ReadPlay(items[i]).value.tail)
                          && forall j :: 0 <= j < i ==> ReadPlay(items[j]).value.head.trackId != k
    {
      var i :| 0 <= i < |s.tracks| && NewAt(t.tracks, s.tracks, TrackKey, i) && TrackKey(s.tracks[i]) == k && t'.tracks[k] == s.tracks[i];
      forall j | 0 <= j < i ensures ReadPlay(items[j]).value.head.trackId != k {
        assert TrackKey(s.tracks[j]) != TrackKey(s.tracks[i]);
      }
    }
  }

  /**
   * First seen wins in `tracks` under `load_recently_played`: a track key
   * the call adds holds the row of the FIRST item of the page with that
   * track, even when the page repeats it.
   */
  lemma LoadRecentTracksFirstSeen(t: Tables, schema: set<SchemaObject>, sp: Client)
    requires ArtistsTable in schema && TracksTable in schema && PlaysTable in schema
    requires LoadRecent(t, schema, sp).0.Ok?
    ensures var items := PageItems(sp.recentItems);
      var t' := LoadRecent(t, schema, sp).1;
      && AllPlaysRead(items)
      && (forall k :: k in t'.tracks && k !in t.tracks ==>
            exists i :: && 0 <= i < |items| && ReadPlay(items[i]).value.head.trackId == k
                        && t'.tracks[k] == TrackRowOf(ReadPlay(items[i]).value.head, ReadPlay(items[i]).value.tail)
                        && forall j :: 0 <= j < i ==> ReadPlay(items[j]).value.head.trackId != k)
  {
    var items := PageItems(sp.recentItems);
    if items != [] {
      var s := ScanRecent(items, sp).value;
      RecentBatchKeys(items, sp);
      ScanRecentRows(items, sp);
      assert LoadRecent(t, schema, sp).1 == WriteBlock(t, schema, RecentWrites(s)).1;
      TracksFirstSeenPerItem(t, schema, s, items);
    }
  }

  /**
   * First seen wins in `plays` under `load_recently_played`: a play key the
   * call adds holds the row of the FIRST item of the page with that key.
   */
  lemma LoadRecentPlaysFirstSeen(t: Tables, schema: set<SchemaObject>, sp: Client)
    requires ArtistsTable in schema && TracksTable in schema && PlaysTable in schema
    requires LoadRecent(t, schema, sp).0.Ok?
    ensures var items := PageItems(sp.recentItems);
      var t' := LoadRecent(t, schema, sp).1;
      && AllPlaysRead(items)
      && (forall k :: k in t'.plays && k !in t.plays ==>
            exists i :: && 0 <= i < |items| && PlayKey(PlayRowOf(ReadPlay(items[i]).value)) == k
                        && t'.plays[k] == PlayRowOf(ReadPlay(items[i]).value)
                        && forall j :: 0 <= j < i ==> PlayKey(PlayRowOf(ReadPlay(items[j]).value)) != k)
  {
    var items := PageItems(sp.recentItems);
    if items != [] {
      var s := ScanRecent(items, sp).value;
      RecentBatchKeys(items, sp);
      ScanRecentRows(items, sp);
      assert LoadRecent(t, schema, sp).1 == WriteBlock(t, schema, RecentWrites(s)).1;
      PlaysFirstSeenPerItem(t, schema, s, items);
    }
  }

  /**
   * First seen wins in `artists` under `load_recently_played`: an artist
   * the call adds holds the name of the FIRST item of the page whose
   * primary artist it is, and that artist's genres.
   */
  lemma LoadRecentArtistsFirstSeen(t: Tables, schema: set<SchemaObject>, sp: Client)
    requires ArtistsTable in schema && TracksTable in schema && PlaysTable in schema
    requires LoadRecent(t, schema, sp).0.Ok?
    ensures var items := PageItems(sp.recentItems);
      var t' := LoadRecent(t, schema, sp).1;
      && AllPlaysRead(items)
      && (forall k :: k in t'.artists && k !in t.artists ==>
            exists i :: && 0 <= i < |items| && ReadPlay(items[i]).value.head.artistId == k
                        && t'.artists[k] == ArtistRowOf(ReadPlay(items[i]).value.head, Genres(sp, k))
                        && forall j :: 0 <= j < i ==> ReadPlay(items[j]).value.head.artistId != k)
  {
    var items := PageItems(sp.recentItems);
    if items != [] {
      var s := ScanRecent(items, sp).value;
      var t' := LoadRecent(t, schema, sp).1;
      RecentBatchKeys(items, sp);
      ScanRecentArtists(items, sp);
      assert t' == WriteBlock(t, schema, RecentWrites(s)).1;
      RecentWritesArtistsFirstSeen(t, schema, s);
      forall k | k in t'.artists && k !in t.artists
        ensures exists i :: && 0 <= i < |items| && ReadPlay(items[i]).value.head.artistId == k
                            && t'.artists[k] == ArtistRowOf(ReadPlay(items[i]).value.head, Genres(sp, k))
                            && forall j :: 0 <= j < i ==> ReadPlay(items[j]).value.head.artistId != k
      {
        var n :| 0 <= n < |s.artists| && ArtistKey(s.artists[n]) == k && t'.artists[k] == s.artists[n];
        assert s.artists[n].artistId == k;
      }
    }
  }

  /** The play rows of a batch are those of the page's items, in order. */
  ghost predicate PlaysFromPage(s: Scan, items: seq<PlayPayload>)
    requires AllPlaysRead(items)
  {
    |s.plays| == |items| &&
    forall i :: 0 <= i < |items| ==> s.plays[i] == PlayRowOf(ReadPlay(items[i]).value)
  }

  lemma PlaysFirstSeenPerItem(t: Tables, schema: set<SchemaObject>, s: Scan, items: seq<PlayPayload>)
    requires ArtistsTable in schema && TracksTable in schema && PlaysTable in schema
    requires ReferencesClosed(s) && AllPlaysRead(items) && PlaysFromPage(s, items)
    ensures var t' := WriteBlock(t, schema, RecentWrites(s)).1;
      forall k :: k in t'.plays && k !in t.plays ==>
        exists i :: && 0 <= i < |items| && PlayKey(PlayRowOf(ReadPlay(items[i]).value)) == k
                    && t'.plays[k] == PlayRowOf(ReadPlay(items[i]).value)
                    && forall j :: 0 <= j < i ==> PlayKey(PlayRowOf(ReadPlay(items[j]).value)) != k
  {
    var t' := WriteBlock(t, schema, RecentWrites(s)).1;
    RecentWritesPlaysFirstSeen(t, schema, s);
    forall k | k in t'.plays && k !in t.plays
      ensures exists i :: && 0 <= i < |items| && PlayKey(PlayRowOf(ReadPlay(items[i]).value)) == k
                          && t'.plays[k] == PlayRowOf(ReadPlay(items[i]).value)
                          && forall j :: 0 <= j < i ==> PlayKey(PlayRowOf(ReadPlay(items[j]).value)) != k
    {
      var i :| 0 <= i < |s.plays| && NewAt(t.plays, s.plays, PlayKey, i) && PlayKey(s.plays[i]) == k && t'.plays[k] == s.plays[i];
      forall j | 0 <= j < i ensures PlayKey(PlayRowOf(ReadPlay(items[j]).value)) != k {
        assert PlayKey(s.plays[j]) != PlayKey(s.plays[i]);
      }
    }
  }


  /**
   * The composite play key after a successful `load_recently_played`:
   * every item's `track_id::played_at` is stored; two items of the same
   * track collapse to one row exactly when their timestamps agree; and for
   * ids without ':' (Spotify ids are base-62) two items share a row exactly
   * when both track and timestamp agree.
   */
  lemma LoadRecentPlayKeys(t: Tables, schema: set<SchemaObject>, sp: Client, i: int, j: int)
    requires ArtistsTable in schema && TracksTable in schema && PlaysTable in schema
    requires LoadRecent(t, schema, sp).0.Ok?
    requires 0 <= i < |PageItems(sp.recentItems)| && 0 <= j < |PageItems(sp.recentItems)|
    ensures AllPlaysRead(PageItems(sp.recentItems))
    ensures var items := PageItems(sp.recentItems);
      var pi, pj := ReadPlay(items[i]).value, ReadPlay(items[j]).value;
      var ki, kj := PlayId(pi.head.trackId, pi.playedAt), PlayId(pj.head.trackId, pj.playedAt);
      && ki in LoadRecent(t, schema, sp).1.plays
      && kj in LoadRecent(t, schema, sp).1.plays
      && (pi.head.trackId == pj.head.trackId ==> (ki == kj <==> pi.playedAt == pj.playedAt))
      && (':' !in pi.head.trackId && ':' !in pj.head.trackId ==>
            (ki == kj <==> pi.head.trackId == pj.head.trackId && pi.playedAt == pj.playedAt))
  {
    var items := PageItems(sp.recentItems);
    LoadRecentEffect(t, schema, sp);
    var pi, pj := ReadPlay(items[i]).value, ReadPlay(items[j]).value;
    PlayIdSeparatesTimestamps(pi.head.trackId, pi.playedAt, pj.playedAt);
    if ':' !in pi.head.trackId && ':' !in pj.head.trackId {
      PlayIdInjective(pi.head.trackId, pi.playedAt, pj.head.trackId, pj.playedAt);
    }
  }

  // ------------------------------------------------------ load_top_tracks

  /** The primary-artist ids of a top-tracks page. */
  ghost function TopPageArtistIds(items: seq<TrackPayload>, sp: Client): set<string>
    requires AllTracksRead(items, sp)
  {
    set i | 0 <= i < |items| :: ReadHead(items[i]).value.artistId
  }

  /**
   * `load_top_tracks` writes `artists` and nothing else: `tracks`,
   * `audio_features` and `plays` are what they were, on every input.
   */
  lemma LoadTopWritesOnlyArtists(t: Tables, schema: set<SchemaObject>, sp: Client)
    ensures var t' := LoadTop(t, schema, sp).1;
      t'.tracks == t.tracks && t'.audioFeatures == t.audioFeatures && t'.plays == t.plays
  {
    var items := PageItems(sp.topItems);
    if items != [] && ScanTop(items, sp).Ok? {
      var a := InsertArtists(ScanTop(items, sp).value.artists);
      WriteBlockOne(t, schema, a);
    }
  }

  /**
   * `load_top_tracks` on a non-empty page, with `artists` created: a
   * malformed item or failed lookup ends the call with that exception and
   * the store unchanged; otherwise the call returns None and `artists`
   * gains exactly the page's primary-artist ids.
   */
  lemma LoadTopEffect(t: Tables, schema: set<SchemaObject>, sp: Client)
    requires ArtistsTable in schema
    requires PageItems(sp.topItems) != []
    ensures var items := PageItems(sp.topItems);
      var r := LoadTop(t, schema, sp);
      && (ScanTop(items, sp).Err? ==> r == (Err(ScanTop(items, sp).error), t))
      && (ScanTop(items, sp).Ok? ==>
            && AllTracksRead(items, sp)
            && r.0 == Ok(None)
            && r.1.artists.Keys == t.artists.Keys + TopPageArtistIds(items, sp))
  {
    var items := PageItems(sp.topItems);
    if ScanTop(items, sp).Ok? {
      var b := ScanTop(items, sp).value;
      ScanTopArtists(items, sp);
      ArtistKeysAreIds(b.artists);
      var a := InsertArtists(b.artists);
      ExecuteInsertSucceeds(t, schema, a);
      WriteBlockOne(t, schema, a);
      assert TableKeys(ExecuteInsert(t, schema, a).value, ArtistsTable) == TableKeys(t, ArtistsTable) + BatchKeys(a);
    }
  }

  /** The write block of `load_top_tracks`: an artist key it adds holds the FIRST artist row of the batch with that key. */
  lemma TopWritesArtistsFirstSeen(t: Tables, schema: set<SchemaObject>, b: TopBatch)
    ensures var t' := WriteBlock(t, schema, TopWrites(b)).1;
      forall k :: k in t'.artists && k !in t.artists ==>
        exists i :: 0 <= i < |b.artists| && ArtistKey(b.artists[i]) == k && t'.artists[k] == b.artists[i]
  {
    var a := InsertArtists(b.artists);
    WriteBlockOne(t, schema, a);
    if ExecuteInsert(t, schema, a).Ok? {
      InsertArtistsFirstSeen(t, schema, b.artists);
    }
  }

  /** Each artist row of a batch is built from the first item of the page whose primary artist it is. */
  ghost predicate TopArtistsFromPage(b: TopBatch, items: seq<TrackPayload>, sp: Client)
    requires AllTracksRead(items, sp)
  {
    forall n :: 0 <= n < |b.artists| ==>
      exists i :: 0 <= i < |items| && b.artists[n] == ArtistRowOf(ReadHead(items[i]).value, Genres(sp, b.artists[n].artistId))
        && forall j :: 0 <= j < i ==> ReadHead(items[j]).value.artistId != b.artists[n].artistId
  }

  lemma TopArtistsOfPage(items: seq<TrackPayload>, sp: Client)
    requires ScanTop(items, sp).Ok?
    ensures AllTracksRead(items, sp) && TopArtistsFromPage(ScanTop(items, sp).value, items, sp)
  {
    ScanTopArtists(items, sp);
  }

  lemma TopArtistsFirstSeenPerItem(t: Tables, schema: set<SchemaObject>, b: TopBatch, items: seq<TrackPayload>, sp: Client)
    requires AllTracksRead(items, sp) && TopArtistsFromPage(b, items, sp)
    ensures var t' := WriteBlock(t, schema, TopWrites(b)).1;
      forall k :: k in t'.artists && k !in t.artists ==>
        exists i :: && 0 <= i < |items| && ReadHead(items[i]).value.artistId == k
                    && t'.artists[k] == ArtistRowOf(ReadHead(items[i]).value, Genres(sp, k))
                    && forall j :: 0 <= j < i ==> ReadHead(items[j]).value.artistId != k
  {
    var t' := WriteBlock(t, schema, TopWrites(b)).1;
    TopWritesArtistsFirstSeen(t, schema, b);
    forall k | k in t'.artists && k !in t.artists
      ensures exists i :: && 0 <= i < |items| && ReadHead(items[i]).value.artistId == k
                          && t'.artists[k] == ArtistRowOf(ReadHead(items[i]).value, Genres(sp, k))
                          && forall j :: 0 <= j < i ==> ReadHead(items[j]).value.artistId != k
    {
      var n :| 0 <= n < |b.artists| && ArtistKey(b.artists[n]) == k && t'.artists[k] == b.artists[n];
      assert b.artists[n].artistId == k;
    }
  }

  /**
   * First seen wins in `artists` under `load_top_tracks`: an artist the
   * call adds holds the name of the FIRST item of the page whose primary
   * artist it is, and that artist's genres.
   */
  lemma LoadTopArtistsFirstSeen(t: Tables, schema: set<SchemaObject>, sp: Client)
    requires LoadTop(t, schema, sp).0.Ok?
    ensures var items := PageItems(sp.topItems);
      var t' := LoadTop(t, schema, sp).1;
      && AllTracksRead(items, sp)
      && (forall k :: k in t'.artists && k !in t.artists ==>
            exists i :: && 0 <= i < |items| && ReadHead(items[i]).value.artistId == k
                        && t'.artists[k] == ArtistRowOf(ReadHead(items[i]).value, Genres(sp, k))
                        && forall j :: 0 <= j < i ==> ReadHead(items[j]).value.artistId != k)
  {
    var items := PageItems(sp.topItems);
    if items != [] {
      var b := ScanTop(items, sp).value;
      TopArtistsOfPage(items, sp);
      assert LoadTop(t, schema, sp).1 == WriteBlock(t, schema, TopWrites(b)).1;
      TopArtistsFirstSeenPerItem(t, schema, b, items, sp);
    }
  }

  lemma LoadTopPreservesConsistency(t: Tables, schema: set<SchemaObject>, sp: Client)
    requires Consistent(t) && AbsentTablesEmpty(t, schema)
    ensures Consistent(LoadTop(t, schema, sp).1) && AbsentTablesEmpty(LoadTop(t, schema, sp).1, schema)
  {
    var items := PageItems(sp.topItems);
    if items != [] && ScanTop(items, sp).Ok? {
      WriteBlockPreservesConsistency(t, schema, TopWrites(ScanTop(items, sp).value));
    }
  }

  /** Re-running `load_top_tracks` on an identical response leaves every table unchanged. */
  lemma LoadTopIdempotent(t: Tables, schema: set<SchemaObject>, sp: Client)
    requires LoadTop(t, schema, sp).0.Ok?
    ensures LoadTop(LoadTop(t, schema, sp).1, schema, sp) == LoadTop(t, schema, sp)
  {
    var items := PageItems(sp.topItems);
    if items != [] {
      WriteBlockRepeat(t, schema, TopWrites(ScanTop(items, sp).value));
    }
  }
}
