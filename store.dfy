/**
 * The SQLite database file and connections to it.  A connection works on a
 * private copy of the tables (its open transaction); `Commit` publishes that
 * copy and `Close` drops whatever was not committed.  Foreign keys are always
 * enforced, as every connection switches them on when it opens.
 */
module Store {
  import opened Wrappers
  import opened Schema
  import opened Upsert

  /** One `executemany` of `INSERT OR IGNORE` into one table. */
  datatype Insert =
    | InsertArtists(artistRows: seq<ArtistRow>)
    | InsertTracks(trackRows: seq<TrackRow>)
    | InsertFeatures(featureRows: seq<FeatureRow>)
    | InsertPlays(playRows: seq<PlayRow>)

  /** The exceptions a statement can raise: the table was never created, or a FOREIGN KEY constraint failed. */
  datatype DbError = NoSuchTable(table: SchemaObject) | ForeignKeyFailed(table: SchemaObject)

  function Target(s: Insert): SchemaObject {
    match s
    case InsertArtists(_) => ArtistsTable
    case InsertTracks(_) => TracksTable
    case InsertFeatures(_) => AudioFeaturesTable
    case InsertPlays(_) => PlaysTable
  }

  /** The primary keys a statement writes. */
  function BatchKeys(s: Insert): set<string> {
    match s
    case InsertArtists(rows) => KeysOf(rows, ArtistKey)
    case InsertTracks(rows) => KeysOf(rows, TrackKey)
    case InsertFeatures(rows) => KeysOf(rows, FeatureKey)
    case InsertPlays(rows) => KeysOf(rows, PlayKey)
  }

  /** The primary keys stored in a table (an index stores no rows of its own). */
  function TableKeys(t: Tables, o: SchemaObject): set<string> {
    match o
    case ArtistsTable => t.artists.Keys
    case TracksTable => t.tracks.Keys
    case AudioFeaturesTable => t.audioFeatures.Keys
    case PlaysTable => t.plays.Keys
    case PlayedAtIndex => {}
  }

  /** Every row of `t` is still in `t'`, unchanged. */
  ghost predicate Grows(t: Tables, t': Tables) {
    && (forall k :: k in t.artists ==> k in t'.artists && t'.artists[k] == t.artists[k])
    && (forall k :: k in t.tracks ==> k in t'.tracks && t'.tracks[k] == t.tracks[k])
    && (forall k :: k in t.audioFeatures ==> k in t'.audioFeatures && t'.audioFeatures[k] == t.audioFeatures[k])
    && (forall k :: k in t.plays ==> k in t'.plays && t'.plays[k] == t.plays[k])
  }

  /**
   * Running one statement: it fails on a table that does not exist, and
   * otherwise inserts the rows whose keys are new, checking each new row's
   * foreign key against the parent table.  On success the tables only grow,
   * and only the target table gains keys, exactly the statement's keys.
   */
  function ExecuteInsert(t: Tables, schema: set<SchemaObject>, s: Insert): (r: Result<Tables, DbError>)
    ensures r.Ok? ==> Grows(t, r.value)
    ensures r.Ok? ==> TableKeys(r.value, Target(s)) == TableKeys(t, Target(s)) + BatchKeys(s)
    ensures r.Ok? && Target(s) != ArtistsTable ==> r.value.artists == t.artists
    ensures r.Ok? && Target(s) != TracksTable ==> r.value.tracks == t.tracks
    ensures r.Ok? && Target(s) != AudioFeaturesTable ==> r.value.audioFeatures == t.audioFeatures
    ensures r.Ok? && Target(s) != PlaysTable ==> r.value.plays == t.plays
    ensures Target(s) !in schema ==> r == Err(NoSuchTable(Target(s)))
  {
    if Target(s) !in schema then Err(NoSuchTable(Target(s)))
    else
      match s
      case InsertArtists(rows) =>
        (match InsertOrIgnore(t.artists, rows, ArtistKey, ArtistParent, {})
         case None => Err(ForeignKeyFailed(ArtistsTable))
         case Some(m) => Ok(t.(artists := m)))
      case InsertTracks(rows) =>
        (match InsertOrIgnore(t.tracks, rows, TrackKey, TrackParent, t.artists.Keys)
         case None => Err(ForeignKeyFailed(TracksTable))
         case Some(m) => Ok(t.(tracks := m)))
      case InsertFeatures(rows) =>
        (match InsertOrIgnore(t.audioFeatures, rows, FeatureKey, FeatureParent, t.tracks.Keys)
         case None => Err(ForeignKeyFailed(AudioFeaturesTable))
         case Some(m) => Ok(t.(audioFeatures := m)))
      case InsertPlays(rows) =>
        (match InsertOrIgnore(t.plays, rows, PlayKey, PlayParent, t.tracks.Keys)
         case None => Err(ForeignKeyFailed(PlaysTable))
         case Some(m) => Ok(t.(plays := m)))
  }

  /** The statements of one `with get_conn()` block, in order; the first exception ends the block. */
  function ExecuteAll(t: Tables, schema: set<SchemaObject>, stmts: seq<Insert>): (r: Result<Tables, DbError>)
    ensures r.Ok? ==> Grows(t, r.value)
    decreases |stmts|
  {
    if stmts == [] then Ok(t)
    else
      match ExecuteInsert(t, schema, stmts[0])
      case Err(e) => Err(e)
      case Ok(t1) => ExecuteAll(t1, schema, stmts[1..])
  }

  /** Keys stay primary keys and foreign keys stay valid across any statement that succeeds. */
  lemma ExecuteInsertPreservesConsistency(t: Tables, schema: set<SchemaObject>, s: Insert)
    requires Consistent(t) && AbsentTablesEmpty(t, schema)
    requires ExecuteInsert(t, schema, s).Ok?
    ensures Consistent(ExecuteInsert(t, schema, s).value)
    ensures AbsentTablesEmpty(ExecuteInsert(t, schema, s).value, schema)
  {
    match s
    case InsertArtists(rows) => InsertArtistsConsistent(t, schema, rows);
    case InsertTracks(rows) => InsertTracksConsistent(t, schema, rows);
    case InsertFeatures(rows) => InsertFeaturesConsistent(t, schema, rows);
    case InsertPlays(rows) => InsertPlaysConsistent(t, schema, rows);
  }

  lemma InsertArtistsConsistent(t: Tables, schema: set<SchemaObject>, rows: seq<ArtistRow>)
    requires Consistent(t) && ExecuteInsert(t, schema, InsertArtists(rows)).Ok?
    ensures Consistent(ExecuteInsert(t, schema, InsertArtists(rows)).value)
  {
    var m := InsertOrIgnore(t.artists, rows, ArtistKey, ArtistParent, {}).value;
    InsertOrIgnoreKeepsKeys(t.artists, rows, ArtistKey, ArtistParent, {});
    assert ExecuteInsert(t, schema, InsertArtists(rows)).value == t.(artists := m);
    WithArtistsConsistent(t, m);
  }

  lemma InsertTracksConsistent(t: Tables, schema: set<SchemaObject>, rows: seq<TrackRow>)
    requires Consistent(t) && ExecuteInsert(t, schema, InsertTracks(rows)).Ok?
    ensures Consistent(ExecuteInsert(t, schema, InsertTracks(rows)).value)
  {
    var m := InsertOrIgnore(t.tracks, rows, TrackKey, TrackParent, t.artists.Keys).value;
    InsertOrIgnoreKeepsKeys(t.tracks, rows, TrackKey, TrackParent, t.artists.Keys);
    assert ExecuteInsert(t, schema, InsertTracks(rows)).value == t.(tracks := m);
    WithTracksConsistent(t, m);
  }

  lemma InsertFeaturesConsistent(t: Tables, schema: set<SchemaObject>, rows: seq<FeatureRow>)
    requires Consistent(t) && ExecuteInsert(t, schema, InsertFeatures(rows)).Ok?
    ensures Consistent(ExecuteInsert(t, schema, InsertFeatures(rows)).value)
  {
    var m := InsertOrIgnore(t.audioFeatures, rows, FeatureKey, FeatureParent, t.tracks.Keys).value;
    InsertOrIgnoreKeepsKeys(t.audioFeatures, rows, FeatureKey, FeatureParent, t.tracks.Keys);
    assert ExecuteInsert(t, schema, InsertFeatures(rows)).value == t.(audioFeatures := m);
    WithFeaturesConsistent(t, m);
  }

  lemma InsertPlaysConsistent(t: Tables, schema: set<SchemaObject>, rows: seq<PlayRow>)
    requires Consistent(t) && ExecuteInsert(t, schema, InsertPlays(rows)).Ok?
    ensures Consistent(ExecuteInsert(t, schema, InsertPlays(rows)).value)
  {
    var m := InsertOrIgnore(t.plays, rows, PlayKey, PlayParent, t.tracks.Keys).value;
    InsertOrIgnoreKeepsKeys(t.plays, rows, PlayKey, PlayParent, t.tracks.Keys);
    assert ExecuteInsert(t, schema, InsertPlays(rows)).value == t.(plays := m);
    WithPlaysConsistent(t, m);
  }

  // Replacing one table of a consistent store by one whose rows sit under
  // their own keys with valid references (and, for a parent table, that
  // keeps every key it had) leaves the store consistent.

  lemma WithArtistsConsistent(t: Tables, m: map<string, ArtistRow>)
    requires Consistent(t) && t.artists.Keys <= m.Keys
    requires forall k :: k in m ==> ArtistKey(m[k]) == k
    ensures Consistent(t.(artists := m))
  {
  }

  lemma WithTracksConsistent(t: Tables, m: map<string, TrackRow>)
    requires Consistent(t) && t.tracks.Keys <= m.Keys
    requires forall k :: k in m ==> TrackKey(m[k]) == k && ParentOk(m[k], TrackParent, t.artists.Keys)
    ensures Consistent(t.(tracks := m))
  {
  }

  lemma WithFeaturesConsistent(t: Tables, m: map<string, FeatureRow>)
    requires Consistent(t)
    requires forall k :: k in m ==> FeatureKey(m[k]) == k && ParentOk(m[k], FeatureParent, t.tracks.Keys)
    ensures Consistent(t.(audioFeatures := m))
  {
  }

  lemma WithPlaysConsistent(t: Tables, m: map<string, PlayRow>)
    requires Consistent(t)
    requires forall k :: k in m ==> PlayKey(m[k]) == k && ParentOk(m[k], PlayParent, t.tracks.Keys)
    ensures Consistent(t.(plays := m))
  {
  }


  lemma {:induction false} ExecuteAllPreservesConsistency(t: Tables, schema: set<SchemaObject>, stmts: seq<Insert>)
    requires Consistent(t) && AbsentTablesEmpty(t, schema)
    requires ExecuteAll(t, schema, stmts).Ok?
    ensures Consistent(ExecuteAll(t, schema, stmts).value)
    ensures AbsentTablesEmpty(ExecuteAll(t, schema, stmts).value, schema)
    decreases |stmts|
  {
    if stmts != [] {
      ExecuteInsertPreservesConsistency(t, schema, stmts[0]);
      ExecuteAllPreservesConsistency(ExecuteInsert(t, schema, stmts[0]).value, schema, stmts[1..]);
    }
  }

  /** The keys a statement's foreign keys are checked against: the parent table as it stands. */
  function ParentKeys(t: Tables, s: Insert): set<string> {
    match s
    case InsertArtists(_) => {}
    case InsertTracks(_) => t.artists.Keys
    case InsertFeatures(_) => t.tracks.Keys
    case InsertPlays(_) => t.tracks.Keys
  }

  /** Every row of the statement has a NULL foreign key or one found in `parents`. */
  ghost predicate ReferencesFound(s: Insert, parents: set<string>) {
    match s
    case InsertArtists(rows) => forall i :: 0 <= i < |rows| ==> ParentOk(rows[i], ArtistParent, parents)
    case InsertTracks(rows) => forall i :: 0 <= i < |rows| ==> ParentOk(rows[i], TrackParent, parents)
    case InsertFeatures(rows) => forall i :: 0 <= i < |rows| ==> ParentOk(rows[i], FeatureParent, parents)
    case InsertPlays(rows) => forall i :: 0 <= i < |rows| ==> ParentOk(rows[i], PlayParent, parents)
  }

  /** A statement on an existing table whose rows all find their parents never raises. */
  lemma ExecuteInsertSucceeds(t: Tables, schema: set<SchemaObject>, s: Insert)
    requires Target(s) in schema
    requires ReferencesFound(s, ParentKeys(t, s))
    ensures ExecuteInsert(t, schema, s).Ok?
  {
    match s
    case InsertArtists(rows) => InsertOrIgnoreSucceeds(t.artists, rows, ArtistKey, ArtistParent, {});
    case InsertTracks(rows) => InsertOrIgnoreSucceeds(t.tracks, rows, TrackKey, TrackParent, t.artists.Keys);
    case InsertFeatures(rows) => InsertOrIgnoreSucceeds(t.audioFeatures, rows, FeatureKey, FeatureParent, t.tracks.Keys);
    case InsertPlays(rows) => InsertOrIgnoreSucceeds(t.plays, rows, PlayKey, PlayParent, t.tracks.Keys);
  }

  /** First seen wins in `artists`: a key the statement adds holds the first row of the batch with that key. */
  lemma InsertArtistsFirstSeen(t: Tables, schema: set<SchemaObject>, rows: seq<ArtistRow>)
    requires ExecuteInsert(t, schema, InsertArtists(rows)).Ok?
    ensures var t' := ExecuteInsert(t, schema, InsertArtists(rows)).value;
      forall k :: k in t'.artists && k !in t.artists ==>
        exists i :: 0 <= i < |rows| && NewAt(t.artists, rows, ArtistKey, i) && ArtistKey(rows[i]) == k && t'.artists[k] == rows[i]
  {
    var t' := ExecuteInsert(t, schema, InsertArtists(rows)).value;
    forall k | k in t'.artists && k !in t.artists
      ensures exists i :: 0 <= i < |rows| && NewAt(t.artists, rows, ArtistKey, i) && ArtistKey(rows[i]) == k && t'.artists[k] == rows[i]
    {
      InsertOrIgnoreFirstSeen(t.artists, rows, ArtistKey, ArtistParent, {}, k);
    }
  }

  /** First seen wins in `tracks`: a key the statement adds holds the first row of the batch with that key. */
  lemma InsertTracksFirstSeen(t: Tables, schema: set<SchemaObject>, rows: seq<TrackRow>)
    requires ExecuteInsert(t, schema, InsertTracks(rows)).Ok?
    ensures var t' := ExecuteInsert(t, schema, InsertTracks(rows)).value;
      forall k :: k in t'.tracks && k !in t.tracks ==>
        exists i :: 0 <= i < |rows| && NewAt(t.tracks, rows, TrackKey, i) && TrackKey(rows[i]) == k && t'.tracks[k] == rows[i]
  {
    var t' := ExecuteInsert(t, schema, InsertTracks(rows)).value;
    forall k | k in t'.tracks && k !in t.tracks
      ensures exists i :: 0 <= i < |rows| && NewAt(t.tracks, rows, TrackKey, i) && TrackKey(rows[i]) == k && t'.tracks[k] == rows[i]
    {
      InsertOrIgnoreFirstSeen(t.tracks, rows, TrackKey, TrackParent, t.artists.Keys, k);
    }
  }

  /** First seen wins in `plays`: a key the statement adds holds the first row of the batch with that key. */
  lemma InsertPlaysFirstSeen(t: Tables, schema: set<SchemaObject>, rows: seq<PlayRow>)
    requires ExecuteInsert(t, schema, InsertPlays(rows)).Ok?
    ensures var t' := ExecuteInsert(t, schema, InsertPlays(rows)).value;
      forall k :: k in t'.plays && k !in t.plays ==>
        exists i :: 0 <= i < |rows| && NewAt(t.plays, rows, PlayKey, i) && PlayKey(rows[i]) == k && t'.plays[k] == rows[i]
  {
    var t' := ExecuteInsert(t, schema, InsertPlays(rows)).value;
    forall k | k in t'.plays && k !in t.plays
      ensures exists i :: 0 <= i < |rows| && NewAt(t.plays, rows, PlayKey, i) && PlayKey(rows[i]) == k && t'.plays[k] == rows[i]
    {
      InsertOrIgnoreFirstSeen(t.plays, rows, PlayKey, PlayParent, t.tracks.Keys, k);
    }
  }

  /** Re-running a statement on any state that kept its rows is a no-op: all its keys are already there. */
  lemma ExecuteInsertRepeat(t: Tables, schema: set<SchemaObject>, s: Insert, t': Tables)
    requires ExecuteInsert(t, schema, s).Ok?
    requires Grows(ExecuteInsert(t, schema, s).value, t')
    ensures ExecuteInsert(t', schema, s) == Ok(t')
  {
    var t1 := ExecuteInsert(t, schema, s).value;
    assert BatchKeys(s) <= TableKeys(t1, Target(s));
    match s
    case InsertArtists(rows) =>
      InsertOrIgnorePresentIsNoop(t'.artists, rows, ArtistKey, ArtistParent, {});
    case InsertTracks(rows) =>
      InsertOrIgnorePresentIsNoop(t'.tracks, rows, TrackKey, TrackParent, t'.artists.Keys);
    case InsertFeatures(rows) =>
      InsertOrIgnorePresentIsNoop(t'.audioFeatures, rows, FeatureKey, FeatureParent, t'.tracks.Keys);
    case InsertPlays(rows) =>
      InsertOrIgnorePresentIsNoop(t'.plays, rows, PlayKey, PlayParent, t'.tracks.Keys);
  }

  /** A block of statements that succeeded succeeds again on its own result and changes nothing. */
  lemma {:induction false} ExecuteAllRepeat(t: Tables, schema: set<SchemaObject>, stmts: seq<Insert>)
    requires ExecuteAll(t, schema, stmts).Ok?
    ensures ExecuteAll(ExecuteAll(t, schema, stmts).value, schema, stmts) == ExecuteAll(t, schema, stmts)
    decreases |stmts|
  {
    if stmts != [] {
      var t' := ExecuteAll(t, schema, stmts).value;
      var t1 := ExecuteInsert(t, schema, stmts[0]).value;
      assert ExecuteAll(t1, schema, stmts[1..]) == Ok(t');
      ExecuteInsertRepeat(t, schema, stmts[0], t');
      ExecuteAllRepeat(t1, schema, stmts[1..]);
    }
  }

  /** The database file: the committed tables and the schema objects created so far. */
  class Database {
    var committed: Tables
    var schema: set<SchemaObject>

    ghost predicate Valid()
      reads this
    {
      Consistent(committed) && AbsentTablesEmpty(committed, schema)
    }

    /** A database file that has just been created: no tables yet. */
    constructor ()
      ensures Valid() && committed == NoRows && schema == {}
    {
      committed := NoRows;
      schema := {};
    }
  }

  /** An open connection with its uncommitted transaction. */
  class Connection {
    const db: Database
    var pending: Tables
    var pendingSchema: set<SchemaObject>
    var isOpen: bool

    ghost predicate Valid()
      reads this
    {
      Consistent(pending) && AbsentTablesEmpty(pending, pendingSchema)
    }

    /** `sqlite3.connect` then `PRAGMA foreign_keys = ON`: the transaction starts from what is committed. */
    constructor Open(db: Database)
      requires db.Valid()
      ensures this.db == db && isOpen && Valid()
      ensures pending == db.committed && pendingSchema == db.schema
    {
      this.db := db;
      pending := db.committed;
      pendingSchema := db.schema;
      isOpen := true;
    }

    /**
     * `cursor.executemany(...)`.  On success the transaction holds the new
     * tables; on an exception the statement's effect is not modelled, as the
     * enclosing block then discards the whole transaction.
     */
    method Execute(s: Insert) returns (r: Result<(), DbError>)
      requires isOpen && Valid()
      modifies this
      ensures isOpen && Valid() && pendingSchema == old(pendingSchema)
      ensures ExecuteInsert(old(pending), pendingSchema, s).Ok? ==> r.Ok? && pending == ExecuteInsert(old(pending), pendingSchema, s).value
      ensures ExecuteInsert(old(pending), pendingSchema, s).Err? ==> r == Err(ExecuteInsert(old(pending), pendingSchema, s).error)
    {
      if Target(s) !in pendingSchema {
        return Err(NoSuchTable(Target(s)));
      }
      var res: Result<Tables, DbError>;
      match s {
        case InsertArtists(rows) =>
          var m := ExecuteMany(pending.artists, rows, ArtistKey, ArtistParent, {});
          res := if m.None? then Err(ForeignKeyFailed(ArtistsTable)) else Ok(pending.(artists := m.value));
        case InsertTracks(rows) =>
          var m := ExecuteMany(pending.tracks, rows, TrackKey, TrackParent, pending.artists.Keys);
          res := if m.None? then Err(ForeignKeyFailed(TracksTable)) else Ok(pending.(tracks := m.value));
        case InsertFeatures(rows) =>
          var m := ExecuteMany(pending.audioFeatures, rows, FeatureKey, FeatureParent, pending.tracks.Keys);
          res := if m.None? then Err(ForeignKeyFailed(AudioFeaturesTable)) else Ok(pending.(audioFeatures := m.value));
        case InsertPlays(rows) =>
          var m := ExecuteMany(pending.plays, rows, PlayKey, PlayParent, pending.tracks.Keys);
          res := if m.None? then Err(ForeignKeyFailed(PlaysTable)) else Ok(pending.(plays := m.value));
      }
      assert res == ExecuteInsert(pending, pendingSchema, s);
      if res.Err? {
        return Err(res.error);
      }
      ExecuteInsertPreservesConsistency(pending, pendingSchema, s);
      pending := res.value;
      r := Ok(());
    }

    /** `conn.executescript(DDL)`: each `CREATE ... IF NOT EXISTS` adds its object when absent; no row is touched. */
    method ExecuteScript(script: seq<DdlStatement>)
      requires isOpen && Valid()
      modifies this
      ensures isOpen && Valid() && pending == old(pending)
      ensures pendingSchema == old(pendingSchema) + set i | 0 <= i < |script| :: script[i].creates
    {
      var i := 0;
      while i < |script|
        invariant 0 <= i <= |script|
        invariant pending == old(pending) && isOpen
        invariant pendingSchema == old(pendingSchema) + set j | 0 <= j < i :: script[j].creates
      {
        if script[i].creates !in pendingSchema {
          pendingSchema := pendingSchema + {script[i].creates};
        }
        assert (set j | 0 <= j < i + 1 :: script[j].creates) == (set j | 0 <= j < i :: script[j].creates) + {script[i].creates};
        i := i + 1;
      }
    }

    /** `conn.commit()`: the transaction becomes the committed state. */
    method Commit()
      requires isOpen && Valid()
      modifies db
      ensures db.committed == pending && db.schema == pendingSchema && db.Valid()
    {
      db.committed := pending;
      db.schema := pendingSchema;
    }

    /** `conn.close()`: nothing uncommitted survives; the database file is not touched. */
    method Close()
      modifies this
      ensures !isOpen
    {
      isOpen := false;
    }
  }

  /**
   * Leaving `with get_conn() as conn:`.  When the block completed normally
   * the transaction is committed; when it raised, the commit is skipped.  In
   * both cases the connection is closed, so the database holds exactly the
   * committed state.
   */
  method Release(conn: Connection, completed: bool)
    requires conn.isOpen && conn.Valid() && conn.db.Valid()
    modifies conn, conn.db
    ensures !conn.isOpen && conn.db.Valid()
    ensures completed ==> conn.db.committed == old(conn.pending) && conn.db.schema == old(conn.pendingSchema)
    ensures !completed ==> conn.db.committed == old(conn.db.committed) && conn.db.schema == old(conn.db.schema)
  {
    if completed {
      conn.Commit();
    }
    conn.Close();
  }

  /** `init_db`: create whatever tables and index are missing; rows already stored are untouched, so it is idempotent. */
  method InitDb(db: Database)
    requires db.Valid()
    modifies db
    ensures db.Valid()
    ensures db.schema == old(db.schema) + DdlObjects
    ensures db.committed == old(db.committed)
  {
    var conn := new Connection.Open(db);
    conn.ExecuteScript(Ddl);
    assert (set i | 0 <= i < |Ddl| :: Ddl[i].creates) == DdlObjects by {
      assert Ddl[0].creates == ArtistsTable && Ddl[1].creates == TracksTable && Ddl[2].creates == AudioFeaturesTable;
      assert Ddl[3].creates == PlaysTable && Ddl[4].creates == PlayedAtIndex;
    }
    Release(conn, true);
  }
}
