/**
 * The loaders as their documentation describes them, next to concrete
 * inputs on which the code as written falls short of it.
 *
 * `load_top_tracks` builds track rows and audio-feature rows but its write
 * block inserts only artists, so a top track never reaches `tracks` and the
 * top-tracks view cannot show it.  Both loaders document "Returns: Number of
 * ... loaded" but end without a `return` on a non-empty page, so the caller
 * gets None.  `LoadTopIntended` and `LoadRecentIntended` are the intended
 * behaviour; the lemmas prove what they promise.
 */
module Corrected {
  import opened Wrappers
  import opened Schema
  import opened Upsert
  import opened Store
  import opened Payload
  import opened Transform
  import opened Etl

  /** The write block the documentation calls for: artists, then tracks, then audio features. */
  function TopWritesIntended(b: TopBatch): seq<Insert> {
    [InsertArtists(b.artists), InsertTracks(b.tracks), InsertFeatures(b.features)]
  }

  /** A finished write block reporting `n` rows processed instead of falling off the end. */
  function Counted(w: (Outcome, Tables), n: nat): (r: (Outcome, Tables))
    ensures r.1 == w.1
    ensures r.0.Ok? <==> w.0.Ok?
    ensures r.0.Ok? ==> r.0 == Ok(Some(n))
    ensures r.0.Err? ==> r.0 == w.0
  {
    if w.0.Ok? then (Ok(Some(n)), w.1) else w
  }

  /** `load_top_tracks` as documented: it stores artists, tracks and audio features, and returns the number of tracks. */
  function LoadTopIntended(t: Tables, schema: set<SchemaObject>, sp: Client): (r: (Outcome, Tables))
    ensures PageItems(sp.topItems) == [] ==> r == (Ok(Some(0)), t)
    ensures r.0.Err? ==> r.1 == t
    ensures r.0.Ok? ==> r.0 == Ok(Some(|PageItems(sp.topItems)|)) && Grows(t, r.1)
  {
    var items := PageItems(sp.topItems);
    if items == [] then (Ok(Some(0)), t)
    else
      match ScanTop(items, sp)
      case Err(e) => (Err(e), t)
      case Ok(b) => Counted(WriteBlock(t, schema, TopWritesIntended(b)), |items|)
  }

  /** `load_recently_played` as documented: the same writes, and it returns the number of plays. */
  function LoadRecentIntended(t: Tables, schema: set<SchemaObject>, sp: Client): (r: (Outcome, Tables))
    ensures r.1 == LoadRecent(t, schema, sp).1
    ensures r.0.Ok? <==> LoadRecent(t, schema, sp).0.Ok?
    ensures r.0.Ok? ==> r.0 == Ok(Some(|PageItems(sp.recentItems)|))
    ensures r.0.Err? ==> r.0 == LoadRecent(t, schema, sp).0
  {
    Counted(LoadRecent(t, schema, sp), |PageItems(sp.recentItems)|)
  }

  /** Every track of the batch names an artist of the batch, and every feature row a track of the batch. */
  ghost predicate TopReferencesClosed(b: TopBatch) {
    && (forall i :: 0 <= i < |b.tracks| ==> b.tracks[i].artistId.Some? && b.tracks[i].artistId.value in ArtistIds(b.artists))
    && (forall i :: 0 <= i < |b.features| ==> b.features[i].trackId in KeysOf(b.tracks, TrackKey))
  }

  /**
   * With its three tables created, the intended write block never raises on
   * a batch whose references are closed, and each table gains exactly the
   * batch's keys; `plays` is untouched.
   */
  lemma TopWritesIntendedSucceed(t: Tables, schema: set<SchemaObject>, b: TopBatch)
    requires ArtistsTable in schema && TracksTable in schema && AudioFeaturesTable in schema
    requires TopReferencesClosed(b)
    ensures var r := WriteBlock(t, schema, TopWritesIntended(b));
      && r.0 == Ok(None)
      && r.1.artists.Keys == t.artists.Keys + ArtistIds(b.artists)
      && r.1.tracks.Keys == t.tracks.Keys + KeysOf(b.tracks, TrackKey)
      && r.1.audioFeatures.Keys == t.audioFeatures.Keys + KeysOf(b.features, FeatureKey)
      && r.1.plays == t.plays
  {
    ArtistKeysAreIds(b.artists);
    var a, tr, f := InsertArtists(b.artists), InsertTracks(b.tracks), InsertFeatures(b.features);
    ExecuteInsertSucceeds(t, schema, a);
    var t1 := ExecuteInsert(t, schema, a).value;
    assert TableKeys(t1, ArtistsTable) == TableKeys(t, ArtistsTable) + BatchKeys(a);
    assert ReferencesFound(tr, ParentKeys(t1, tr));
    ExecuteInsertSucceeds(t1, schema, tr);
    var t2 := ExecuteInsert(t1, schema, tr).value;
    assert TableKeys(t2, TracksTable) == TableKeys(t1, TracksTable) + BatchKeys(tr);
    assert ReferencesFound(f, ParentKeys(t2, f));
    ExecuteInsertSucceeds(t2, schema, f);
    var t3 := ExecuteInsert(t2, schema, f).value;
    assert TableKeys(t3, AudioFeaturesTable) == TableKeys(t2, AudioFeaturesTable) + BatchKeys(f);
    WriteBlockThree(t, schema, a, tr, f);
  }

  /** The track ids of a top-tracks page. */
  ghost function TopPageTrackIds(items: seq<TrackPayload>, sp: Client): set<string>
    requires AllTracksRead(items, sp)
  {
    set i | 0 <= i < |items| :: ReadHead(items[i]).value.trackId
  }

  /** The top-tracks batch has closed references when the features describe only requested tracks. */
  lemma TopBatchClosed(items: seq<TrackPayload>, sp: Client)
    requires ScanTop(items, sp).Ok?
    requires var b := ScanTop(items, sp).value;
      forall i :: 0 <= i < |b.features| ==> b.features[i].trackId in b.featureRequest
    ensures AllTracksRead(items, sp)
    ensures var b := ScanTop(items, sp).value;
      && TopReferencesClosed(b)
      && ArtistIds(b.artists) == TopPageArtistIds(items, sp)
      && KeysOf(b.tracks, TrackKey) == TopPageTrackIds(items, sp)
  {
    ScanTopRows(items, sp);
    ScanTopArtists(items, sp);
    var b := ScanTop(items, sp).value;
    forall i | 0 <= i < |b.features| ensures b.features[i].trackId in KeysOf(b.tracks, TrackKey) {
      assert b.features[i].trackId in b.featureRequest;
      var j :| 0 <= j < |b.featureRequest| && b.featureRequest[j] == b.features[i].trackId;
      assert TrackKey(b.tracks[j]) == b.features[i].trackId;
    }
    forall k | k in TopPageTrackIds(items, sp) ensures k in KeysOf(b.tracks, TrackKey) {
      var i :| 0 <= i < |items| && ReadHead(items[i]).value.trackId == k;
      assert TrackKey(b.tracks[i]) == k;
    }
  }

  /**
   * The intended `load_top_tracks`, on a well-formed non-empty page whose
   * audio features describe only the requested tracks: it returns the number
   * of tracks, and every track of the page is stored, with its artist and
   * one feature row per non-null entry.
   */
  lemma LoadTopIntendedStores(t: Tables, schema: set<SchemaObject>, sp: Client)
    requires ArtistsTable in schema && TracksTable in schema && AudioFeaturesTable in schema
    requires PageItems(sp.topItems) != [] && ScanTop(PageItems(sp.topItems), sp).Ok?
    requires var b := ScanTop(PageItems(sp.topItems), sp).value;
      forall i :: 0 <= i < |b.features| ==> b.features[i].trackId in b.featureRequest
    ensures AllTracksRead(PageItems(sp.topItems), sp)
    ensures var items := PageItems(sp.topItems);
      var r := LoadTopIntended(t, schema, sp);
      && r.0 == Ok(Some(|items|))
      && r.1.artists.Keys == t.artists.Keys + TopPageArtistIds(items, sp)
      && r.1.tracks.Keys == t.tracks.Keys + TopPageTrackIds(items, sp)
      && r.1.audioFeatures.Keys
           == t.audioFeatures.Keys + KeysOf(ScanTop(PageItems(sp.topItems), sp).value.features, FeatureKey)
      && r.1.plays == t.plays
  {
    var items := PageItems(sp.topItems);
    TopBatchClosed(items, sp);
    TopWritesIntendedSucceed(t, schema, ScanTop(items, sp).value);
  }

  // ------------------------------------------- inputs that show the gaps

  /** A one-track top-tracks page whose artist has the genre "pop"; no audio features come back. */
  const SampleTop: Client := Client(
    Some([TrackPayload(Present("t1"), Present("Song"), Present([ArtistPayload(Present("a1"), Present("Singer"))]),
                       Present(AlbumPayload(Present(Some("Album")), Present(Some("2020-01-01")))),
                       Present(Some(180000)), Present(Some(70)))]),
    None, map["a1" := Some(["pop"])], [])

  /** The sample page reads without error: one track "t1" by the artist "a1". */
  lemma SampleTopReads()
    ensures ScanTop(PageItems(SampleTop.topItems), SampleTop).Ok?
    ensures AllTracksRead(PageItems(SampleTop.topItems), SampleTop)
    ensures TopPageArtistIds(PageItems(SampleTop.topItems), SampleTop) == {"a1"}
    ensures TopPageTrackIds(PageItems(SampleTop.topItems), SampleTop) == {"t1"}
  {
    var items := PageItems(SampleTop.topItems);
    assert items[1..] == [];
    assert ReadHead(items[0]) == Ok(TrackHead("t1", "Song", "a1", "Singer"));
    assert TopLoop(items, SampleTop, NoScan).Ok? by {
      assert TopStep(NoScan, items[0], SampleTop).Ok?;
    }
    ScanTopArtists(items, SampleTop);
  }

  /**
   * On the sample page the code as written stores the artist but not the
   * track, and returns None; the intended loader stores the track and
   * returns 1.
   */
  lemma LoadTopDropsTracks()
    ensures LoadTop(NoRows, DdlObjects, SampleTop).0 == Ok(None)
    ensures LoadTop(NoRows, DdlObjects, SampleTop).1.artists.Keys == {"a1"}
    ensures LoadTop(NoRows, DdlObjects, SampleTop).1.tracks == map[]
    ensures LoadTopIntended(NoRows, DdlObjects, SampleTop).0 == Ok(Some(1))
    ensures LoadTopIntended(NoRows, DdlObjects, SampleTop).1.tracks.Keys == {"t1"}
  {
    LoadTopSampleAsWritten();
    LoadTopSampleIntended();
  }

  lemma LoadTopSampleAsWritten()
    ensures LoadTop(NoRows, DdlObjects, SampleTop).0 == Ok(None)
    ensures LoadTop(NoRows, DdlObjects, SampleTop).1.artists.Keys == {"a1"}
    ensures LoadTop(NoRows, DdlObjects, SampleTop).1.tracks == map[]
  {
    SampleTopReads();
    LoadTopEffect(NoRows, DdlObjects, SampleTop);
    LoadTopWritesOnlyArtists(NoRows, DdlObjects, SampleTop);
  }

  lemma LoadTopSampleIntended()
    ensures LoadTopIntended(NoRows, DdlObjects, SampleTop).0 == Ok(Some(1))
    ensures LoadTopIntended(NoRows, DdlObjects, SampleTop).1.tracks.Keys == {"t1"}
  {
    SampleTopReads();
    LoadTopIntendedStores(NoRows, DdlObjects, SampleTop);
  }

  /** A one-play recently-played page. */
  const SampleRecent: Client := Client(
    None,
    Some([PlayPayload(
      Present(TrackPayload(Present("t1"), Present("Song"), Present([ArtistPayload(Present("a1"), Present("Singer"))]),
                           Present(AlbumPayload(Present(Some("Album")), Present(Some("2020-01-01")))),
                           Present(Some(180000)), Present(Some(70)))),
      Present("2024-05-01T10:00:00Z"), Absent)]),
    map["a1" := Some(["pop"])], [])

  /**
   * On the sample page the code as written stores the play and returns
   * None; the intended loader stores the same rows and returns 1.
   */
  lemma LoadRecentReturnsNone()
    ensures LoadRecent(NoRows, DdlObjects, SampleRecent).0 == Ok(None)
    ensures LoadRecent(NoRows, DdlObjects, SampleRecent).1.plays.Keys == {PlayId("t1", "2024-05-01T10:00:00Z")}
    ensures LoadRecentIntended(NoRows, DdlObjects, SampleRecent).0 == Ok(Some(1))
  {
    SampleRecentReads();
    LoadRecentEffect(NoRows, DdlObjects, SampleRecent);
  }

  /** The sample page reads without error: one play of "t1" at "2024-05-01T10:00:00Z". */
  lemma SampleRecentReads()
    ensures ScanRecent(PageItems(SampleRecent.recentItems), SampleRecent).Ok?
    ensures AllPlaysRead(PageItems(SampleRecent.recentItems))
    ensures PagePlayIds(PageItems(SampleRecent.recentItems)) == {PlayId("t1", "2024-05-01T10:00:00Z")}
  {
    var items := PageItems(SampleRecent.recentItems);
    assert items[1..] == [];
    var track := items[0].track.value;
    var head := TrackHead("t1", "Song", "a1", "Singer");
    assert ReadHead(track) == Ok(head);
    var tail := TrackTail(Some("Album"), Some("2020-01-01"), Some(180000), Some(70));
    assert ReadTail(track) == Ok(tail);
    assert ReadPlay(items[0]) == Ok(PlayFields(head, tail, "2024-05-01T10:00:00Z", None));
    assert RecentLoop(items, SampleRecent, NoScan).Ok? by {
      assert RecentStep(NoScan, items[0], SampleRecent).Ok?;
    }
    ScanRecentRows(items, SampleRecent);
  }

}
