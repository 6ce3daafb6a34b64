/**
 * The two read-only queries the dashboard shows, `df_top_tracks` and
 * `df_recent_activity`, as functions from the committed tables to the
 * sequence of result rows.  Each is a join of the stored rows followed by
 * `ORDER BY ... DESC`; rows that tie on the sort column come back in an
 * order the query leaves open, and so does this model.
 */
module Views {
  import opened Wrappers
  import opened Schema
  import opened Ordering
  import opened Store
  import opened Payload
  import opened Transform
  import opened Etl

  // ------------------------------------------------------ df_top_tracks

  /** A result row of the top-tracks query. */
  datatype TopTrackRow = TopTrackRow(
    trackId: string,
    trackName: string,
    artistName: string,
    albumName: Option<string>,
    releaseDate: Option<string>,
    durationMs: Option<int>,
    popularity: Option<int>,
    danceability: Option<real>,
    energy: Option<real>,
    valence: Option<real>)

  /** `JOIN artists a ON t.artist_id = a.artist_id`: the track names an artist that is stored. */
  predicate TrackJoins(t: Tables, tr: TrackRow) {
    tr.artistId.Some? && tr.artistId.value in t.artists
  }

  /** The joined row of a track; `LEFT JOIN audio_features` gives NULL features when the track has none. */
  function TopTrackRowOf(t: Tables, tr: TrackRow): TopTrackRow
    requires TrackJoins(t, tr)
  {
    var a := t.artists[tr.artistId.value];
    if tr.trackId in t.audioFeatures then
      var af := t.audioFeatures[tr.trackId];
      TopTrackRow(tr.trackId, tr.name, a.name, tr.albumName, tr.releaseDate, tr.durationMs, tr.popularity,
                  af.danceability, af.energy, af.valence)
    else
      TopTrackRow(tr.trackId, tr.name, a.name, tr.albumName, tr.releaseDate, tr.durationMs, tr.popularity,
                  None, None, None)
  }

  ghost function TopTrackRows(t: Tables): set<TopTrackRow> {
    set k | k in t.tracks && TrackJoins(t, t.tracks[k]) :: TopTrackRowOf(t, t.tracks[k])
  }

  /** `ORDER BY t.popularity DESC`, NULL last. */
  predicate PopularityGe(a: TopTrackRow, b: TopTrackRow) {
    NullableGe(a.popularity, b.popularity)
  }

  lemma PopularityGeIsTotalPreorder()
    ensures TotalPreorder(PopularityGe)
  {
    NullableGeIsTotalPreorder();
  }

  /**
   * `df_top_tracks()`: one row per stored track whose artist is stored and
   * no other row, without repeats, popularity non-increasing.
   */
  ghost function TopTracksView(t: Tables): (r: seq<TopTrackRow>)
    ensures forall i :: 0 <= i < |r| ==>
              exists k :: k in t.tracks && TrackJoins(t, t.tracks[k]) && r[i] == TopTrackRowOf(t, t.tracks[k])
    ensures forall k :: k in t.tracks && TrackJoins(t, t.tracks[k]) ==> TopTrackRowOf(t, t.tracks[k]) in r
    ensures forall i, j :: 0 <= i < j < |r| ==> r[i] != r[j]
    ensures forall i, j :: 0 <= i < j < |r| ==> NullableGe(r[i].popularity, r[j].popularity)
  {
    PopularityGeIsTotalPreorder();
    SortDesc(TopTrackRows(t), PopularityGe)
  }

  /** Under primary keys, the row at `i` is the row of the track stored under its own id. */
  lemma TopTrackRowAt(t: Tables, i: int)
    requires KeyedByPrimaryKey(t)
    requires 0 <= i < |TopTracksView(t)|
    ensures var x := TopTracksView(t)[i];
      x.trackId in t.tracks && TrackJoins(t, t.tracks[x.trackId]) && x == TopTrackRowOf(t, t.tracks[x.trackId])
  {
    var r := TopTracksView(t);
    var k :| k in t.tracks && TrackJoins(t, t.tracks[k]) && r[i] == TopTrackRowOf(t, t.tracks[k]);
    assert r[i].trackId == k;
  }

  /**
   * With rows keyed by their primary key, the view has exactly one row per
   * track whose artist is stored: the track ids of the rows are distinct and
   * are exactly those tracks.
   */
  lemma TopTracksOnePerTrack(t: Tables)
    requires KeyedByPrimaryKey(t)
    ensures var r := TopTracksView(t);
      && (forall i, j :: 0 <= i < j < |r| ==> r[i].trackId != r[j].trackId)
      && (forall k :: (k in t.tracks && TrackJoins(t, t.tracks[k])) <==> exists i :: 0 <= i < |r| && r[i].trackId == k)
  {
    TopTrackIdsDistinct(t);
    TopTrackIdsCover(t);
  }

  /** No two rows of the top-tracks view carry the same track id. */
  lemma TopTrackIdsDistinct(t: Tables)
    requires KeyedByPrimaryKey(t)
    ensures var r := TopTracksView(t);
      forall i, j :: 0 <= i < j < |r| ==> r[i].trackId != r[j].trackId
  {
    var r := TopTracksView(t);
    forall i, j | 0 <= i < j < |r| ensures r[i].trackId != r[j].trackId {
      TopTrackRowAt(t, i);
      TopTrackRowAt(t, j);
    }
  }

  /** The track ids of the top-tracks view are exactly the stored tracks whose artist is stored. */
  lemma TopTrackIdsCover(t: Tables)
    requires KeyedByPrimaryKey(t)
    ensures var r := TopTracksView(t);
      forall k :: (k in t.tracks && TrackJoins(t, t.tracks[k])) <==> exists i :: 0 <= i < |r| && r[i].trackId == k
  {
    var r := TopTracksView(t);
    forall k | k in t.tracks && TrackJoins(t, t.tracks[k]) ensures exists i :: 0 <= i < |r| && r[i].trackId == k {
      var i :| 0 <= i < |r| && r[i] == TopTrackRowOf(t, t.tracks[k]);
      assert r[i].trackId == t.tracks[k].trackId;
    }
    forall k | exists i :: 0 <= i < |r| && r[i].trackId == k ensures k in t.tracks && TrackJoins(t, t.tracks[k]) {
      var i :| 0 <= i < |r| && r[i].trackId == k;
      TopTrackRowAt(t, i);
    }
  }

  /**
   * A track without an `audio_features` row is still shown, with NULL
   * danceability, energy and valence; a track with one shows its values.
   */
  lemma TopTracksNullFeatures(t: Tables)
    requires KeyedByPrimaryKey(t)
    ensures var r := TopTracksView(t);
      forall i :: 0 <= i < |r| ==>
        && (r[i].trackId !in t.audioFeatures ==> r[i].danceability.None? && r[i].energy.None? && r[i].valence.None?)
        && (r[i].trackId in t.audioFeatures ==>
              var af := t.audioFeatures[r[i].trackId];
              r[i].danceability == af.danceability && r[i].energy == af.energy && r[i].valence == af.valence)
  {
    var r := TopTracksView(t);
    forall i | 0 <= i < |r|
      ensures r[i].trackId !in t.audioFeatures ==> r[i].danceability.None? && r[i].energy.None? && r[i].valence.None?
      ensures r[i].trackId in t.audioFeatures ==>
                var af := t.audioFeatures[r[i].trackId];
                r[i].danceability == af.danceability && r[i].energy == af.energy && r[i].valence == af.valence
    {
      TopTrackRowAt(t, i);
    }
  }

  // ------------------------------------------------- df_recent_activity

  /** A result row of the recent-activity query. */
  datatype ActivityRow = ActivityRow(
    playId: string,
    trackName: string,
    artistName: string,
    playedAt: string,
    context: Option<string>)

  /** `JOIN tracks t ON p.track_id = t.track_id JOIN artists a ON t.artist_id = a.artist_id`. */
  predicate PlayJoins(t: Tables, p: PlayRow) {
    p.trackId in t.tracks && TrackJoins(t, t.tracks[p.trackId])
  }

  function ActivityRowOf(t: Tables, p: PlayRow): ActivityRow
    requires PlayJoins(t, p)
  {
    var tr := t.tracks[p.trackId];
    ActivityRow(p.playId, tr.name, t.artists[tr.artistId.value].name, p.playedAt, p.context)
  }

  ghost function ActivityRows(t: Tables): set<ActivityRow> {
    set k | k in t.plays && PlayJoins(t, t.plays[k]) :: ActivityRowOf(t, t.plays[k])
  }

  /** `ORDER BY p.played_at DESC`, comparing the TEXT timestamps. */
  predicate PlayedAtGe(a: ActivityRow, b: ActivityRow) {
    TextLe(b.playedAt, a.playedAt)
  }

  lemma PlayedAtGeIsTotalPreorder()
    ensures TotalPreorder(PlayedAtGe)
  {
    forall a, b ensures PlayedAtGe(a, b) || PlayedAtGe(b, a) {
      TextLeTotal(a.playedAt, b.playedAt);
    }
    forall a, b, c | PlayedAtGe(a, b) && PlayedAtGe(b, c) ensures PlayedAtGe(a, c) {
      TextLeTransitive(c.playedAt, b.playedAt, a.playedAt);
    }
  }

  /**
   * `df_recent_activity()`: one row per stored play whose track and artist
   * are stored and no other row, without repeats, `played_at`
   * non-increasing.
   */
  ghost function RecentActivityView(t: Tables): (r: seq<ActivityRow>)
    ensures forall i :: 0 <= i < |r| ==>
              exists k :: k in t.plays && PlayJoins(t, t.plays[k]) && r[i] == ActivityRowOf(t, t.plays[k])
    ensures forall k :: k in t.plays && PlayJoins(t, t.plays[k]) ==> ActivityRowOf(t, t.plays[k]) in r
    ensures forall i, j :: 0 <= i < j < |r| ==> r[i] != r[j]
    ensures forall i, j :: 0 <= i < j < |r| ==> TextLe(r[j].playedAt, r[i].playedAt)
  {
    PlayedAtGeIsTotalPreorder();
    SortDesc(ActivityRows(t), PlayedAtGe)
  }

  /** Under primary keys, the row at `i` is the row of the play stored under its own id. */
  lemma ActivityRowAt(t: Tables, i: int)
    requires KeyedByPrimaryKey(t)
    requires 0 <= i < |RecentActivityView(t)|
    ensures var x := RecentActivityView(t)[i];
      x.playId in t.plays && PlayJoins(t, t.plays[x.playId]) && x == ActivityRowOf(t, t.plays[x.playId])
  {
    var r := RecentActivityView(t);
    var k :| k in t.plays && PlayJoins(t, t.plays[k]) && r[i] == ActivityRowOf(t, t.plays[k]);
    assert r[i].playId == k;
  }

  /** Under primary keys, no two rows of `df_recent_activity` share a play id. */
  lemma ActivityIdsDistinct(t: Tables)
    requires KeyedByPrimaryKey(t)
    ensures var r := RecentActivityView(t);
      forall i, j :: 0 <= i < j < |r| ==> r[i].playId != r[j].playId
  {
    var r := RecentActivityView(t);
    forall i, j | 0 <= i < j < |r| ensures r[i].playId != r[j].playId {
      ActivityRowAt(t, i);
      ActivityRowAt(t, j);
    }
  }

  /** A play whose track and artist are stored has a row in `df_recent_activity`. */
  lemma ActivityCoversPlays(t: Tables)
    requires KeyedByPrimaryKey(t)
    ensures var r := RecentActivityView(t);
      forall k :: k in t.plays && PlayJoins(t, t.plays[k]) ==> exists i :: 0 <= i < |r| && r[i].playId == k
  {
    var r := RecentActivityView(t);
    forall k | k in t.plays && PlayJoins(t, t.plays[k]) ensures exists i :: 0 <= i < |r| && r[i].playId == k {
      var i :| 0 <= i < |r| && r[i] == ActivityRowOf(t, t.plays[k]);
      assert r[i].playId == t.plays[k].playId;
    }
  }

  /**
   * On a consistent store whose tracks all name an artist (as every track
   * the loaders write does), the recent-activity view has exactly one row
   * per stored play.
   */
  lemma RecentActivityOnePerPlay(t: Tables)
    requires Consistent(t)
    requires forall k :: k in t.tracks ==> t.tracks[k].artistId.Some?
    ensures var r := RecentActivityView(t);
      && (forall i, j :: 0 <= i < j < |r| ==> r[i].playId != r[j].playId)
      && (forall k :: k in t.plays <==> exists i :: 0 <= i < |r| && r[i].playId == k)
  {
    var r := RecentActivityView(t);
    ActivityIdsDistinct(t);
    ActivityCoversPlays(t);
    assert forall k :: k in t.plays ==> PlayJoins(t, t.plays[k]);
    forall k | exists i :: 0 <= i < |r| && r[i].playId == k ensures k in t.plays {
      var i :| 0 <= i < |r| && r[i].playId == k;
      ActivityRowAt(t, i);
    }
  }

  /** On an empty store both queries return no rows, and raise nothing. */
  lemma ViewsOfEmptyStore()
    ensures TopTracksView(NoRows) == []
    ensures RecentActivityView(NoRows) == []
  {
    assert TopTrackRows(NoRows) == {};
    assert ActivityRows(NoRows) == {};
  }

  // ------------------------------------------- what the dashboard then shows

  /** Every stored track names an artist, as every track row the loaders build does. */
  ghost predicate TracksNamed(t: Tables) {
    forall k :: k in t.tracks ==> t.tracks[k].artistId.Some?
  }

  /**
   * After a successful `load_recently_played` on a consistent store, every
   * play of the page is a row of the recent-activity view, and the store is
   * still one on which the view has one row per play.
   */
  lemma LoadRecentShowsPlays(t: Tables, schema: set<SchemaObject>, sp: Client)
    requires ArtistsTable in schema && TracksTable in schema && PlaysTable in schema
    requires Consistent(t) && AbsentTablesEmpty(t, schema) && TracksNamed(t)
    requires LoadRecent(t, schema, sp).0.Ok?
    ensures AllPlaysRead(PageItems(sp.recentItems))
    ensures var t' := LoadRecent(t, schema, sp).1;
      && Consistent(t') && TracksNamed(t')
      && forall k :: k in PagePlayIds(PageItems(sp.recentItems)) ==>
           exists i :: 0 <= i < |RecentActivityView(t')| && RecentActivityView(t')[i].playId == k
  {
    var items := PageItems(sp.recentItems);
    var t' := LoadRecent(t, schema, sp).1;
    LoadRecentPreservesConsistency(t, schema, sp);
    LoadRecentTracksFirstSeen(t, schema, sp);
    forall k | k in t'.tracks ensures t'.tracks[k].artistId.Some? {
      if k !in t.tracks {
        var i :| 0 <= i < |items| && ReadPlay(items[i]).value.head.trackId == k
                 && t'.tracks[k] == TrackRowOf(ReadPlay(items[i]).value.head, ReadPlay(items[i]).value.tail);
      }
    }
    RecentActivityOnePerPlay(t');
    if items != [] {
      LoadRecentEffect(t, schema, sp);
    }
  }

  /**
   * `load_top_tracks` never changes what `df_top_tracks` shows on a
   * consistent store: it leaves `tracks` and `audio_features` as they were,
   * and the artists it adds are not referenced by any stored track that did
   * not already join.
   */
  lemma LoadTopLeavesTopTracksView(t: Tables, schema: set<SchemaObject>, sp: Client)
    requires Consistent(t)
    ensures TopTracksView(LoadTop(t, schema, sp).1) == TopTracksView(t)
  {
    var t' := LoadTop(t, schema, sp).1;
    LoadTopWritesOnlyArtists(t, schema, sp);
    assert Grows(t, t') by {
      if PageItems(sp.topItems) != [] && LoadTop(t, schema, sp).0.Ok? {
      }
    }
    TopTrackRowsUnderNewArtists(t, t');
  }

  /** Adding artists to a consistent store, tracks and audio features unchanged, changes no joined top-track row. */
  lemma TopTrackRowsUnderNewArtists(t: Tables, t': Tables)
    requires Consistent(t) && Grows(t, t')
    requires t'.tracks == t.tracks && t'.audioFeatures == t.audioFeatures
    ensures TopTrackRows(t') == TopTrackRows(t)
  {
    forall k | k in t.tracks ensures TrackJoins(t', t.tracks[k]) == TrackJoins(t, t.tracks[k]) {
    }
    forall k | k in t.tracks && TrackJoins(t, t.tracks[k])
      ensures TopTrackRowOf(t', t.tracks[k]) == TopTrackRowOf(t, t.tracks[k])
    {
    }
  }
}
