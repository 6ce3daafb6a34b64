/**
 * The transform half of both loaders: the loop over the page's items that
 * reads each item's fields, builds the `tracks_data` and `plays_data` lists
 * and the `artists_data` dict (first seen wins), and asks the client for each
 * artist's genres; and, for top tracks, the loop over the audio-features list.
 */
module Transform {
  import opened Wrappers
  import opened Schema
  import opened Payload
  import opened Upsert

  // ---------------------------------------------------------------- genres

  /** `", ".join(genres)`. */
  function JoinGenres(gs: seq<string>): (r: string)
    ensures gs == [] ==> r == ""
  {
    if gs == [] then "" else if |gs| == 1 then gs[0] else gs[0] + ", " + JoinGenres(gs[1..])
  }

  /** `s.split(", ")`, the inverse of `JoinGenres` for genres without commas. */
  function SplitGenres(s: string): (r: seq<string>)
    ensures |r| >= 1
    decreases |s|
  {
    if s == [] then [""]
    else if |s| >= 2 && s[0] == ',' && s[1] == ' ' then [""] + SplitGenres(s[2..])
    else
      var rest := SplitGenres(s[1..]);
      [[s[0]] + rest[0]] + rest[1..]
  }

  lemma {:induction false} SplitGenresPrefix(g: string, s: string)
    requires ',' !in g
    ensures SplitGenres(g + ", " + s) == [g] + SplitGenres(s)
    ensures SplitGenres(g) == [g]
    decreases |g|
  {
    if g == [] {
      assert g + ", " + s == ", " + s;
      assert (", " + s)[2..] == s;
    } else {
      SplitGenresPrefix(g[1..], s);
      assert (g + ", " + s)[1..] == g[1..] + ", " + s;
      assert [g[0]] + g[1..] == g;
    }
  }

  /** The genres column can be split back into the artist's genre list, provided no genre contains a comma. */
  lemma {:induction false} GenresRoundTrip(gs: seq<string>)
    requires gs != []
    requires forall i :: 0 <= i < |gs| ==> ',' !in gs[i]
    ensures SplitGenres(JoinGenres(gs)) == gs
    decreases |gs|
  {
    if |gs| == 1 {
      SplitGenresPrefix(gs[0], "");
    } else {
      GenresRoundTrip(gs[1..]);
      SplitGenresPrefix(gs[0], JoinGenres(gs[1..]));
      assert [gs[0]] + gs[1..] == gs;
    }
  }

  /** The genres column for an artist: the joined list, or "" when the artist object has no "genres" key. */
  function Genres(sp: Client, artistId: string): string {
    if artistId in sp.artistGenres && sp.artistGenres[artistId].Some?
    then JoinGenres(sp.artistGenres[artistId].value)
    else ""
  }

  /** `", ".join(sp.artist(artist_id).get("genres", []))`, which raises when the lookup fails. */
  function LookupGenres(sp: Client, artistId: string): (r: Result<string, EtlError>)
    ensures r.Ok? <==> artistId in sp.artistGenres
    ensures r.Ok? ==> r.value == Genres(sp, artistId)
  {
    if artistId !in sp.artistGenres then Err(ArtistLookupFailed(artistId)) else Ok(Genres(sp, artistId))
  }

  // ---------------------------------------------------------- item fields

  /** The fields read before the genre lookup of top tracks: id, name and the primary artist. */
  datatype TrackHead = TrackHead(trackId: string, name: string, artistId: string, artistName: string)

  /** The fields read after it: album name, release date, duration, popularity. */
  datatype TrackTail = TrackTail(albumName: Option<string>, releaseDate: Option<string>,
                                 durationMs: Option<int>, popularity: Option<int>)

  function ReadHead(t: TrackPayload): Result<TrackHead, EtlError> {
    var id :- Get(t.id, "id");
    var name :- Get(t.name, "name");
    var artists :- Get(t.artists, "artists");
    if artists == [] then Err(NoPrimaryArtist)
    else
      var artistId :- Get(artists[0].id, "id");
      var artistName :- Get(artists[0].name, "name");
      Ok(TrackHead(id, name, artistId, artistName))
  }

  function ReadTail(t: TrackPayload): Result<TrackTail, EtlError> {
    var album :- Get(t.album, "album");
    var albumName :- Get(album.name, "name");
    var releaseDate :- Get(album.releaseDate, "release_date");
    var durationMs :- Get(t.durationMs, "duration_ms");
    var popularity :- Get(t.popularity, "popularity");
    Ok(TrackTail(albumName, releaseDate, durationMs, popularity))
  }

  function TrackRowOf(h: TrackHead, tl: TrackTail): TrackRow {
    TrackRow(h.trackId, h.name, Some(h.artistId), tl.albumName, tl.releaseDate, tl.durationMs, tl.popularity)
  }

  function ArtistRowOf(h: TrackHead, genres: string): ArtistRow {
    ArtistRow(h.artistId, h.artistName, Some(genres))
  }

  /** The composite key of a play: `f"{track_id}::{played_at}"`. */
  function PlayId(trackId: string, playedAt: string): string {
    trackId + "::" + playedAt
  }

  /** `item.get("context", {}).get("type", None)`: a missing context gives None, a null one raises. */
  function ReadContext(c: Field<Option<ContextPayload>>): Result<Option<string>, EtlError> {
    match c
    case Absent => Ok(None)
    case Present(None) => Err(ContextIsNull)
    case Present(Some(ctx)) => Ok(ctx.kind)
  }

  /** Everything a recent-play item yields, in the order the loop reads it. */
  datatype PlayFields = PlayFields(head: TrackHead, tail: TrackTail, playedAt: string, context: Option<string>)

  function ReadPlay(item: PlayPayload): Result<PlayFields, EtlError> {
    var track :- Get(item.track, "track");
    var head :- ReadHead(track);
    var tail :- ReadTail(track);
    var playedAt :- Get(item.playedAt, "played_at");
    var context :- ReadContext(item.context);
    Ok(PlayFields(head, tail, playedAt, context))
  }

  function PlayRowOf(p: PlayFields): PlayRow {
    PlayRow(PlayId(p.head.trackId, p.playedAt), p.head.trackId, p.playedAt, p.context)
  }

  /** A play's key determines its timestamp once the track is fixed: same track, different times, different rows. */
  lemma PlayIdSeparatesTimestamps(trackId: string, at1: string, at2: string)
    ensures PlayId(trackId, at1) == PlayId(trackId, at2) <==> at1 == at2
  {
    if PlayId(trackId, at1) == PlayId(trackId, at2) {
      var n := |trackId| + 2;
      assert PlayId(trackId, at1)[n..] == at1;
      assert PlayId(trackId, at2)[n..] == at2;
    }
  }

  /** Spotify ids contain no ':', and for such ids the key determines both track and timestamp. */
  lemma PlayIdInjective(t1: string, at1: string, t2: string, at2: string)
    requires ':' !in t1 && ':' !in t2
    ensures PlayId(t1, at1) == PlayId(t2, at2) <==> t1 == t2 && at1 == at2
  {
    var k1, k2 := PlayId(t1, at1), PlayId(t2, at2);
    if k1 == k2 {
      // At the shorter id's length one key holds ':' and the other a character of an id.
      assert k1[|t1|] == ':' && k2[|t2|] == ':';
      assert |t1| == |t2|;
      assert t1 == k1[..|t1|] == k2[..|t2|] == t2;
      PlayIdSeparatesTimestamps(t1, at1, at2);
    }
  }

  // ------------------------------------------------------ artists_data dict

  function ArtistIds(artists: seq<ArtistRow>): set<string> {
    set i | 0 <= i < |artists| :: artists[i].artistId
  }

  lemma ArtistIdsSnoc(artists: seq<ArtistRow>, a: ArtistRow)
    ensures ArtistIds(artists + [a]) == ArtistIds(artists) + {a.artistId}
  {
    var s := artists + [a];
    forall k | k in ArtistIds(artists) ensures k in ArtistIds(s) {
      var i :| 0 <= i < |artists| && artists[i].artistId == k;
      assert s[i] == artists[i];
    }
    assert s[|artists|] == a;
  }

  /** No two entries share an artist id: the dict has one value per key. */
  ghost predicate DistinctIds(artists: seq<ArtistRow>) {
    forall i, j :: 0 <= i < j < |artists| ==> artists[i].artistId != artists[j].artistId
  }

  /** `if artist_id not in artists_data: artists_data[artist_id] = row`, once per candidate row, in order. */
  function FirstSeen(artists: seq<ArtistRow>, candidates: seq<ArtistRow>): seq<ArtistRow>
    decreases |candidates|
  {
    if candidates == [] then artists
    else
      var next := if candidates[0].artistId in ArtistIds(artists) then artists else artists + [candidates[0]];
      FirstSeen(next, candidates[1..])
  }

  lemma ArtistIdsCons(candidates: seq<ArtistRow>)
    requires candidates != []
    ensures ArtistIds(candidates) == {candidates[0].artistId} + ArtistIds(candidates[1..])
  {
    var tail := candidates[1..];
    forall k | k in ArtistIds(candidates) ensures k in {candidates[0].artistId} + ArtistIds(tail) {
      var i :| 0 <= i < |candidates| && candidates[i].artistId == k;
      if i > 0 { assert tail[i - 1] == candidates[i]; }
    }
    forall k | k in ArtistIds(tail) ensures k in ArtistIds(candidates) {
      var i :| 0 <= i < |tail| && tail[i].artistId == k;
      assert candidates[i + 1] == tail[i];
    }
  }

  /** Adding an entry for an id the dict lacks keeps one entry per id. */
  lemma SnocKeepsDistinct(artists: seq<ArtistRow>, c: ArtistRow)
    requires DistinctIds(artists) && c.artistId !in ArtistIds(artists)
    ensures DistinctIds(artists + [c])
  {
    forall i | 0 <= i < |artists| ensures artists[i].artistId != c.artistId {
      assert artists[i].artistId in ArtistIds(artists);
    }
  }

  /** The dict keeps what it had, gains exactly the candidates' ids, and keeps one entry per id. */
  lemma {:induction false} FirstSeenGrows(artists: seq<ArtistRow>, candidates: seq<ArtistRow>)
    requires DistinctIds(artists)
    ensures var r := FirstSeen(artists, candidates);
      && |artists| <= |r| && r[..|artists|] == artists
      && DistinctIds(r)
      && ArtistIds(r) == ArtistIds(artists) + ArtistIds(candidates)
    decreases |candidates|
  {
    if candidates != [] {
      var c := candidates[0];
      var next := if c.artistId in ArtistIds(artists) then artists else artists + [c];
      ArtistIdsSnoc(artists, c);
      ArtistIdsCons(candidates);
      if c.artistId !in ArtistIds(artists) {
        SnocKeepsDistinct(artists, c);
      }
      FirstSeenGrows(next, candidates[1..]);
      var r := FirstSeen(next, candidates[1..]);
      assert r[..|artists|] == artists by {
        assert r[..|next|] == next;
        assert next[..|artists|] == artists;
      }
    }
  }

  /** Each entry the dict gains is the FIRST candidate carrying its id: first seen wins. */
  lemma {:induction false} FirstSeenPicksFirst(artists: seq<ArtistRow>, candidates: seq<ArtistRow>, j: int)
    requires DistinctIds(artists)
    requires |artists| <= j < |FirstSeen(artists, candidates)|
    ensures exists i :: 0 <= i < |candidates| && FirstSeen(artists, candidates)[j] == candidates[i]
              && forall i' :: 0 <= i' < i ==> candidates[i'].artistId != candidates[i].artistId
    decreases |candidates|
  {
    var r := FirstSeen(artists, candidates);
    var c := candidates[0];
    var tail := candidates[1..];
    var next := if c.artistId in ArtistIds(artists) then artists else artists + [c];
    if c.artistId !in ArtistIds(artists) {
      SnocKeepsDistinct(artists, c);
    }
    FirstSeenGrows(next, tail);
    assert r == FirstSeen(next, tail);
    if j < |next| {
      assert r[j] == next[j] == candidates[0];
    } else {
      FirstSeenPicksFirst(next, tail, j);
      var i :| 0 <= i < |tail| && r[j] == tail[i]
               && forall i' :: 0 <= i' < i ==> tail[i'].artistId != tail[i].artistId;
      assert candidates[i + 1] == tail[i];
      // r[j] is an entry `next` did not have, and `next` holds c's id.
      ArtistIdsSnoc(artists, c);
      assert c.artistId in ArtistIds(next);
      forall i0 | 0 <= i0 < |next| ensures next[i0].artistId != r[j].artistId {
        assert next[i0] == r[i0];
      }
      forall i' | 0 <= i' < i + 1 ensures candidates[i'].artistId != candidates[i + 1].artistId {
        if i' > 0 { assert candidates[i'] == tail[i' - 1]; }
      }
    }
  }
  /** Built from an empty dict: one entry per distinct id, each the first candidate carrying it. */
  lemma FirstSeenFromEmpty(candidates: seq<ArtistRow>)
    ensures var r := FirstSeen([], candidates);
      && DistinctIds(r)
      && ArtistIds(r) == ArtistIds(candidates)
      && forall j :: 0 <= j < |r| ==>
           exists i :: 0 <= i < |candidates| && r[j] == candidates[i]
             && forall i' :: 0 <= i' < i ==> candidates[i'].artistId != candidates[i].artistId
  {
    assert DistinctIds([]);
    FirstSeenGrows([], candidates);
    forall j | 0 <= j < |FirstSeen([], candidates)|
      ensures exists i :: 0 <= i < |candidates| && FirstSeen([], candidates)[j] == candidates[i]
                          && forall i' :: 0 <= i' < i ==> candidates[i'].artistId != candidates[i].artistId
    {
      FirstSeenPicksFirst([], candidates, j);
    }
  }


  // ------------------------------------------------------------ the loops

  /**
   * What a loader's item loop has built so far: `plays_data`,
   * `tracks_data`, the values of `artists_data` in insertion order, and the
   * artist ids it has looked up genres for, in order.
   */
  datatype Scan = Scan(plays: seq<PlayRow>, tracks: seq<TrackRow>, artists: seq<ArtistRow>, lookups: seq<string>)

  const NoScan: Scan := Scan([], [], [], [])

  /** One iteration of the top-tracks loop: the genre lookup happens for every item, between the artist and the album. */
  function TopStep(acc: Scan, item: TrackPayload, sp: Client): Result<Scan, EtlError> {
    var head :- ReadHead(item);
    var genres :- LookupGenres(sp, head.artistId);
    var tail :- ReadTail(item);
    var artists := if head.artistId in ArtistIds(acc.artists) then acc.artists
                   else acc.artists + [ArtistRowOf(head, genres)];
    Ok(Scan(acc.plays, acc.tracks + [TrackRowOf(head, tail)], artists, acc.lookups + [head.artistId]))
  }

  /** What one iteration of the top-tracks loop needs in order to finish, and what it appends. */
  lemma TopStepOk(acc: Scan, item: TrackPayload, sp: Client)
    requires TopStep(acc, item, sp).Ok?
    ensures ReadHead(item).Ok? && ReadTail(item).Ok? && ReadHead(item).value.artistId in sp.artistGenres
    ensures var h := ReadHead(item).value;
      var s := TopStep(acc, item, sp).value;
      && s.plays == acc.plays
      && s.tracks == acc.tracks + [TrackRowOf(h, ReadTail(item).value)]
      && s.lookups == acc.lookups + [h.artistId]
      && s.artists == (if h.artistId in ArtistIds(acc.artists) then acc.artists
                       else acc.artists + [ArtistRowOf(h, Genres(sp, h.artistId))])
  {
  }

  function TopLoop(items: seq<TrackPayload>, sp: Client, acc: Scan): Result<Scan, EtlError>
    decreases |items|
  {
    if items == [] then Ok(acc)
    else
      var next :- TopStep(acc, items[0], sp);
      TopLoop(items[1..], sp, next)
  }

  /** One iteration of the recent-plays loop: genres are looked up only for an artist not yet in the dict. */
  function RecentStep(acc: Scan, item: PlayPayload, sp: Client): Result<Scan, EtlError> {
    var p :- ReadPlay(item);
    var plays := acc.plays + [PlayRowOf(p)];
    var tracks := acc.tracks + [TrackRowOf(p.head, p.tail)];
    if p.head.artistId in ArtistIds(acc.artists) then Ok(Scan(plays, tracks, acc.artists, acc.lookups))
    else
      var genres :- LookupGenres(sp, p.head.artistId);
      Ok(Scan(plays, tracks, acc.artists + [ArtistRowOf(p.head, genres)], acc.lookups + [p.head.artistId]))
  }

  function RecentLoop(items: seq<PlayPayload>, sp: Client, acc: Scan): Result<Scan, EtlError>
    decreases |items|
  {
    if items == [] then Ok(acc)
    else
      var next :- RecentStep(acc, items[0], sp);
      RecentLoop(items[1..], sp, next)
  }

  // ---------------------------------------------------- audio features

  /** The twelve-column row built from one audio-features object; a missing key raises. */
  function ReadFeature(f: FeaturePayload): Result<FeatureRow, EtlError> {
    var id :- Get(f.id, "id");
    var danceability :- Get(f.danceability, "danceability");
    var energy :- Get(f.energy, "energy");
    var key :- Get(f.key, "key");
    var loudness :- Get(f.loudness, "loudness");
    var mode :- Get(f.mode, "mode");
    var speechiness :- Get(f.speechiness, "speechiness");
    var acousticness :- Get(f.acousticness, "acousticness");
    var instrumentalness :- Get(f.instrumentalness, "instrumentalness");
    var liveness :- Get(f.liveness, "liveness");
    var valence :- Get(f.valence, "valence");
    var tempo :- Get(f.tempo, "tempo");
    Ok(FeatureRow(id, danceability, energy, key, loudness, mode, speechiness, acousticness,
                  instrumentalness, liveness, valence, tempo))
  }

  /** The entries that pass `if af:`, in order. */
  function TruthyEntries(entries: seq<FeatureEntry>): (r: seq<FeaturePayload>)
    ensures |r| <= |entries|
  {
    if entries == [] then []
    else
      var rest := TruthyEntries(entries[1..]);
      if entries[0].FeatureObject? then [entries[0].fields] + rest else rest
  }

  /** `audio_features_data`: the loop over the list `sp.audio_features` returned. */
  function FeatureRows(entries: seq<FeatureEntry>): Result<seq<FeatureRow>, EtlError> {
    if entries == [] then Ok([])
    else if !entries[0].FeatureObject? then FeatureRows(entries[1..])
    else
      var row :- ReadFeature(entries[0].fields);
      var rest :- FeatureRows(entries[1..]);
      Ok([row] + rest)
  }

  /**
   * Falsy entries are skipped; every other entry gives one row, in order,
   * and the loop raises exactly when one of them lacks a key.
   */
  lemma {:induction false} FeatureRowsSkipsFalsy(entries: seq<FeatureEntry>)
    ensures FeatureRows(entries).Ok?
        <==> forall i :: 0 <= i < |TruthyEntries(entries)| ==> ReadFeature(TruthyEntries(entries)[i]).Ok?
    ensures FeatureRows(entries).Ok? ==>
      && |FeatureRows(entries).value| == |TruthyEntries(entries)|
      && forall i :: 0 <= i < |TruthyEntries(entries)| ==>
           FeatureRows(entries).value[i] == ReadFeature(TruthyEntries(entries)[i]).value
    decreases |entries|
  {
    FeatureRowsOkIff(entries);
    FeatureRowsValues(entries);
  }

  lemma {:induction false} FeatureRowsOkIff(entries: seq<FeatureEntry>)
    ensures FeatureRows(entries).Ok?
        <==> forall i :: 0 <= i < |TruthyEntries(entries)| ==> ReadFeature(TruthyEntries(entries)[i]).Ok?
    decreases |entries|
  {
    if entries != [] {
      FeatureRowsOkIff(entries[1..]);
      var objs := TruthyEntries(entries);
      var rest := TruthyEntries(entries[1..]);
      if entries[0].FeatureObject? {
        assert objs == [entries[0].fields] + rest;
        if ReadFeature(entries[0].fields).Err? {
          assert !ReadFeature(TruthyEntries(entries)[0]).Ok?;
        } else if FeatureRows(entries[1..]).Err? {
          var i :| 0 <= i < |rest| && !ReadFeature(rest[i]).Ok?;
          assert !ReadFeature(TruthyEntries(entries)[i + 1]).Ok?;
        } else {
          forall i | 0 <= i < |objs| ensures ReadFeature(TruthyEntries(entries)[i]).Ok? {
            if i > 0 {
              assert TruthyEntries(entries)[i] == TruthyEntries(entries[1..])[i - 1];
              assert ReadFeature(TruthyEntries(entries[1..])[i - 1]).Ok?;
            }
          }
        }
      } else {
        assert TruthyEntries(entries) == TruthyEntries(entries[1..]);
        assert FeatureRows(entries) == FeatureRows(entries[1..]);
      }
    }
  }


  lemma {:induction false} FeatureRowsValues(entries: seq<FeatureEntry>)
    ensures FeatureRows(entries).Ok? ==>
      && |FeatureRows(entries).value| == |TruthyEntries(entries)|
      && forall i :: 0 <= i < |TruthyEntries(entries)| ==>
           ReadFeature(TruthyEntries(entries)[i]) == Ok(FeatureRows(entries).value[i])
    decreases |entries|
  {
    if entries != [] && FeatureRows(entries).Ok? {
      FeatureRowsValues(entries[1..]);
      var objs := TruthyEntries(entries);
      var rest := TruthyEntries(entries[1..]);
      if entries[0].FeatureObject? {
        assert objs == [entries[0].fields] + rest;
        assert ReadFeature(entries[0].fields).Ok? && FeatureRows(entries[1..]).Ok?;
        var r := FeatureRows(entries).value;
        assert r == [ReadFeature(entries[0].fields).value] + FeatureRows(entries[1..]).value;
        forall i | 0 <= i < |objs| ensures ReadFeature(objs[i]) == Ok(r[i]) {
          if i > 0 { assert objs[i] == rest[i - 1]; }
        }
      } else {
        assert objs == rest && FeatureRows(entries) == FeatureRows(entries[1..]);
      }
    }
  }


  /** The top-tracks transform: the item loop, then the audio-features request for the tracks' ids and its loop. */
  datatype TopBatch = TopBatch(
    tracks: seq<TrackRow>,
    artists: seq<ArtistRow>,
    features: seq<FeatureRow>,
    lookups: seq<string>,
    featureRequest: seq<string>)

  /** `[item["id"] for item in items]`, which after the loop equals the ids of `tracks_data`. */
  function TrackIds(tracks: seq<TrackRow>): (ids: seq<string>)
    ensures |ids| == |tracks| && forall i :: 0 <= i < |tracks| ==> ids[i] == tracks[i].trackId
  {
    seq(|tracks|, i requires 0 <= i < |tracks| => tracks[i].trackId)
  }

  function ScanTop(items: seq<TrackPayload>, sp: Client): Result<TopBatch, EtlError> {
    var s :- TopLoop(items, sp, NoScan);
    var features :- FeatureRows(sp.audioFeatures);
    Ok(TopBatch(s.tracks, s.artists, features, s.lookups, TrackIds(s.tracks)))
  }

  function ScanRecent(items: seq<PlayPayload>, sp: Client): Result<Scan, EtlError> {
    RecentLoop(items, sp, NoScan)
  }

  // ------------------------------------------- what the loops build, by index

  /** Every item of a recent-plays page reads without error. */
  ghost predicate AllPlaysRead(items: seq<PlayPayload>) {
    forall i :: 0 <= i < |items| ==> ReadPlay(items[i]).Ok?
  }

  /** One play row per item, in page order. */
  ghost function PlayRows(items: seq<PlayPayload>): seq<PlayRow>
    requires AllPlaysRead(items)
  {
    seq(|items|, i requires 0 <= i < |items| && ReadPlay(items[i]).Ok? => PlayRowOf(ReadPlay(items[i]).value))
  }

  /** One track row per item, in page order (repeats included). */
  ghost function PlayTrackRows(items: seq<PlayPayload>): seq<TrackRow>
    requires AllPlaysRead(items)
  {
    seq(|items|, i requires 0 <= i < |items| && ReadPlay(items[i]).Ok? =>
      TrackRowOf(ReadPlay(items[i]).value.head, ReadPlay(items[i]).value.tail))
  }

  /** The artist row each item would contribute, were its artist new. */
  ghost function PlayCandidates(items: seq<PlayPayload>, sp: Client): seq<ArtistRow>
    requires AllPlaysRead(items)
  {
    seq(|items|, i requires 0 <= i < |items| && ReadPlay(items[i]).Ok? =>
      ArtistRowOf(ReadPlay(items[i]).value.head, Genres(sp, ReadPlay(items[i]).value.head.artistId)))
  }

  /** Every item of a top-tracks page reads without error and its artist lookup succeeds. */
  ghost predicate AllTracksRead(items: seq<TrackPayload>, sp: Client) {
    forall i :: 0 <= i < |items| ==>
      ReadHead(items[i]).Ok? && ReadTail(items[i]).Ok? && ReadHead(items[i]).value.artistId in sp.artistGenres
  }

  ghost function TopTrackRows(items: seq<TrackPayload>, sp: Client): seq<TrackRow>
    requires AllTracksRead(items, sp)
  {
    seq(|items|, i requires 0 <= i < |items| && ReadHead(items[i]).Ok? && ReadTail(items[i]).Ok? =>
      TrackRowOf(ReadHead(items[i]).value, ReadTail(items[i]).value))
  }

  ghost function TopCandidates(items: seq<TrackPayload>, sp: Client): seq<ArtistRow>
    requires AllTracksRead(items, sp)
  {
    seq(|items|, i requires 0 <= i < |items| && ReadHead(items[i]).Ok? =>
      ArtistRowOf(ReadHead(items[i]).value, Genres(sp, ReadHead(items[i]).value.artistId)))
  }

  /** The primary artist id of every item, repeats included. */
  ghost function TopArtistIds(items: seq<TrackPayload>, sp: Client): seq<string>
    requires AllTracksRead(items, sp)
  {
    seq(|items|, i requires 0 <= i < |items| && ReadHead(items[i]).Ok? => ReadHead(items[i]).value.artistId)
  }

  /** The ids of the dict's entries, in insertion order. */
  function IdSeq(artists: seq<ArtistRow>): (ids: seq<string>)
    ensures |ids| == |artists| && forall i :: 0 <= i < |artists| ==> ids[i] == artists[i].artistId
  {
    seq(|artists|, i requires 0 <= i < |artists| => artists[i].artistId)
  }

  lemma AppendAssoc<T>(a: seq<T>, b: seq<T>, c: seq<T>)
    ensures a + (b + c) == a + b + c
  {
  }

  /** The per-item lists of a recent-plays page: the first item's entry followed by those of the rest. */
  lemma PlayListsCons(items: seq<PlayPayload>, sp: Client)
    requires items != [] && ReadPlay(items[0]).Ok? && AllPlaysRead(items[1..])
    ensures AllPlaysRead(items)
    ensures var p := ReadPlay(items[0]).value;
      && PlayRows(items) == [PlayRowOf(p)] + PlayRows(items[1..])
      && PlayTrackRows(items) == [TrackRowOf(p.head, p.tail)] + PlayTrackRows(items[1..])
      && PlayCandidates(items, sp)[0] == ArtistRowOf(p.head, Genres(sp, p.head.artistId))
      && PlayCandidates(items, sp)[1..] == PlayCandidates(items[1..], sp)
  {
    PlaysReadCons(items);
    PlayRowsCons(items);
    PlayTrackRowsCons(items);
    PlayCandidatesCons(items, sp);
  }

  lemma PlaysReadCons(items: seq<PlayPayload>)
    requires items != [] && ReadPlay(items[0]).Ok? && AllPlaysRead(items[1..])
    ensures AllPlaysRead(items)
  {
    forall i | 0 <= i < |items| ensures ReadPlay(items[i]).Ok? {
      if i > 0 { assert items[i] == items[1..][i - 1]; }
    }
  }

  lemma PlayRowsCons(items: seq<PlayPayload>)
    requires items != [] && AllPlaysRead(items)
    ensures AllPlaysRead(items[1..])
    ensures PlayRows(items) == [PlayRowOf(ReadPlay(items[0]).value)] + PlayRows(items[1..])
  {
    var rest := items[1..];
    assert AllPlaysRead(rest) by {
      forall j | 0 <= j < |rest| ensures ReadPlay(rest[j]).Ok? {
        assert rest[j] == items[j + 1];
      }
    }
    var r, r' := PlayRows(items), PlayRows(rest);
    forall j | 0 <= j < |rest| ensures r[j + 1] == r'[j] {
      assert rest[j] == items[j + 1];
    }
    assert r == [r[0]] + r';
  }

  lemma PlayTrackRowsCons(items: seq<PlayPayload>)
    requires items != [] && AllPlaysRead(items)
    ensures AllPlaysRead(items[1..])
    ensures var p := ReadPlay(items[0]).value;
      PlayTrackRows(items) == [TrackRowOf(p.head, p.tail)] + PlayTrackRows(items[1..])
  {
    var rest := items[1..];
    assert AllPlaysRead(rest) by {
      forall j | 0 <= j < |rest| ensures ReadPlay(rest[j]).Ok? {
        assert rest[j] == items[j + 1];
      }
    }
    var r, r' := PlayTrackRows(items), PlayTrackRows(rest);
    forall j | 0 <= j < |rest| ensures r[j + 1] == r'[j] {
      assert rest[j] == items[j + 1];
    }
    assert r == [r[0]] + r';
  }

  lemma PlayCandidatesCons(items: seq<PlayPayload>, sp: Client)
    requires items != [] && AllPlaysRead(items)
    ensures AllPlaysRead(items[1..])
    ensures var p := ReadPlay(items[0]).value;
      && PlayCandidates(items, sp)[0] == ArtistRowOf(p.head, Genres(sp, p.head.artistId))
      && PlayCandidates(items, sp)[1..] == PlayCandidates(items[1..], sp)
  {
    var rest := items[1..];
    assert AllPlaysRead(rest) by {
      forall j | 0 <= j < |rest| ensures ReadPlay(rest[j]).Ok? {
        assert rest[j] == items[j + 1];
      }
    }
    var c, c' := PlayCandidates(items, sp), PlayCandidates(rest, sp);
    forall j | 0 <= j < |rest| ensures c[1..][j] == c'[j] {
      assert rest[j] == items[j + 1];
    }
    assert c[1..] == c';
  }


  /** What one iteration of the recent-plays loop needs in order to finish, and what it appends. */
  lemma RecentStepOk(acc: Scan, item: PlayPayload, sp: Client)
    requires RecentStep(acc, item, sp).Ok?
    ensures ReadPlay(item).Ok?
    ensures var p := ReadPlay(item).value;
      var s := RecentStep(acc, item, sp).value;
      var seen := p.head.artistId in ArtistIds(acc.artists);
      && s.plays == acc.plays + [PlayRowOf(p)]
      && s.tracks == acc.tracks + [TrackRowOf(p.head, p.tail)]
      && s.artists == (if seen then acc.artists else acc.artists + [ArtistRowOf(p.head, Genres(sp, p.head.artistId))])
      && s.lookups == (if seen then acc.lookups else acc.lookups + [p.head.artistId])
  {
  }

  /**
   * A recent-plays loop that finishes has read every item, appended one
   * play row and one track row per item, and filled the dict first-seen.
   */
  lemma {:induction false} RecentLoopBuilds(items: seq<PlayPayload>, sp: Client, acc: Scan)
    requires RecentLoop(items, sp, acc).Ok?
    ensures AllPlaysRead(items)
    ensures var s := RecentLoop(items, sp, acc).value;
      && s.plays == acc.plays + PlayRows(items)
      && s.tracks == acc.tracks + PlayTrackRows(items)
      && s.artists == FirstSeen(acc.artists, PlayCandidates(items, sp))
    decreases |items|
  {
    if items != [] {
      RecentStepOk(acc, items[0], sp);
      var p := ReadPlay(items[0]).value;
      var next := RecentStep(acc, items[0], sp).value;
      assert RecentLoop(items, sp, acc) == RecentLoop(items[1..], sp, next);
      RecentLoopBuilds(items[1..], sp, next);
      PlayListsCons(items, sp);
      AppendAssoc(acc.plays, [PlayRowOf(p)], PlayRows(items[1..]));
      AppendAssoc(acc.tracks, [TrackRowOf(p.head, p.tail)], PlayTrackRows(items[1..]));
    }
  }

  /** The recent-plays loop looks genres up once per entry it adds to the dict, in the same order. */
  lemma {:induction false} RecentLoopLookups(items: seq<PlayPayload>, sp: Client, acc: Scan)
    requires RecentLoop(items, sp, acc).Ok?
    requires acc.lookups == IdSeq(acc.artists)
    ensures RecentLoop(items, sp, acc).value.lookups == IdSeq(RecentLoop(items, sp, acc).value.artists)
    decreases |items|
  {
    if items != [] {
      var next := RecentStep(acc, items[0], sp).value;
      assert next.lookups == IdSeq(next.artists);
      RecentLoopLookups(items[1..], sp, next);
    }
  }

  /** The per-item lists of a top-tracks page: the first item's entry followed by those of the rest. */
  lemma TopListsCons(items: seq<TrackPayload>, sp: Client)
    requires items != [] && AllTracksRead(items[1..], sp)
    requires ReadHead(items[0]).Ok? && ReadTail(items[0]).Ok? && ReadHead(items[0]).value.artistId in sp.artistGenres
    ensures AllTracksRead(items, sp)
    ensures var h := ReadHead(items[0]).value;
      && TopTrackRows(items, sp) == [TrackRowOf(h, ReadTail(items[0]).value)] + TopTrackRows(items[1..], sp)
      && TopArtistIds(items, sp) == [h.artistId] + TopArtistIds(items[1..], sp)
      && TopCandidates(items, sp)[0] == ArtistRowOf(h, Genres(sp, h.artistId))
      && TopCandidates(items, sp)[1..] == TopCandidates(items[1..], sp)
  {
    TracksReadCons(items, sp);
    TopTrackRowsCons(items, sp);
    TopArtistIdsCons(items, sp);
    TopCandidatesCons(items, sp);
  }

  lemma TracksReadCons(items: seq<TrackPayload>, sp: Client)
    requires items != [] && AllTracksRead(items[1..], sp)
    requires ReadHead(items[0]).Ok? && ReadTail(items[0]).Ok? && ReadHead(items[0]).value.artistId in sp.artistGenres
    ensures AllTracksRead(items, sp)
  {
    forall i | 0 <= i < |items|
      ensures ReadHead(items[i]).Ok? && ReadTail(items[i]).Ok? && ReadHead(items[i]).value.artistId in sp.artistGenres
    {
      if i > 0 { assert items[i] == items[1..][i - 1]; }
    }
  }

  lemma TracksReadTail(items: seq<TrackPayload>, sp: Client)
    requires items != [] && AllTracksRead(items, sp)
    ensures AllTracksRead(items[1..], sp)
  {
    var rest := items[1..];
    forall j | 0 <= j < |rest|
      ensures ReadHead(rest[j]).Ok? && ReadTail(rest[j]).Ok? && ReadHead(rest[j]).value.artistId in sp.artistGenres
    {
      assert rest[j] == items[j + 1];
    }
  }

  lemma TopTrackRowsCons(items: seq<TrackPayload>, sp: Client)
    requires items != [] && AllTracksRead(items, sp)
    ensures AllTracksRead(items[1..], sp)
    ensures TopTrackRows(items, sp) == [TrackRowOf(ReadHead(items[0]).value, ReadTail(items[0]).value)] + TopTrackRows(items[1..], sp)
  {
    var rest := items[1..];
    TracksReadTail(items, sp);
    var r, r' := TopTrackRows(items, sp), TopTrackRows(rest, sp);
    forall j | 0 <= j < |rest| ensures r[j + 1] == r'[j] {
      assert rest[j] == items[j + 1];
    }
    assert r == [r[0]] + r';
  }

  lemma TopArtistIdsCons(items: seq<TrackPayload>, sp: Client)
    requires items != [] && AllTracksRead(items, sp)
    ensures AllTracksRead(items[1..], sp)
    ensures TopArtistIds(items, sp) == [ReadHead(items[0]).value.artistId] + TopArtistIds(items[1..], sp)
  {
    var rest := items[1..];
    TracksReadTail(items, sp);
    var a, a' := TopArtistIds(items, sp), TopArtistIds(rest, sp);
    forall j | 0 <= j < |rest| ensures a[j + 1] == a'[j] {
      assert rest[j] == items[j + 1];
    }
    assert a == [a[0]] + a';
  }

  lemma TopCandidatesCons(items: seq<TrackPayload>, sp: Client)
    requires items != [] && AllTracksRead(items, sp)
    ensures AllTracksRead(items[1..], sp)
    ensures var h := ReadHead(items[0]).value;
      && TopCandidates(items, sp)[0] == ArtistRowOf(h, Genres(sp, h.artistId))
      && TopCandidates(items, sp)[1..] == TopCandidates(items[1..], sp)
  {
    var rest := items[1..];
    TracksReadTail(items, sp);
    var c, c' := TopCandidates(items, sp), TopCandidates(rest, sp);
    forall j | 0 <= j < |rest| ensures c[1..][j] == c'[j] {
      assert rest[j] == items[j + 1];
    }
    assert c[1..] == c';
  }


  /** A top-tracks loop that finishes has read every item and appended one track row and one genre lookup per item. */
  lemma {:induction false} TopLoopRows(items: seq<TrackPayload>, sp: Client, acc: Scan)
    requires TopLoop(items, sp, acc).Ok?
    ensures AllTracksRead(items, sp)
    ensures var s := TopLoop(items, sp, acc).value;
      && s.plays == acc.plays
      && s.tracks == acc.tracks + TopTrackRows(items, sp)
      && s.lookups == acc.lookups + TopArtistIds(items, sp)
    decreases |items|
  {
    if items != [] {
      TopStepOk(acc, items[0], sp);
      var h, tl := ReadHead(items[0]).value, ReadTail(items[0]).value;
      var next := TopStep(acc, items[0], sp).value;
      assert TopLoop(items, sp, acc) == TopLoop(items[1..], sp, next);
      TopLoopRows(items[1..], sp, next);
      TopListsCons(items, sp);
      AppendAssoc(acc.tracks, [TrackRowOf(h, tl)], TopTrackRows(items[1..], sp));
      AppendAssoc(acc.lookups, [h.artistId], TopArtistIds(items[1..], sp));
    }
  }

  /** A top-tracks loop that finishes has filled the dict first-seen from the items' artists. */
  lemma {:induction false} TopLoopDict(items: seq<TrackPayload>, sp: Client, acc: Scan)
    requires TopLoop(items, sp, acc).Ok?
    ensures AllTracksRead(items, sp)
    ensures TopLoop(items, sp, acc).value.artists == FirstSeen(acc.artists, TopCandidates(items, sp))
    decreases |items|
  {
    if items != [] {
      TopStepOk(acc, items[0], sp);
      var next := TopStep(acc, items[0], sp).value;
      assert TopLoop(items, sp, acc) == TopLoop(items[1..], sp, next);
      TopLoopDict(items[1..], sp, next);
      TopListsCons(items, sp);
    }
  }

  /**
   * A top-tracks loop that finishes has read every item, appended one track
   * row and one genre lookup per item, and filled the dict first-seen.
   */
  lemma TopLoopBuilds(items: seq<TrackPayload>, sp: Client, acc: Scan)
    requires TopLoop(items, sp, acc).Ok?
    ensures AllTracksRead(items, sp)
    ensures var s := TopLoop(items, sp, acc).value;
      && s.plays == acc.plays
      && s.tracks == acc.tracks + TopTrackRows(items, sp)
      && s.artists == FirstSeen(acc.artists, TopCandidates(items, sp))
      && s.lookups == acc.lookups + TopArtistIds(items, sp)
  {
    TopLoopRows(items, sp, acc);
    TopLoopDict(items, sp, acc);
  }

  /**
   * The recent-plays transform, item by item: one play row and one track row
   * per item, the play keyed `track_id::played_at`, each track naming its
   * primary artist, which is in the dict, and each play naming its track,
   * which is among the track rows.  A batch that is built therefore has
   * every item well formed: one malformed item fails the whole batch.
   */
  lemma ScanRecentRows(items: seq<PlayPayload>, sp: Client)
    requires ScanRecent(items, sp).Ok?
    ensures AllPlaysRead(items)
    ensures var s := ScanRecent(items, sp).value;
      && |s.plays| == |items| && |s.tracks| == |items|
      && (forall i :: 0 <= i < |items| ==>
            var p := ReadPlay(items[i]).value;
            && s.plays[i] == PlayRow(PlayId(p.head.trackId, p.playedAt), p.head.trackId, p.playedAt, p.context)
            && s.tracks[i] == TrackRowOf(p.head, p.tail))
      && (forall i :: 0 <= i < |s.tracks| ==> s.tracks[i].artistId.Some? && s.tracks[i].artistId.value in ArtistIds(s.artists))
      && (forall i :: 0 <= i < |s.plays| ==> s.plays[i].trackId in KeysOf(s.tracks, TrackKey))
  {
    RecentLoopBuilds(items, sp, NoScan);
    var s := ScanRecent(items, sp).value;
    RecentRowsClosed(items, sp, s.plays, s.tracks, s.artists);
  }

  /** The rows read from a page name only artists of its first-seen dict, and its plays only its tracks. */
  lemma RecentRowsClosed(items: seq<PlayPayload>, sp: Client, plays: seq<PlayRow>, tracks: seq<TrackRow>, artists: seq<ArtistRow>)
    requires AllPlaysRead(items)
    requires plays == PlayRows(items) && tracks == PlayTrackRows(items)
    requires artists == FirstSeen([], PlayCandidates(items, sp))
    ensures forall i :: 0 <= i < |tracks| ==> tracks[i].artistId.Some? && tracks[i].artistId.value in ArtistIds(artists)
    ensures forall i :: 0 <= i < |plays| ==> plays[i].trackId in KeysOf(tracks, TrackKey)
  {
    var cands := PlayCandidates(items, sp);
    assert DistinctIds([]);
    FirstSeenGrows([], cands);
    forall i | 0 <= i < |tracks| ensures tracks[i].artistId.Some? && tracks[i].artistId.value in ArtistIds(artists) {
      assert cands[i].artistId == tracks[i].artistId.value;
      assert cands[i].artistId in ArtistIds(cands);
    }
    forall i | 0 <= i < |plays| ensures plays[i].trackId in KeysOf(tracks, TrackKey) {
      assert TrackKey(tracks[i]) == plays[i].trackId;
    }
  }


  /**
   * The recent-plays dict: one entry per distinct primary-artist id of the
   * page, each entry the row of the FIRST item with that id (its name and
   * its joined genres), and one genre lookup per entry, in the same order.
   */
  lemma ScanRecentArtists(items: seq<PlayPayload>, sp: Client)
    requires ScanRecent(items, sp).Ok?
    ensures AllPlaysRead(items)
    ensures var s := ScanRecent(items, sp).value;
      && DistinctIds(s.artists)
      && ArtistIds(s.artists) == (set i | 0 <= i < |items| :: ReadPlay(items[i]).value.head.artistId)
      && (forall j :: 0 <= j < |s.artists| ==>
            exists i :: 0 <= i < |items| && s.artists[j] == ArtistRowOf(ReadPlay(items[i]).value.head, Genres(sp, s.artists[j].artistId))
              && forall i' :: 0 <= i' < i ==> ReadPlay(items[i']).value.head.artistId != s.artists[j].artistId)
      && s.lookups == IdSeq(s.artists)
  {
    RecentLoopBuilds(items, sp, NoScan);
    RecentLoopLookups(items, sp, NoScan);
    RecentDictIds(items, sp, ScanRecent(items, sp).value.artists);
    RecentDictFirstSeen(items, sp, ScanRecent(items, sp).value.artists);
  }

  /** The ids of the dict built first-seen-wins from the candidates of a recent-plays page. */
  lemma RecentDictIds(items: seq<PlayPayload>, sp: Client, artists: seq<ArtistRow>)
    requires AllPlaysRead(items)
    requires artists == FirstSeen([], PlayCandidates(items, sp))
    ensures DistinctIds(artists)
    ensures ArtistIds(artists) == (set i | 0 <= i < |items| :: ReadPlay(items[i]).value.head.artistId)
  {
    var cands := PlayCandidates(items, sp);
    FirstSeenFromEmpty(cands);
    forall k | k in ArtistIds(cands) ensures k in set i | 0 <= i < |items| :: ReadPlay(items[i]).value.head.artistId {
      var i :| 0 <= i < |cands| && cands[i].artistId == k;
      assert ReadPlay(items[i]).value.head.artistId == k;
    }
    forall k | k in (set i | 0 <= i < |items| :: ReadPlay(items[i]).value.head.artistId) ensures k in ArtistIds(cands) {
      var i :| 0 <= i < |items| && ReadPlay(items[i]).value.head.artistId == k;
      assert cands[i].artistId == k;
    }
  }

  /** Each entry of that dict is the row of the first item of the page with its id. */
  lemma RecentDictFirstSeen(items: seq<PlayPayload>, sp: Client, artists: seq<ArtistRow>)
    requires AllPlaysRead(items)
    requires artists == FirstSeen([], PlayCandidates(items, sp))
    ensures forall j :: 0 <= j < |artists| ==>
              exists i :: 0 <= i < |items| && artists[j] == ArtistRowOf(ReadPlay(items[i]).value.head, Genres(sp, artists[j].artistId))
                && forall i' :: 0 <= i' < i ==> ReadPlay(items[i']).value.head.artistId != artists[j].artistId
  {
    var cands := PlayCandidates(items, sp);
    FirstSeenFromEmpty(cands);
    forall j | 0 <= j < |artists|
      ensures exists i :: 0 <= i < |items| && artists[j] == ArtistRowOf(ReadPlay(items[i]).value.head, Genres(sp, artists[j].artistId))
                && forall i' :: 0 <= i' < i ==> ReadPlay(items[i']).value.head.artistId != artists[j].artistId
    {
      var i :| 0 <= i < |cands| && artists[j] == cands[i]
               && forall i' :: 0 <= i' < i ==> cands[i'].artistId != cands[i].artistId;
      assert artists[j] == ArtistRowOf(ReadPlay(items[i]).value.head, Genres(sp, artists[j].artistId));
      forall i' | 0 <= i' < i ensures ReadPlay(items[i']).value.head.artistId != artists[j].artistId {
        assert cands[i'].artistId == ReadPlay(items[i']).value.head.artistId;
      }
    }
  }



  /** A top-tracks batch is the finished item loop plus the feature rows. */
  lemma ScanTopParts(items: seq<TrackPayload>, sp: Client)
    requires ScanTop(items, sp).Ok?
    ensures TopLoop(items, sp, NoScan).Ok? && FeatureRows(sp.audioFeatures).Ok?
    ensures var s := TopLoop(items, sp, NoScan).value;
      ScanTop(items, sp).value
        == TopBatch(s.tracks, s.artists, FeatureRows(sp.audioFeatures).value, s.lookups, TrackIds(s.tracks))
  {
  }

  /**
   * The top-tracks transform, item by item: one track row and one genre
   * lookup per item (a repeated artist is looked up again), an
   * audio-features request naming every track in page order, and one
   * feature row per truthy entry of the response.  A batch that is built
   * has every item well formed: one malformed item fails the whole batch.
   */
  lemma ScanTopRows(items: seq<TrackPayload>, sp: Client)
    requires ScanTop(items, sp).Ok?
    ensures AllTracksRead(items, sp)
    ensures var b := ScanTop(items, sp).value;
      && |b.tracks| == |items| && |b.lookups| == |items| && |b.featureRequest| == |items|
      && (forall i :: 0 <= i < |items| ==>
            && b.tracks[i] == TrackRowOf(ReadHead(items[i]).value, ReadTail(items[i]).value)
            && b.lookups[i] == ReadHead(items[i]).value.artistId
            && b.featureRequest[i] == ReadHead(items[i]).value.trackId)
      && |b.features| == |TruthyEntries(sp.audioFeatures)|
  {
    ScanTopParts(items, sp);
    TopLoopBuilds(items, sp, NoScan);
    FeatureRowsSkipsFalsy(sp.audioFeatures);
  }

  /**
   * The top-tracks dict: one entry per distinct primary-artist id of the
   * page, each entry the row of the FIRST item with that id.
   */
  lemma ScanTopArtists(items: seq<TrackPayload>, sp: Client)
    requires ScanTop(items, sp).Ok?
    ensures AllTracksRead(items, sp)
    ensures var b := ScanTop(items, sp).value;
      && DistinctIds(b.artists)
      && ArtistIds(b.artists) == (set i | 0 <= i < |items| :: ReadHead(items[i]).value.artistId)
      && (forall j :: 0 <= j < |b.artists| ==>
            exists i :: 0 <= i < |items| && b.artists[j] == ArtistRowOf(ReadHead(items[i]).value, Genres(sp, b.artists[j].artistId))
              && forall i' :: 0 <= i' < i ==> ReadHead(items[i']).value.artistId != b.artists[j].artistId)
  {
    ScanTopParts(items, sp);
    TopLoopArtists(items, sp);
  }

  lemma TopLoopArtists(items: seq<TrackPayload>, sp: Client)
    requires TopLoop(items, sp, NoScan).Ok?
    ensures AllTracksRead(items, sp)
    ensures var artists := TopLoop(items, sp, NoScan).value.artists;
      && DistinctIds(artists)
      && ArtistIds(artists) == (set i | 0 <= i < |items| :: ReadHead(items[i]).value.artistId)
      && (forall j :: 0 <= j < |artists| ==>
            exists i :: 0 <= i < |items| && artists[j] == ArtistRowOf(ReadHead(items[i]).value, Genres(sp, artists[j].artistId))
              && forall i' :: 0 <= i' < i ==> ReadHead(items[i']).value.artistId != artists[j].artistId)
  {
    TopLoopDict(items, sp, NoScan);
    TopDictIds(items, sp, TopLoop(items, sp, NoScan).value.artists);
    TopDictFirstSeen(items, sp, TopLoop(items, sp, NoScan).value.artists);
  }

  /** The ids of the dict built first-seen-wins from the candidates of a top-tracks page. */
  lemma TopDictIds(items: seq<TrackPayload>, sp: Client, artists: seq<ArtistRow>)
    requires AllTracksRead(items, sp)
    requires artists == FirstSeen([], TopCandidates(items, sp))
    ensures DistinctIds(artists)
    ensures ArtistIds(artists) == (set i | 0 <= i < |items| :: ReadHead(items[i]).value.artistId)
  {
    var cands := TopCandidates(items, sp);
    FirstSeenFromEmpty(cands);
    forall k | k in ArtistIds(cands) ensures k in set i | 0 <= i < |items| :: ReadHead(items[i]).value.artistId {
      var i :| 0 <= i < |cands| && cands[i].artistId == k;
      assert ReadHead(items[i]).value.artistId == k;
    }
    forall k | k in (set i | 0 <= i < |items| :: ReadHead(items[i]).value.artistId) ensures k in ArtistIds(cands) {
      var i :| 0 <= i < |items| && ReadHead(items[i]).value.artistId == k;
      assert cands[i].artistId == k;
    }
  }

  /** Each entry of that dict is the row of the first item of the page with its id. */
  lemma TopDictFirstSeen(items: seq<TrackPayload>, sp: Client, artists: seq<ArtistRow>)
    requires AllTracksRead(items, sp)
    requires artists == FirstSeen([], TopCandidates(items, sp))
    ensures forall j :: 0 <= j < |artists| ==>
              exists i :: 0 <= i < |items| && artists[j] == ArtistRowOf(ReadHead(items[i]).value, Genres(sp, artists[j].artistId))
                && forall i' :: 0 <= i' < i ==> ReadHead(items[i']).value.artistId != artists[j].artistId
  {
    var cands := TopCandidates(items, sp);
    FirstSeenFromEmpty(cands);
    forall j | 0 <= j < |artists|
      ensures exists i :: 0 <= i < |items| && artists[j] == ArtistRowOf(ReadHead(items[i]).value, Genres(sp, artists[j].artistId))
                && forall i' :: 0 <= i' < i ==> ReadHead(items[i']).value.artistId != artists[j].artistId
    {
      var i :| 0 <= i < |cands| && artists[j] == cands[i]
               && forall i' :: 0 <= i' < i ==> cands[i'].artistId != cands[i].artistId;
      assert artists[j] == ArtistRowOf(ReadHead(items[i]).value, Genres(sp, artists[j].artistId));
      forall i' | 0 <= i' < i ensures ReadHead(items[i']).value.artistId != artists[j].artistId {
        assert cands[i'].artistId == ReadHead(items[i']).value.artistId;
      }
    }
  }




  // ------------------------------------------------------- the loops as code

  /** The `for item in items` loop of `load_recently_played`. */
  method ScanRecentlyPlayed(items: seq<PlayPayload>, sp: Client) returns (r: Result<Scan, EtlError>)
    ensures r == ScanRecent(items, sp)
  {
    var playsData: seq<PlayRow> := [];
    var tracksData: seq<TrackRow> := [];
    var artistsData: seq<ArtistRow> := [];
    var seen: set<string> := {};
    var lookups: seq<string> := [];
    var i := 0;
    while i < |items|
      invariant 0 <= i <= |items|
      invariant seen == ArtistIds(artistsData)
      invariant RecentLoop(items, sp, NoScan) == RecentLoop(items[i..], sp, Scan(playsData, tracksData, artistsData, lookups))
    {
      assert items[i..][1..] == items[i + 1..];
      var p :- ReadPlay(items[i]);
      playsData := playsData + [PlayRowOf(p)];
      tracksData := tracksData + [TrackRowOf(p.head, p.tail)];
      if p.head.artistId !in seen {
        var genres :- LookupGenres(sp, p.head.artistId);
        ArtistIdsSnoc(artistsData, ArtistRowOf(p.head, genres));
        artistsData := artistsData + [ArtistRowOf(p.head, genres)];
        seen := seen + {p.head.artistId};
        lookups := lookups + [p.head.artistId];
      }
      i := i + 1;
    }
    assert items[i..] == [];
    r := Ok(Scan(playsData, tracksData, artistsData, lookups));
  }

  /** The `for af in audio_features_list` loop: skip falsy entries, read the twelve keys of the others. */
  method ReadFeatureEntries(entries: seq<FeatureEntry>) returns (r: Result<seq<FeatureRow>, EtlError>)
    ensures r == FeatureRows(entries)
  {
    var rows: seq<FeatureRow> := [];
    var i := 0;
    assert entries[0..] == entries;
    if FeatureRows(entries).Ok? {
      assert [] + FeatureRows(entries).value == FeatureRows(entries).value;
    }
    while i < |entries|
      invariant 0 <= i <= |entries|
      invariant FeatureRows(entries) == (match FeatureRows(entries[i..])
                                         case Ok(rest) => Ok(rows + rest)
                                         case Err(e) => Err(e))
    {
      assert entries[i..][1..] == entries[i + 1..];
      if entries[i].FeatureObject? {
        var row :- ReadFeature(entries[i].fields);
        if FeatureRows(entries[i + 1..]).Ok? {
          assert rows + ([row] + FeatureRows(entries[i + 1..]).value) == (rows + [row]) + FeatureRows(entries[i + 1..]).value;
        }
        rows := rows + [row];
      }
      i := i + 1;
    }
    assert entries[i..] == [];
    assert rows + [] == rows;
    r := Ok(rows);
  }

  /** The transform of `load_top_tracks`: the item loop, the id list, the audio-features request and its loop. */
  method ScanTopTracks(items: seq<TrackPayload>, sp: Client) returns (r: Result<TopBatch, EtlError>)
    ensures r == ScanTop(items, sp)
  {
    var tracksData: seq<TrackRow> := [];
    var artistsData: seq<ArtistRow> := [];
    var seen: set<string> := {};
    var lookups: seq<string> := [];
    var i := 0;
    while i < |items|
      invariant 0 <= i <= |items|
      invariant seen == ArtistIds(artistsData)
      invariant TopLoop(items, sp, NoScan) == TopLoop(items[i..], sp, Scan([], tracksData, artistsData, lookups))
    {
      assert items[i..][1..] == items[i + 1..];
      var head :- ReadHead(items[i]);
      var genres :- LookupGenres(sp, head.artistId);
      lookups := lookups + [head.artistId];
      var tail :- ReadTail(items[i]);
      tracksData := tracksData + [TrackRowOf(head, tail)];
      if head.artistId !in seen {
        ArtistIdsSnoc(artistsData, ArtistRowOf(head, genres));
        artistsData := artistsData + [ArtistRowOf(head, genres)];
        seen := seen + {head.artistId};
      }
      i := i + 1;
    }
    assert items[i..] == [];
    var trackIds := TrackIds(tracksData);
    var features :- ReadFeatureEntries(sp.audioFeatures);
    r := Ok(TopBatch(tracksData, artistsData, features, lookups, trackIds));
  }
}
