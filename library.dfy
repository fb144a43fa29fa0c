/**
 * The track identity store of `library_manager.py`: an in-memory table of
 * track records keyed by Spotify track id, kept in insertion order like the
 * Python dict it models, with per-platform tri-state availability
 * (`None` = never searched, `True` = found, `False` = searched and not found)
 * and a set of Spotify playlist ids per track.  It is persisted as CSV rows;
 * a row is modelled as the map from column name to cell text that Python's
 * `csv` module reads and writes.
 */
module Library {
  import opened Wrappers
  import opened Dicts
  import opened Text
  import opened Ordering

  datatype Platform = Tidal | SoundCloud

  datatype TrackRecord = TrackRecord(
    spotifyId: string,
    tidalId: string,
    soundcloudId: string,
    trackName: string,
    artistName: string,
    albumName: string,
    playlistIds: set<string>,
    spotifyAvailable: Option<bool>,
    tidalAvailable: Option<bool>,
    soundcloudAvailable: Option<bool>,
    lastSynced: string,
    notes: string)
  {
    /** `track.get(f'{platform}_available')` */
    function Available(p: Platform): Option<bool> {
      if p == Tidal then tidalAvailable else soundcloudAvailable
    }

    /** `track.get(f'{platform}_id')` */
    function PlatformId(p: Platform): string {
      if p == Tidal then tidalId else soundcloudId
    }
  }

  /** Python truthiness of an optional string: present and non-empty. */
  predicate Truthy(s: Option<string>) {
    s.Some? && s.value != ""
  }

  // ---------------------------------------------------------------------
  // CSV field encoding
  // ---------------------------------------------------------------------

  /** `_parse_bool`: a missing cell, `''` and `'null'` (any case) are `None`;
      otherwise the cell is `True` exactly when it reads `'true'` in any case. */
  function ParseBool(value: Option<string>): Option<bool> {
    if value.None? || value.value == "" || Lower(value.value) == "null" then None
    else Some(Lower(value.value) == "true")
  }

  /** `_bool_to_str` */
  function BoolToStr(value: Option<bool>): string {
    match value
    case None => "null"
    case Some(b) => if b then "True" else "False"
  }

  /** The tri-state boolean survives a write and a read. */
  lemma BoolRoundTrip(value: Option<bool>)
    ensures ParseBool(Some(BoolToStr(value))) == value
  {
    match value
    case None =>
    case Some(b) =>
      if b {
        assert Lower("True") == "true";
      } else {
        assert Lower("False") == "false";
        assert Lower("False") != "null";
      }
  }

  /** Parsing ignores case, and only a spelling of `true` gives `True`. */
  lemma ParseBoolCases(s: string)
    ensures ParseBool(Some(s)) == Some(true) <==> Lower(s) == "true"
    ensures ParseBool(Some(s)) == None <==> s == "" || Lower(s) == "null"
    ensures ParseBool(Some("TRUE")) == Some(true)
    ensures ParseBool(Some("yes")) == Some(false)
  {
    assert Lower("TRUE") == "true";
    assert Lower("yes") == "yes";
  }

  /** Playlist ids that the comma-joined encoding can carry. */
  predicate EncodableIds(ids: set<string>) {
    forall id :: id in ids ==> id != "" && ',' !in id
  }

  /** `','.join(sorted(playlist_ids)) if playlist_ids else ''` */
  ghost function EncodePlaylistIds(ids: set<string>): string {
    if ids == {} then "" else Join(SortedElements(ids), ",")
  }

  /** `set(playlist_str.split(',')) if playlist_str else set()` */
  function DecodePlaylistIds(s: string): set<string> {
    if s == "" then {} else set x | x in Split(s, ",")
  }

  /** The membership set survives a write and a read when no id is empty or
      holds a comma, and the cell lists the ids in sorted order. */
  lemma PlaylistIdsRoundTrip(ids: set<string>)
    requires EncodableIds(ids)
    ensures DecodePlaylistIds(EncodePlaylistIds(ids)) == ids
    ensures ids != {} ==> Split(EncodePlaylistIds(ids), ",") == SortedElements(ids)
  {
    if ids != {} {
      var xs := SortedElements(ids);
      assert xs[0] in ids;
      SplitJoin(xs, ',');
      JoinNonEmpty(xs, ",");
      assert forall x :: x in Split(EncodePlaylistIds(ids), ",") <==> x in ids;
    }
  }

  /** A join whose first part is non-empty is non-empty. */
  lemma JoinNonEmpty(xs: seq<string>, sep: string)
    requires |xs| >= 1 && xs[0] != ""
    ensures Join(xs, sep) != ""
  {
  }

  /** An empty playlist id is lost: `{''}` is written as `''`, which reads back
      as the empty set. */
  lemma EmptyIdIsLost()
    ensures EncodePlaylistIds({""}) == ""
    ensures DecodePlaylistIds(EncodePlaylistIds({""})) == {}
  {
    var xs := SortedElements({""});
    assert xs[0] in {""};
    assert xs == [""];
  }

  /** A CSV row as `csv.DictReader` gives it: column name to cell text. */
  type CsvRow = map<string, string>

  /** `row.get(column)` with a missing cell read as the empty string. */
  function Cell(row: CsvRow, column: string): string {
    if column in row then row[column] else ""
  }

  function OptionalCell(row: CsvRow, column: string): Option<string> {
    if column in row then Some(row[column]) else None
  }

  /** One row of `_load_library`, stored under the given Spotify id. */
  function DecodeRow(id: string, row: CsvRow): TrackRecord {
    TrackRecord(
      id,
      Cell(row, "tidal_id"),
      Cell(row, "soundcloud_id"),
      Cell(row, "track_name"),
      Cell(row, "artist_name"),
      Cell(row, "album_name"),
      DecodePlaylistIds(Cell(row, "playlist_ids")),
      ParseBool(OptionalCell(row, "spotify_available")),
      ParseBool(OptionalCell(row, "tidal_available")),
      ParseBool(OptionalCell(row, "soundcloud_available")),
      Cell(row, "last_synced"),
      Cell(row, "notes"))
  }

  /** One row of `save_library`, over the twelve `FIELDNAMES` columns. */
  ghost function EncodeRow(t: TrackRecord): CsvRow {
    map[
      "spotify_id" := t.spotifyId,
      "tidal_id" := t.tidalId,
      "soundcloud_id" := t.soundcloudId,
      "track_name" := t.trackName,
      "artist_name" := t.artistName,
      "album_name" := t.albumName,
      "playlist_ids" := EncodePlaylistIds(t.playlistIds),
      "spotify_available" := BoolToStr(t.spotifyAvailable),
      "tidal_available" := BoolToStr(t.tidalAvailable),
      "soundcloud_available" := BoolToStr(t.soundcloudAvailable),
      "last_synced" := t.lastSynced,
      "notes" := t.notes]
  }

  /** A record survives being written as a row and read back. */
  lemma RowRoundTrip(t: TrackRecord)
    requires EncodableIds(t.playlistIds)
    ensures DecodeRow(t.spotifyId, EncodeRow(t)) == t
  {
    PlaylistIdsRoundTrip(t.playlistIds);
    BoolRoundTrip(t.spotifyAvailable);
    BoolRoundTrip(t.tidalAvailable);
    BoolRoundTrip(t.soundcloudAvailable);
  }

  /** Every record is stored under its own Spotify id. */
  ghost predicate WellKeyed(d: Dict<TrackRecord>) {
    forall k :: k in d.values ==> d.values[k].spotifyId == k
  }

  /** The body of the `for row in reader` loop of `_load_library`: rows with
      a missing or empty `spotify_id` are ignored, a repeated id overwrites. */
  function LoadRow(d: Dict<TrackRecord>, row: CsvRow): (d': Dict<TrackRecord>)
    requires d.Valid() && WellKeyed(d)
    ensures d'.Valid() && WellKeyed(d')
  {
    var id := Cell(row, "spotify_id");
    if id != "" then d.Put(id, DecodeRow(id, row)) else d
  }

  /** The table `_load_library` builds from the rows of the file. */
  function LoadRows(rows: seq<CsvRow>): (d: Dict<TrackRecord>)
    ensures d.Valid() && WellKeyed(d)
  {
    if rows == [] then Empty() else LoadRow(LoadRows(rows[..|rows| - 1]), rows[|rows| - 1])
  }

  /** The rows `save_library` writes, in table order. */
  ghost function SaveRows(d: Dict<TrackRecord>): (rows: seq<CsvRow>)
    requires d.Valid()
    ensures |rows| == |d.keys|
  {
    seq(|d.keys|, i requires 0 <= i < |d.keys| => EncodeRow(d.values[d.keys[i]]))
  }

  /** A table that can be saved without loss: no empty Spotify id (those rows
      are skipped on load) and encodable playlist ids. */
  ghost predicate Persistable(d: Dict<TrackRecord>) {
    && (forall k :: k in d.values ==> k != "")
    && (forall k :: k in d.values ==> EncodableIds(d.values[k].playlistIds))
  }

  /** The first `n` entries of a table. */
  ghost function Prefix(d: Dict<TrackRecord>, n: nat): Dict<TrackRecord>
    requires d.Valid() && n <= |d.keys|
  {
    Dict(d.keys[..n], map k | k in d.keys[..n] :: d.values[k])
  }

  /** Appending the next key to a prefix gives the next prefix. */
  lemma PrefixStep(d: Dict<TrackRecord>, n: nat)
    requires d.Valid() && n < |d.keys|
    ensures d.keys[n] !in Prefix(d, n).values
    ensures Prefix(d, n).Put(d.keys[n], d.values[d.keys[n]]) == Prefix(d, n + 1)
  {
    var k := d.keys[n];
    assert k !in d.keys[..n];
    assert d.keys[..n + 1] == d.keys[..n] + [k];
    assert Prefix(d, n).values[k := d.values[k]] == Prefix(d, n + 1).values;
  }

  /** The key column of a written row holds the record's Spotify id. */
  lemma EncodedKey(t: TrackRecord)
    ensures Cell(EncodeRow(t), "spotify_id") == t.spotifyId
  {
  }

  /** Loading the first `n` saved rows rebuilds the first `n` entries. */
  lemma {:induction false} LoadSavedPrefix(d: Dict<TrackRecord>, n: nat)
    requires d.Valid() && WellKeyed(d) && Persistable(d)
    requires n <= |d.keys|
    ensures LoadRows(SaveRows(d)[..n]) == Prefix(d, n)
  {
    if n == 0 {
      assert SaveRows(d)[..0] == [];
      assert Prefix(d, 0).values == map[];
    } else {
      var rows := SaveRows(d)[..n];
      assert rows[..n - 1] == SaveRows(d)[..n - 1];
      LoadSavedPrefix(d, n - 1);
      var k := d.keys[n - 1];
      var t := d.values[k];
      var row := rows[n - 1];
      assert row == EncodeRow(t);
      EncodedKey(t);
      RowRoundTrip(t);
      assert LoadRows(rows) == LoadRow(Prefix(d, n - 1), row);
      assert LoadRow(Prefix(d, n - 1), row) == Prefix(d, n - 1).Put(k, t);
      PrefixStep(d, n - 1);
    }
  }

  /** Saving the table and loading the file gives back the same table, in
      the same order. */
  lemma LoadSaved(d: Dict<TrackRecord>)
    requires d.Valid() && WellKeyed(d) && Persistable(d)
    ensures LoadRows(SaveRows(d)) == d
  {
    LoadSavedPrefix(d, |d.keys|);
    assert SaveRows(d)[..|d.keys|] == SaveRows(d);
    PrefixAll(d);
  }

  /** The prefix of all the keys is the whole table. */
  lemma PrefixAll(d: Dict<TrackRecord>)
    requires d.Valid()
    ensures Prefix(d, |d.keys|) == d
  {
    var p := Prefix(d, |d.keys|);
    assert d.keys[..|d.keys|] == d.keys;
    forall k ensures k in p.values <==> k in d.values {
      assert k in d.values <==> k in d.keys;
    }
    assert p.values == d.values;
  }

  /** A track with an empty Spotify id does not survive a save and a load. */
  lemma EmptySpotifyIdIsLost(t: TrackRecord)
    requires t.spotifyId == ""
    ensures LoadRows(SaveRows(Dict([""], map["" := t]))) == Empty()
  {
    var rows := SaveRows(Dict([""], map["" := t]));
    assert rows == [EncodeRow(t)];
    EncodedKey(t);
    assert rows[..0] == [];
    assert LoadRows(rows) == LoadRow(Empty(), EncodeRow(t));
  }

  // ---------------------------------------------------------------------
  // Queries over the records, in table order
  // ---------------------------------------------------------------------

  /** `get_tracks_for_playlist`: the records listing the playlist, in order. */
  function TracksForPlaylist(recs: seq<TrackRecord>, playlistId: string): (r: seq<TrackRecord>)
    ensures |r| <= |recs|
    ensures forall t :: t in r <==> t in recs && playlistId in t.playlistIds
  {
    if recs == [] then []
    else
      var last := recs[|recs| - 1];
      var init := recs[..|recs| - 1];
      assert recs == init + [last];
      TracksForPlaylist(init, playlistId) + (if playlistId in last.playlistIds then [last] else [])
  }

  /** A member of a playlist still needs a search on the platform: it was
      never searched, or it was found but its platform id is missing. */
  predicate NeedsSync(t: TrackRecord, p: Platform) {
    t.Available(p) == None || (t.Available(p) == Some(true) && t.PlatformId(p) == "")
  }

  /** What `get_unsynced_tracks_for_playlist` returns for the records. */
  function Unsynced(recs: seq<TrackRecord>, playlistId: string, p: Platform): (r: seq<TrackRecord>)
    ensures |r| <= |recs|
    ensures forall t :: t in r <==> t in recs && playlistId in t.playlistIds && NeedsSync(t, p)
  {
    if recs == [] then []
    else
      var last := recs[|recs| - 1];
      var init := recs[..|recs| - 1];
      assert recs == init + [last];
      Unsynced(init, playlistId, p)
        + (if playlistId in last.playlistIds && NeedsSync(last, p) then [last] else [])
  }

  /** One more record extends the unsynced list by at most that record. */
  lemma UnsyncedStep(recs: seq<TrackRecord>, i: nat, playlistId: string, p: Platform)
    requires i < |recs|
    ensures Unsynced(recs[..i + 1], playlistId, p)
            == Unsynced(recs[..i], playlistId, p)
               + (if playlistId in recs[i].playlistIds && NeedsSync(recs[i], p) then [recs[i]] else [])
  {
    assert recs[..i + 1][..i] == recs[..i];
  }

  /** `get_unavailable_tracks`: the records searched and not found. */
  function Unavailable(recs: seq<TrackRecord>, p: Platform): (r: seq<TrackRecord>)
    ensures |r| <= |recs|
    ensures forall t :: t in r <==> t in recs && t.Available(p) == Some(false)
  {
    if recs == [] then []
    else
      var last := recs[|recs| - 1];
      var init := recs[..|recs| - 1];
      assert recs == init + [last];
      Unavailable(init, p) + (if last.Available(p) == Some(false) then [last] else [])
  }

  /** The records of `recs` that `keep` accepts, in table order: what a list
      comprehension with a condition gives. */
  function Filter(recs: seq<TrackRecord>, keep: TrackRecord -> bool): seq<TrackRecord>
    decreases |recs|
  {
    if recs == [] then []
    else Filter(recs[..|recs| - 1], keep) + (if keep(recs[|recs| - 1]) then [recs[|recs| - 1]] else [])
  }

  /** Filtering keeps order: the records of a concatenation are those of the
      first part followed by those of the second. */
  lemma {:induction false} FilterConcat(a: seq<TrackRecord>, b: seq<TrackRecord>, keep: TrackRecord -> bool)
    ensures Filter(a + b, keep) == Filter(a, keep) + Filter(b, keep)
    decreases |b|
  {
    if b == [] {
      assert a + b == a;
    } else {
      var n := |b| - 1;
      assert (a + b)[..|a + b| - 1] == a + b[..n];
      FilterConcat(a, b[..n], keep);
    }
  }

  /** The condition of `get_tracks_for_playlist`. */
  function ListsPlaylist(playlistId: string): TrackRecord -> bool {
    (t: TrackRecord) => playlistId in t.playlistIds
  }

  /** The condition of `get_unsynced_tracks_for_playlist`. */
  function NeedsSyncIn(playlistId: string, p: Platform): TrackRecord -> bool {
    (t: TrackRecord) => playlistId in t.playlistIds && NeedsSync(t, p)
  }

  /** The condition of `get_unavailable_tracks`. */
  function NotFoundOn(p: Platform): TrackRecord -> bool {
    (t: TrackRecord) => t.Available(p) == Some(false)
  }

  /** The three queries are order-keeping filters of the table. */
  lemma {:induction false} QueriesAreFilters(recs: seq<TrackRecord>, playlistId: string, p: Platform)
    ensures TracksForPlaylist(recs, playlistId) == Filter(recs, ListsPlaylist(playlistId))
    ensures Unsynced(recs, playlistId, p) == Filter(recs, NeedsSyncIn(playlistId, p))
    ensures Unavailable(recs, p) == Filter(recs, NotFoundOn(p))
    decreases |recs|
  {
    if recs != [] {
      QueriesAreFilters(recs[..|recs| - 1], playlistId, p);
    }
  }

  /** Each query keeps table order: on a concatenated table it gives the
      records of the first part followed by those of the second. */
  lemma QueriesKeepOrder(a: seq<TrackRecord>, b: seq<TrackRecord>, playlistId: string, p: Platform)
    ensures TracksForPlaylist(a + b, playlistId) == TracksForPlaylist(a, playlistId) + TracksForPlaylist(b, playlistId)
    ensures Unsynced(a + b, playlistId, p) == Unsynced(a, playlistId, p) + Unsynced(b, playlistId, p)
    ensures Unavailable(a + b, p) == Unavailable(a, p) + Unavailable(b, p)
  {
    QueriesAreFilters(a + b, playlistId, p);
    QueriesAreFilters(a, playlistId, p);
    QueriesAreFilters(b, playlistId, p);
    FilterConcat(a, b, ListsPlaylist(playlistId));
    FilterConcat(a, b, NeedsSyncIn(playlistId, p));
    FilterConcat(a, b, NotFoundOn(p));
  }

  /** The number of records whose availability is `v`. */
  function CountAvailability(recs: seq<TrackRecord>, p: Platform, v: Option<bool>): (n: nat)
    ensures n <= |recs|
  {
    if recs == [] then 0
    else CountAvailability(recs[..|recs| - 1], p, v) + (if recs[|recs| - 1].Available(p) == v then 1 else 0)
  }

  /** The positions of the records whose availability is `v`. */
  function IndicesWith(recs: seq<TrackRecord>, p: Platform, v: Option<bool>): set<nat> {
    set i: nat | i < |recs| && recs[i].Available(p) == v
  }

  /** The count is the number of records with that availability. */
  lemma {:induction false} CountAvailabilityIndices(recs: seq<TrackRecord>, p: Platform, v: Option<bool>)
    ensures CountAvailability(recs, p, v) == |IndicesWith(recs, p, v)|
  {
    if recs != [] {
      var n := |recs| - 1;
      CountAvailabilityIndices(recs[..n], p, v);
      IndicesWithLast(recs, p, v);
    }
  }

  /** The last record adds its own position, or nothing, to those before it. */
  lemma IndicesWithLast(recs: seq<TrackRecord>, p: Platform, v: Option<bool>)
    requires recs != []
    ensures var n := |recs| - 1;
            && n !in IndicesWith(recs[..n], p, v)
            && IndicesWith(recs, p, v)
               == IndicesWith(recs[..n], p, v) + (if recs[n].Available(p) == v then {n} else {})
  {
    var n := |recs| - 1;
    var init := recs[..n];
    var extra: set<nat> := if recs[n].Available(p) == v then {n} else {};
    forall i: nat ensures i in IndicesWith(recs, p, v) <==> i in IndicesWith(init, p, v) + extra {
      if i < n {
        assert init[i] == recs[i];
      }
    }
  }

  /** Available, unavailable and unsearched records together are all records. */
  lemma {:induction false} AvailabilityPartition(recs: seq<TrackRecord>, p: Platform)
    ensures CountAvailability(recs, p, Some(true)) + CountAvailability(recs, p, Some(false))
            + CountAvailability(recs, p, None) == |recs|
  {
    if recs != [] {
      AvailabilityPartition(recs[..|recs| - 1], p);
      match recs[|recs| - 1].Available(p)
      case None =>
      case Some(b) =>
    }
  }

  /** The unavailable count is the length of `get_unavailable_tracks`. */
  lemma {:induction false} UnavailableCount(recs: seq<TrackRecord>, p: Platform)
    ensures |Unavailable(recs, p)| == CountAvailability(recs, p, Some(false))
  {
    if recs != [] {
      UnavailableCount(recs[..|recs| - 1], p);
    }
  }

  /** `available / (available + unavailable) * 100`, or 0 without any search
      result; exact arithmetic stands for the float. */
  function MatchRate(available: nat, unavailable: nat): (r: real)
    ensures available + unavailable == 0 ==> r == 0.0
    ensures available + unavailable > 0 ==>
              r * (available + unavailable) as real == 100.0 * available as real
    ensures 0.0 <= r <= 100.0
  {
    if available + unavailable > 0 then
      (available as real) / ((available + unavailable) as real) * 100.0
    else 0.0
  }

  datatype PlatformStats = PlatformStats(available: nat, unavailable: nat, unsearched: nat, matchRate: real)

  datatype SyncStats = SyncStats(totalTracks: nat, tidal: PlatformStats, soundcloud: PlatformStats)

  /** One platform's part of `get_sync_stats`: the records whose
      availability `is True`, `is False` and `is None`, and the match rate of
      the first two. */
  function StatsFor(recs: seq<TrackRecord>, p: Platform): (s: PlatformStats)
    ensures s.available == CountAvailability(recs, p, Some(true))
    ensures s.unavailable == CountAvailability(recs, p, Some(false))
    ensures s.unsearched == CountAvailability(recs, p, None)
    ensures s.matchRate == MatchRate(s.available, s.unavailable)
    ensures s.available + s.unavailable + s.unsearched == |recs|
  {
    AvailabilityPartition(recs, p);
    var a := CountAvailability(recs, p, Some(true));
    var u := CountAvailability(recs, p, Some(false));
    PlatformStats(a, u, CountAvailability(recs, p, None), MatchRate(a, u))
  }

  /** `get_sync_stats` over the given records. */
  function SyncStatsOf(recs: seq<TrackRecord>): (s: SyncStats)
    ensures s.totalTracks == |recs|
    ensures s.tidal == StatsFor(recs, Tidal) && s.soundcloud == StatsFor(recs, SoundCloud)
    ensures s.tidal.available + s.tidal.unavailable + s.tidal.unsearched == s.totalTracks
    ensures s.soundcloud.available + s.soundcloud.unavailable + s.soundcloud.unsearched == s.totalTracks
  {
    SyncStats(|recs|, StatsFor(recs, Tidal), StatsFor(recs, SoundCloud))
  }

  /** Eight found and two missing tracks give a match rate of 80; no search
      result at all gives 0 rather than a division by zero. */
  lemma MatchRateExamples()
    ensures MatchRate(8, 2) == 80.0
    ensures MatchRate(0, 0) == 0.0
  {
  }

  // ---------------------------------------------------------------------
  // The manager object
  // ---------------------------------------------------------------------

  /** The record `add_track` creates for an id it has not seen. */
  function NewRecord(spotifyId: string, trackName: string, artistName: string,
                     albumName: string, playlistId: Option<string>): TrackRecord
  {
    TrackRecord(spotifyId, "", "", trackName, artistName, albumName,
                if Truthy(playlistId) then {playlistId.value} else {},
                Some(true), None, None, "", "")
  }

  class LibraryManager {
    /** `self.tracks`: Spotify id to record, in insertion order. */
    var tracks: Dict<TrackRecord>

    ghost predicate Valid()
      reads this
    {
      tracks.Valid() && WellKeyed(tracks)
    }

    /** The records in table order, as `self.tracks.values()` yields them. */
    function Records(): (recs: seq<TrackRecord>)
      reads this
      requires Valid()
      ensures |recs| == |tracks.keys|
    {
      tracks.Values()
    }

    /** `LibraryManager(library_file)`: the table is built from the file's
        rows, one `for` iteration per row. */
    constructor (rows: seq<CsvRow>)
      ensures Valid()
      ensures tracks == LoadRows(rows)
    {
      var loaded := Empty();
      var i := 0;
      while i < |rows|
        invariant 0 <= i <= |rows|
        invariant loaded == LoadRows(rows[..i])
      {
        assert rows[..i + 1][..i] == rows[..i];
        var id := Cell(rows[i], "spotify_id");
        if id != "" {
          loaded := loaded.Put(id, DecodeRow(id, rows[i]));
        }
        i := i + 1;
      }
      assert rows[..i] == rows;
      tracks := loaded;
    }

    /** The rows `save_library` writes. */
    ghost function SaveLibrary(): seq<CsvRow>
      reads this
      requires Valid()
    {
      SaveRows(tracks)
    }

    /** `add_track`: a new id gets a fresh record at the end of the table; a
        known id keeps its place, its platform fields and its availability,
        gains the playlist, takes the new title and artist, and takes the new
        album only when one is given.  No other record changes. */
    method AddTrack(spotifyId: string, trackName: string, artistName: string,
                    albumName: string, playlistId: Option<string>) returns (track: TrackRecord)
      requires Valid()
      modifies this
      ensures Valid()
      ensures spotifyId in tracks.values && track == tracks.values[spotifyId]
      ensures tracks.values.Keys == old(tracks.values.Keys) + {spotifyId}
      ensures forall k :: k in old(tracks.values) && k != spotifyId ==> tracks.values[k] == old(tracks.values[k])
      ensures spotifyId !in old(tracks.values) ==>
                tracks.keys == old(tracks.keys) + [spotifyId]
                && track == NewRecord(spotifyId, trackName, artistName, albumName, playlistId)
      ensures spotifyId in old(tracks.values) ==>
                var before := old(tracks.values[spotifyId]);
                && tracks.keys == old(tracks.keys)
                && track.playlistIds == before.playlistIds + (if Truthy(playlistId) then {playlistId.value} else {})
                && track.trackName == trackName
                && track.artistName == artistName
                && track.albumName == (if albumName != "" then albumName else before.albumName)
                && track.tidalId == before.tidalId && track.tidalAvailable == before.tidalAvailable
                && track.soundcloudId == before.soundcloudId
                && track.soundcloudAvailable == before.soundcloudAvailable
                && track.spotifyAvailable == before.spotifyAvailable
                && track.lastSynced == before.lastSynced && track.notes == before.notes
    {
      if spotifyId in tracks.values {
        track := tracks.values[spotifyId];
        if Truthy(playlistId) {
          track := track.(playlistIds := track.playlistIds + {playlistId.value});
        }
        track := track.(trackName := trackName, artistName := artistName);
        if albumName != "" {
          track := track.(albumName := albumName);
        }
      } else {
        track := NewRecord(spotifyId, trackName, artistName, albumName, playlistId);
      }
      tracks := tracks.Put(spotifyId, track);
    }

    /** `set_tidal_id`: an unknown id changes nothing; otherwise the record
        takes the TIDAL id (`''` for `None`), the availability and the time. */
    method SetTidalId(spotifyId: string, tidalId: Option<string>, available: bool, now: string)
      requires Valid()
      modifies this
      ensures Valid()
      ensures tracks.keys == old(tracks.keys)
      ensures spotifyId !in old(tracks.values) ==> tracks == old(tracks)
      ensures spotifyId in old(tracks.values) ==>
                tracks.values == old(tracks.values)[spotifyId := old(tracks.values[spotifyId]).(
                  tidalId := tidalId.GetOr(""), tidalAvailable := Some(available), lastSynced := now)]
    {
      if spotifyId !in tracks.values {
        return;
      }
      var track := tracks.values[spotifyId];
      track := track.(tidalId := tidalId.GetOr(""), tidalAvailable := Some(available), lastSynced := now);
      tracks := tracks.Put(spotifyId, track);
    }

    /** `get_track` */
    function GetTrack(spotifyId: string): (r: Option<TrackRecord>)
      reads this
      requires Valid()
      ensures r.Some? <==> spotifyId in tracks.values
      ensures r.Some? ==> r.value.spotifyId == spotifyId && r.value == tracks.values[spotifyId]
    {
      if spotifyId in tracks.values then Some(tracks.values[spotifyId]) else None
    }

    /** `get_unsynced_tracks_for_playlist`, with its `for` loop over the table. */
    method UnsyncedTracksForPlaylist(playlistId: string, p: Platform) returns (unsynced: seq<TrackRecord>)
      requires Valid()
      ensures unsynced == Unsynced(Records(), playlistId, p)
    {
      var recs := Records();
      unsynced := [];
      var i := 0;
      assert recs[..0] == [];
      while i < |recs|
        invariant 0 <= i <= |recs|
        invariant unsynced == Unsynced(recs[..i], playlistId, p)
      {
        var track := recs[i];
        UnsyncedStep(recs, i, playlistId, p);
        if playlistId in track.playlistIds {
          var availability := track.Available(p);
          if availability == None || (availability == Some(true) && track.PlatformId(p) == "") {
            unsynced := unsynced + [track];
          }
        }
        i := i + 1;
      }
      assert recs[..i] == recs;
    }

    /** `is_playlist_synced`: every given Spotify id is in the table, lists
        the playlist, and has been searched on the platform. */
    method IsPlaylistSynced(playlistId: string, spotifyTrackIds: set<string>, p: Platform) returns (synced: bool)
      requires Valid()
      ensures synced <==> forall id :: id in spotifyTrackIds ==>
                            && id in tracks.values
                            && playlistId in tracks.values[id].playlistIds
                            && tracks.values[id].Available(p).Some?
    {
      var rest := spotifyTrackIds;
      while rest != {}
        invariant rest <= spotifyTrackIds
        invariant forall id :: id in spotifyTrackIds - rest ==>
                    && id in tracks.values
                    && playlistId in tracks.values[id].playlistIds
                    && tracks.values[id].Available(p).Some?
        decreases |rest|
      {
        var id :| id in rest;
        var track := GetTrack(id);
        if track.None? {
          return false;
        }
        if playlistId !in track.value.playlistIds {
          return false;
        }
        if track.value.Available(p).None? {
          return false;
        }
        rest := rest - {id};
      }
      return true;
    }

    /** `get_sync_stats(playlist_id)`: over the playlist's records when an id
        is given, over the whole table otherwise. */
    function GetSyncStats(playlistId: Option<string>): (s: SyncStats)
      reads this
      requires Valid()
      ensures s == SyncStatsOf(if Truthy(playlistId) then TracksForPlaylist(Records(), playlistId.value) else Records())
      ensures !Truthy(playlistId) ==> s.totalTracks == |tracks.keys|
      ensures Truthy(playlistId) ==> s.totalTracks == |TracksForPlaylist(Records(), playlistId.value)|
    {
      SyncStatsOf(if Truthy(playlistId) then TracksForPlaylist(Records(), playlistId.value) else Records())
    }
  }
}
