/**
 * The checkpointed transfer engine `SpotifyToTidalTransfer` of
 * `spotify_to_tidal_transfer.py`: it keeps the checkpoint document in memory
 * and persists it after every state change, looks TIDAL playlists up by name
 * in a cache, decides whether a playlist is already synced by comparing
 * track counts, and transfers playlists track by track with a resume cursor.
 *
 * Every call into Spotify or TIDAL is an input (`Remote`); the file on disk is
 * the field `saved`.
 */
module Transfer {
  import opened Wrappers
  import opened Dicts
  import opened Checkpoints
  import opened TransferLoop

  // ---------------------------------------------------------------------
  // The "already synced" test and the playlist cache
  // ---------------------------------------------------------------------

  /** `int(spotify_track_count * 0.80)`: four fifths of the count, rounded
      down. */
  function MinExpected(n: nat): (t: nat)
    ensures 5 * t <= 4 * n < 5 * (t + 1)
  {
    4 * n / 5
  }

  /** `tidal_track_count >= min_expected` */
  predicate CountSynced(tidalCount: nat, spotifyCount: nat) {
    tidalCount >= MinExpected(spotifyCount)
  }

  /** A TIDAL count passes the test exactly when five times one more than it
      exceeds four times the Spotify count. */
  lemma CountSyncedIff(tidalCount: nat, spotifyCount: nat)
    ensures CountSynced(tidalCount, spotifyCount) <==> 5 * (tidalCount + 1) > 4 * spotifyCount
  {
    var t := MinExpected(spotifyCount);
    if tidalCount >= t {
      assert 5 * (tidalCount + 1) >= 5 * (t + 1);
    } else {
      assert 5 * (tidalCount + 1) <= 5 * t;
    }
  }

  /** 40 of 50 tracks is synced, 39 of 50 is not; an empty Spotify playlist
      is synced by any TIDAL playlist of that name. */
  lemma CountSyncedExamples()
    ensures CountSynced(40, 50) && !CountSynced(39, 50)
    ensures forall c: nat :: CountSynced(c, 0)
  {
  }

  /** More TIDAL tracks never turn a synced playlist into an unsynced one. */
  lemma CountSyncedMonotone(a: nat, b: nat, spotifyCount: nat)
    requires a <= b && CountSynced(a, spotifyCount)
    ensures CountSynced(b, spotifyCount)
  {
  }

  /** One `tidal_playlist_cache` value: the TIDAL playlist id and its track
      count when known. */
  datatype CacheEntry = CacheEntry(id: string, trackCount: Option<nat>)

  /** `find_tidal_playlist_by_name` */
  function FindTidalPlaylistByName(cache: map<string, CacheEntry>, name: string): (r: Option<string>)
    ensures r.Some? <==> name in cache
    ensures r.Some? ==> r.value == cache[name].id
  {
    if name in cache then Some(cache[name].id) else None
  }

  /** The TIDAL playlist a transfer writes into, when one exists already:
      the id bound in the checkpoint entry takes precedence over the name
      lookup; an empty id counts as none. */
  function Binding(e: PlaylistEntry, cache: map<string, CacheEntry>, name: string): (r: Option<string>)
    ensures r.Some? ==> r.value != ""
    ensures e.tidalPlaylistId.Some? && e.tidalPlaylistId.value != "" ==> r == e.tidalPlaylistId
  {
    var bound := if e.tidalPlaylistId.Some? && e.tidalPlaylistId.value != "" then e.tidalPlaylistId
                 else FindTidalPlaylistByName(cache, name);
    if bound.Some? && bound.value != "" then bound else None
  }

  /** A new TIDAL playlist is needed only when neither the entry nor the
      cache names one. */
  lemma BindingNone(e: PlaylistEntry, cache: map<string, CacheEntry>, name: string)
    ensures Binding(e, cache, name).None? <==>
              (e.tidalPlaylistId.None? || e.tidalPlaylistId.value == "")
              && (name !in cache || cache[name].id == "")
  {
  }

  // ---------------------------------------------------------------------
  // Results, statistics and the remote services
  // ---------------------------------------------------------------------

  /** The dict `transfer_playlist` returns. */
  datatype TransferResult =
    | Skipped(reason: string)
    | Failed(reason: string)
    | Transferred(name: string, total: nat, found: nat, notFound: nat, skipped: nat)

  /** `self.stats` without the start time. */
  datatype Stats = Stats(playlistsProcessed: nat, playlistsAlreadySynced: nat,
                         totalTracksFound: nat, totalTracksNotFound: nat)

  /** The answers of Spotify and TIDAL. */
  datatype Remote = Remote(
    /** `get_all_playlist_tracks(spotify_id)` */
    tracksOf: string -> seq<Track>,
    /** `search_tidal_track(name, artist)` */
    search: (string, string) -> Option<int>,
    /** `get_tidal_playlist_track_ids(tidal_id)` */
    playlistTrackIds: string -> set<string>,
    /** `get_tidal_playlist_track_count(tidal_id)` */
    trackCount: string -> nat,
    /** `create_tidal_playlist(name, ...)` */
    createPlaylist: string -> Option<string>,
    /** success of the k-th `add_tracks_to_tidal_playlist` call of the
        transfer of a Spotify playlist */
    addOk: string -> nat -> bool)

  /** One `add_tracks_to_tidal_playlist` call. */
  datatype Write = Write(tidalPlaylistId: string, call: AddCall)

  function WritesTo(tidalId: string, calls: seq<AddCall>): (ws: seq<Write>)
    ensures |ws| == |calls|
  {
    seq(|calls|, i requires 0 <= i < |calls| => Write(tidalId, calls[i]))
  }

  /** The writes of a sequence of calls are those of its parts, in order. */
  lemma WritesToConcat(w0: seq<Write>, tidalId: string, calls: seq<AddCall>, more: seq<AddCall>)
    ensures w0 + WritesTo(tidalId, calls + more) == (w0 + WritesTo(tidalId, calls)) + WritesTo(tidalId, more)
  {
    assert WritesTo(tidalId, calls + more) == WritesTo(tidalId, calls) + WritesTo(tidalId, more);
  }

  /** `checkpoint_entry` with the loop's counters written into it. */
  function WithCounters(e: PlaylistEntry, s: LoopState): PlaylistEntry {
    e.(tracksProcessed := s.cursor, tracksFound := s.savedFound, tracksNotFound := s.savedNotFound)
  }

  /** A snapshot in which the playlist is in progress and bound to `tidalId`. */
  ghost predicate BoundInProgress(f: StoredFile, spotifyId: string, tidalId: string) {
    && f.Stored?
    && f.doc.Entry(spotifyId).status == Some(InProgress)
    && f.doc.Entry(spotifyId).tidalPlaylistId == Some(tidalId)
  }

  /** The TIDAL playlist `transfer_playlist` writes into: the bound one, or
      else the one it creates, unless the creation gives no id. */
  function Target(e: PlaylistEntry, cache: map<string, CacheEntry>, name: string, remote: Remote): (r: Option<string>)
    ensures r.Some? ==> r.value != ""
    ensures Binding(e, cache, name).Some? ==> r == Binding(e, cache, name)
  {
    var bound := Binding(e, cache, name);
    if bound.Some? then bound
    else
      var made := remote.createPlaylist(name);
      if made.Some? && made.value != "" then made else None
  }

  /** The ids the target playlist holds before the transfer: those TIDAL
      lists for a bound playlist, none for a new one. */
  function ExistingIds(e: PlaylistEntry, cache: map<string, CacheEntry>, name: string, remote: Remote): set<string> {
    var bound := Binding(e, cache, name);
    if bound.Some? then remote.playlistTrackIds(bound.value) else {}
  }

  /** The loop of `transfer_playlist` over `tracks`, resumed from entry `e`. */
  function PlaylistLoop(spotifyId: string, e: PlaylistEntry, tracks: seq<Track>, existing: set<string>,
                        remote: Remote): LoopState
  {
    var todo := TracksFrom(tracks, e.tracksProcessed);
    RunTracks(StartState(e.tracksProcessed, e.tracksFound, e.tracksNotFound, existing),
              todo, e.tracksProcessed, |todo|, remote.search, remote.addOk(spotifyId))
  }

  /** The entry `transfer_playlist` leaves for a finished playlist. */
  function CompletedEntry(e: PlaylistEntry, tidalId: string, total: nat, s: LoopState): (r: PlaylistEntry)
    ensures r.status == Some(Completed) && r.tidalPlaylistId == Some(tidalId) && r.name == e.name
    ensures r.tracksProcessed == total && r.tracksFound == s.found && r.tracksNotFound == s.notFound
  {
    e.(tidalPlaylistId := Some(tidalId), status := Some(Completed),
       tracksProcessed := total, tracksFound := s.found, tracksNotFound := s.notFound)
  }

  /** The ids of a list of playlists. */
  function PlaylistIds(ps: seq<PlaylistInfo>): set<string> {
    set i | 0 <= i < |ps| :: ps[i].id
  }

  /** Each of the first `n` playlists is completed in `doc`, or its transfer
      reported an error. */
  ghost predicate Settled(ps: seq<PlaylistInfo>, n: nat, doc: Checkpoint, failed: set<string>)
    requires n <= |ps|
  {
    forall j :: 0 <= j < n ==> ps[j].id in failed || doc.Entry(ps[j].id).status == Some(Completed)
  }

  /** A pass that changes only the entry of playlist `i`, and leaves it
      completed or records an error for it, settles one more playlist. */
  lemma SettledStep(ps: seq<PlaylistInfo>, i: nat, doc: Checkpoint, doc': Checkpoint,
                    failed: set<string>, failed': set<string>)
    requires i < |ps| && Settled(ps, i, doc, failed) && failed <= failed'
    requires forall id :: id != ps[i].id ==> doc'.Entry(id) == doc.Entry(id)
    requires ps[i].id in failed' || doc'.Entry(ps[i].id).status == Some(Completed)
    ensures Settled(ps, i + 1, doc', failed')
  {
    forall j | 0 <= j < i + 1
      ensures ps[j].id in failed' || doc'.Entry(ps[j].id).status == Some(Completed)
    {
      if ps[j].id != ps[i].id {
        assert doc'.Entry(ps[j].id) == doc.Entry(ps[j].id);
      }
    }
  }

  /** No result in the list reports an error. */
  predicate NoFailure(results: seq<TransferResult>) {
    forall j :: 0 <= j < |results| ==> !results[j].Failed?
  }

  /** The ids of the playlists whose transfer reported an error, where
      `ids[j]` is the playlist whose transfer gave `results[j]`. */
  function FailedIds(ids: seq<string>, results: seq<TransferResult>): set<string>
    requires |ids| == |results|
  {
    if results == [] then {}
    else FailedIds(ids[..|ids| - 1], results[..|results| - 1])
         + (if results[|results| - 1].Failed? then {ids[|ids| - 1]} else {})
  }

  lemma FailedIdsAppend(ids: seq<string>, results: seq<TransferResult>, id: string, r: TransferResult)
    requires |ids| == |results|
    ensures FailedIds(ids + [id], results + [r]) == FailedIds(ids, results) + (if r.Failed? then {id} else {})
  {
    assert (ids + [id])[..|ids|] == ids;
    assert (results + [r])[..|results|] == results;
  }

  /** A playlist is among the failed ones exactly when one of its transfers
      reported an error. */
  lemma {:induction false} FailedIdsIff(ids: seq<string>, results: seq<TransferResult>, id: string)
    requires |ids| == |results|
    ensures id in FailedIds(ids, results) <==>
              exists j :: 0 <= j < |results| && ids[j] == id && results[j].Failed?
  {
    if results != [] {
      var n := |results| - 1;
      var ids', results' := ids[..n], results[..n];
      FailedIdsIff(ids', results', id);
      if id in FailedIds(ids, results) {
        if id in FailedIds(ids', results') {
          var j :| 0 <= j < n && ids'[j] == id && results'[j].Failed?;
          assert ids[j] == id && results[j].Failed?;
        } else {
          assert ids[n] == id && results[n].Failed?;
        }
      }
      if exists j :: 0 <= j < |results| && ids[j] == id && results[j].Failed? {
        var j :| 0 <= j < |results| && ids[j] == id && results[j].Failed?;
        if j < n {
          assert ids'[j] == id && results'[j].Failed?;
        }
      }
    }
  }

  /** A run reports no error exactly when no playlist is among the failed
      ones. */
  lemma NoFailureIff(ids: seq<string>, results: seq<TransferResult>)
    requires |ids| == |results|
    ensures NoFailure(results) <==> FailedIds(ids, results) == {}
  {
    if !NoFailure(results) {
      var j :| 0 <= j < |results| && results[j].Failed?;
      FailedIdsIff(ids, results, ids[j]);
    }
    if FailedIds(ids, results) != {} {
      var id :| id in FailedIds(ids, results);
      FailedIdsIff(ids, results, id);
    }
  }

  /** The dict `transfer_playlist` returns for playlist `p`, resumed from
      entry `e` with the playlist cache `cache`. */
  function TransferOutcome(p: PlaylistInfo, e: PlaylistEntry, cache: map<string, CacheEntry>,
                           remote: Remote): TransferResult
  {
    var tracks := remote.tracksOf(p.id);
    var target := Target(e, cache, p.name, remote);
    if p.total == 0 then Skipped("empty")
    else if tracks == [] then Failed("no_tracks")
    else if target.None? then Failed("playlist_creation_failed")
    else
      var s := PlaylistLoop(p.id, e, tracks, ExistingIds(e, cache, p.name, remote), remote);
      Transferred(p.name, |tracks|, s.found, s.notFound, s.skipped)
  }

  /** The track writes `transfer_playlist` sends for that playlist. */
  function TransferWrites(p: PlaylistInfo, e: PlaylistEntry, cache: map<string, CacheEntry>,
                          remote: Remote): seq<Write>
  {
    var tracks := remote.tracksOf(p.id);
    var target := Target(e, cache, p.name, remote);
    if p.total == 0 || tracks == [] || target.None? then []
    else WritesTo(target.value, FinalCalls(PlaylistLoop(p.id, e, tracks, ExistingIds(e, cache, p.name, remote), remote)))
  }

  /** A transfer that reports an error or skips the playlist writes nothing
      to TIDAL; every write of a completed one goes to its target. */
  lemma WritesOfOutcome(p: PlaylistInfo, e: PlaylistEntry, cache: map<string, CacheEntry>, remote: Remote)
    ensures !TransferOutcome(p, e, cache, remote).Transferred? ==> TransferWrites(p, e, cache, remote) == []
    ensures TransferOutcome(p, e, cache, remote).Transferred? ==>
              forall w :: w in TransferWrites(p, e, cache, remote) ==>
                Some(w.tidalPlaylistId) == Target(e, cache, p.name, remote)
  {
  }

  /** The transfer looks only at the id a cache entry holds, not at its
      track count. */
  lemma OutcomeIgnoresCounts(p: PlaylistInfo, e: PlaylistEntry, c1: map<string, CacheEntry>,
                             c2: map<string, CacheEntry>, remote: Remote)
    requires p.name in c1 <==> p.name in c2
    requires p.name in c1 ==> c1[p.name].id == c2[p.name].id
    ensures TransferOutcome(p, e, c1, remote) == TransferOutcome(p, e, c2, remote)
    ensures TransferWrites(p, e, c1, remote) == TransferWrites(p, e, c2, remote)
  {
    assert Binding(e, c1, p.name) == Binding(e, c2, p.name);
  }

  /** The track count of a cached TIDAL playlist: the remembered one, or
      else the one TIDAL reports. */
  function CachedCount(c: CacheEntry, trackCount: string -> nat): nat {
    if c.trackCount.Some? then c.trackCount.value else trackCount(c.id)
  }

  /** The cache after `is_playlist_synced` looked playlist `name` up: the
      count is remembered. */
  function Probed(cache: map<string, CacheEntry>, name: string, trackCount: string -> nat): map<string, CacheEntry> {
    if name in cache then cache[name := CacheEntry(cache[name].id, Some(CachedCount(cache[name], trackCount)))]
    else cache
  }

  /** What `is_playlist_synced` answers for `p` with that cache. */
  predicate SyncedBy(cache: map<string, CacheEntry>, p: PlaylistInfo, trackCount: string -> nat) {
    p.name in cache && CountSynced(CachedCount(cache[p.name], trackCount), p.total)
  }

  /** Looking a playlist up keeps every cached id, so the transfer that
      follows is the one it would have been. */
  lemma ProbedKeepsOutcome(p: PlaylistInfo, e: PlaylistEntry, cache: map<string, CacheEntry>, remote: Remote)
    ensures var c := Probed(cache, p.name, remote.trackCount);
            && TransferOutcome(p, e, c, remote) == TransferOutcome(p, e, cache, remote)
            && TransferWrites(p, e, c, remote) == TransferWrites(p, e, cache, remote)
  {
    OutcomeIgnoresCounts(p, e, Probed(cache, p.name, remote.trackCount), cache, remote);
  }

  // ---------------------------------------------------------------------
  // The playlist loop of `run`, as a value
  // ---------------------------------------------------------------------

  /** What the playlist loop of `run` reads and changes: the checkpoint
      document, the playlist cache, the statistics, the TIDAL writes, and the
      names of the playlists whose creation was attempted. */
  datatype RunState = RunState(doc: Checkpoint, cache: map<string, CacheEntry>, stats: Stats,
                               writes: seq<Write>, created: seq<string>)

  /** `transfer_playlist(p)` with entry `e`: its writes, and the document,
      cache, creations and statistics it leaves. */
  function TransferState(p: PlaylistInfo, e: PlaylistEntry, st: RunState, remote: Remote): RunState {
    var tracks := remote.tracksOf(p.id);
    var bound := Binding(e, st.cache, p.name);
    var target := Target(e, st.cache, p.name, remote);
    var st1 := st.(writes := st.writes + TransferWrites(p, e, st.cache, remote));
    if p.total == 0 then
      st1.(doc := st.doc.(playlists := st.doc.playlists.Put(p.id, e.(status := Some(Completed)))))
    else if tracks == [] then st1
    else
      var st2 := st1.(created := st.created + (if bound.None? then [p.name] else []),
                      cache := if bound.None? && target.Some? then st.cache[p.name := CacheEntry(target.value, None)]
                               else st.cache);
      if target.None? then st2
      else
        var s := PlaylistLoop(p.id, e, tracks, ExistingIds(e, st.cache, p.name, remote), remote);
        st2.(doc := st.doc.(playlists := st.doc.playlists.Put(p.id, CompletedEntry(e, target.value, |tracks|, s))),
             stats := st.stats.(totalTracksFound := st.stats.totalTracksFound + s.found,
                                totalTracksNotFound := st.stats.totalTracksNotFound + s.notFound))
  }

  /** One pass of the loop at lines 683-710: a completed playlist is only
      counted; in sync-only mode the cache is probed, and a synced playlist
      is marked completed; any other playlist is transferred. */
  function VisitStep(p: PlaylistInfo, st: RunState, syncOnly: bool, remote: Remote): RunState {
    var e := st.doc.Entry(p.id);
    if e.status == Some(Completed) then
      st.(stats := st.stats.(playlistsProcessed := st.stats.playlistsProcessed + 1))
    else
      var c := if syncOnly then Probed(st.cache, p.name, remote.trackCount) else st.cache;
      if syncOnly && SyncedBy(st.cache, p, remote.trackCount) then
        st.(doc := st.doc.(playlists := st.doc.playlists.Put(p.id, e.(status := Some(Completed), name := Some(p.name)))),
            cache := c,
            stats := st.stats.(playlistsAlreadySynced := st.stats.playlistsAlreadySynced + 1))
      else
        var st' := TransferState(p, e, st.(cache := c), remote);
        st'.(stats := st'.stats.(playlistsProcessed := st'.stats.playlistsProcessed + 1))
  }

  /** The dict a visit adds to `results`: none for a completed or synced
      playlist, else the transfer's. */
  function VisitResult(p: PlaylistInfo, st: RunState, syncOnly: bool, remote: Remote): Option<TransferResult> {
    var e := st.doc.Entry(p.id);
    if e.status == Some(Completed) || (syncOnly && SyncedBy(st.cache, p, remote.trackCount)) then None
    else Some(TransferOutcome(p, e, st.cache, remote))
  }

  /** The three cases of a visit: a completed playlist is only counted; in
      sync-only mode a synced one is marked completed under its name, with
      the cache probed and no write; any other gives the transfer's result
      and writes, looked up in the cache as it was before the probe. */
  lemma VisitStepCases(p: PlaylistInfo, st: RunState, syncOnly: bool, remote: Remote)
    ensures var e := st.doc.Entry(p.id);
            var f := VisitStep(p, st, syncOnly, remote);
            var r := VisitResult(p, st, syncOnly, remote);
            && (e.status == Some(Completed) ==>
                  r == None && f == st.(stats := st.stats.(playlistsProcessed := st.stats.playlistsProcessed + 1)))
            && (e.status != Some(Completed) && syncOnly && SyncedBy(st.cache, p, remote.trackCount) ==>
                  && r == None
                  && f.doc == st.doc.(playlists := st.doc.playlists.Put(p.id, e.(status := Some(Completed), name := Some(p.name))))
                  && f.writes == st.writes && f.created == st.created
                  && f.cache == Probed(st.cache, p.name, remote.trackCount)
                  && f.stats == st.stats.(playlistsAlreadySynced := st.stats.playlistsAlreadySynced + 1))
            && (e.status != Some(Completed) && !(syncOnly && SyncedBy(st.cache, p, remote.trackCount)) ==>
                  && r == Some(TransferOutcome(p, e, st.cache, remote))
                  && f.writes == st.writes + TransferWrites(p, e, st.cache, remote)
                  && f.stats.playlistsProcessed == st.stats.playlistsProcessed + 1
                  && f.stats.playlistsAlreadySynced == st.stats.playlistsAlreadySynced)
  {
    ProbedKeepsOutcome(p, st.doc.Entry(p.id), st.cache, remote);
  }

  /** A visit of a playlist that is neither completed nor synced is its
      transfer, with the probed cache, counted as processed. */
  lemma VisitStepTransfer(p: PlaylistInfo, st: RunState, syncOnly: bool, remote: Remote)
    requires st.doc.Entry(p.id).status != Some(Completed)
    requires !(syncOnly && SyncedBy(st.cache, p, remote.trackCount))
    ensures var c := if syncOnly then Probed(st.cache, p.name, remote.trackCount) else st.cache;
            var t := TransferState(p, st.doc.Entry(p.id), st.(cache := c), remote);
            && VisitStep(p, st, syncOnly, remote) == t.(stats := t.stats.(playlistsProcessed := t.stats.playlistsProcessed + 1))
            && VisitResult(p, st, syncOnly, remote) == Some(TransferOutcome(p, st.doc.Entry(p.id), c, remote))
  {
    ProbedKeepsOutcome(p, st.doc.Entry(p.id), st.cache, remote);
  }

  /** The loop of lines 683-713 over `ps`, in order. */
  function VisitLoop(ps: seq<PlaylistInfo>, st: RunState, syncOnly: bool, remote: Remote): RunState
    decreases |ps|
  {
    if ps == [] then st
    else VisitStep(ps[|ps| - 1], VisitLoop(ps[..|ps| - 1], st, syncOnly, remote), syncOnly, remote)
  }

  /** The list `run` gathers from the loop over `ps`. */
  function LoopResults(ps: seq<PlaylistInfo>, st: RunState, syncOnly: bool, remote: Remote): seq<TransferResult>
    decreases |ps|
  {
    if ps == [] then []
    else
      var n := |ps| - 1;
      var r := VisitResult(ps[n], VisitLoop(ps[..n], st, syncOnly, remote), syncOnly, remote);
      LoopResults(ps[..n], st, syncOnly, remote) + (if r.Some? then [r.value] else [])
  }

  /** The playlist id of each result in `LoopResults`. */
  ghost function LoopIds(ps: seq<PlaylistInfo>, st: RunState, syncOnly: bool, remote: Remote): seq<string>
    decreases |ps|
  {
    if ps == [] then []
    else
      var n := |ps| - 1;
      var r := VisitResult(ps[n], VisitLoop(ps[..n], st, syncOnly, remote), syncOnly, remote);
      LoopIds(ps[..n], st, syncOnly, remote) + (if r.Some? then [ps[n].id] else [])
  }

  /** The loop over the first `i + 1` playlists is the loop over the first
      `i` followed by one more visit. */
  lemma VisitLoopSnoc(ps: seq<PlaylistInfo>, i: nat, st: RunState, syncOnly: bool, remote: Remote)
    requires i < |ps|
    ensures var m := VisitLoop(ps[..i], st, syncOnly, remote);
            var r := VisitResult(ps[i], m, syncOnly, remote);
            && VisitLoop(ps[..i + 1], st, syncOnly, remote) == VisitStep(ps[i], m, syncOnly, remote)
            && LoopResults(ps[..i + 1], st, syncOnly, remote)
               == LoopResults(ps[..i], st, syncOnly, remote) + (if r.Some? then [r.value] else [])
            && LoopIds(ps[..i + 1], st, syncOnly, remote)
               == LoopIds(ps[..i], st, syncOnly, remote) + (if r.Some? then [ps[i].id] else [])
  {
    assert ps[..i + 1][..i] == ps[..i];
  }

  /** Every write in `ws` goes to a TIDAL playlist that `doc` records as the
      destination of one of the completed playlists `ps`. */
  ghost predicate WritesLanded(doc: Checkpoint, ps: seq<PlaylistInfo>, ws: seq<Write>) {
    forall k :: 0 <= k < |ws| ==> LandsIn(doc, ps, ws[k])
  }

  /** Write `w` goes to the recorded destination of a completed playlist of `ps`. */
  ghost predicate LandsIn(doc: Checkpoint, ps: seq<PlaylistInfo>, w: Write) {
    exists j :: 0 <= j < |ps| && doc.Entry(ps[j].id).status == Some(Completed)
                && doc.Entry(ps[j].id).tidalPlaylistId == Some(w.tidalPlaylistId)
  }

  /** A cache that keeps every name of `c0`, and every non-empty id of it. */
  ghost predicate CacheKept(c0: map<string, CacheEntry>, c1: map<string, CacheEntry>) {
    forall name :: name in c0 ==> name in c1 && (c0[name].id != "" ==> c1[name].id == c0[name].id)
  }

  /** Remembering a count keeps every cached name and id. */
  lemma ProbedKept(cache: map<string, CacheEntry>, name: string, trackCount: string -> nat)
    ensures CacheKept(cache, Probed(cache, name, trackCount))
  {
  }

  lemma CacheKeptTrans(c0: map<string, CacheEntry>, c1: map<string, CacheEntry>, c2: map<string, CacheEntry>)
    requires CacheKept(c0, c1) && CacheKept(c1, c2)
    ensures CacheKept(c0, c2)
  {
  }

  /** A transfer only appends writes and creations, each of them for its
      own playlist's name, and caches a new playlist only under a name that
      had no id. */
  lemma TransferStateAppends(p: PlaylistInfo, e: PlaylistEntry, st: RunState, remote: Remote)
    ensures var t := TransferState(p, e, st, remote);
            && st.writes <= t.writes && st.created <= t.created
            && (forall k :: |st.created| <= k < |t.created| ==> t.created[k] == p.name)
            && CacheKept(st.cache, t.cache)
  {
    BindingNone(e, st.cache, p.name);
  }

  /** One visit only appends writes and creations, each new creation is the
      visited playlist's name, and the cached ids are kept. */
  lemma VisitStepAppends(p: PlaylistInfo, st: RunState, syncOnly: bool, remote: Remote)
    ensures var f := VisitStep(p, st, syncOnly, remote);
            && st.writes <= f.writes && st.created <= f.created
            && (forall k :: |st.created| <= k < |f.created| ==> f.created[k] == p.name)
            && CacheKept(st.cache, f.cache)
  {
    var e := st.doc.Entry(p.id);
    if e.status != Some(Completed) {
      var c := if syncOnly then Probed(st.cache, p.name, remote.trackCount) else st.cache;
      ProbedKept(st.cache, p.name, remote.trackCount);
      if !(syncOnly && SyncedBy(st.cache, p, remote.trackCount)) {
        VisitStepTransfer(p, st, syncOnly, remote);
        TransferStateAppends(p, e, st.(cache := c), remote);
        CacheKeptTrans(st.cache, c, TransferState(p, e, st.(cache := c), remote).cache);
      }
    }
  }

  /** One visit never changes a completed entry or another playlist's
      entry, and every write it adds goes to the destination its entry then
      records. */
  lemma VisitStepLanded(p: PlaylistInfo, st: RunState, syncOnly: bool, remote: Remote)
    ensures var f := VisitStep(p, st, syncOnly, remote);
            && (forall id :: id != p.id || st.doc.Entry(id).status == Some(Completed) ==>
                  f.doc.Entry(id) == st.doc.Entry(id))
            && (forall k :: |st.writes| <= k < |f.writes| ==>
                  && f.doc.Entry(p.id).status == Some(Completed)
                  && f.doc.Entry(p.id).tidalPlaylistId == Some(f.writes[k].tidalPlaylistId))
  {
    var e := st.doc.Entry(p.id);
    if e.status != Some(Completed) && !(syncOnly && SyncedBy(st.cache, p, remote.trackCount)) {
      var c := if syncOnly then Probed(st.cache, p.name, remote.trackCount) else st.cache;
      var f := VisitStep(p, st, syncOnly, remote);
      VisitStepTransfer(p, st, syncOnly, remote);
      WritesOfOutcome(p, e, c, remote);
      var target := Target(e, c, p.name, remote);
      if p.total != 0 && remote.tracksOf(p.id) != [] && target.Some? {
        assert f.doc.Entry(p.id).tidalPlaylistId == target;
        assert f.doc.Entry(p.id).status == Some(Completed);
      } else {
        assert f.writes == st.writes;
      }
    }
  }

  /** The loop only appends writes and creations, each new creation is the
      name of a listed playlist, and the cached ids are kept. */
  lemma {:induction false} VisitLoopAppends(ps: seq<PlaylistInfo>, st: RunState, syncOnly: bool, remote: Remote)
    ensures var f := VisitLoop(ps, st, syncOnly, remote);
            && st.writes <= f.writes && st.created <= f.created
            && CacheKept(st.cache, f.cache)
            && (forall k :: |st.created| <= k < |f.created| ==>
                  exists j :: 0 <= j < |ps| && f.created[k] == ps[j].name)
    decreases |ps|
  {
    if ps != [] {
      var n := |ps| - 1;
      var m := VisitLoop(ps[..n], st, syncOnly, remote);
      var f := VisitLoop(ps, st, syncOnly, remote);
      VisitLoopAppends(ps[..n], st, syncOnly, remote);
      VisitStepAppends(ps[n], m, syncOnly, remote);
      forall k | |st.created| <= k < |f.created|
        ensures exists j :: 0 <= j < |ps| && f.created[k] == ps[j].name
      {
        if k < |m.created| {
          var j :| 0 <= j < n && m.created[k] == ps[..n][j].name;
          assert f.created[k] == ps[j].name;
        } else {
          assert f.created[k] == ps[n].name;
        }
      }
    }
  }

  /** Every write the loop adds goes to a TIDAL playlist that the final
      document records as the destination of a completed listed playlist. */
  lemma {:induction false} VisitLoopLanded(ps: seq<PlaylistInfo>, st: RunState, syncOnly: bool, remote: Remote)
    ensures var f := VisitLoop(ps, st, syncOnly, remote);
            st.writes <= f.writes && WritesLanded(f.doc, ps, f.writes[|st.writes|..])
    decreases |ps|
  {
    if ps != [] {
      var n := |ps| - 1;
      var m := VisitLoop(ps[..n], st, syncOnly, remote);
      var f := VisitLoop(ps, st, syncOnly, remote);
      VisitLoopLanded(ps[..n], st, syncOnly, remote);
      VisitStepLanded(ps[n], m, syncOnly, remote);
      VisitStepAppends(ps[n], m, syncOnly, remote);
      var ws := f.writes[|st.writes|..];
      forall k | 0 <= k < |ws|
        ensures LandsIn(f.doc, ps, ws[k])
      {
        var w := f.writes[|st.writes| + k];
        assert ws[k] == w;
        if |st.writes| + k < |m.writes| {
          assert w == m.writes[|st.writes|..][k];
          assert LandsIn(m.doc, ps[..n], w);
          var j :| 0 <= j < n && m.doc.Entry(ps[..n][j].id).status == Some(Completed)
                   && m.doc.Entry(ps[..n][j].id).tidalPlaylistId == Some(w.tidalPlaylistId);
          assert ps[..n][j] == ps[j];
          assert f.doc.Entry(ps[j].id) == m.doc.Entry(ps[j].id);
        } else {
          assert f.doc.Entry(ps[n].id).status == Some(Completed);
          assert f.doc.Entry(ps[n].id).tidalPlaylistId == Some(w.tidalPlaylistId);
        }
      }
    }
  }

  /** A visit changes only its playlist's entry of the document, leaves it
      completed or reports an error for it, and counts the playlist once. */
  lemma VisitStepSettles(p: PlaylistInfo, st: RunState, syncOnly: bool, remote: Remote)
    ensures var f := VisitStep(p, st, syncOnly, remote);
            var r := VisitResult(p, st, syncOnly, remote);
            && f.doc.(playlists := st.doc.playlists) == st.doc
            && (forall id :: id != p.id ==> f.doc.Entry(id) == st.doc.Entry(id))
            && (f.doc.Entry(p.id).status == Some(Completed) || (r.Some? && r.value.Failed?))
            && f.stats.playlistsProcessed + f.stats.playlistsAlreadySynced
               == st.stats.playlistsProcessed + st.stats.playlistsAlreadySynced + 1
  {
    var e := st.doc.Entry(p.id);
    if e.status != Some(Completed) && !(syncOnly && SyncedBy(st.cache, p, remote.trackCount)) {
      VisitStepTransfer(p, st, syncOnly, remote);
    }
  }

  /** Over the whole loop the document changes only in the entries of
      listed playlists, each playlist is counted once, and each result comes
      with the id of a listed playlist. */
  lemma {:induction false} VisitLoopFrame(ps: seq<PlaylistInfo>, st: RunState, syncOnly: bool, remote: Remote)
    ensures var f := VisitLoop(ps, st, syncOnly, remote);
            var ids := LoopIds(ps, st, syncOnly, remote);
            && f.doc.(playlists := st.doc.playlists) == st.doc
            && (forall id :: id !in PlaylistIds(ps) ==> f.doc.Entry(id) == st.doc.Entry(id))
            && f.stats.playlistsProcessed + f.stats.playlistsAlreadySynced
               == st.stats.playlistsProcessed + st.stats.playlistsAlreadySynced + |ps|
            && |ids| == |LoopResults(ps, st, syncOnly, remote)| <= |ps|
            && (forall j :: 0 <= j < |ids| ==> ids[j] in PlaylistIds(ps))
    decreases |ps|
  {
    if ps != [] {
      var n := |ps| - 1;
      var m := VisitLoop(ps[..n], st, syncOnly, remote);
      VisitLoopFrame(ps[..n], st, syncOnly, remote);
      VisitStepSettles(ps[n], m, syncOnly, remote);
      assert ps[n].id in PlaylistIds(ps);
      forall id | id in PlaylistIds(ps[..n])
        ensures id in PlaylistIds(ps)
      {
        var j :| 0 <= j < n && ps[..n][j].id == id;
        assert ps[j].id == id;
      }
    }
  }

  /** After the loop each listed playlist is completed, or one of its
      transfers reported an error. */
  lemma {:induction false} VisitLoopSettled(ps: seq<PlaylistInfo>, st: RunState, syncOnly: bool, remote: Remote)
    ensures |LoopIds(ps, st, syncOnly, remote)| == |LoopResults(ps, st, syncOnly, remote)|
    ensures Settled(ps, |ps|, VisitLoop(ps, st, syncOnly, remote).doc,
                    FailedIds(LoopIds(ps, st, syncOnly, remote), LoopResults(ps, st, syncOnly, remote)))
    decreases |ps|
  {
    if ps != [] {
      var n := |ps| - 1;
      var m := VisitLoop(ps[..n], st, syncOnly, remote);
      var ids, results := LoopIds(ps[..n], st, syncOnly, remote), LoopResults(ps[..n], st, syncOnly, remote);
      VisitLoopSettled(ps[..n], st, syncOnly, remote);
      VisitStepSettles(ps[n], m, syncOnly, remote);
      var r := VisitResult(ps[n], m, syncOnly, remote);
      assert Settled(ps, n, m.doc, FailedIds(ids, results)) by {
        forall j | 0 <= j < n
          ensures ps[j].id in FailedIds(ids, results) || m.doc.Entry(ps[j].id).status == Some(Completed)
        {
          assert ps[..n][j] == ps[j];
        }
      }
      if r.Some? {
        FailedIdsAppend(ids, results, ps[n].id, r.value);
      } else {
        assert LoopIds(ps, st, syncOnly, remote) == ids && LoopResults(ps, st, syncOnly, remote) == results;
      }
      SettledStep(ps, n, m.doc, VisitLoop(ps, st, syncOnly, remote).doc, FailedIds(ids, results),
                  FailedIds(LoopIds(ps, st, syncOnly, remote), LoopResults(ps, st, syncOnly, remote)));
    }
  }

  /** Marking the run completed leaves every playlist entry as it was. */
  lemma MarkedKeepsEntries(doc: Checkpoint, ps: seq<PlaylistInfo>, failed: set<string>, ws: seq<Write>)
    requires Settled(ps, |ps|, doc, failed) && WritesLanded(doc, ps, ws)
    ensures var d := doc.(status := Some(CompletedText));
            && (forall id :: d.Entry(id) == doc.Entry(id))
            && Settled(ps, |ps|, d, failed) && WritesLanded(d, ps, ws)
  {
    var d := doc.(status := Some(CompletedText));
    forall k | 0 <= k < |ws|
      ensures LandsIn(d, ps, ws[k])
    {
      assert LandsIn(doc, ps, ws[k]);
      var j :| 0 <= j < |ps| && doc.Entry(ps[j].id).status == Some(Completed)
               && doc.Entry(ps[j].id).tidalPlaylistId == Some(ws[k].tidalPlaylistId);
      assert d.Entry(ps[j].id) == doc.Entry(ps[j].id);
    }
  }

  class TransferEngine {
    /** `--fresh`: do not read the checkpoint file. */
    const freshStart: bool
    /** `--sync`: skip playlists that are already synced. */
    const syncOnly: bool
    /** `self.checkpoint` */
    var checkpoint: Option<Checkpoint>
    /** The checkpoint file. */
    var saved: StoredFile
    /** The archive copies `clear_checkpoint` makes. */
    var archived: seq<StoredFile>
    /** `self.tidal_playlist_cache`, keyed by playlist name. */
    var cache: map<string, CacheEntry>
    var stats: Stats
    /** Names of the playlists whose TIDAL creation was attempted, in order
        (recorded before the outcome is known). */
    var created: seq<string>
    /** The track writes sent to TIDAL, in order. */
    var writes: seq<Write>

    /** `SpotifyToTidalTransfer(checkpoint_file, fresh_start, sync_only)`,
        with the file's content and the cache `build_tidal_playlist_cache`
        fills. */
    constructor (file: StoredFile, freshStart: bool, syncOnly: bool, cache: map<string, CacheEntry>)
      ensures this.freshStart == freshStart && this.syncOnly == syncOnly
      ensures checkpoint == None && saved == file && archived == [] && this.cache == cache
      ensures stats == Stats(0, 0, 0, 0) && created == [] && writes == []
    {
      this.freshStart := freshStart;
      this.syncOnly := syncOnly;
      checkpoint := None;
      saved := file;
      archived := [];
      this.cache := cache;
      stats := Stats(0, 0, 0, 0);
      created := [];
      writes := [];
    }

    /** `save_checkpoint`: the file takes the in-memory document, if any. */
    method SaveCheckpoint()
      modifies this`saved
      ensures checkpoint.Some? ==> saved == Stored(checkpoint.value)
      ensures checkpoint.None? ==> saved == old(saved)
    {
      if checkpoint.Some? {
        saved := Stored(checkpoint.value);
      }
    }

    /** `clear_checkpoint`: an existing file is archived and removed. */
    method ClearCheckpoint()
      modifies this`saved, this`archived
      ensures saved == NoFile
      ensures archived == old(archived) + (if old(saved) != NoFile then [old(saved)] else [])
    {
      if saved != NoFile {
        archived := archived + [saved];
        saved := NoFile;
      }
    }

    /** `init_checkpoint`: a new document with one pending entry per
        playlist, saved at once. */
    method InitCheckpoint(playlists: seq<PlaylistInfo>, userId: string)
      modifies this`checkpoint, this`saved
      ensures checkpoint == Some(InitialCheckpoint(playlists, userId))
      ensures saved == Stored(checkpoint.value)
    {
      var entries := Empty();
      var i := 0;
      while i < |playlists|
        invariant 0 <= i <= |playlists|
        invariant entries == InitialEntries(playlists[..i])
      {
        assert playlists[..i + 1][..i] == playlists[..i];
        entries := entries.Put(playlists[i].id, PendingEntry(playlists[i].name));
        i := i + 1;
      }
      assert playlists[..i] == playlists;
      checkpoint := Some(Checkpoint(Some(FormatVersion), Some(userId), Some(InProgressText), |playlists|, entries));
      SaveCheckpoint();
    }

    /** `self.checkpoint["playlists"][spotify_id] = entry`, then
        `save_checkpoint`. */
    method StoreEntry(spotifyId: string, entry: PlaylistEntry)
      requires checkpoint.Some?
      modifies this`checkpoint, this`saved
      ensures checkpoint.Some?
      ensures checkpoint == Some(old(checkpoint.value).(playlists := old(checkpoint.value.playlists).Put(spotifyId, entry)))
      ensures checkpoint.value.Entry(spotifyId) == entry
      ensures saved == Stored(checkpoint.value)
    {
      var doc := checkpoint.value;
      checkpoint := Some(doc.(playlists := doc.playlists.Put(spotifyId, entry)));
      SaveCheckpoint();
    }

    /** `add_tracks_to_tidal_playlist`: one write to TIDAL. */
    method AddTracks(tidalId: string, call: AddCall)
      modifies this`writes
      ensures writes == old(writes) + [Write(tidalId, call)]
    {
      writes := writes + [Write(tidalId, call)];
    }

    /** `is_playlist_synced`: a playlist whose name is not cached is not
        synced; otherwise the cached count, fetched and remembered when
        missing, is compared with four fifths of the Spotify count. */
    method IsPlaylistSynced(playlist: PlaylistInfo, trackCount: string -> nat) returns (synced: bool)
      modifies this`cache
      ensures playlist.name !in old(cache) ==> !synced && cache == old(cache)
      ensures playlist.name in old(cache) ==>
                var e := old(cache)[playlist.name];
                var n := if e.trackCount.Some? then e.trackCount.value else trackCount(e.id);
                && synced == CountSynced(n, playlist.total)
                && cache == old(cache)[playlist.name := CacheEntry(e.id, Some(n))]
      ensures synced == SyncedBy(old(cache), playlist, trackCount)
      ensures cache == Probed(old(cache), playlist.name, trackCount)
    {
      if playlist.name !in cache {
        return false;
      }
      var info := cache[playlist.name];
      var count: nat;
      if info.trackCount.None? {
        count := trackCount(info.id);
        cache := cache[playlist.name := info.(trackCount := Some(count))];
      } else {
        count := info.trackCount.value;
      }
      synced := count >= MinExpected(playlist.total);
    }

    /** The checkpoint, the file and the write log as
        the loop of `transfer_playlist` leaves them in state `s`: the entry
        carries the progress of the last successful batch and is saved. */
    ghost predicate Recorded(doc0: Checkpoint, spotifyId: string, tidalId: string, entry: PlaylistEntry,
                             s: LoopState, w0: seq<Write>)
      reads this
    {
      && checkpoint == Some(doc0.(playlists := doc0.playlists.Put(spotifyId, WithCounters(entry, s))))
      && saved == Stored(checkpoint.value)
      && BoundInProgress(saved, spotifyId, tidalId)
      && writes == w0 + WritesTo(tidalId, s.calls)
    }

    /** Lines 574-588 of `transfer_playlist`, for the full queue of state
        `s`: the queue is written; on success its ids join the known ones and
        the entry, carrying the progress up to track `idx`, is stored and
        saved; on failure the same tracks are written once more and nothing
        else changes. */
    method FlushQueue(spotifyId: string, tidalId: string, entry: PlaylistEntry, idx: nat,
                      queue: seq<string>, found: nat, notFound: nat, known: set<string>,
                      current: PlaylistEntry, calls: seq<AddCall>, addOk: nat -> bool,
                      ghost s: LoopState, ghost doc0: Checkpoint, ghost w0: seq<Write>)
      returns (known': set<string>, current': PlaylistEntry, calls': seq<AddCall>)
      requires entry.status == Some(InProgress) && entry.tidalPlaylistId == Some(tidalId)
      requires queue == s.queue && found == s.found && notFound == s.notFound
      requires known == s.existing && calls == s.calls && current == WithCounters(entry, s)
      requires Recorded(doc0, spotifyId, tidalId, entry, s, w0)
      modifies this`checkpoint, this`saved, this`writes
      ensures var f := Flush(s, idx, addOk(|calls|));
              && known' == f.existing && current' == WithCounters(entry, f) && calls' == f.calls
              && Recorded(doc0, spotifyId, tidalId, entry, f, w0)
    {
      var ok := addOk(|calls|);
      WritesToConcat(w0, tidalId, calls, SentCalls(queue, ok));
      AddTracks(tidalId, AddCall(queue, Batch));
      if ok {
        known' := known + (set x | x in queue);
        current' := current.(tracksProcessed := idx, tracksFound := found, tracksNotFound := notFound);
        doc0.playlists.PutPut(spotifyId, current, current');
        StoreEntry(spotifyId, current');
      } else {
        AddTracks(tidalId, AddCall(queue, Retry));
        known' := known;
        current' := current;
      }
      calls' := calls + SentCalls(queue, ok);
      assert SentCalls(queue, ok)[..|SentCalls(queue, ok)| - 1] == (if ok then [] else [AddCall(queue, Batch)]);
    }

    /** One pass of the per-track loop of `transfer_playlist` (lines
        548-589) for track number `idx`, in state `s`: the track is searched
        and classified, and a full queue is written. */
    method TransferTrack(spotifyId: string, tidalId: string, entry: PlaylistEntry, idx: nat, t: Track,
                         search: (string, string) -> Option<int>, addOk: nat -> bool,
                         queue: seq<string>, found: nat, notFound: nat, skipped: nat, known: set<string>,
                         current: PlaylistEntry, calls: seq<AddCall>,
                         ghost s: LoopState, ghost doc0: Checkpoint, ghost w0: seq<Write>)
      returns (queue': seq<string>, found': nat, notFound': nat, skipped': nat, known': set<string>,
               current': PlaylistEntry, calls': seq<AddCall>)
      requires entry.status == Some(InProgress) && entry.tidalPlaylistId == Some(tidalId)
      requires s == LoopState(queue, found, notFound, skipped, known, current.tracksProcessed,
                              current.tracksFound, current.tracksNotFound, calls)
      requires current == WithCounters(entry, s)
      requires Recorded(doc0, spotifyId, tidalId, entry, s, w0)
      modifies this`checkpoint, this`saved, this`writes
      ensures var n := Step(s, idx, t, search, addOk);
              && n == LoopState(queue', found', notFound', skipped', known', current'.tracksProcessed,
                                current'.tracksFound, current'.tracksNotFound, calls')
              && current' == WithCounters(entry, n)
              && Recorded(doc0, spotifyId, tidalId, entry, n, w0)
    {
      queue', found', notFound', skipped', known', current', calls' :=
        queue, found, notFound, skipped, known, current, calls;
      var hit := ResolvedId(search(t.name, ArtistOf(t)));
      if hit.Some? {
        if hit.value in known {
          skipped' := skipped + 1;
        } else {
          queue' := queue + [hit.value];
          found' := found + 1;
        }
      } else {
        notFound' := notFound + 1;
      }
      ghost var classified := Classify(s, hit);
      assert classified == LoopState(queue', found', notFound', skipped', known, current.tracksProcessed,
                                     current.tracksFound, current.tracksNotFound, calls);
      if |queue'| >= BatchSize {
        known', current', calls' := FlushQueue(spotifyId, tidalId, entry, idx, queue', found', notFound', known,
                                               current, calls, addOk, classified, doc0, w0);
        queue' := [];
      }
    }

    /** The per-track loop of `transfer_playlist` (lines 548-589) over
        `todo`, the tracks after position `start`: the checkpoint entry is
        stored and saved after every successful batch. */
    method TransferTracks(spotifyId: string, tidalId: string, todo: seq<Track>, start: nat,
                          entry: PlaylistEntry, existing: set<string>,
                          search: (string, string) -> Option<int>, addOk: nat -> bool)
      returns (s: LoopState)
      requires checkpoint.Some? && checkpoint.value.Entry(spotifyId) == entry
      requires entry.tracksProcessed == start
      requires BoundInProgress(saved, spotifyId, tidalId) && saved == Stored(checkpoint.value)
      modifies this`checkpoint, this`saved, this`writes
      ensures checkpoint.Some?
      ensures s == RunTracks(StartState(start, entry.tracksFound, entry.tracksNotFound, existing),
                             todo, start, |todo|, search, addOk)
      ensures checkpoint == Some(old(checkpoint.value).(playlists :=
                             old(checkpoint.value.playlists).Put(spotifyId, WithCounters(entry, s))))
      ensures saved == Stored(checkpoint.value) && BoundInProgress(saved, spotifyId, tidalId)
      ensures writes == old(writes) + WritesTo(tidalId, s.calls)
    {
      var s0 := StartState(start, entry.tracksFound, entry.tracksNotFound, existing);
      ghost var doc0 := checkpoint.value;
      ghost var w0 := writes;
      assert spotifyId in doc0.playlists.values;
      assert doc0.playlists.Put(spotifyId, entry) == doc0.playlists by {
        assert doc0.playlists.values[spotifyId := entry] == doc0.playlists.values;
      }
      assert WritesTo(tidalId, []) == [];
      var queue: seq<string> := [];
      var found := entry.tracksFound;
      var notFound := entry.tracksNotFound;
      var skipped := 0;
      var known := existing;
      var current := entry;
      var calls: seq<AddCall> := [];
      var k := 0;
      while k < |todo|
        invariant 0 <= k <= |todo|
        invariant current == WithCounters(entry, RunTracks(s0, todo, start, k, search, addOk))
        invariant RunTracks(s0, todo, start, k, search, addOk) ==
                    LoopState(queue, found, notFound, skipped, known, current.tracksProcessed,
                              current.tracksFound, current.tracksNotFound, calls)
        invariant Recorded(doc0, spotifyId, tidalId, entry, RunTracks(s0, todo, start, k, search, addOk), w0)
      {
        queue, found, notFound, skipped, known, current, calls :=
          TransferTrack(spotifyId, tidalId, entry, start + k + 1, todo[k], search, addOk,
                        queue, found, notFound, skipped, known, current, calls,
                        RunTracks(s0, todo, start, k, search, addOk), doc0, w0);
        k := k + 1;
      }
      s := LoopState(queue, found, notFound, skipped, known, current.tracksProcessed,
                     current.tracksFound, current.tracksNotFound, calls);
    }

    /** Lines 527-623 of `transfer_playlist`, once the TIDAL playlist
        `tidalId` is known: the binding is saved with status "in_progress"
        before any track is searched, the tracks after the cursor are
        transferred, a final partial batch is written without looking at its
        outcome, and the entry is completed with the final counts. */
    method TransferInto(p: PlaylistInfo, tracks: seq<Track>, e0: PlaylistEntry, tidalId: string,
                        existing: set<string>, remote: Remote)
      returns (result: TransferResult)
      requires checkpoint.Some?
      modifies this`checkpoint, this`saved, this`writes, this`stats
      ensures checkpoint.Some?
      ensures var s := PlaylistLoop(p.id, e0, tracks, existing, remote);
              && result == Transferred(p.name, |tracks|, s.found, s.notFound, s.skipped)
              && checkpoint == Some(old(checkpoint.value).(playlists :=
                                    old(checkpoint.value.playlists).Put(p.id, CompletedEntry(e0, tidalId, |tracks|, s))))
              && writes == old(writes) + WritesTo(tidalId, FinalCalls(s))
              && stats == old(stats).(totalTracksFound := old(stats).totalTracksFound + s.found,
                                      totalTracksNotFound := old(stats).totalTracksNotFound + s.notFound)
      ensures saved == Stored(checkpoint.value)
    {
      ghost var doc := checkpoint.value;
      var e1 := e0.(tidalPlaylistId := Some(tidalId), status := Some(InProgress));
      StoreEntry(p.id, e1);
      var start := e1.tracksProcessed;
      var s := TransferTracks(p.id, tidalId, TracksFrom(tracks, start), start, e1, existing,
                              remote.search, remote.addOk(p.id));
      assert s == PlaylistLoop(p.id, e0, tracks, existing, remote);
      if s.queue != [] {
        WritesToConcat(old(writes), tidalId, s.calls, [AddCall(s.queue, Final)]);
        AddTracks(tidalId, AddCall(s.queue, Final));
      }
      var done := e1.(status := Some(Completed), tracksProcessed := |tracks|,
                      tracksFound := s.found, tracksNotFound := s.notFound);
      assert done == CompletedEntry(e0, tidalId, |tracks|, s);
      doc.playlists.PutPut(p.id, e1, WithCounters(e1, s));
      doc.playlists.PutPut(p.id, WithCounters(e1, s), done);
      StoreEntry(p.id, done);
      stats := stats.(totalTracksFound := stats.totalTracksFound + s.found,
                      totalTracksNotFound := stats.totalTracksNotFound + s.notFound);
      result := Transferred(p.name, |tracks|, s.found, s.notFound, s.skipped);
    }

    /** `transfer_playlist`: an empty playlist is marked completed and
        skipped; a playlist whose tracks cannot be fetched, or whose new TIDAL
        playlist cannot be created, is an error that changes no state;
        otherwise the tracks are transferred into the bound or created TIDAL
        playlist, which a new playlist also enters the cache as. */
    method TransferPlaylist(p: PlaylistInfo, remote: Remote) returns (result: TransferResult)
      requires checkpoint.Some?
      modifies this`checkpoint, this`saved, this`writes, this`stats, this`cache, this`created
      ensures checkpoint.Some?
      ensures var e0 := old(checkpoint.value).Entry(p.id);
              && result == TransferOutcome(p, e0, old(cache), remote)
              && writes == old(writes) + TransferWrites(p, e0, old(cache), remote)
      ensures var e0 := old(checkpoint.value).Entry(p.id);
              p.total == 0 ==>
                && result == Skipped("empty")
                && checkpoint == Some(old(checkpoint.value).(playlists :=
                                      old(checkpoint.value.playlists).Put(p.id, e0.(status := Some(Completed)))))
                && saved == Stored(checkpoint.value)
                && writes == old(writes) && stats == old(stats) && cache == old(cache) && created == old(created)
      ensures p.total != 0 && remote.tracksOf(p.id) == [] ==>
                && result == Failed("no_tracks")
                && checkpoint == old(checkpoint) && saved == old(saved)
                && writes == old(writes) && stats == old(stats) && cache == old(cache) && created == old(created)
      ensures var e0 := old(checkpoint.value).Entry(p.id);
              var bound := Binding(e0, old(cache), p.name);
              var target := Target(e0, old(cache), p.name, remote);
              p.total != 0 && remote.tracksOf(p.id) != [] ==>
                && created == old(created) + (if bound.None? then [p.name] else [])
                && cache == (if bound.None? && target.Some? then old(cache)[p.name := CacheEntry(target.value, None)]
                             else old(cache))
      ensures var e0 := old(checkpoint.value).Entry(p.id);
              p.total != 0 && remote.tracksOf(p.id) != [] && Target(e0, old(cache), p.name, remote).None? ==>
                && result == Failed("playlist_creation_failed")
                && checkpoint == old(checkpoint) && saved == old(saved)
                && writes == old(writes) && stats == old(stats)
      ensures var e0 := old(checkpoint.value).Entry(p.id);
              var tracks := remote.tracksOf(p.id);
              var target := Target(e0, old(cache), p.name, remote);
              var s := PlaylistLoop(p.id, e0, tracks, ExistingIds(e0, old(cache), p.name, remote), remote);
              p.total != 0 && tracks != [] && target.Some? ==>
                && result == Transferred(p.name, |tracks|, s.found, s.notFound, s.skipped)
                && checkpoint == Some(old(checkpoint.value).(playlists :=
                                      old(checkpoint.value.playlists).Put(p.id, CompletedEntry(e0, target.value, |tracks|, s))))
                && saved == Stored(checkpoint.value)
                && writes == old(writes) + WritesTo(target.value, FinalCalls(s))
                && stats == old(stats).(totalTracksFound := old(stats).totalTracksFound + s.found,
                                        totalTracksNotFound := old(stats).totalTracksNotFound + s.notFound)
      ensures checkpoint.value.(playlists := old(checkpoint.value.playlists)) == old(checkpoint.value)
      ensures forall id :: id != p.id ==> checkpoint.value.Entry(id) == old(checkpoint.value).Entry(id)
      ensures result.Failed? || checkpoint.value.Entry(p.id).status == Some(Completed)
      ensures stats.playlistsProcessed == old(stats).playlistsProcessed
      ensures stats.playlistsAlreadySynced == old(stats).playlistsAlreadySynced
      ensures RunState(checkpoint.value, cache, stats, writes, created) ==
                TransferState(p, old(checkpoint.value).Entry(p.id),
                              RunState(old(checkpoint.value), old(cache), old(stats), old(writes), old(created)), remote)
      ensures (checkpoint == old(checkpoint) && saved == old(saved)) || saved == Stored(checkpoint.value)
    {
      var e0 := checkpoint.value.Entry(p.id);
      if p.total == 0 {
        StoreEntry(p.id, e0.(status := Some(Completed)));
        return Skipped("empty");
      }
      var tracks := remote.tracksOf(p.id);
      if tracks == [] {
        return Failed("no_tracks");
      }
      var tidalId: string;
      var existing: set<string>;
      var bound := Binding(e0, cache, p.name);
      if bound.Some? {
        tidalId := bound.value;
        existing := remote.playlistTrackIds(tidalId);
      } else {
        created := created + [p.name];
        var made := remote.createPlaylist(p.name);
        existing := {};
        if made.None? || made.value == "" {
          return Failed("playlist_creation_failed");
        }
        tidalId := made.value;
        cache := cache[p.name := CacheEntry(tidalId, None)];
      }
      result := TransferInto(p, tracks, e0, tidalId, existing, remote);
    }

    /** One pass of the playlist loop of `run` (lines 683-710): a playlist
        whose entry is completed is skipped; in sync mode one that
        `is_playlist_synced` accepts is marked completed under its name and
        saved, without any transfer; any other is transferred, and its result
        is returned.  The playlist's entry ends completed unless the transfer
        reports an error, and no other entry and nothing else in the document
        changes. */
    method VisitPlaylist(p: PlaylistInfo, remote: Remote) returns (r: Option<TransferResult>)
      requires checkpoint.Some?
      modifies this`checkpoint, this`saved, this`writes, this`stats, this`cache, this`created
      ensures checkpoint.Some?
      ensures checkpoint.value.(playlists := old(checkpoint.value.playlists)) == old(checkpoint.value)
      ensures forall id :: id != p.id ==> checkpoint.value.Entry(id) == old(checkpoint.value).Entry(id)
      ensures (r.Some? && r.value.Failed?) || checkpoint.value.Entry(p.id).status == Some(Completed)
      ensures old(checkpoint.value).Entry(p.id).status == Some(Completed) ==> saved == old(saved)
      ensures stats.playlistsProcessed + stats.playlistsAlreadySynced ==
                old(stats.playlistsProcessed + stats.playlistsAlreadySynced) + 1
      ensures var st := RunState(old(checkpoint.value), old(cache), old(stats), old(writes), old(created));
              && r == VisitResult(p, st, syncOnly, remote)
              && RunState(checkpoint.value, cache, stats, writes, created) == VisitStep(p, st, syncOnly, remote)
      ensures (checkpoint == old(checkpoint) && saved == old(saved)) || saved == Stored(checkpoint.value)
    {
      ghost var st0 := RunState(checkpoint.value, cache, stats, writes, created);
      var e := checkpoint.value.Entry(p.id);
      if e.status == Some(Completed) {
        stats := stats.(playlistsProcessed := stats.playlistsProcessed + 1);
        assert VisitStep(p, st0, syncOnly, remote) == st0.(stats := stats);
        return None;
      }
      var synced := false;
      if syncOnly {
        synced := IsPlaylistSynced(p, remote.trackCount);
      }
      if synced {
        stats := stats.(playlistsAlreadySynced := stats.playlistsAlreadySynced + 1);
        StoreEntry(p.id, e.(status := Some(Completed), name := Some(p.name)));
        return None;
      }
      ProbedKeepsOutcome(p, e, old(cache), remote);
      VisitStepTransfer(p, st0, syncOnly, remote);
      var result := TransferPlaylist(p, remote);
      stats := stats.(playlistsProcessed := stats.playlistsProcessed + 1);
      r := Some(result);
    }

    /** The playlist loop of `run` (lines 683-713): every playlist is
        visited in order.  `ids[j]` is the playlist whose transfer gave
        `results[j]`, and `failed` holds exactly the playlists whose
        transfer reported an error.  Afterwards each playlist is completed
        unless it is in `failed`; entries of other playlists and the rest of
        the document are as before. */
    method VisitAll(playlists: seq<PlaylistInfo>, remote: Remote)
      returns (results: seq<TransferResult>, ghost ids: seq<string>, ghost failed: set<string>)
      requires checkpoint.Some?
      modifies this`checkpoint, this`saved, this`writes, this`stats, this`cache, this`created
      ensures checkpoint.Some?
      ensures checkpoint.value.(playlists := old(checkpoint.value.playlists)) == old(checkpoint.value)
      ensures Settled(playlists, |playlists|, checkpoint.value, failed)
      ensures forall id :: id !in PlaylistIds(playlists) ==> checkpoint.value.Entry(id) == old(checkpoint.value).Entry(id)
      ensures |ids| == |results| <= |playlists|
      ensures forall j :: 0 <= j < |ids| ==> ids[j] in PlaylistIds(playlists)
      ensures failed == FailedIds(ids, results)
      ensures stats.playlistsProcessed + stats.playlistsAlreadySynced ==
                old(stats.playlistsProcessed + stats.playlistsAlreadySynced) + |playlists|
      ensures var st := RunState(old(checkpoint.value), old(cache), old(stats), old(writes), old(created));
              && RunState(checkpoint.value, cache, stats, writes, created) == VisitLoop(playlists, st, syncOnly, remote)
              && results == LoopResults(playlists, st, syncOnly, remote)
      ensures old(writes) <= writes && WritesLanded(checkpoint.value, playlists, writes[|old(writes)|..])
      ensures old(created) <= created && CacheKept(old(cache), cache)
      ensures (checkpoint == old(checkpoint) && saved == old(saved)) || saved == Stored(checkpoint.value)
    {
      results := [];
      ids := [];
      ghost var init := RunState(checkpoint.value, cache, stats, writes, created);
      var i := 0;
      while i < |playlists|
        invariant 0 <= i <= |playlists|
        invariant checkpoint.Some?
        invariant RunState(checkpoint.value, cache, stats, writes, created) == VisitLoop(playlists[..i], init, syncOnly, remote)
        invariant results == LoopResults(playlists[..i], init, syncOnly, remote)
        invariant ids == LoopIds(playlists[..i], init, syncOnly, remote)
        invariant (checkpoint == old(checkpoint) && saved == old(saved)) || saved == Stored(checkpoint.value)
      {
        var p := playlists[i];
        VisitLoopSnoc(playlists, i, init, syncOnly, remote);
        ghost var cur := RunState(checkpoint.value, cache, stats, writes, created);
        var r := VisitPlaylist(p, remote);
        assert RunState(checkpoint.value, cache, stats, writes, created) == VisitStep(p, cur, syncOnly, remote);
        assert r == VisitResult(p, cur, syncOnly, remote);
        if r.Some? {
          results := results + [r.value];
          ids := ids + [p.id];
        }
        i := i + 1;
      }
      assert playlists[..i] == playlists;
      VisitLoopFrame(playlists, init, syncOnly, remote);
      VisitLoopSettled(playlists, init, syncOnly, remote);
      failed := FailedIds(ids, results);
      VisitLoopLanded(playlists, init, syncOnly, remote);
      VisitLoopAppends(playlists, init, syncOnly, remote);
    }

    /** Lines 645-662 of `run`: unless `--fresh`, the checkpoint is loaded
        from the file, and it is dropped when it belongs to another Spotify
        user. */
    method Resume(userId: string)
      modifies this`checkpoint
      ensures checkpoint == ResumeCheckpoint(saved, freshStart, old(checkpoint), userId)
    {
      if !freshStart {
        checkpoint := LoadCheckpoint(saved);
      }
      if checkpoint.Some? && checkpoint.value.userId != Some(userId) {
        checkpoint := None;
      }
    }

    /** `run`, once Spotify and TIDAL are set up and the cache is built: the
        checkpoint is resumed (unless `--fresh`) when it belongs to the user,
        or else initialised; every playlist is visited; finally the
        checkpoint is marked completed, saved and archived.  `ids[j]` is the
        playlist whose transfer gave `results[j]`, and `failed` holds exactly
        the playlists whose transfer reported an error. */
    method Run(userId: string, playlists: seq<PlaylistInfo>, remote: Remote)
      returns (results: seq<TransferResult>, ghost ids: seq<string>, ghost failed: set<string>)
      modifies this`checkpoint, this`saved, this`archived, this`writes, this`stats, this`cache, this`created
      ensures playlists == [] ==>
                && results == []
                && checkpoint == ResumeCheckpoint(old(saved), freshStart, old(checkpoint), userId)
                && saved == old(saved) && archived == old(archived)
      ensures var resumed := ResumeCheckpoint(old(saved), freshStart, old(checkpoint), userId);
              var start := if resumed.Some? then resumed.value else InitialCheckpoint(playlists, userId);
              playlists != [] ==>
                && checkpoint.Some? && saved == NoFile
                && archived == old(archived) + [Stored(checkpoint.value)]
                && checkpoint.value == start.(status := Some(CompletedText), playlists := checkpoint.value.playlists)
                && Settled(playlists, |playlists|, checkpoint.value, failed)
                && (forall id :: id !in PlaylistIds(playlists) ==> checkpoint.value.Entry(id) == start.Entry(id))
                && stats.playlistsProcessed + stats.playlistsAlreadySynced ==
                     old(stats.playlistsProcessed + stats.playlistsAlreadySynced) + |playlists|
      ensures |ids| == |results| <= |playlists|
      ensures forall j :: 0 <= j < |ids| ==> ids[j] in PlaylistIds(playlists)
      ensures failed == FailedIds(ids, results)
      ensures playlists == [] ==>
                writes == old(writes) && stats == old(stats) && cache == old(cache) && created == old(created)
      ensures var resumed := ResumeCheckpoint(old(saved), freshStart, old(checkpoint), userId);
              var start := if resumed.Some? then resumed.value else InitialCheckpoint(playlists, userId);
              var f := VisitLoop(playlists, RunState(start, old(cache), old(stats), old(writes), old(created)), syncOnly, remote);
              playlists != [] ==>
                && checkpoint.Some? && checkpoint.value == f.doc.(status := Some(CompletedText))
                && cache == f.cache && stats == f.stats && writes == f.writes && created == f.created
                && results == LoopResults(playlists, RunState(start, old(cache), old(stats), old(writes), old(created)), syncOnly, remote)
      ensures old(writes) <= writes && old(created) <= created && CacheKept(old(cache), cache)
      ensures playlists != [] ==> checkpoint.Some? && WritesLanded(checkpoint.value, playlists, writes[|old(writes)|..])
    {
      results := [];
      ids := [];
      failed := {};
      Resume(userId);
      if playlists == [] {
        return;
      }
      if checkpoint.None? {
        InitCheckpoint(playlists, userId);
      }
      ghost var st := RunState(checkpoint.value, cache, stats, writes, created);
      results, ids, failed := VisitAll(playlists, remote);
      assert RunState(checkpoint.value, cache, stats, writes, created) == VisitLoop(playlists, st, syncOnly, remote);
      MarkedKeepsEntries(checkpoint.value, playlists, failed, writes[|st.writes|..]);
      Complete();
    }

    /** Lines 717-722 of `run`: the checkpoint is marked completed, saved,
        and then archived. */
    method Complete()
      requires checkpoint.Some?
      modifies this`checkpoint, this`saved, this`archived
      ensures checkpoint == Some(old(checkpoint.value).(status := Some(CompletedText)))
      ensures saved == NoFile && archived == old(archived) + [Stored(checkpoint.value)]
    {
      checkpoint := Some(checkpoint.value.(status := Some(CompletedText)));
      SaveCheckpoint();
      ClearCheckpoint();
    }
  }
}
