/**
 * `transfer_playlist` of `spotify_to_tidal_complete.py`, the transfer without
 * a checkpoint: every run creates a new TIDAL playlist, searches every track,
 * and writes the found ids in batches of 50 with one retry of a failed
 * batch, then a final partial batch.  Nothing is skipped and nothing is
 * resumed.
 */
module LegacyTransfer {
  import opened Wrappers
  import opened TransferLoop
  import Checkpoints
  import Transfer

  /** The dict `transfer_playlist` returns: status "skipped", "error" or
      "completed". */
  datatype LegacyResult =
    | Skipped(reason: string)
    | Error(reason: string)
    | Finished(name: string, total: nat, found: nat, notFound: nat)

  /** `self.stats` without the start time. */
  datatype LegacyStats = LegacyStats(playlistsProcessed: nat, playlistsSkipped: nat,
                                     totalTracksFound: nat, totalTracksNotFound: nat)

  /** The loop's variables: the queued ids, the two counters and the writes
      made so far. */
  datatype LegacyState = LegacyState(queue: seq<string>, found: nat, notFound: nat, calls: seq<AddCall>)

  /** A search outcome: a hit is queued and counted as found, a miss
      counted as not found. */
  function Searched(s: LegacyState, hit: Option<string>): LegacyState {
    if hit.Some? then s.(queue := s.queue + [hit.value], found := s.found + 1)
    else s.(notFound := s.notFound + 1)
  }

  /** One iteration: a hit is queued and counted as found, a miss counted as
      not found; a queue of 50 ids is written, and written once more when
      the first attempt fails. */
  function LegacyStep(s: LegacyState, t: Track, search: (string, string) -> Option<int>,
                      addOk: nat -> bool): LegacyState
  {
    var s1 := Searched(s, ResolvedId(search(t.name, ArtistOf(t))));
    if |s1.queue| >= BatchSize then s1.(calls := s1.calls + SentCalls(s1.queue, addOk(|s1.calls|)), queue := [])
    else s1
  }

  /** The state after the first `n` tracks. */
  function LegacyRun(tracks: seq<Track>, n: nat, search: (string, string) -> Option<int>,
                     addOk: nat -> bool): LegacyState
    requires n <= |tracks|
  {
    if n == 0 then LegacyState([], 0, 0, [])
    else LegacyStep(LegacyRun(tracks, n - 1, search, addOk), tracks[n - 1], search, addOk)
  }

  /** All writes of a transfer: those of the loop and the final partial
      batch, when there is one. */
  function LegacyCalls(s: LegacyState): seq<AddCall> {
    if s.queue != [] then s.calls + [AddCall(s.queue, Final)] else s.calls
  }

  /** The ids the search finds for `tracks`, in track order. */
  function FoundIds(tracks: seq<Track>, search: (string, string) -> Option<int>): seq<string> {
    if tracks == [] then []
    else
      var t := tracks[|tracks| - 1];
      var hit := ResolvedId(search(t.name, ArtistOf(t)));
      FoundIds(tracks[..|tracks| - 1], search) + (if hit.Some? then [hit.value] else [])
  }

  /** The ids of the first attempts (batches and the final batch), in order:
      retries are left out. */
  function FirstAttempts(calls: seq<AddCall>): seq<string> {
    if calls == [] then []
    else
      var c := calls[|calls| - 1];
      FirstAttempts(calls[..|calls| - 1]) + (if c.kind != Retry then c.ids else [])
  }

  lemma FirstAttemptsAppend(calls: seq<AddCall>, c: AddCall)
    ensures FirstAttempts(calls + [c]) == FirstAttempts(calls) + (if c.kind != Retry then c.ids else [])
  {
    assert (calls + [c])[..|calls|] == calls;
  }

  /** A full queue adds its ids to the first attempts exactly once, whether
      or not the batch fails. */
  lemma FirstAttemptsSent(calls: seq<AddCall>, queue: seq<string>, ok: bool)
    ensures FirstAttempts(calls + SentCalls(queue, ok)) == FirstAttempts(calls) + queue
  {
    var b := AddCall(queue, Batch);
    FirstAttemptsAppend(calls, b);
    if !ok {
      assert calls + SentCalls(queue, ok) == (calls + [b]) + [AddCall(queue, Retry)];
      FirstAttemptsAppend(calls + [b], AddCall(queue, Retry));
    }
  }

  /** Every track is counted once, as found or not found, and the found
      count is the number of hits. */
  lemma {:induction false} LegacyCounts(tracks: seq<Track>, n: nat, search: (string, string) -> Option<int>,
                                        addOk: nat -> bool)
    requires n <= |tracks|
    ensures var s := LegacyRun(tracks, n, search, addOk);
            s.found + s.notFound == n && s.found == |FoundIds(tracks[..n], search)|
  {
    if n > 0 {
      LegacyCounts(tracks, n - 1, search, addOk);
      assert tracks[..n][..n - 1] == tracks[..n - 1];
    }
  }

  /** The ids of the first `n` tracks' hits are those of the first `n - 1`
      and then the hit of track `n`, if any. */
  lemma FoundIdsPrefix(tracks: seq<Track>, n: nat, search: (string, string) -> Option<int>)
    requires 0 < n <= |tracks|
    ensures var hit := ResolvedId(search(tracks[n - 1].name, ArtistOf(tracks[n - 1])));
            FoundIds(tracks[..n], search) == FoundIds(tracks[..n - 1], search) + (if hit.Some? then [hit.value] else [])
  {
    assert tracks[..n][..n - 1] == tracks[..n - 1];
    assert tracks[..n][n - 1] == tracks[n - 1];
  }

  /** Every hit is sent exactly once as a first attempt or is still queued,
      in track order. */
  lemma {:induction false} LegacyIdsInOrder(tracks: seq<Track>, n: nat, search: (string, string) -> Option<int>,
                                            addOk: nat -> bool)
    requires n <= |tracks|
    ensures var s := LegacyRun(tracks, n, search, addOk);
            FirstAttempts(s.calls) + s.queue == FoundIds(tracks[..n], search)
  {
    if n > 0 {
      LegacyIdsInOrder(tracks, n - 1, search, addOk);
      FoundIdsPrefix(tracks, n, search);
      var p := LegacyRun(tracks, n - 1, search, addOk);
      var t := tracks[n - 1];
      var hit := ResolvedId(search(t.name, ArtistOf(t)));
      var more := if hit.Some? then [hit.value] else [];
      var s1 := Searched(p, hit);
      assert s1.calls == p.calls && s1.queue == p.queue + more;
      assert FirstAttempts(s1.calls) + s1.queue == (FirstAttempts(p.calls) + p.queue) + more;
      if |s1.queue| >= BatchSize {
        FirstAttemptsSent(s1.calls, s1.queue, addOk(|s1.calls|));
      }
    }
  }

  /** Between tracks fewer than 50 ids are queued; every batch written in
      the loop has exactly 50 ids, is retried with the same ids exactly when
      it fails, and every retry follows a failed batch. */
  lemma {:induction false} LegacyBatches(tracks: seq<Track>, n: nat, search: (string, string) -> Option<int>,
                                         addOk: nat -> bool)
    requires n <= |tracks|
    ensures var s := LegacyRun(tracks, n, search, addOk);
            |s.queue| < BatchSize && CallsWellFormed(s.calls, addOk)
  {
    if n > 0 {
      LegacyBatches(tracks, n - 1, search, addOk);
      var p := LegacyRun(tracks, n - 1, search, addOk);
      var t := tracks[n - 1];
      var s1 := Searched(p, ResolvedId(search(t.name, ArtistOf(t))));
      if |s1.queue| >= BatchSize {
        var c := AddCall(s1.queue, Batch);
        if addOk(|s1.calls|) {
          FlushWellFormed(s1.calls, [c], addOk);
        } else {
          FlushWellFormed(s1.calls, [c, AddCall(s1.queue, Retry)], addOk);
        }
      }
    }
  }

  /** Over a whole playlist: every hit is sent exactly once as a first
      attempt, in track order, and the final batch holds between 1 and 49
      ids. */
  lemma LegacyAllSent(tracks: seq<Track>, search: (string, string) -> Option<int>, addOk: nat -> bool)
    ensures var s := LegacyRun(tracks, |tracks|, search, addOk);
            && FirstAttempts(LegacyCalls(s)) == FoundIds(tracks, search)
            && (s.queue != [] ==> 0 < |LegacyCalls(s)[|LegacyCalls(s)| - 1].ids| < BatchSize)
  {
    var s := LegacyRun(tracks, |tracks|, search, addOk);
    LegacyIdsInOrder(tracks, |tracks|, search, addOk);
    LegacyBatches(tracks, |tracks|, search, addOk);
    assert tracks[..|tracks|] == tracks;
    if s.queue != [] {
      FirstAttemptsAppend(s.calls, AddCall(s.queue, Final));
    }
  }

  class LegacyEngine {
    var stats: LegacyStats
    /** Names of the playlists whose TIDAL creation was attempted, in order
        (recorded before the outcome is known). */
    var created: seq<string>
    /** The track writes sent to TIDAL, in order. */
    var writes: seq<Transfer.Write>

    constructor ()
      ensures stats == LegacyStats(0, 0, 0, 0) && created == [] && writes == []
    {
      stats := LegacyStats(0, 0, 0, 0);
      created := [];
      writes := [];
    }

    /** `add_tracks_to_tidal_playlist`: one write to TIDAL. */
    method AddTracks(tidalId: string, call: AddCall)
      modifies this`writes
      ensures writes == old(writes) + [Transfer.Write(tidalId, call)]
    {
      writes := writes + [Transfer.Write(tidalId, call)];
    }

    /** Lines 306-314 of `transfer_playlist`: the full queue is written, and
        written once more when the first attempt fails. */
    method SendQueue(tidalId: string, queue: seq<string>, calls: seq<AddCall>, addOk: nat -> bool,
                     ghost w0: seq<Transfer.Write>)
      returns (calls': seq<AddCall>)
      requires writes == w0 + Transfer.WritesTo(tidalId, calls)
      modifies this`writes
      ensures calls' == calls + SentCalls(queue, addOk(|calls|))
      ensures writes == w0 + Transfer.WritesTo(tidalId, calls')
    {
      var ok := addOk(|calls|);
      Transfer.WritesToConcat(w0, tidalId, calls, SentCalls(queue, ok));
      AddTracks(tidalId, AddCall(queue, Batch));
      if !ok {
        AddTracks(tidalId, AddCall(queue, Retry));
      }
      calls' := calls + SentCalls(queue, ok);
    }

    /** The loop of `transfer_playlist` (lines 284-314) over `tracks`,
        writing into `tidalId`. */
    method TransferTracks(tidalId: string, tracks: seq<Track>, search: (string, string) -> Option<int>,
                          addOk: nat -> bool)
      returns (s: LegacyState)
      modifies this`writes
      ensures s == LegacyRun(tracks, |tracks|, search, addOk)
      ensures writes == old(writes) + Transfer.WritesTo(tidalId, s.calls)
    {
      var queue: seq<string> := [];
      var found := 0;
      var notFound := 0;
      var calls: seq<AddCall> := [];
      assert Transfer.WritesTo(tidalId, []) == [];
      var k := 0;
      while k < |tracks|
        invariant 0 <= k <= |tracks|
        invariant LegacyRun(tracks, k, search, addOk) == LegacyState(queue, found, notFound, calls)
        invariant writes == old(writes) + Transfer.WritesTo(tidalId, calls)
      {
        var t := tracks[k];
        var hit := ResolvedId(search(t.name, ArtistOf(t)));
        if hit.Some? {
          queue := queue + [hit.value];
          found := found + 1;
        } else {
          notFound := notFound + 1;
        }
        if |queue| >= BatchSize {
          calls := SendQueue(tidalId, queue, calls, addOk, old(writes));
          queue := [];
        }
        k := k + 1;
      }
      s := LegacyState(queue, found, notFound, calls);
    }

    /** `transfer_playlist`: an empty playlist is skipped, and a playlist
        whose tracks cannot be fetched or whose TIDAL playlist cannot be
        created is an error; otherwise a new TIDAL playlist receives every
        hit, and the totals are added to the statistics. */
    method TransferPlaylist(p: Checkpoints.PlaylistInfo, remote: Transfer.Remote) returns (result: LegacyResult)
      modifies this`stats, this`created, this`writes
      ensures p.total == 0 ==>
                result == Skipped("empty") && stats == old(stats) && created == old(created) && writes == old(writes)
      ensures p.total != 0 && remote.tracksOf(p.id) == [] ==>
                result == Error("no_tracks") && stats == old(stats) && created == old(created) && writes == old(writes)
      ensures p.total != 0 && remote.tracksOf(p.id) != [] ==> created == old(created) + [p.name]
      ensures var made := remote.createPlaylist(p.name);
              p.total != 0 && remote.tracksOf(p.id) != [] && (made.None? || made.value == "") ==>
                result == Error("playlist_creation_failed") && stats == old(stats) && writes == old(writes)
      ensures var tracks := remote.tracksOf(p.id);
              var made := remote.createPlaylist(p.name);
              var s := LegacyRun(tracks, |tracks|, remote.search, remote.addOk(p.id));
              p.total != 0 && tracks != [] && made.Some? && made.value != "" ==>
                && result == Finished(p.name, |tracks|, s.found, s.notFound)
                && writes == old(writes) + Transfer.WritesTo(made.value, LegacyCalls(s))
                && stats == old(stats).(totalTracksFound := old(stats).totalTracksFound + s.found,
                                        totalTracksNotFound := old(stats).totalTracksNotFound + s.notFound)
    {
      if p.total == 0 {
        return Skipped("empty");
      }
      var tracks := remote.tracksOf(p.id);
      if tracks == [] {
        return Error("no_tracks");
      }
      created := created + [p.name];
      var made := remote.createPlaylist(p.name);
      if made.None? || made.value == "" {
        return Error("playlist_creation_failed");
      }
      var tidalId := made.value;
      var s := TransferTracks(tidalId, tracks, remote.search, remote.addOk(p.id));
      if s.queue != [] {
        Transfer.WritesToConcat(old(writes), tidalId, s.calls, [AddCall(s.queue, Final)]);
        AddTracks(tidalId, AddCall(s.queue, Final));
      }
      stats := stats.(totalTracksFound := stats.totalTracksFound + s.found,
                      totalTracksNotFound := stats.totalTracksNotFound + s.notFound);
      result := Finished(p.name, |tracks|, s.found, s.notFound);
    }
  }
}
