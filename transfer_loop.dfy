/**
 * The per-track loop of `transfer_playlist` in `spotify_to_tidal_transfer.py`,
 * as a function of its inputs: each track from the resume cursor on is
 * searched on TIDAL, classified as skipped (already in the destination),
 * found (queued for adding) or not found, and the queue is written to TIDAL
 * whenever it reaches 50 ids.  A successful write moves the resume cursor and
 * the saved counters and makes the written ids known to the destination; a
 * failed write is retried once, the retry's outcome is not looked at, and the
 * queue is emptied in both cases.
 *
 * The TIDAL search and the outcome of each write are inputs: `search` maps a
 * (track name, artist) pair to the search hit's id, `addOk` maps the number of
 * the write call within this transfer to its success.
 */
module TransferLoop {
  import opened Wrappers
  import opened Numerals

  /** Ids are written to TIDAL once this many are queued. */
  const BatchSize: nat := 50

  /** A Spotify track as `get_all_playlist_tracks` returns it. */
  datatype Track = Track(name: string, artists: seq<string>)

  /** `track['artists'][0] if track['artists'] else "Unknown"` */
  function ArtistOf(t: Track): string {
    if |t.artists| > 0 then t.artists[0] else "Unknown"
  }

  /** The id text of a search hit: `str(id)` when the id is truthy; a missing
      hit and the id 0 both count as not found. */
  function ResolvedId(hit: Option<int>): Option<string> {
    if hit.Some? && hit.value != 0 then Some(IntToString(hit.value)) else None
  }

  /** A write to TIDAL: the first attempt at a full batch, its retry, or the
      final partial batch after the loop. */
  datatype CallKind = Batch | Retry | Final

  datatype AddCall = AddCall(ids: seq<string>, kind: CallKind)

  /** The calls one full queue costs: the batch, and when it fails the one
      retry whose outcome is not looked at. */
  function SentCalls(queue: seq<string>, ok: bool): seq<AddCall> {
    if ok then [AddCall(queue, Batch)] else [AddCall(queue, Batch), AddCall(queue, Retry)]
  }

  /** The loop's variables, the checkpoint entry's three counters, and the
      writes made so far. */
  datatype LoopState = LoopState(
    queue: seq<string>,
    found: nat,
    notFound: nat,
    skipped: nat,
    existing: set<string>,
    cursor: nat,
    savedFound: nat,
    savedNotFound: nat,
    calls: seq<AddCall>)

  /** The state before the first track: counters resumed from the entry,
      an empty queue, nothing skipped, nothing written. */
  function StartState(processed: nat, found: nat, notFound: nat, existing: set<string>): LoopState {
    LoopState([], found, notFound, 0, existing, processed, found, notFound, [])
  }

  /** Classification of one search outcome. */
  function Classify(s: LoopState, id: Option<string>): LoopState {
    match id
    case None => s.(notFound := s.notFound + 1)
    case Some(x) =>
      if x in s.existing then s.(skipped := s.skipped + 1)
      else s.(queue := s.queue + [x], found := s.found + 1)
  }

  /** Writing the full queue after track number `idx` (1-based). */
  function Flush(s: LoopState, idx: nat, ok: bool): LoopState {
    if ok then
      s.(existing := s.existing + (set x | x in s.queue),
         cursor := idx, savedFound := s.found, savedNotFound := s.notFound,
         calls := s.calls + [AddCall(s.queue, Batch)], queue := [])
    else
      s.(calls := s.calls + [AddCall(s.queue, Batch), AddCall(s.queue, Retry)], queue := [])
  }

  /** One iteration of the loop for track number `idx` (1-based). */
  function Step(s: LoopState, idx: nat, t: Track, search: (string, string) -> Option<int>,
                addOk: nat -> bool): LoopState
  {
    var s1 := Classify(s, ResolvedId(search(t.name, ArtistOf(t))));
    if |s1.queue| >= BatchSize then Flush(s1, idx, addOk(|s1.calls|)) else s1
  }

  /** The state after the first `n` of the tracks `todo`, which begin after
      position `start` of the playlist. */
  function RunTracks(s0: LoopState, todo: seq<Track>, start: nat, n: nat,
                     search: (string, string) -> Option<int>, addOk: nat -> bool): LoopState
    requires n <= |todo|
  {
    if n == 0 then s0
    else Step(RunTracks(s0, todo, start, n - 1, search, addOk), start + n, todo[n - 1], search, addOk)
  }

  /** `spotify_tracks[start_index:]` */
  function TracksFrom(tracks: seq<Track>, start: nat): (todo: seq<Track>)
    ensures |todo| == if start <= |tracks| then |tracks| - start else 0
  {
    if start <= |tracks| then tracks[start..] else []
  }

  /** The writes after the loop: the final partial batch, when there is one. */
  function FinalCalls(s: LoopState): seq<AddCall> {
    if s.queue != [] then s.calls + [AddCall(s.queue, Final)] else s.calls
  }

  // ---------------------------------------------------------------------
  // Counting
  // ---------------------------------------------------------------------

  /** Every track is counted exactly once as found, not found or skipped. */
  lemma {:induction false} LoopCounts(s0: LoopState, tracks: seq<Track>, start: nat, n: nat,
                                      search: (string, string) -> Option<int>, addOk: nat -> bool)
    requires n <= |tracks|
    ensures var s := RunTracks(s0, tracks, start, n, search, addOk);
            s.found + s.notFound + s.skipped == s0.found + s0.notFound + s0.skipped + n
  {
    if n > 0 {
      LoopCounts(s0, tracks, start, n - 1, search, addOk);
    }
  }

  /** The number of first attempts among the writes. */
  function CountBatches(calls: seq<AddCall>): nat {
    if calls == [] then 0
    else CountBatches(calls[..|calls| - 1]) + (if calls[|calls| - 1].kind == Batch then 1 else 0)
  }

  lemma CountBatchesAppend(calls: seq<AddCall>, more: seq<AddCall>)
    requires |more| <= 2
    ensures CountBatches(calls + more) == CountBatches(calls) + CountBatches(more)
  {
    if |more| == 1 {
      assert (calls + more)[..|calls|] == calls;
    } else if |more| == 2 {
      var first := calls + [more[0]];
      assert (calls + more)[..|calls| + 1] == first;
      assert first[..|calls|] == calls;
      assert CountBatches(first) == CountBatches(calls) + (if more[0].kind == Batch then 1 else 0);
      assert more[..1] == [more[0]];
      assert [more[0]][..0] == [];
      assert CountBatches([more[0]]) == (if more[0].kind == Batch then 1 else 0);
      assert CountBatches(more) == CountBatches([more[0]]) + (if more[1].kind == Batch then 1 else 0);
      assert CountBatches(calls + more) == CountBatches(first) + (if more[1].kind == Batch then 1 else 0);
    } else {
      assert calls + more == calls;
    }
  }

  /** Each found track is either in a written batch or still queued, so the
      found count grows by 50 per batch plus the queue's length. */
  lemma {:induction false} LoopFoundInBatches(s0: LoopState, tracks: seq<Track>, start: nat, n: nat,
                                              search: (string, string) -> Option<int>, addOk: nat -> bool)
    requires n <= |tracks|
    requires s0.queue == [] && s0.calls == []
    ensures var s := RunTracks(s0, tracks, start, n, search, addOk);
            s.found == s0.found + BatchSize * CountBatches(s.calls) + |s.queue|
  {
    if n > 0 {
      LoopFoundInBatches(s0, tracks, start, n - 1, search, addOk);
      var p := RunTracks(s0, tracks, start, n - 1, search, addOk);
      var t := tracks[n - 1];
      var s1 := Classify(p, ResolvedId(search(t.name, ArtistOf(t))));
      assert s1.found == s0.found + BatchSize * CountBatches(s1.calls) + |s1.queue|;
      if |s1.queue| >= BatchSize {
        LoopBatchesWellFormed(s0, tracks, start, n - 1, search, addOk);
        assert |s1.queue| == BatchSize;
        var ok := addOk(|s1.calls|);
        if ok {
          CountBatchesAppend(s1.calls, [AddCall(s1.queue, Batch)]);
          assert [AddCall(s1.queue, Batch)][..0] == [];
        } else {
          var pair := [AddCall(s1.queue, Batch), AddCall(s1.queue, Retry)];
          CountBatchesAppend(s1.calls, pair);
          assert pair[..1] == [pair[0]] && [pair[0]][..0] == [];
          assert CountBatches([pair[0]]) == 1;
          assert CountBatches(pair) == CountBatches([pair[0]]);
        }
      }
    }
  }

  // ---------------------------------------------------------------------
  // Batches
  // ---------------------------------------------------------------------

  /** The writes of the loop: every first attempt carries exactly 50 ids; a
      first attempt is followed by a retry of the same ids exactly when it
      failed; every retry follows a failed first attempt; there is no final
      write inside the loop. */
  ghost predicate CallsWellFormed(calls: seq<AddCall>, addOk: nat -> bool) {
    forall i :: 0 <= i < |calls| ==> CallOk(calls, i, addOk)
  }

  /** The conditions on the write at position `i`. */
  ghost predicate CallOk(calls: seq<AddCall>, i: nat, addOk: nat -> bool)
    requires i < |calls|
  {
    && calls[i].kind != Final
    && (calls[i].kind == Batch ==> |calls[i].ids| == BatchSize)
    && (calls[i].kind == Batch && i + 1 < |calls| ==> (calls[i + 1].kind == Retry <==> !addOk(i)))
    && (calls[i].kind == Batch && i + 1 == |calls| ==> addOk(i))
    && (calls[i].kind == Retry ==> i > 0 && calls[i - 1].kind == Batch && calls[i - 1].ids == calls[i].ids)
  }

  /** The queue stays below 50 ids between tracks and the writes stay well
      formed. */
  lemma {:induction false} LoopBatchesWellFormed(s0: LoopState, tracks: seq<Track>, start: nat, n: nat,
                                                 search: (string, string) -> Option<int>, addOk: nat -> bool)
    requires n <= |tracks|
    requires s0.queue == [] && s0.calls == []
    ensures var s := RunTracks(s0, tracks, start, n, search, addOk);
            |s.queue| < BatchSize && CallsWellFormed(s.calls, addOk)
  {
    if n > 0 {
      LoopBatchesWellFormed(s0, tracks, start, n - 1, search, addOk);
      var p := RunTracks(s0, tracks, start, n - 1, search, addOk);
      var t := tracks[n - 1];
      var s1 := Classify(p, ResolvedId(search(t.name, ArtistOf(t))));
      if |s1.queue| >= BatchSize {
        var k := |s1.calls|;
        var ok := addOk(k);
        var c := AddCall(s1.queue, Batch);
        if ok {
          FlushWellFormed(s1.calls, [c], addOk);
        } else {
          FlushWellFormed(s1.calls, [c, AddCall(s1.queue, Retry)], addOk);
        }
      }
    }
  }

  /** Appending a successful batch, or a failed batch and its retry, keeps
      the writes well formed. */
  lemma FlushWellFormed(calls: seq<AddCall>, more: seq<AddCall>, addOk: nat -> bool)
    requires CallsWellFormed(calls, addOk)
    requires |more| == 1 ==> more[0].kind == Batch && |more[0].ids| == BatchSize && addOk(|calls|)
    requires |more| == 2 ==> && more[0].kind == Batch && |more[0].ids| == BatchSize && !addOk(|calls|)
                             && more[1] == AddCall(more[0].ids, Retry)
    requires 1 <= |more| <= 2
    ensures CallsWellFormed(calls + more, addOk)
  {
    var all := calls + more;
    forall i | 0 <= i < |all| ensures CallOk(all, i, addOk) {
      if i < |calls| {
        assert CallOk(calls, i, addOk);
        assert all[i] == calls[i];
        if i + 1 < |calls| {
          assert all[i + 1] == calls[i + 1];
        }
        if i > 0 {
          assert all[i - 1] == calls[i - 1];
        }
      } else if i == |calls| + 1 {
        assert all[i] == more[1] && all[i - 1] == more[0];
      } else {
        assert all[i] == more[0];
      }
    }
  }

  // ---------------------------------------------------------------------
  // Resume cursor and the destination's known ids
  // ---------------------------------------------------------------------

  /** The cursor never moves backwards and stays within the tracks handled;
      it leaves its resumed value only for a track after the resume point; the
      saved counters never run ahead of the live ones. */
  lemma {:induction false} LoopCursor(s0: LoopState, tracks: seq<Track>, start: nat, n: nat,
                                      search: (string, string) -> Option<int>, addOk: nat -> bool)
    requires n <= |tracks|
    requires s0.cursor == start && s0.savedFound == s0.found && s0.savedNotFound == s0.notFound
    ensures var s := RunTracks(s0, tracks, start, n, search, addOk);
            && start <= s.cursor <= start + n
            && s.savedFound <= s.found && s.savedNotFound <= s.notFound
  {
    if n > 0 {
      LoopCursor(s0, tracks, start, n - 1, search, addOk);
    }
  }

  /** One iteration never moves the cursor backwards. */
  lemma CursorMonotone(s0: LoopState, tracks: seq<Track>, start: nat, n: nat,
                       search: (string, string) -> Option<int>, addOk: nat -> bool)
    requires n < |tracks|
    requires s0.cursor == start && s0.savedFound == s0.found && s0.savedNotFound == s0.notFound
    ensures RunTracks(s0, tracks, start, n, search, addOk).cursor
            <= RunTracks(s0, tracks, start, n + 1, search, addOk).cursor
  {
    LoopCursor(s0, tracks, start, n, search, addOk);
  }

  /** The ids of the first attempts that succeeded. */
  function WrittenIds(calls: seq<AddCall>, addOk: nat -> bool): set<string> {
    if calls == [] then {}
    else
      var i := |calls| - 1;
      WrittenIds(calls[..i], addOk) + (if calls[i].kind == Batch && addOk(i) then set x | x in calls[i].ids else {})
  }

  lemma WrittenIdsAppend(calls: seq<AddCall>, c: AddCall, addOk: nat -> bool)
    ensures WrittenIds(calls + [c], addOk)
            == WrittenIds(calls, addOk) + (if c.kind == Batch && addOk(|calls|) then set x | x in c.ids else {})
  {
    assert (calls + [c])[..|calls|] == calls;
  }

  /** A flush adds to the known ids exactly what `WrittenIds` adds. */
  lemma FlushExisting(s: LoopState, idx: nat, base: set<string>, addOk: nat -> bool)
    requires s.existing == base + WrittenIds(s.calls, addOk)
    ensures var f := Flush(s, idx, addOk(|s.calls|));
            f.existing == base + WrittenIds(f.calls, addOk)
  {
    var b := AddCall(s.queue, Batch);
    WrittenIdsAppend(s.calls, b, addOk);
    if !addOk(|s.calls|) {
      WrittenIdsAppend(s.calls + [b], AddCall(s.queue, Retry), addOk);
      assert s.calls + [b, AddCall(s.queue, Retry)] == s.calls + [b] + [AddCall(s.queue, Retry)];
    }
  }

  /** The destination's known ids grow exactly by the ids of successful first
      attempts: a failed batch, even when its retry succeeds, adds nothing. */
  lemma {:induction false} LoopExisting(s0: LoopState, tracks: seq<Track>, start: nat, n: nat,
                                        search: (string, string) -> Option<int>, addOk: nat -> bool)
    requires n <= |tracks|
    requires s0.calls == []
    ensures var s := RunTracks(s0, tracks, start, n, search, addOk);
            s.existing == s0.existing + WrittenIds(s.calls, addOk)
  {
    if n > 0 {
      LoopExisting(s0, tracks, start, n - 1, search, addOk);
      var p := RunTracks(s0, tracks, start, n - 1, search, addOk);
      var t := tracks[n - 1];
      var s1 := Classify(p, ResolvedId(search(t.name, ArtistOf(t))));
      if |s1.queue| >= BatchSize {
        FlushExisting(s1, start + n, s0.existing, addOk);
      }
    }
  }

  /** Two tracks that resolve to the same new id are both queued: nothing is
      added to the known ids until a batch has been written. */
  lemma DuplicateHitsBothQueued(t1: Track, t2: Track, search: (string, string) -> Option<int>,
                                addOk: nat -> bool, existing: set<string>)
    requires search(t1.name, ArtistOf(t1)) == Some(7) && search(t2.name, ArtistOf(t2)) == Some(7)
    requires "7" !in existing
    ensures var s := RunTracks(StartState(0, 0, 0, existing), [t1, t2], 0, 2, search, addOk);
            s.queue == ["7", "7"] && s.found == 2 && s.skipped == 0 && s.existing == existing
  {
    assert IntToString(7) == "7";
    var tracks := [t1, t2];
    var s0 := StartState(0, 0, 0, existing);
    var s1 := RunTracks(s0, tracks, 0, 1, search, addOk);
    assert RunTracks(s0, tracks, 0, 0, search, addOk) == s0;
    assert s1 == Step(s0, 1, t1, search, addOk);
    assert s1.queue == ["7"] && s1.found == 1 && s1.skipped == 0 && s1.existing == existing;
    assert RunTracks(s0, tracks, 0, 2, search, addOk) == Step(s1, 2, t2, search, addOk);
  }
}
