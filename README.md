# spoti-tidal in Dafny

A verified model of the core of spoti-tidal, a set of scripts that copy a
user's Spotify playlists to TIDAL.

- `spotify_to_tidal_transfer.py` is the resumable transfer. A JSON checkpoint
  records, per Spotify playlist, its status (`pending`, `in_progress`,
  `completed`), its TIDAL playlist and how many tracks have been handled.
  - A run resumes from the checkpoint when it has version `1.0`, is not
    completed and belongs to the same Spotify user.
  - Each track is searched on TIDAL. Hits not already in the TIDAL playlist
    are queued and written in batches of 50.
  - After each successful batch the checkpoint is saved.
  - In `--sync` mode (`sync_only`), a playlist counts as synced when its TIDAL
    namesake holds at least `int(0.8 * n)` tracks, where `n` is the Spotify
    track count. The product is rounded down, so 2 of 3 tracks is enough.
- `spotify_to_tidal_complete.py` is the older, non-resumable transfer of one
  playlist.
- `library_manager.py` keeps a CSV library of tracks. Each track records its
  playlists and its TIDAL and SoundCloud matches. The library answers sync
  queries and gives statistics.
- `daily_sync.py` runs a sync, reads its printed output into a report,
  formats the report as Markdown, and inserts it into the day's Obsidian
  note before the note's `#daily-log` tag.

## How the model is laid out

- `wrappers.dfy`: `Option`.
- `dicts.dfy`: an insertion-ordered dictionary. It stands for a Python
  `dict`, which iterates in insertion order.
- `text.dfy`: the string operations of Python's `str` that the core uses.
  These are `in`, `find`, `split`, `join`, `replace`, `strip` and `lower`.
- `numerals.dfy`: `str(int)`, `int(str)` and `f"{n:02d}"`.
- `ordering.dfy`: the code-point order of strings and the sorted list of a
  set. `sorted()` needs both.
- `library.dfy`: the CSV row codec, the queries, and `LibraryManager`, a
  class whose `tracks` field is updated in place.
- `checkpoint.dfy`: the checkpoint document, its loading, its
  initialisation and the status report.
- `transfer_loop.dfy`: the per-track loop of `transfer_playlist`, as a
  function of the search results and the write outcomes.
- `transfer.dfy`: `TransferEngine`, a class with the transfer's fields.
  These are the checkpoint in memory, the checkpoint file, the cache of
  TIDAL playlists, the statistics and a log of TIDAL writes. The transfer of
  one playlist, one pass of `run`'s playlist loop and the whole loop are
  proved equal to pure definitions (`TransferState`, `VisitStep`,
  `VisitLoop` and `LoopResults`), and the loop's properties are proved about
  those.
- `legacy_transfer.dfy`: the transfer of `spotify_to_tidal_complete.py`.
- `daily_sync.dfy`: the output parser, the entry formatter, the insertion
  into the note and the note's path.

Remote services are inputs. The Spotify track list, the TIDAL search, the
creation of a playlist, the TIDAL track ids and counts, and the success of
each write are arrows in `Transfer.Remote`. The model records every write to
TIDAL, so contracts can state exactly what was sent.

## Model

| member | source | states |
|---|---|---|
| Numerals.DigitsOfNat | daily_sync.py:26 | the decimal text of a year reads back as that number |
| Numerals.Pad2Value | daily_sync.py:26 | a `:02d` month or day reads back as that number |
| Numerals.ParseIntToString | daily_sync.py:72-73 | `int(str(n)) == n` for every integer, negative ones included |
| Numerals.ParseIntBlank | daily_sync.py:72-76 | `int()` of an empty or blank text is an error, not a number |
| Numerals.ParseUnsignedDigits | daily_sync.py:72-73 | a text of plain decimal digits is accepted, with its decimal value |
| Numerals.ParseUnsignedUnderscore | daily_sync.py:72-73 | an underscore between two digit groups is accepted and leaves the value that of the groups written together |
| Text.Find | daily_sync.py:185 | the first occurrence of a pattern, and none before it; `None` exactly when there is no occurrence |
| Text.JoinSplit | library_manager.py:85 | joining the pieces of a split with the separator gives back the text |
| Text.SplitJoin | library_manager.py:120 | splitting a join of pieces without the one-character separator gives back the pieces |
| Text.ReplaceOnce | daily_sync.py:186 | with a single occurrence of the pattern, `replace` swaps just that occurrence |
| Text.ReplaceKeepsPrefix | daily_sync.py:186 | `replace` keeps the text before the first occurrence and puts the replacement there |
| Text.Strip | daily_sync.py:186 | `strip()` removes exactly the whitespace at both ends |
| Text.StripIdempotent | daily_sync.py:60 | stripping twice is stripping once |
| Text.LowerMatches | library_manager.py:92-94 | a text lower-cases to a lower-case word exactly when it has the word's length and each character is the word's letter in either case |
| Ordering.SortedElements | library_manager.py:120 | `sorted(set)` is strictly increasing, with the same elements and the same length |
| Dicts.Dict.Put | library_manager.py:179 | assigning to a key sets its value; a new key goes to the end of the order, a known key keeps its place |
| Dicts.Dict.PutPut | library_manager.py:179 | the second of two assignments to a key wins |
| Library.BoolRoundTrip | library_manager.py:90-100 | `_parse_bool(_bool_to_str(v)) == v` for `True`, `False` and `None` |
| Library.ParseBoolCases | library_manager.py:90-94 | `True` exactly for "true" in any case; `None` exactly for "" and "null"; anything else is `False` |
| Library.PlaylistIdsRoundTrip | library_manager.py:85 | a set of non-empty ids without commas survives saving and loading, and is saved in sorted order |
| Library.EmptyIdIsLost | library_manager.py:120 | a playlist set holding only the empty id is saved as an empty cell and read back as no playlists |
| Library.RowRoundTrip | library_manager.py:102-134 | a record whose playlist ids are non-empty and hold no comma reads back unchanged from its saved row |
| Library.LoadRows | library_manager.py:68-88 | loading gives a valid table in which each record is filed under its own Spotify id |
| Library.LoadSaved | library_manager.py:102-134 | loading the saved rows gives back the same table, records in the same order |
| Library.LoadSavedPrefix | library_manager.py:68-88 | loading the first `n` saved rows gives the first `n` records of the table |
| Library.EmptySpotifyIdIsLost | library_manager.py:79-80 | a record saved under the empty Spotify id is skipped on loading |
| Library.TracksForPlaylist | library_manager.py:219-224 | exactly the records that list the playlist |
| Library.Unsynced | library_manager.py:226-253 | exactly the records that list the playlist and have not been searched on the platform, or have no id there although they are available |
| Library.Unavailable | library_manager.py:255-261 | exactly the records searched on the platform and not found |
| Library.QueriesAreFilters | library_manager.py:219-261 | each of the three queries is the in-order filter of the table by its condition |
| Library.QueriesKeepOrder | library_manager.py:219-261 | each query keeps table order: on a concatenated table it gives the first part's records, then the second's |
| Library.AvailabilityPartition | library_manager.py:297-337 | available, unavailable and unsearched records add up to all records |
| Library.UnavailableCount | library_manager.py:255-261 | the unavailable list has as many records as the statistics count as unavailable |
| Library.MatchRate | library_manager.py:326-328 | the rate is available over searched times 100, or 0 when nothing was searched, and lies between 0 and 100 |
| Library.MatchRateExamples | library_manager.py:326-328 | 8 found and 2 missing give 80; no search results give 0 |
| Library.CountAvailabilityIndices | library_manager.py:297-337 | the count of records with a given availability is the number of positions holding one |
| Library.StatsFor | library_manager.py:297-337 | available, unavailable and unsearched count the records with `True`, `False` and `None`; they add up to the number of records; the match rate is that of the first two |
| Library.SyncStatsOf | library_manager.py:297-337 | the total is the number of records, and the TIDAL and SoundCloud statistics are `StatsFor` of the same records |
| Library.LibraryManager.constructor | library_manager.py:57-88 | the table is the loading of the CSV rows |
| Library.LibraryManager.AddTrack | library_manager.py:136-179 | a new id gets a fresh record at the end; a known id keeps its place and its platform fields, gains the playlist, takes the new title and artist, and takes the new album only when one is given; no other record changes |
| Library.LibraryManager.SetTidalId | library_manager.py:181-196 | an unknown id changes nothing; otherwise only that record changes, taking the TIDAL id (`''` for `None`), the availability and the time |
| Library.LibraryManager.GetTrack | library_manager.py:215-217 | the record of the id, and `None` exactly when the id is unknown |
| Library.LibraryManager.UnsyncedTracksForPlaylist | library_manager.py:226-253 | the loop returns `Unsynced` of the records, in table order |
| Library.LibraryManager.IsPlaylistSynced | library_manager.py:263-295 | true exactly when every given id is in the library, lists the playlist, and has been searched on the platform |
| Library.LibraryManager.GetSyncStats | library_manager.py:297-337 | the statistics are `SyncStatsOf` the playlist's records when a non-empty playlist id is given, and of all records otherwise |
| Checkpoints.ResumeIff | spotify_to_tidal_transfer.py:101-127 | a stored checkpoint is resumed exactly when it has version "1.0", is not completed and belongs to the current user, and it is then resumed as stored |
| Checkpoints.FreshStartIgnoresFile | spotify_to_tidal_transfer.py:645-646 | with `--fresh` the file's content makes no difference, and nothing is resumed |
| Checkpoints.CompletedNeverResumes | spotify_to_tidal_transfer.py:120-122 | a completed checkpoint is never resumed |
| Checkpoints.InitialEntries | spotify_to_tidal_transfer.py:174-183 | every entry of a new checkpoint is pending, with no TIDAL playlist and zero counts |
| Checkpoints.InitialEntriesKeys | spotify_to_tidal_transfer.py:174-183 | a new checkpoint has an entry exactly for each listed playlist id |
| Checkpoints.InitialEntryNames | spotify_to_tidal_transfer.py:174-183 | a playlist's entry carries the name of the last playlist listed with that id |
| Checkpoints.InitialEntriesCount | spotify_to_tidal_transfer.py:174-183 | with distinct ids there are as many entries as playlists |
| Checkpoints.InitialCheckpointResumes | spotify_to_tidal_transfer.py:163-185 | a saved new checkpoint is resumed by the same user and dropped for another user |
| Checkpoints.StatusCountsPartition | spotify_to_tidal_transfer.py:765-771 | completed, in-progress and pending entries add up to at most all entries, and entries with no known status make up the rest |
| Checkpoints.FirstInProgress | spotify_to_tidal_transfer.py:781-786 | the first in-progress entry in document order, and `None` exactly when there is none |
| Checkpoints.InProgressCountPositive | spotify_to_tidal_transfer.py:781-786 | the in-progress count is positive exactly when some entry is in progress |
| Checkpoints.SummaryBounds | spotify_to_tidal_transfer.py:746-788 | the three counts are bounded by the total, and a current playlist is shown exactly when one is in progress |
| Transfer.MinExpected | spotify_to_tidal_transfer.py:261 | `int(n * 0.8)` is the largest `t` with `5t <= 4n` |
| Transfer.CountSyncedIff | spotify_to_tidal_transfer.py:261-263 | synced exactly when `5 * (count + 1) > 4 * spotifyCount` |
| Transfer.CountSyncedExamples | spotify_to_tidal_transfer.py:261-263 | 40 of 50 is synced and 39 of 50 is not; an empty Spotify playlist is always synced |
| Transfer.CountSyncedMonotone | spotify_to_tidal_transfer.py:261-263 | more TIDAL tracks never make a synced playlist unsynced |
| Transfer.FindTidalPlaylistByName | spotify_to_tidal_transfer.py:210-214 | the cached id, and `None` exactly when the name is not cached |
| Transfer.BindingNone | spotify_to_tidal_transfer.py:494-511 | a new TIDAL playlist is created only when neither the entry nor the cache names one |
| Transfer.Target | spotify_to_tidal_transfer.py:494-515 | the destination is never empty, and is the existing playlist whenever there is one |
| Transfer.CompletedEntry | spotify_to_tidal_transfer.py:598-604 | a finished entry is completed, bound to the destination, with all tracks processed and the loop's counts |
| Transfer.SettledStep | spotify_to_tidal_transfer.py:683-713 | visiting one more playlist keeps every visited playlist either completed or failed |
| Transfer.FailedIdsIff | spotify_to_tidal_transfer.py:683-713 | a playlist id is among the failed ones exactly when some result for that id is an error |
| Transfer.NoFailureIff | spotify_to_tidal_transfer.py:737-741 | a run has no error exactly when no playlist failed |
| Transfer.WritesOfOutcome | spotify_to_tidal_transfer.py:454-623 | a playlist that is skipped or fails writes nothing; a transferred one writes only to its destination |
| Transfer.OutcomeIgnoresCounts | spotify_to_tidal_transfer.py:494-515 | the transfer depends on the cache only through the playlist's presence and id, not its remembered count |
| Transfer.ProbedKeepsOutcome | spotify_to_tidal_transfer.py:698-708 | remembering the track count during the sync check does not change the transfer that follows |
| Transfer.ProbedKept | spotify_to_tidal_transfer.py:236-263 | looking a playlist up in the cache keeps every cached name and id |
| Transfer.TransferStateAppends | spotify_to_tidal_transfer.py:454-623 | a transfer only appends writes and creation attempts, each for its own playlist's name, and keeps the cached names and ids |
| Transfer.VisitStepCases | spotify_to_tidal_transfer.py:683-710 | a completed playlist is only counted; in sync-only mode a synced one is marked completed under its name with the cache probed and no write; any other gives the transfer's result and writes for the cache as it was before the probe |
| Transfer.VisitStepTransfer | spotify_to_tidal_transfer.py:698-710 | a playlist that is neither completed nor synced is transferred with the probed cache and counted as processed |
| Transfer.VisitStepSettles | spotify_to_tidal_transfer.py:683-710 | one pass changes only its playlist's entry, leaves it completed or reports an error, and counts the playlist once |
| Transfer.VisitStepAppends | spotify_to_tidal_transfer.py:683-710 | one pass only appends writes and creation attempts, each new attempt is for the visited playlist, and cached ids are kept |
| Transfer.VisitStepLanded | spotify_to_tidal_transfer.py:683-710 | one pass never changes a completed or another playlist's entry, and every write it adds goes to the destination its entry then records as completed |
| Transfer.VisitLoopFrame | spotify_to_tidal_transfer.py:683-713 | over the loop only listed playlists' entries change, each playlist is counted once, and each result comes with a listed playlist's id |
| Transfer.VisitLoopSettled | spotify_to_tidal_transfer.py:683-713 | after the loop every listed playlist is completed or among the failed ones |
| Transfer.VisitLoopAppends | spotify_to_tidal_transfer.py:683-713 | the loop only appends writes and creation attempts, each attempt is for a listed playlist, and cached ids are kept |
| Transfer.VisitLoopLanded | spotify_to_tidal_transfer.py:683-713 | every write the loop adds goes to a TIDAL playlist that the final document records as the destination of a completed listed playlist |
| Transfer.MarkedKeepsEntries | spotify_to_tidal_transfer.py:717-718 | marking the run completed leaves every playlist entry, and so what was settled and where writes landed, as it was |
| Transfer.TransferEngine.constructor | spotify_to_tidal_transfer.py:61-86 | the engine starts with no checkpoint, zero statistics and no writes |
| Transfer.TransferEngine.SaveCheckpoint | spotify_to_tidal_transfer.py:129-152 | the file holds the checkpoint in memory, and nothing is written without one |
| Transfer.TransferEngine.ClearCheckpoint | spotify_to_tidal_transfer.py:154-161 | the file is gone, and its last content is archived |
| Transfer.TransferEngine.InitCheckpoint | spotify_to_tidal_transfer.py:163-185 | the checkpoint is the new document for the playlists and the user, and it is saved |
| Transfer.TransferEngine.StoreEntry | spotify_to_tidal_transfer.py:584-585 | only the playlist's entry changes, and the checkpoint is saved |
| Transfer.TransferEngine.AddTracks | spotify_to_tidal_transfer.py:441-450 | exactly one write is logged, to the given playlist |
| Transfer.TransferEngine.IsPlaylistSynced | spotify_to_tidal_transfer.py:236-263 | an uncached name is not synced; otherwise the cached count, fetched once and remembered, is compared with `int(0.8 * total)`; the answer is `SyncedBy` the old cache and the new cache is `Probed` |
| Transfer.TransferEngine.FlushQueue | spotify_to_tidal_transfer.py:573-589 | a full queue is written; on success the cursor, the counts and the checkpoint advance and the ids become known; on failure it is written once more and nothing is saved |
| Transfer.TransferEngine.TransferTrack | spotify_to_tidal_transfer.py:548-589 | one track moves the state as `Step` does, and the writes and the saved checkpoint follow |
| Transfer.TransferEngine.TransferTracks | spotify_to_tidal_transfer.py:548-589 | the loop ends in `RunTracks` of the tracks from the resume point; the TIDAL writes are exactly its batch calls; the entry holds the last successful batch's progress and is saved |
| Transfer.TransferEngine.TransferInto | spotify_to_tidal_transfer.py:527-623 | from the resume point, the playlist ends completed with the loop's counts, and the writes are the loop's calls plus the final batch |
| Transfer.TransferEngine.TransferPlaylist | spotify_to_tidal_transfer.py:454-623 | empty playlists are skipped and completed; a missing track list or a failed creation is an error that changes nothing; otherwise the result, the checkpoint, the writes and the statistics are those of `PlaylistLoop`; no other entry changes; the result is `TransferOutcome`, and the new checkpoint, cache, statistics, writes and creation attempts are `TransferState` of the old ones |
| Transfer.TransferEngine.VisitPlaylist | spotify_to_tidal_transfer.py:683-710 | one pass of the loop: the result is `VisitResult` and the new checkpoint, cache, statistics, writes and creation attempts are `VisitStep` of the old ones; only the playlist's entry changes, and it ends completed unless the transfer failed; a completed playlist saves nothing; the playlist is counted once |
| Transfer.TransferEngine.VisitAll | spotify_to_tidal_transfer.py:683-713 | the results are `LoopResults` and the new state is `VisitLoop` of the old one; every playlist ends completed or failed, other entries are untouched, and every playlist is counted once; each result belongs to a listed playlist, and the failed ids are exactly those whose result is an error; writes and creation attempts are only appended, every new write goes to the recorded destination of a completed listed playlist, and cached ids are kept |
| Transfer.TransferEngine.Resume | spotify_to_tidal_transfer.py:645-662 | the checkpoint is loaded unless `--fresh`, and dropped when it belongs to another user |
| Transfer.TransferEngine.Run | spotify_to_tidal_transfer.py:625-722 | no playlists means the checkpoint is only resumed and no write, statistic, cache entry or creation changes; otherwise the loop runs from the resumed or new checkpoint as `VisitLoop` and `LoopResults` say, every playlist ends completed or failed, the document is marked completed, the file is archived and removed, and every new write goes to the destination of a completed listed playlist; the failed ids are exactly those whose result is an error |
| Transfer.TransferEngine.Complete | spotify_to_tidal_transfer.py:717-722 | the checkpoint is marked completed, and its file ends archived and removed |
| TransferLoop.TracksFrom | spotify_to_tidal_transfer.py:539-540 | the tracks from the resume point on, none when it lies past the end |
| TransferLoop.LoopCounts | spotify_to_tidal_transfer.py:558-571 | every track is counted exactly once, as found, not found or skipped |
| TransferLoop.LoopFoundInBatches | spotify_to_tidal_transfer.py:566-589 | the found count grows by 50 per first attempt of a batch plus the length of the queue |
| TransferLoop.LoopBatchesWellFormed | spotify_to_tidal_transfer.py:573-589 | the queue stays below 50; every batch holds 50 ids; a retry follows exactly the failed batches and repeats their ids |
| TransferLoop.FlushWellFormed | spotify_to_tidal_transfer.py:573-589 | a written batch, or a failed batch and its retry, keeps the writes well formed |
| TransferLoop.LoopCursor | spotify_to_tidal_transfer.py:578-582 | the resume cursor lies between the start and the tracks handled, and the saved counts never exceed the running ones |
| TransferLoop.CursorMonotone | spotify_to_tidal_transfer.py:578-582 | the resume cursor never moves back |
| TransferLoop.WrittenIdsAppend | spotify_to_tidal_transfer.py:577-579 | only a successful first attempt adds its ids to the known ids |
| TransferLoop.FlushExisting | spotify_to_tidal_transfer.py:577-579 | after a flush the known ids are the initial ones plus every id of a successful batch |
| TransferLoop.LoopExisting | spotify_to_tidal_transfer.py:560-579 | throughout the loop the known ids are the initial ones plus the ids of successful batches |
| TransferLoop.DuplicateHitsBothQueued | spotify_to_tidal_transfer.py:560-568 | two tracks with the same new hit are both queued and counted as found, since the known ids only grow when a batch is written |
| LegacyTransfer.FirstAttemptsAppend | spotify_to_tidal_complete.py:302-311 | a retry adds nothing to the first attempts |
| LegacyTransfer.FirstAttemptsSent | spotify_to_tidal_complete.py:302-311 | writing a queue adds exactly its ids to the first attempts |
| LegacyTransfer.LegacyCounts | spotify_to_tidal_complete.py:284-301 | every track is found or not found, and the found count is the number of hits |
| LegacyTransfer.FoundIdsPrefix | spotify_to_tidal_complete.py:284-301 | the hits of one more track are the earlier hits plus its own |
| LegacyTransfer.LegacyIdsInOrder | spotify_to_tidal_complete.py:284-311 | every hit is sent once as a first attempt or is still queued, in track order |
| LegacyTransfer.LegacyBatches | spotify_to_tidal_complete.py:302-311 | the queue stays below 50, and the writes are 50-id batches with a retry after each failed one |
| LegacyTransfer.LegacyAllSent | spotify_to_tidal_complete.py:284-316 | over a whole playlist every hit is sent exactly once as a first attempt, in order, and the final batch holds 1 to 49 ids |
| LegacyTransfer.LegacyEngine.constructor | spotify_to_tidal_complete.py:36-46 | the engine starts with zero statistics and no writes |
| LegacyTransfer.LegacyEngine.AddTracks | spotify_to_tidal_complete.py:229-238 | exactly one write is logged, to the given playlist |
| LegacyTransfer.LegacyEngine.SendQueue | spotify_to_tidal_complete.py:302-311 | a full queue is written once, and once more when the first write fails |
| LegacyTransfer.LegacyEngine.TransferTracks | spotify_to_tidal_complete.py:284-316 | the loop ends in `LegacyRun` of the tracks, and the writes are exactly its calls |
| LegacyTransfer.LegacyEngine.TransferPlaylist | spotify_to_tidal_complete.py:240-331 | empty playlists are skipped; a missing track list or a failed creation is an error; otherwise a new TIDAL playlist always receives every hit |
| DailySync.ParseOutput | daily_sync.py:53-84 | the loop ends in `ApplyLines` of the output lines; the synced count is the number of listed playlists; the skipped count is the number of "Already synced:" lines; the found count comes from the last readable total |
| DailySync.SyncedMatchesListed | daily_sync.py:57-70 | every counted synced playlist is listed, and every listed one is counted |
| DailySync.SkippedCountsMarks | daily_sync.py:55-56 | each line with "Already synced:" adds one to the skipped count, and no other line does |
| DailySync.FoundIsLastTotal | daily_sync.py:71-76 | the found count is that of the last readable "Total tracks found:" line |
| DailySync.AlreadySyncedFirst | daily_sync.py:55-57 | a line with "Already synced:" counts as skipped whatever else it holds, and changes nothing else |
| DailySync.ProcessingLineName | daily_sync.py:57-62 | a "Processing:" line names the playlist by the trimmed text up to the first parenthesis |
| DailySync.LastNumberOf | daily_sync.py:71-80 | a total line ending in ": n" reads back as n |
| DailySync.ClockText | daily_sync.py:130 | the time is one line |
| DailySync.EntryLines | daily_sync.py:139-159 | the listing opens with the heading, and has at least three lines |
| DailySync.Block | daily_sync.py:139-165 | an entry opens with a blank line and the heading, and ends with a newline |
| DailySync.EntryShape | daily_sync.py:128-165 | every entry, in each of its three forms, opens with a blank line and the heading, and ends with a newline |
| DailySync.EntryLinesSingle | daily_sync.py:139-159 | no line of the listing contains a newline |
| DailySync.EntryLayout | daily_sync.py:139-159 | splitting a listing entry at newlines gives back exactly its lines, between two empty pieces |
| DailySync.TracksAccounted | daily_sync.py:149-155 | the first 15 tracks are listed in order, and a closing line counts the rest |
| DailySync.InsertBeforeTag | daily_sync.py:184-188 | in a note with one tag, the stripped entry and a blank line go right before it, and nothing else changes |
| DailySync.EntryKeptAtTag | daily_sync.py:185-186 | the note keeps everything before its first tag and gains the stripped entry |
| DailySync.EntryKeptNoTag | daily_sync.py:187-188 | a note without the tag is kept whole and gains the entry |
| DailySync.FreshNoteTag | daily_sync.py:174-178 | a new note's tag comes right after its header |
| DailySync.FirstEntry | daily_sync.py:174-188 | the first entry of a new note sits between its header and its tag |
| DailySync.LogPathDate | daily_sync.py:23-26 | the note lies in the year's and month's folders; its name repeats them and then gives the day; each reads back as the date's own number |
| DailySync.DailyRun | daily_sync.py:216-223 | the entry formats the report parsed from the transfer's output and exit code, with the recent library tracks; the path is the date's note, the content is that of `append_to_daily_log`, the note gains the stripped entry, and a note without the tag is kept as its prefix |

## Left out

- Authentication with Spotify and TIDAL, the listing of Spotify playlists and tracks, and their paging are left out. The track lists are inputs.
- `build_tidal_playlist_cache` is left out. The cache of TIDAL playlists is given to the engine's constructor.
- `search_tidal_track` is a function of (track name, artist). Its throttling, its retries and the `sleep` before a retry are left out.
- Logging, progress bars and printed summaries are left out. So are the timestamps in the checkpoint (`created_at`, `updated_at`) and in the note heading, and the description of a new playlist.
- The checkpoint's write to a temporary file and its atomic rename are one assignment. JSON parsing is left out: a file is absent, unreadable, or a document.
- Checkpoints.ShowCheckpointStatus: the printed text is not modelled. `Summarize` stands for the counts and the current playlist it prints.
- Checkpoint validity is not a class invariant of `TransferEngine`. `Dicts.Dict.PutValid` shows that every update keeps it.
- The legacy `run()` of `spotify_to_tidal_complete.py` is not modelled. Its loop is a plain pass over the playlists with no checkpoint.
- Transfer.MinExpected: `int(n * 0.8)` in floating point is modelled as the exact `4n / 5` rounded down. The two can differ only for very large counts.
- Library.MatchRate: the float division is exact real arithmetic.
- Library.ParseBoolCases: `lower()` is ASCII only. Python's full Unicode case mapping is not modelled.
- Numerals.ParseUnsigned: only ASCII digits and underscores are accepted. Python's `int()` also accepts the decimal digits of other scripts.
- Library.RowRoundTrip: a row is a map from column name to cell text, and the CSV text format is not modelled. Python's `csv` module quotes cells that hold commas, quotes or newlines, so no text needs excluding. The only requirement is that playlist ids are non-empty and hold no comma, because `playlist_ids` is split at commas.
- Columns outside the library's field list are not modelled. The source keeps every column of a row it reads, and `DictWriter` raises `ValueError` on such a column when the library is saved (library_manager.py:76-87, 114-127, re-raised at 134). Records in the model hold exactly the listed fields.
- Failed reads of a missing key (`KeyError`) are not modelled. Library records hold every field. In the checkpoint an absent key reads as `None`.
- Transfer.TransferEngine.Resume: when the checkpoint belongs to the user, the source reads `status` of every entry and `total_playlists` to log them (spotify_to_tidal_transfer.py:657-658). For a checkpoint that lacks one of those keys this raises `KeyError`, which nothing catches, and the run stops. The model resumes such a checkpoint instead.
- `set_soundcloud_id`, `export_unavailable_tracks` and `get_library_summary` are outside the modelled core.
- DailySync.ParseOutput: the subprocess that runs the transfer is left out. Its output and exit code are inputs.
- The scan of `transfer_log_*.txt` (daily_sync.py:86-101) has no effect on the result and is left out, together with its `except` for a failed read (100-101).
- The library's list of tracks synced in the last hour (daily_sync.py:103-124) is an input, `recentTracks`, because the filter depends on the clock. The `except` branches of that read, for a bad `last_synced` time (121-122) and an unreadable library (123-124), are left out with it.
- The `try`/`except` around the "Processing:" branch is left out because it cannot fire. The line contains "Processing:", so splitting at it gives at least two pieces and `[1]` exists.
- `strftime('%Y')` is modelled as `str(year)`. Years before 1000 are the only difference.
- DailyRun takes a single date for both the note's path and its header. The source reads the clock twice and could straddle midnight.
- The directory creation and the file reads and writes of `append_to_daily_log` are left out. The note's content, or its absence, is an input, and the new content is the result.
- DailySync.FormatEntry has no contract of its own. `EntryShape` and `EntryLayout` state what its result is.
- `main --dry` only prints a sample entry and is left out.

### Where the code and its documentation differ (the model follows the code)

- The known track ids of a TIDAL playlist grow only after a batch is written successfully, not when a track is queued. Two tracks with the same new hit are both queued (`TransferLoop.DuplicateHitsBothQueued`).
- A failed batch is retried once, and the retry's outcome is ignored. The playlist is still marked completed at the end with all tracks processed, rather than staying in progress.
