/**
 * The checkpoint document of `spotify_to_tidal_transfer.py`: a format
 * version, the Spotify user it belongs to, an overall status, and one entry
 * per Spotify playlist holding that playlist's state (pending, in progress,
 * completed), its bound TIDAL playlist and its three resume counters.
 * The JSON file is modelled as its parsed content; timestamps are left out.
 */
module Checkpoints {
  import opened Wrappers
  import opened Dicts

  /** The only format version a stored checkpoint may carry. */
  const FormatVersion: string := "1.0"
  /** Document statuses as written into the file. */
  const InProgressText: string := "in_progress"
  const CompletedText: string := "completed"

  /** The state of one playlist entry. */
  datatype Status = Pending | InProgress | Completed

  /** One `checkpoint["playlists"][spotify_id]` entry.  Absent keys are
      `None`; an absent counter reads as 0 wherever the program reads it. */
  datatype PlaylistEntry = PlaylistEntry(
    name: Option<string>,
    status: Option<Status>,
    tidalPlaylistId: Option<string>,
    tracksProcessed: nat,
    tracksFound: nat,
    tracksNotFound: nat)

  /** `{}`: the entry read for a playlist the document does not list. */
  function NoEntry(): PlaylistEntry {
    PlaylistEntry(None, None, None, 0, 0, 0)
  }

  /** The entry `init_checkpoint` writes for a playlist. */
  function PendingEntry(name: string): PlaylistEntry {
    PlaylistEntry(Some(name), Some(Pending), None, 0, 0, 0)
  }

  datatype Checkpoint = Checkpoint(
    version: Option<string>,
    userId: Option<string>,
    status: Option<string>,
    totalPlaylists: nat,
    playlists: Dict<PlaylistEntry>)
  {
    ghost predicate Valid() {
      playlists.Valid()
    }

    /** `self.checkpoint["playlists"].get(spotify_id, {})` */
    function Entry(spotifyId: string): PlaylistEntry {
      playlists.Get(spotifyId, NoEntry())
    }
  }

  /** The checkpoint file: absent, not readable as a checkpoint (a JSON
      decode or key error), or a parsed document. */
  datatype StoredFile = NoFile | Unreadable | Stored(doc: Checkpoint)

  /** A Spotify playlist as listed by the API: id, name and `tracks.total`. */
  datatype PlaylistInfo = PlaylistInfo(id: string, name: string, total: nat)

  // ---------------------------------------------------------------------
  // Loading and validation
  // ---------------------------------------------------------------------

  /** `load_checkpoint`: only a stored document of version "1.0" whose
      status is not "completed" is returned. */
  function LoadCheckpoint(f: StoredFile): Option<Checkpoint> {
    if f.NoFile? || f.Unreadable? then None
    else if f.doc.version != Some(FormatVersion) then None
    else if f.doc.status == Some(CompletedText) then None
    else Some(f.doc)
  }

  /** The checkpoint `run` goes on with: with `fresh_start` the file is not
      read and the current value is kept; a checkpoint of another Spotify
      user is dropped. */
  function ResumeCheckpoint(f: StoredFile, freshStart: bool, current: Option<Checkpoint>,
                            userId: string): Option<Checkpoint>
  {
    var c := if freshStart then current else LoadCheckpoint(f);
    if c.Some? && c.value.userId != Some(userId) then None else c
  }

  /** A stored checkpoint is resumed exactly when it has version "1.0", is
      not completed and belongs to the current user; it is then resumed as
      stored. */
  lemma ResumeIff(f: StoredFile, current: Option<Checkpoint>, userId: string)
    ensures ResumeCheckpoint(f, false, current, userId).Some? <==>
              && f.Stored?
              && f.doc.version == Some(FormatVersion)
              && f.doc.status != Some(CompletedText)
              && f.doc.userId == Some(userId)
    ensures ResumeCheckpoint(f, false, current, userId).Some? ==>
              ResumeCheckpoint(f, false, current, userId).value == f.doc
  {
  }

  /** `fresh_start` never reads the file. */
  lemma FreshStartIgnoresFile(f: StoredFile, g: StoredFile, current: Option<Checkpoint>, userId: string)
    ensures ResumeCheckpoint(f, true, current, userId) == ResumeCheckpoint(g, true, current, userId)
    ensures ResumeCheckpoint(f, true, None, userId) == None
  {
  }

  // ---------------------------------------------------------------------
  // Initialisation
  // ---------------------------------------------------------------------

  /** An entry as `init_checkpoint` leaves it: named, pending, unbound, with
      all counters at zero. */
  predicate IsPendingEntry(e: PlaylistEntry) {
    && e.name.Some?
    && e.status == Some(Pending)
    && e.tidalPlaylistId == None
    && e.tracksProcessed == 0 && e.tracksFound == 0 && e.tracksNotFound == 0
  }

  /** The `playlists` table `init_checkpoint` fills, one assignment per
      listed playlist, a later duplicate id overwriting an earlier one. */
  function InitialEntries(ps: seq<PlaylistInfo>): (d: Dict<PlaylistEntry>)
    ensures d.Valid()
    ensures |d.keys| <= |ps|
    ensures forall k :: k in d.values ==> IsPendingEntry(d.values[k])
  {
    if ps == [] then Empty()
    else InitialEntries(ps[..|ps| - 1]).Put(ps[|ps| - 1].id, PendingEntry(ps[|ps| - 1].name))
  }

  /** The table has an entry for exactly the listed playlist ids. */
  lemma {:induction false} InitialEntriesKeys(ps: seq<PlaylistInfo>, k: string)
    ensures k in InitialEntries(ps).values <==> exists i :: 0 <= i < |ps| && ps[i].id == k
  {
    if ps != [] {
      var init := ps[..|ps| - 1];
      InitialEntriesKeys(init, k);
      if exists i :: 0 <= i < |init| && init[i].id == k {
        var i :| 0 <= i < |init| && init[i].id == k;
        assert ps[i].id == k;
      }
      if exists i :: 0 <= i < |ps| && ps[i].id == k {
        var i :| 0 <= i < |ps| && ps[i].id == k;
        if i < |init| {
          assert init[i].id == k;
        }
      }
    }
  }

  /** Each playlist's entry carries the name of the last listed playlist
      with that id; with distinct ids every playlist has its own entry. */
  lemma {:induction false} InitialEntryNames(ps: seq<PlaylistInfo>, i: nat)
    requires i < |ps|
    requires forall j :: i < j < |ps| ==> ps[j].id != ps[i].id
    ensures ps[i].id in InitialEntries(ps).values
    ensures InitialEntries(ps).values[ps[i].id] == PendingEntry(ps[i].name)
  {
    var init := ps[..|ps| - 1];
    if i < |ps| - 1 {
      assert init[i] == ps[i];
      InitialEntryNames(init, i);
    }
  }

  /** With distinct ids there are exactly as many entries as playlists. */
  lemma {:induction false} InitialEntriesCount(ps: seq<PlaylistInfo>)
    requires forall i, j :: 0 <= i < j < |ps| ==> ps[i].id != ps[j].id
    ensures |InitialEntries(ps).keys| == |ps|
  {
    if ps != [] {
      var init := ps[..|ps| - 1];
      var last := ps[|ps| - 1];
      InitialEntriesCount(init);
      forall i | 0 <= i < |init| ensures init[i].id != last.id {
        assert init[i] == ps[i];
      }
      InitialEntriesKeys(init, last.id);
    }
  }

  /** `init_checkpoint(playlists, spotify_user_id)` */
  function InitialCheckpoint(ps: seq<PlaylistInfo>, userId: string): Checkpoint {
    Checkpoint(Some(FormatVersion), Some(userId), Some(InProgressText), |ps|, InitialEntries(ps))
  }

  /** A freshly initialised checkpoint, once saved, is resumed by the same
      user and dropped for any other user. */
  lemma InitialCheckpointResumes(ps: seq<PlaylistInfo>, userId: string, other: string)
    requires other != userId
    ensures ResumeCheckpoint(Stored(InitialCheckpoint(ps, userId)), false, None, userId)
            == Some(InitialCheckpoint(ps, userId))
    ensures ResumeCheckpoint(Stored(InitialCheckpoint(ps, userId)), false, None, other) == None
  {
  }

  /** A document whose status was set to "completed" is never resumed. */
  lemma CompletedNeverResumes(doc: Checkpoint, freshStart: bool, userId: string)
    ensures ResumeCheckpoint(Stored(doc.(status := Some(CompletedText))), freshStart, None, userId) == None
  {
  }

  // ---------------------------------------------------------------------
  // Status report
  // ---------------------------------------------------------------------

  /** The number of entries with the given status. */
  function CountStatus(es: seq<PlaylistEntry>, s: Status): (n: nat)
    ensures n <= |es|
  {
    if es == [] then 0
    else CountStatus(es[..|es| - 1], s) + (if es[|es| - 1].status == Some(s) then 1 else 0)
  }

  /** The number of entries without a status. */
  function CountUnmarked(es: seq<PlaylistEntry>): (n: nat)
    ensures n <= |es|
  {
    if es == [] then 0
    else CountUnmarked(es[..|es| - 1]) + (if es[|es| - 1].status == None then 1 else 0)
  }

  /** Completed, in-progress, pending and unmarked entries are all entries;
      without unmarked entries the three status counts add up to the total. */
  lemma {:induction false} StatusCountsPartition(es: seq<PlaylistEntry>)
    ensures CountStatus(es, Completed) + CountStatus(es, InProgress) + CountStatus(es, Pending)
            + CountUnmarked(es) == |es|
  {
    if es != [] {
      StatusCountsPartition(es[..|es| - 1]);
      match es[|es| - 1].status
      case None =>
      case Some(s) =>
        match s
        case Pending =>
        case InProgress =>
        case Completed =>
    }
  }

  function SumFound(es: seq<PlaylistEntry>): nat {
    if es == [] then 0 else SumFound(es[..|es| - 1]) + es[|es| - 1].tracksFound
  }

  function SumNotFound(es: seq<PlaylistEntry>): nat {
    if es == [] then 0 else SumNotFound(es[..|es| - 1]) + es[|es| - 1].tracksNotFound
  }

  /** The first in-progress entry, in table order. */
  function FirstInProgress(es: seq<PlaylistEntry>): (r: Option<nat>)
    ensures r.Some? ==> r.value < |es| && es[r.value].status == Some(InProgress)
    ensures r.Some? ==> forall j :: 0 <= j < r.value ==> es[j].status != Some(InProgress)
    ensures r.None? ==> forall j :: 0 <= j < |es| ==> es[j].status != Some(InProgress)
  {
    if es == [] then None
    else if es[0].status == Some(InProgress) then Some(0)
    else
      match FirstInProgress(es[1..])
      case None => None
      case Some(k) =>
        assert forall j :: 1 <= j < k + 1 ==> es[j] == es[1..][j - 1];
        Some(k + 1)
  }

  datatype StatusSummary = StatusSummary(
    total: nat,
    completed: nat,
    inProgress: nat,
    pending: nat,
    tracksFound: nat,
    tracksNotFound: nat,
    current: Option<PlaylistEntry>)

  datatype StatusReport = NoCheckpoint | ReadError | Report(summary: StatusSummary)

  /** What `show_checkpoint_status` reports for a document. */
  function Summarize(doc: Checkpoint): StatusSummary
    requires doc.Valid()
  {
    var es := doc.playlists.Values();
    var first := FirstInProgress(es);
    StatusSummary(
      |es|,
      CountStatus(es, Completed), CountStatus(es, InProgress), CountStatus(es, Pending),
      SumFound(es), SumNotFound(es),
      if first.Some? then Some(es[first.value]) else None)
  }

  /** `show_checkpoint_status`: no file, an unreadable file, or the report. */
  function ShowCheckpointStatus(f: StoredFile): StatusReport
    requires f.Stored? ==> f.doc.Valid()
  {
    match f
    case NoFile => NoCheckpoint
    case Unreadable => ReadError
    case Stored(doc) => Report(Summarize(doc))
  }

  /** The three reported counts never exceed the number of playlists, and
      the reported current playlist is one that is in progress. */
  lemma SummaryBounds(doc: Checkpoint)
    requires doc.Valid()
    ensures var s := Summarize(doc);
            && s.completed + s.inProgress + s.pending <= s.total
            && (s.current.Some? <==> s.inProgress > 0)
            && (s.current.Some? ==> s.current.value.status == Some(InProgress))
  {
    var es := doc.playlists.Values();
    StatusCountsPartition(es);
    InProgressCountPositive(es);
  }

  /** There is an in-progress entry exactly when their count is positive. */
  lemma {:induction false} InProgressCountPositive(es: seq<PlaylistEntry>)
    ensures CountStatus(es, InProgress) > 0 <==> exists j :: 0 <= j < |es| && es[j].status == Some(InProgress)
  {
    if es != [] {
      var init := es[..|es| - 1];
      InProgressCountPositive(init);
      if exists j :: 0 <= j < |init| && init[j].status == Some(InProgress) {
        var j :| 0 <= j < |init| && init[j].status == Some(InProgress);
        assert es[j] == init[j];
      }
      if exists j :: 0 <= j < |es| && es[j].status == Some(InProgress) {
        var j :| 0 <= j < |es| && es[j].status == Some(InProgress);
        if j < |init| {
          assert init[j] == es[j];
        }
      }
    }
  }
}
