/**
 * `daily_sync.py`: the daily job reads the output of a `--sync` transfer run
 * line by line into a small report, formats the report as a Markdown entry,
 * and inserts the entry into the day's log note before its `#daily-log` tag.
 *
 * The subprocess, the file system and the clock are inputs: the captured
 * output text and exit code, the tracks the library reports as synced in the
 * last hour, the current time and date, and the note's current content.
 */
module DailySync {
  import opened Wrappers
  import opened Text
  import opened Numerals

  // ---------------------------------------------------------------------
  // Reading the transfer's output
  // ---------------------------------------------------------------------

  const AlreadySyncedMark: string := "Already synced:"
  const ProcessingMark: string := "Processing:"
  const TransferredMark: string := "Successfully transferred:"
  const TotalFoundMark: string := "Total tracks found:"
  const TotalNotFoundMark: string := "Total tracks not found:"
  /** The "next track" symbol that starts the transfer's skip messages. */
  const SkipSymbol: char := '\U{23ED}'

  /** The `stats` dict of `run_sync`. */
  datatype SyncStats = SyncStats(
    playlistsSynced: nat,
    playlistsSkipped: nat,
    tracksFound: int,
    tracksNotFound: int,
    newPlaylists: seq<string>,
    newTracks: seq<string>,
    success: bool)

  /** The stats before the first line: all counts zero, success when the
      transfer exited with code 0. */
  function InitialStats(returnCode: int): SyncStats {
    SyncStats(0, 0, 0, 0, [], [], returnCode == 0)
  }

  /** What a line of output is taken for: the first branch of the `if`
      chain of `run_sync` whose test the line passes. */
  datatype LineKind =
    | AlreadySynced
    | Processing(name: string)
    | TransferredHeader
    | SyncedPlaylist(info: string)
    | TotalFound(count: Option<int>)
    | TotalNotFound(count: Option<int>)
    | Other

  /** `line.split("Processing:")[1].split("(")[0].strip()` */
  function ProcessingName(line: string): string
    requires Contains(line, ProcessingMark)
  {
    SplitSecond(line, ProcessingMark);
    Strip(Split(Split(line, ProcessingMark)[1], "(")[0])
  }

  /** `line.split(":")[-1]`: the text after the last colon. */
  function LastField(line: string): string {
    var parts := Split(line, ":");
    parts[|parts| - 1]
  }

  /** `int(line.split(":")[-1].strip())`, `None` when `int` raises. */
  function LastNumber(line: string): Option<int> {
    ParseInt(Strip(LastField(line)))
  }

  /** The test of the synced-playlist branch. */
  predicate LooksLikeSyncedPlaylist(line: string) {
    && Contains(line, "- ") && Contains(line, ":") && Contains(line, "tracks")
    && !StartsWith(Strip(line), [SkipSymbol])
  }

  /** The branches of the loop of `run_sync`, first match first. */
  function ClassifyLine(line: string): LineKind {
    if Contains(line, AlreadySyncedMark) then AlreadySynced
    else if Contains(line, ProcessingMark) then Processing(ProcessingName(line))
    else if Contains(line, TransferredMark) then TransferredHeader
    else if LooksLikeSyncedPlaylist(line) then SyncedPlaylist(LStripChars(Strip(line), {'-', ' '}))
    else if Contains(line, TotalFoundMark) then TotalFound(LastNumber(line))
    else if Contains(line, TotalNotFoundMark) then TotalNotFound(LastNumber(line))
    else Other
  }

  /** The loop's state: the stats and `current_playlist`. */
  datatype ParseState = ParseState(stats: SyncStats, current: Option<string>)

  /** The effect of one line. */
  function ApplyLine(p: ParseState, line: string): ParseState {
    ApplyKind(p, ClassifyLine(line))
  }

  /** The effect of a line of the given kind. */
  function ApplyKind(p: ParseState, kind: LineKind): ParseState {
    var s := p.stats;
    match kind
    case AlreadySynced => p.(stats := s.(playlistsSkipped := s.playlistsSkipped + 1))
    case Processing(name) => p.(current := Some(name))
    case SyncedPlaylist(info) =>
      p.(stats := s.(newPlaylists := s.newPlaylists + [info], playlistsSynced := s.playlistsSynced + 1))
    case TotalFound(n) => if n.Some? then p.(stats := s.(tracksFound := n.value)) else p
    case TotalNotFound(n) => if n.Some? then p.(stats := s.(tracksNotFound := n.value)) else p
    case _ => p
  }

  /** The state after the lines `lines`, in order. */
  function ApplyLines(p: ParseState, lines: seq<string>): ParseState {
    if lines == [] then p else ApplyLine(ApplyLines(p, lines[..|lines| - 1]), lines[|lines| - 1])
  }

  /** The lines of `run_sync`'s loop: the output split at newlines. */
  function OutputLines(output: string): seq<string> {
    Split(output, "\n")
  }

  /** The number of lines that contain `pat`. */
  function CountContaining(lines: seq<string>, pat: string): nat {
    if lines == [] then 0
    else CountContaining(lines[..|lines| - 1], pat) + (if Contains(lines[|lines| - 1], pat) then 1 else 0)
  }

  /** The count the last readable "Total tracks found:" line gives, or
      `default` when there is none. */
  function LastTotalFound(lines: seq<string>, default: int): int {
    if lines == [] then default
    else
      match ClassifyLine(lines[|lines| - 1])
      case TotalFound(Some(n)) => n
      case _ => LastTotalFound(lines[..|lines| - 1], default)
  }

  /** The line loop of `run_sync` (lines 53-84) over `output`, followed by
      the tracks the library reports as synced (lines 103-124). */
  method ParseOutput(output: string, returnCode: int, recentTracks: seq<string>)
    returns (stats: SyncStats, current: Option<string>)
    ensures ApplyLines(ParseState(InitialStats(returnCode), None), OutputLines(output))
            == ParseState(stats.(newTracks := []), current)
    ensures stats.newTracks == recentTracks
    ensures stats.playlistsSynced == |stats.newPlaylists|
    ensures stats.playlistsSkipped == CountContaining(OutputLines(output), AlreadySyncedMark)
    ensures stats.tracksFound == LastTotalFound(OutputLines(output), 0)
  {
    var lines := Split(output, "\n");
    var p0 := ParseState(InitialStats(returnCode), None);
    stats := p0.stats;
    current := None;
    var i := 0;
    while i < |lines|
      invariant 0 <= i <= |lines|
      invariant ApplyLines(p0, lines[..i]) == ParseState(stats, current)
      invariant stats.newTracks == []
    {
      var line := lines[i];
      var kind := ClassifyLine(line);
      ghost var before := ParseState(stats, current);
      match kind {
        case AlreadySynced =>
          stats := stats.(playlistsSkipped := stats.playlistsSkipped + 1);
        case Processing(name) =>
          current := Some(name);
        case TransferredHeader =>
        case SyncedPlaylist(info) =>
          stats := stats.(newPlaylists := stats.newPlaylists + [info]);
          stats := stats.(playlistsSynced := stats.playlistsSynced + 1);
        case TotalFound(n) =>
          if n.Some? {
            stats := stats.(tracksFound := n.value);
          }
        case TotalNotFound(n) =>
          if n.Some? {
            stats := stats.(tracksNotFound := n.value);
          }
        case Other =>
      }
      assert ParseState(stats, current) == ApplyKind(before, kind);
      assert lines[..i + 1][..i] == lines[..i];
      i := i + 1;
    }
    assert lines[..i] == lines;
    SyncedMatchesListed(p0, lines);
    SkippedCountsMarks(p0, lines);
    FoundIsLastTotal(p0, lines);
    stats := stats.(newTracks := recentTracks);
  }

  /** Every synced-playlist line adds one listed playlist and one to the
      count, so the two never drift apart. */
  lemma {:induction false} SyncedMatchesListed(p: ParseState, lines: seq<string>)
    ensures var q := ApplyLines(p, lines);
            q.stats.playlistsSynced - |q.stats.newPlaylists| == p.stats.playlistsSynced - |p.stats.newPlaylists|
  {
    if lines != [] {
      SyncedMatchesListed(p, lines[..|lines| - 1]);
    }
  }

  /** Each line containing "Already synced:" adds one to the skipped count,
      and no other line changes it. */
  lemma {:induction false} SkippedCountsMarks(p: ParseState, lines: seq<string>)
    ensures ApplyLines(p, lines).stats.playlistsSkipped
            == p.stats.playlistsSkipped + CountContaining(lines, AlreadySyncedMark)
  {
    if lines != [] {
      SkippedCountsMarks(p, lines[..|lines| - 1]);
    }
  }

  /** The found count is that of the last readable "Total tracks found:"
      line; unreadable ones leave it as it was. */
  lemma {:induction false} FoundIsLastTotal(p: ParseState, lines: seq<string>)
    ensures ApplyLines(p, lines).stats.tracksFound == LastTotalFound(lines, p.stats.tracksFound)
  {
    if lines != [] {
      FoundIsLastTotal(p, lines[..|lines| - 1]);
    }
  }

  /** A line with "Already synced:" counts a skipped playlist whatever else
      it contains, and changes nothing else. */
  lemma AlreadySyncedFirst(p: ParseState, line: string)
    requires Contains(line, AlreadySyncedMark)
    ensures ApplyLine(p, line) == p.(stats := p.stats.(playlistsSkipped := p.stats.playlistsSkipped + 1))
  {
  }

  /** A "Processing:" line, after a prefix such as a timestamp without the
      letter P, names the playlist by the trimmed text up to the first
      parenthesis. */
  lemma ProcessingLineName(prefix: string, name: string, rest: string)
    requires 'P' !in prefix && '(' !in name
    requires !Contains(name + "(" + rest, ProcessingMark)
    requires !Contains(prefix + ProcessingMark + name + "(" + rest, AlreadySyncedMark)
    ensures ClassifyLine(prefix + ProcessingMark + name + "(" + rest) == Processing(Strip(name))
  {
    var after := name + "(" + rest;
    var line := prefix + ProcessingMark + after;
    assert line == prefix + ProcessingMark + name + "(" + rest;
    assert ProcessingMark[0] == 'P';
    FindAfter(prefix, ProcessingMark, after);
    assert Contains(line, ProcessingMark);
    assert line[|prefix| + |ProcessingMark|..] == after;
    SplitSecond(line, ProcessingMark);
    assert Split(line, ProcessingMark)[1] == Split(after, ProcessingMark)[0];
    SplitFirst(after, ProcessingMark);
    assert Split(line, ProcessingMark)[1] == after;
    FindAfter(name, "(", rest);
    SplitFirst(after, "(");
    assert after[..|name|] == name;
    assert ProcessingName(line) == Strip(name);
  }

  /** `str(n)` has no colon and no whitespace at either end. */
  lemma NumeralShape(n: int)
    ensures var d := IntToString(n);
            d != [] && ':' !in d && !IsSpace(d[0]) && !IsSpace(d[|d| - 1])
  {
    var m: nat := if n < 0 then -n else n;
    var digits := NatToString(m);
    assert forall i :: 0 <= i < |digits| ==> IsDigit(digits[i]);
    if n < 0 {
      var d := "-" + digits;
      assert forall i :: 1 <= i < |d| ==> d[i] == digits[i - 1];
      assert d[|d| - 1] == digits[|digits| - 1];
    }
  }

  /** A total line ending in `": " + str(n)` reads as `n`. */
  lemma LastNumberOf(prefix: string, n: int)
    ensures LastNumber(prefix + ": " + IntToString(n)) == Some(n)
  {
    var d := IntToString(n);
    NumeralShape(n);
    var tail := " " + d;
    var line := prefix + ": " + d;
    assert line == prefix + [':'] + tail;
    assert ':' !in tail;
    SplitLast(prefix, ':', tail);
    assert LastField(line) == tail;
    StripOneBlank(d);
    ParseIntToString(n);
  }

  // ---------------------------------------------------------------------
  // The Obsidian entry
  // ---------------------------------------------------------------------

  /** A time of day, as `datetime.now()` gives it to `strftime("%H:%M")`. */
  datatype Clock = Clock(hour: nat, minute: nat)

  /** `strftime("%H:%M")` */
  function ClockText(t: Clock): (s: string)
    ensures SingleLine(s)
  {
    var h := Pad2(t.hour);
    var m := Pad2(t.minute);
    assert forall i :: 0 <= i < |h| ==> IsDigit(h[i]);
    assert forall i :: 0 <= i < |m| ==> IsDigit(m[i]);
    h + ":" + m
  }

  /** The entry's first line, for the time text `now`. */
  function Heading(now: string): string {
    "### \U{1F3B5} Spotify-TIDAL Sync (" + now + ")"
  }

  /** How many added tracks the entry lists by name. */
  const MaxListedTracks: nat := 15

  function Bullet(item: string): string {
    "  - " + item
  }

  function Bullets(items: seq<string>): seq<string> {
    seq(|items|, i requires 0 <= i < |items| => Bullet(items[i]))
  }

  /** The line that stands for the `k` tracks not listed by name. */
  function MoreLine(k: nat): string {
    "  - *...and " + NatToString(k) + " more*"
  }

  /** The first fifteen tracks by name, then a count of the rest. */
  function TrackLines(tracks: seq<string>): seq<string> {
    if |tracks| <= MaxListedTracks then Bullets(tracks)
    else Bullets(tracks[..MaxListedTracks]) + [MoreLine(|tracks| - MaxListedTracks)]
  }

  /** The synced playlists part of a listing, when there are new playlists. */
  function PlaylistSection(stats: SyncStats): seq<string> {
    if stats.newPlaylists != [] then
      ["**Synced " + NatToString(stats.playlistsSynced) + " playlist(s):**"] + Bullets(stats.newPlaylists)
    else []
  }

  /** The added tracks part of a listing, when tracks were added. */
  function TrackSection(stats: SyncStats): seq<string> {
    if stats.newTracks != [] then
      ["", "**New tracks added (" + NatToString(|stats.newTracks|) + "):**"] + TrackLines(stats.newTracks)
    else []
  }

  /** The closing lines of a listing: a blank line and the track totals. */
  function TotalsLines(stats: SyncStats): seq<string> {
    ["", "Tracks: " + IntToString(stats.tracksFound) + " found, "
         + IntToString(stats.tracksNotFound) + " unavailable on TIDAL"]
  }

  /** The `lines` list of `format_obsidian_entry` when there is something new
      to report. */
  function EntryLines(stats: SyncStats, now: string): (lines: seq<string>)
    ensures |lines| >= 3 && lines[0] == Heading(now)
  {
    [Heading(now)] + PlaylistSection(stats) + TrackSection(stats) + TotalsLines(stats)
  }

  /** A blank line, the heading, then `rest`. */
  function Block(now: string, rest: string): (e: string)
    requires |rest| > 0 && rest[|rest| - 1] == '\n'
    ensures StartsWith(e, "\n" + Heading(now) + "\n")
    ensures |e| > 0 && e[|e| - 1] == '\n'
  {
    var head := "\n" + Heading(now) + "\n";
    assert (head + rest)[..|head|] == head;
    head + rest
  }

  /** `format_obsidian_entry`: no new playlist but some skipped ones gives
      the "no changes" note; anything new gives the listing; otherwise the
      short fallback. */
  function FormatEntry(stats: SyncStats, now: string): string {
    if stats.newPlaylists == [] && stats.playlistsSkipped > 0 then
      Block(now, "All " + NatToString(stats.playlistsSkipped) + " playlists already synced. No changes.\n")
    else if stats.newPlaylists != [] || stats.newTracks != [] then
      "\n" + Join(EntryLines(stats, now), "\n") + "\n"
    else
      Block(now, "Sync completed. Playlists checked: "
               + NatToString(stats.playlistsSkipped + stats.playlistsSynced) + "\n")
  }

  /** Lines joined by newlines between two newlines, the heading first,
      make a block. */
  lemma JoinedBlock(now: string, lines: seq<string>)
    requires |lines| >= 2 && lines[0] == Heading(now)
    ensures "\n" + Join(lines, "\n") + "\n" == Block(now, Join(lines[1..], "\n") + "\n")
  {
  }

  /** Every entry, whichever of its three forms, is a block that opens with
      a blank line and the heading line and ends with a newline. */
  lemma EntryShape(stats: SyncStats, now: string)
    ensures var e := FormatEntry(stats, now);
            StartsWith(e, "\n" + Heading(now) + "\n") && |e| > 0 && e[|e| - 1] == '\n'
  {
    if !(stats.newPlaylists == [] && stats.playlistsSkipped > 0)
       && (stats.newPlaylists != [] || stats.newTracks != [])
    {
      JoinedBlock(now, EntryLines(stats, now));
    }
  }

  /** No newline inside `s`. */
  predicate SingleLine(s: string) {
    '\n' !in s
  }

  /** A numeral is a single line. */
  lemma NumeralSingleLine(n: int)
    ensures SingleLine(IntToString(n)) && (n >= 0 ==> SingleLine(NatToString(n)))
  {
    var m: nat := if n < 0 then -n else n;
    var digits := NatToString(m);
    assert forall i :: 0 <= i < |digits| ==> IsDigit(digits[i]);
    assert '\n' !in digits;
  }

  /** Every line of `lines` is a single line. */
  predicate AllSingle(lines: seq<string>) {
    forall i :: 0 <= i < |lines| ==> SingleLine(lines[i])
  }

  lemma AllSingleConcat(a: seq<string>, b: seq<string>)
    requires AllSingle(a) && AllSingle(b)
    ensures AllSingle(a + b)
  {
    forall i | 0 <= i < |a + b| ensures SingleLine((a + b)[i]) {
      if i >= |a| {
        assert (a + b)[i] == b[i - |a|];
      }
    }
  }

  lemma BulletsSingle(items: seq<string>)
    requires AllSingle(items)
    ensures AllSingle(Bullets(items))
  {
  }

  lemma PlaylistSectionSingle(stats: SyncStats)
    requires AllSingle(stats.newPlaylists)
    ensures AllSingle(PlaylistSection(stats))
  {
    if stats.newPlaylists != [] {
      NumeralSingleLine(stats.playlistsSynced);
      BulletsSingle(stats.newPlaylists);
      AllSingleConcat(["**Synced " + NatToString(stats.playlistsSynced) + " playlist(s):**"], Bullets(stats.newPlaylists));
    }
  }

  lemma TrackLinesSingle(tracks: seq<string>)
    requires AllSingle(tracks)
    ensures AllSingle(TrackLines(tracks))
  {
    if |tracks| > MaxListedTracks {
      var shown := tracks[..MaxListedTracks];
      assert AllSingle(shown);
      BulletsSingle(shown);
      NumeralSingleLine(|tracks| - MaxListedTracks);
      AllSingleConcat(Bullets(shown), [MoreLine(|tracks| - MaxListedTracks)]);
    } else {
      BulletsSingle(tracks);
    }
  }

  lemma TrackSectionSingle(stats: SyncStats)
    requires AllSingle(stats.newTracks)
    ensures AllSingle(TrackSection(stats))
  {
    if stats.newTracks != [] {
      NumeralSingleLine(|stats.newTracks|);
      TrackLinesSingle(stats.newTracks);
      AllSingleConcat(["", "**New tracks added (" + NatToString(|stats.newTracks|) + "):**"], TrackLines(stats.newTracks));
    }
  }

  /** With single-line names, tracks and time, each line of a listing is a
      single line. */
  lemma EntryLinesSingle(stats: SyncStats, now: string)
    requires SingleLine(now) && AllSingle(stats.newPlaylists) && AllSingle(stats.newTracks)
    ensures AllSingle(EntryLines(stats, now))
  {
    PlaylistSectionSingle(stats);
    TrackSectionSingle(stats);
    TotalsSingle(stats);
    assert AllSingle([Heading(now)]);
    AllSingleConcat4([Heading(now)], PlaylistSection(stats), TrackSection(stats), TotalsLines(stats));
  }

  lemma TotalsSingle(stats: SyncStats)
    ensures AllSingle(TotalsLines(stats))
  {
    NumeralSingleLine(stats.tracksFound);
    NumeralSingleLine(stats.tracksNotFound);
  }

  lemma AllSingleConcat4(a: seq<string>, b: seq<string>, c: seq<string>, d: seq<string>)
    requires AllSingle(a) && AllSingle(b) && AllSingle(c) && AllSingle(d)
    ensures AllSingle(a + b + c + d)
  {
    AllSingleConcat(a, b);
    AllSingleConcat(a + b, c);
    AllSingleConcat(a + b + c, d);
  }

  /** Joining with an empty first and last piece puts the separator at both
      ends. */
  lemma JoinWrap(lines: seq<string>, sep: string)
    requires |lines| >= 1
    ensures Join([""] + lines + [""], sep) == sep + Join(lines, sep) + sep
  {
    var all := [""] + lines + [""];
    assert all[1..] == lines + [""];
    JoinSnoc(lines, sep);
  }

  lemma {:induction false} JoinSnoc(lines: seq<string>, sep: string)
    requires |lines| >= 1
    ensures Join(lines + [""], sep) == Join(lines, sep) + sep
    decreases |lines|
  {
    if |lines| > 1 {
      assert (lines + [""])[1..] == lines[1..] + [""];
      JoinSnoc(lines[1..], sep);
    }
  }

  /** A listing entry reads back line by line: split at newlines it gives
      an empty piece, the listing's lines in order, and an empty piece. */
  lemma EntryLayout(stats: SyncStats, now: string)
    requires stats.newPlaylists != [] || stats.newTracks != []
    requires !(stats.newPlaylists == [] && stats.playlistsSkipped > 0)
    requires SingleLine(now) && AllSingle(stats.newPlaylists) && AllSingle(stats.newTracks)
    ensures Split(FormatEntry(stats, now), "\n") == [""] + EntryLines(stats, now) + [""]
  {
    var lines := EntryLines(stats, now);
    EntryLinesSingle(stats, now);
    JoinWrap(lines, "\n");
    SplitJoin([""] + lines + [""], '\n');
  }

  /** Every added track is either named in the listing, the first fifteen
      in order, or counted in the closing "more" line. */
  lemma TracksAccounted(tracks: seq<string>)
    ensures var lines := TrackLines(tracks);
            var shown := if |tracks| <= MaxListedTracks then |tracks| else MaxListedTracks;
            && |lines| == shown + (if shown < |tracks| then 1 else 0)
            && (forall i :: 0 <= i < shown ==> lines[i] == Bullet(tracks[i]))
            && (shown < |tracks| ==> lines[shown] == MoreLine(|tracks| - shown))
  {
  }

  // ---------------------------------------------------------------------
  // The daily log note
  // ---------------------------------------------------------------------

  /** The tag that closes a daily log note. */
  const Tag: string := "#daily-log"

  /** What replaces the tag: the stripped entry, a blank line, the tag. */
  function TaggedEntry(entry: string): string {
    Strip(entry) + ("\n\n" + Tag)
  }

  /** The insertion step of `append_to_daily_log`: the stripped entry and a
      blank line go before every `#daily-log` tag; a note without the tag
      gets the entry appended after a newline. */
  function InsertEntry(content: string, entry: string): string {
    if Contains(content, Tag) then Replace(content, Tag, TaggedEntry(entry))
    else content + "\n" + entry
  }

  /** In a note with one tag, the entry lands right before the tag and
      everything else stays where it was. */
  lemma InsertBeforeTag(content: string, entry: string, i: nat)
    requires Find(content, Tag) == Some(i)
    requires !Contains(content[i + |Tag|..], Tag)
    ensures InsertEntry(content, entry) == content[..i] + TaggedEntry(entry) + content[i + |Tag|..]
  {
    ReplaceOnce(content, Tag, TaggedEntry(entry), i);
  }

  /** The note keeps everything before its first tag, and the stripped
      entry appears in the result. */
  lemma EntryKeptAtTag(content: string, entry: string, i: nat)
    requires Find(content, Tag) == Some(i)
    ensures StartsWith(InsertEntry(content, entry), content[..i])
    ensures Contains(InsertEntry(content, entry), Strip(entry))
  {
    ReplaceKeepsPrefix(content, Tag, TaggedEntry(entry), i);
    ContainsPrefix(InsertEntry(content, entry), Strip(entry), "\n\n" + Tag, i);
  }

  /** A note without the tag is kept whole, and the stripped entry appears
      in the result. */
  lemma EntryKeptNoTag(content: string, entry: string)
    requires !Contains(content, Tag)
    ensures StartsWith(InsertEntry(content, entry), content)
    ensures Contains(InsertEntry(content, entry), Strip(entry))
  {
    StripOccurs(entry);
    ContainsAfter(content + "\n", entry, Strip(entry), StripStart(entry));
    assert (content + "\n" + entry)[..|content|] == content;
  }

  /** A calendar date, as `datetime.now()` gives it. */
  datatype Date = Date(year: nat, month: nat, day: nat)

  /** `strftime('%Y-%m-%d')`, with the year written as `str(year)`. */
  function DateText(d: Date): string {
    NatToString(d.year) + "-" + Pad2(d.month) + "-" + Pad2(d.day)
  }

  /** The first lines of a note that did not exist yet, for the date text
      `date`. */
  function NoteHeader(date: string): string {
    "# " + date + " - Daily Scanner Log\n\n"
  }

  /** The note `append_to_daily_log` creates when there is none. */
  function FreshNote(date: string): string {
    NoteHeader(date) + Tag + "\n"
  }

  /** `append_to_daily_log` on the note's content, `None` when the file does
      not exist yet. */
  function AppendToDailyLog(existing: Option<string>, d: Date, entry: string): string {
    match existing
    case None => InsertEntry(FreshNote(DateText(d)), entry)
    case Some(content) => InsertEntry(content, entry)
  }

  /** The date text has no `#`. */
  lemma DateTextChars(d: Date)
    ensures '#' !in DateText(d)
  {
    var y := NatToString(d.year);
    var m := Pad2(d.month);
    var dd := Pad2(d.day);
    assert forall i :: 0 <= i < |y| ==> IsDigit(y[i]);
    assert forall i :: 0 <= i < |m| ==> IsDigit(m[i]);
    assert forall i :: 0 <= i < |dd| ==> IsDigit(dd[i]);
    assert '#' !in y && '#' !in m && '#' !in dd;
  }

  /** The tag of a new note is found right after its header. */
  lemma FreshNoteTag(date: string)
    requires '#' !in date
    ensures Find(FreshNote(date), Tag) == Some(|NoteHeader(date)|)
  {
    var rest := " " + date + " - Daily Scanner Log\n\n";
    var tail := rest + Tag + "\n";
    assert Find(tail, Tag) == Some(|rest|) by {
      FindAfter(rest, Tag, "\n");
    }
    assert FreshNote(date) == ['#'] + tail by {
      assert "# " == ['#'] + " ";
      ConcatAssoc(['#'], " ", date);
      ConcatAssoc(['#'], " " + date, " - Daily Scanner Log\n\n");
      ConcatAssoc(['#'], rest, Tag);
      ConcatAssoc(['#'], rest + Tag, "\n");
    }
    assert !OccursAt(['#'] + tail, Tag, 0) by {
      assert (['#'] + tail)[1] == ' ';
    }
    FindShift('#', tail, Tag, |rest|);
  }

  /** The first entry of a new note sits between its header and its tag. */
  lemma FirstEntry(d: Date, entry: string)
    ensures AppendToDailyLog(None, d, entry)
            == NoteHeader(DateText(d)) + TaggedEntry(entry) + "\n"
  {
    var date := DateText(d);
    DateTextChars(d);
    var s := FreshNote(date);
    var h := NoteHeader(date);
    FreshNoteTag(date);
    assert s[|h| + |Tag|..] == "\n";
    assert !Contains("\n", Tag);
    InsertBeforeTag(s, entry, |h|);
    assert s[..|h|] == h;
  }

  /** `get_todays_log_path`: the note for date `d` under the log root, as
      path components: the year's folder, the month's folder, then the
      file named after the date. */
  function LogPath(root: seq<string>, d: Date): seq<string> {
    root + [NatToString(d.year), Pad2(d.month), DateText(d) + ".md"]
  }

  lemma DigitsWithoutDash(s: string)
    requires forall i :: 0 <= i < |s| ==> IsDigit(s[i])
    ensures '-' !in s
  {
    forall i | 0 <= i < |s| ensures s[i] != '-' {
      assert IsDigit(s[i]);
    }
  }

  /** The note of a date lies in the folders of that date's year and month,
      and its name, split at its dashes, repeats those two folder names and
      then gives the day: each reads back as the date's own number. */
  lemma LogPathDate(root: seq<string>, d: Date)
    ensures var p := LogPath(root, d);
            var n := |root|;
            var name := Split(p[n + 2], "-");
            && |p| == n + 3 && p[..n] == root
            && |name| == 3 && name[0] == p[n] && name[1] == p[n + 1]
            && DigitsValue(p[n]) == d.year && DigitsValue(p[n + 1]) == d.month
            && name[2] == Pad2(d.day) + ".md" && DigitsValue(Pad2(d.day)) == d.day
  {
    var y := NatToString(d.year);
    var m := Pad2(d.month);
    var dd := Pad2(d.day);
    var parts := [y, m, dd + ".md"];
    assert Join(parts, "-") == DateText(d) + ".md" by {
      assert Join(parts[2..], "-") == dd + ".md";
      assert Join(parts[1..], "-") == m + "-" + (dd + ".md");
    }
    DigitsWithoutDash(y);
    DigitsWithoutDash(m);
    DigitsWithoutDash(dd);
    assert '-' !in dd + ".md";
    SplitJoin(parts, '-');
    DigitsOfNat(d.year);
    Pad2Value(d.month);
    Pad2Value(d.day);
    assert LogPath(root, d)[..|root|] == root;
  }

  /** `main` without `--dry`: read the transfer's output, format the entry
      of that report for the current time and insert it into the current
      date's note. The note gains the stripped entry, and keeps what it had
      before its tag. */
  method DailyRun(output: string, returnCode: int, recentTracks: seq<string>,
                  root: seq<string>, t: Clock, d: Date, existing: Option<string>)
    returns (path: seq<string>, entry: string, content: string)
    ensures path == LogPath(root, d)
    ensures entry == FormatEntry(ApplyLines(ParseState(InitialStats(returnCode), None), OutputLines(output))
                                   .stats.(newTracks := recentTracks), ClockText(t))
    ensures content == AppendToDailyLog(existing, d, entry)
    ensures Contains(content, Strip(entry))
    ensures existing.Some? && !Contains(existing.value, Tag) ==> StartsWith(content, existing.value)
  {
    var stats, _ := ParseOutput(output, returnCode, recentTracks);
    entry := FormatEntry(stats, ClockText(t));
    path := LogPath(root, d);
    var note := if existing.Some? then existing.value else FreshNote(DateText(d));
    content := InsertEntry(note, entry);
    if Contains(note, Tag) {
      EntryKeptAtTag(note, entry, Find(note, Tag).value);
    } else {
      EntryKeptNoTag(note, entry);
    }
  }
}
