/** The rebuild as a whole: log replay, then putting the archived files' rows back
    in their directories; and what it reproduces of the live database. */
module Rebuild {
  import Text
  import opened Names
  import opened Tables
  import opened Replay
  import HostLog
  import opened Rebuilder
  import opened Seqs

  // ---------------------------------------------------------------- the second phase

  /** A date-named directory of the archive, as listed. */
  datatype DateDirectory = DateDirectory(date: string, path: string, hasManifest: bool, files: seq<string>)

  /** UPDATE <both event tables> SET directory = ? WHERE filename = ? AND directory = <downloads> */
  function RelocateRows(db: Db, name: string, path: string, downloads: string): Db
  {
    db.(events := map k | k in db.events ::
          if db.events[k] == Event(name, downloads) then Event(name, path) else db.events[k])
  }

  predicate Holds(d: DateDirectory, name: string)
  {
    name in d.files && IsSnapshotName(name)
  }

  /** Where a row's file is found: the first listed directory that has it. */
  function FoundIn(dirs: seq<DateDirectory>, name: string, downloads: string): Option<string>
  {
    if dirs == [] then None
    else if Holds(dirs[0], name) && dirs[0].path != downloads then Some(dirs[0].path)
    else FoundIn(dirs[1..], name, downloads)
  }

  function Placed(e: Event, dirs: seq<DateDirectory>, downloads: string): Event
  {
    if e.directory != downloads then e else e.(directory := FoundIn(dirs, e.filename, downloads).GetOr(downloads))
  }

  /** Every row still at Downloads goes where its file is; no other row changes. */
  function Rehydrated(db: Db, dirs: seq<DateDirectory>, downloads: string): Db
  {
    db.(events := map k | k in db.events :: Placed(db.events[k], dirs, downloads))
  }

  lemma {:induction false} FoundInSnoc(dirs: seq<DateDirectory>, d: DateDirectory, name: string, downloads: string)
    ensures FoundIn(dirs + [d], name, downloads) ==
      match FoundIn(dirs, name, downloads)
      case Some(p) => Some(p)
      case None => if Holds(d, name) && d.path != downloads then Some(d.path) else None
    ensures FoundIn(dirs, name, downloads) != Some(downloads)
  {
    if dirs == [] {
      assert dirs + [d] == [d] && [d][1..] == [];
    } else {
      assert (dirs + [d])[1..] == dirs[1..] + [d];
      FoundInSnoc(dirs[1..], d, name, downloads);
    }
  }

  /** One more file of the directory being listed. */
  lemma OneMoreFile(db: Db, dirs: seq<DateDirectory>, d: DateDirectory, name: string, downloads: string)
    ensures
      var with := d.(files := d.files + [name]);
      Rehydrated(db, dirs + [with], downloads) ==
        if IsSnapshotName(name) then RelocateRows(Rehydrated(db, dirs + [d], downloads), name, d.path, downloads)
        else Rehydrated(db, dirs + [d], downloads)
  {
    var with := d.(files := d.files + [name]);
    forall k | k in db.events
      ensures Rehydrated(db, dirs + [with], downloads).events[k] ==
        (if IsSnapshotName(name) then RelocateRows(Rehydrated(db, dirs + [d], downloads), name, d.path, downloads)
         else Rehydrated(db, dirs + [d], downloads)).events[k]
    {
      FoundInSnoc(dirs, d, db.events[k].filename, downloads);
      FoundInSnoc(dirs, with, db.events[k].filename, downloads);
    }
  }

  lemma NoFilesYet(db: Db, dirs: seq<DateDirectory>, d: DateDirectory, downloads: string)
    requires d.files == []
    ensures Rehydrated(db, dirs + [d], downloads) == Rehydrated(db, dirs, downloads)
  {
    forall k | k in db.events
      ensures Rehydrated(db, dirs + [d], downloads).events[k] == Rehydrated(db, dirs, downloads).events[k]
    {
      FoundInSnoc(dirs, d, db.events[k].filename, downloads);
    }
  }

  /** A listed file that rows at Downloads can follow. */
  predicate HasFile(dirs: seq<DateDirectory>, i: nat, name: string, downloads: string)
  {
    i < |dirs| && name in dirs[i].files && IsSnapshotName(name) && dirs[i].path != downloads
  }

  /** Where a row is after the second phase: a row that was not at Downloads where it
      was; one that was, in the first listed directory that has its file, or still at
      Downloads if none has it. */
  lemma RowsGoHome(db: Db, dirs: seq<DateDirectory>, downloads: string, k: EventKey)
    requires k in db.events
    ensures
      var was, now := db.events[k], Rehydrated(db, dirs, downloads).events[k];
      && now.filename == was.filename
      && (was.directory != downloads ==> now.directory == was.directory)
      && (was.directory == downloads && (forall i: nat :: !HasFile(dirs, i, was.filename, downloads)) ==>
            now.directory == downloads)
      && (forall i: nat | was.directory == downloads && HasFile(dirs, i, was.filename, downloads)
                          && (forall j: nat | j < i :: !HasFile(dirs, j, was.filename, downloads)) ::
            now.directory == dirs[i].path)
    ensures Rehydrated(db, dirs, downloads).events.Keys == db.events.Keys
    ensures Rehydrated(db, dirs, downloads).visits == db.visits
  {
    FoundFirst(dirs, db.events[k].filename, downloads);
  }

  lemma {:induction false} FoundFirst(dirs: seq<DateDirectory>, name: string, downloads: string)
    ensures FoundIn(dirs, name, downloads).None? <==> forall i: nat :: !HasFile(dirs, i, name, downloads)
    ensures forall i: nat | HasFile(dirs, i, name, downloads)
                            && (forall j: nat | j < i :: !HasFile(dirs, j, name, downloads)) ::
              FoundIn(dirs, name, downloads) == Some(dirs[i].path)
  {
    if dirs != [] {
      FoundFirst(dirs[1..], name, downloads);
      forall i: nat ensures HasFile(dirs, i + 1, name, downloads) <==> HasFile(dirs[1..], i, name, downloads) {}
      forall i: nat | HasFile(dirs, i, name, downloads) && (forall j: nat | j < i :: !HasFile(dirs, j, name, downloads))
        ensures FoundIn(dirs, name, downloads) == Some(dirs[i].path)
      {
        if i > 0 {
          assert !HasFile(dirs, 0, name, downloads);
          forall j: nat | j < i - 1 ensures !HasFile(dirs[1..], j, name, downloads) {
            assert !HasFile(dirs, j + 1, name, downloads);
          }
          assert HasFile(dirs[1..], i - 1, name, downloads);
        }
      }
      if HasFile(dirs, 0, name, downloads) {
        assert FoundIn(dirs, name, downloads).Some?;
      } else {
        assert FoundIn(dirs, name, downloads) == FoundIn(dirs[1..], name, downloads);
        if i: nat :| HasFile(dirs, i, name, downloads) {
          assert HasFile(dirs[1..], i - 1, name, downloads);
        }
        if i: nat :| HasFile(dirs[1..], i, name, downloads) {
          assert HasFile(dirs, i + 1, name, downloads);
        }
      }
    }
  }

  // ---------------------------------------------------------------- its counts

  /** The counts the second phase reports. */
  datatype Counts = Counts(upserted: nat, sealed: nat, unsealed: nat, relocated: nat, withoutEvents: nat)

  /** The rows of that file that are still at Downloads. */
  function AtDownloads(db: Db, name: string, downloads: string): set<EventKey>
  {
    set k | k in db.events && db.events[k] == Event(name, downloads)
  }

  ghost function Moved(was: Db, now: Db): set<EventKey>
  {
    set k | k in was.events && k in now.events && now.events[k] != was.events[k]
  }

  function Flagged(snapshots: map<string, bool>, dirs: seq<DateDirectory>): map<string, bool>
  {
    if dirs == [] then snapshots
    else
      var last := dirs[|dirs| - 1];
      Flagged(snapshots, dirs[..|dirs| - 1])[last.date := last.hasManifest]
  }

  function Manifests(dirs: seq<DateDirectory>): nat
  {
    if dirs == [] then 0
    else Manifests(dirs[..|dirs| - 1]) + if dirs[|dirs| - 1].hasManifest then 1 else 0
  }

  /** They are the directories that have one. */
  lemma {:induction false} ManifestsAre(dirs: seq<DateDirectory>)
    ensures Manifests(dirs) == |set i | 0 <= i < |dirs| && dirs[i].hasManifest|
  {
    if dirs != [] {
      var n := |dirs| - 1;
      ManifestsAre(dirs[..n]);
      var before := set i | 0 <= i < n && dirs[..n][i].hasManifest;
      var all := set i | 0 <= i < |dirs| && dirs[i].hasManifest;
      assert all == before + (if dirs[n].hasManifest then {n} else {});
    }
  }

  lemma OneMoreDirectory(snapshots: map<string, bool>, dirs: seq<DateDirectory>, dir: DateDirectory)
    ensures Manifests(dirs + [dir]) == Manifests(dirs) + if dir.hasManifest then 1 else 0
    ensures Flagged(snapshots, dirs + [dir]) == Flagged(snapshots, dirs)[dir.date := dir.hasManifest]
    ensures FilesIn(dirs + [dir]) == FilesIn(dirs) + SnapshotFiles(dir.files)
  {
    hide SnapshotFiles;
    assert (dirs + [dir])[..|dirs|] == dirs;
  }

  lemma NoDirectories(db: Db, snapshots: map<string, bool>, downloads: string)
    ensures Manifests([]) == 0 == FilesIn([]) && Flagged(snapshots, []) == snapshots
    ensures Rehydrated(db, [], downloads) == db
  {}

  function SnapshotFiles(names: seq<string>): nat
  {
    if names == [] then 0
    else SnapshotFiles(names[..|names| - 1]) + if IsSnapshotName(names[|names| - 1]) then 1 else 0
  }

  function FilesIn(dirs: seq<DateDirectory>): nat
  {
    if dirs == [] then 0 else FilesIn(dirs[..|dirs| - 1]) + SnapshotFiles(dirs[|dirs| - 1].files)
  }

  /** The rows that moved are each counted once, and the snapshots' files that moved
      none are counted as without one: the others are as many as files were moved. */
  ghost predicate Tells(relocated: nat, without: nat, was: Db, now: Db, dirs: seq<DateDirectory>, files: nat,
                        downloads: string)
  {
    && without <= files <= without + relocated
    && ((forall d | d in dirs :: d.path != downloads) ==>
          relocated == |Moved(was, now)| && files == without + |MovedFiles(was, now)|)
  }

  ghost function MovedFiles(was: Db, now: Db): set<string>
  {
    set k | k in Moved(was, now) :: was.events[k].filename
  }

  /** All rows of a file move together. */
  lemma FileMovedOnce(start: Db, dirs: seq<DateDirectory>, name: string, path: string, downloads: string)
    requires path != downloads
    ensures
      var db := Rehydrated(start, dirs, downloads);
      |MovedFiles(start, RelocateRows(db, name, path, downloads))| ==
        |MovedFiles(start, db)| + if AtDownloads(db, name, downloads) != {} then 1 else 0
  {
    var db := Rehydrated(start, dirs, downloads);
    var now := RelocateRows(db, name, path, downloads);
    var before, here := Moved(start, db), AtDownloads(db, name, downloads);
    forall k | k in before ensures k !in here {
      FoundIsElsewhere(dirs, start.events[k].filename, downloads);
    }
    assert Moved(start, now) == before + here;
    if here == {} {
      forall k | k in db.events ensures now.events[k] == db.events[k] {
        assert k !in here;
      }
      assert now.events == db.events;
    } else {
      var k :| k in here;
      FoundIsElsewhere(dirs, name, downloads);
      forall j | j in before ensures start.events[j].filename != name {
        assert start.events[j].directory == downloads;
      }
      assert name !in MovedFiles(start, db);
      assert k in Moved(start, now) && start.events[k].filename == name;
      assert MovedFiles(start, now) == MovedFiles(start, db) + {name};
    }
  }

  /** An UPDATE moves rows that no earlier one has moved. */
  lemma MovedOnce(start: Db, dirs: seq<DateDirectory>, name: string, path: string, downloads: string)
    requires path != downloads
    ensures
      var db := Rehydrated(start, dirs, downloads);
      |Moved(start, RelocateRows(db, name, path, downloads))| ==
        |Moved(start, db)| + |AtDownloads(db, name, downloads)|
  {
    var db := Rehydrated(start, dirs, downloads);
    var now := RelocateRows(db, name, path, downloads);
    var before, here := Moved(start, db), AtDownloads(db, name, downloads);
    forall k | k in before ensures k !in here {
      FoundIsElsewhere(dirs, start.events[k].filename, downloads);
    }
    forall k | k in here ensures now.events[k] != start.events[k] {
      assert k !in before;
    }
    assert Moved(start, now) == before + here;
  }

  lemma NoSnapshotFiles()
    ensures SnapshotFiles([]) == 0
  {
  }

  lemma SnapshotFilesNext(names: seq<string>, n: nat)
    requires n < |names|
    ensures SnapshotFiles(names[..n + 1]) == SnapshotFiles(names[..n]) + if IsSnapshotName(names[n]) then 1 else 0
  {
    Longer(names, n);
  }

  lemma NothingMoved(db: Db, downloads: string)
    ensures Tells(0, 0, db, db, [], 0, downloads) && db == Rehydrated(db, [], downloads)
  {
    assert Moved(db, db) == {};
  }

  lemma TellsNoLess(relocated: nat, without: nat, was: Db, now: Db, seen: seq<DateDirectory>, dir: DateDirectory,
                    files: nat, downloads: string)
    requires Tells(relocated, without, was, now, seen, files, downloads)
    ensures Tells(relocated, without, was, now, seen + [dir], files, downloads)
  {
    if forall d | d in seen + [dir] :: d.path != downloads {
      assert forall d | d in seen :: d in seen + [dir];
    }
  }

  /** The counts after one more file. */
  lemma TellsOneMore(start: Db, seen: seq<DateDirectory>, dir: DateDirectory, j: nat, files: nat,
                     relocated: nat, without: nat, downloads: string)
    requires j < |dir.files| && IsSnapshotName(dir.files[j])
    requires
      Tells(relocated, without, start, Rehydrated(start, seen + [dir.(files := dir.files[..j])], downloads),
            seen + [dir], files, downloads)
    ensures
      var was := Rehydrated(start, seen + [dir.(files := dir.files[..j])], downloads);
      var hits := |AtDownloads(was, dir.files[j], downloads)|;
      Tells(relocated + hits, without + if hits > 0 then 0 else 1, start,
            RelocateRows(was, dir.files[j], dir.path, downloads), seen + [dir], files + 1, downloads)
  {
    assert dir in seen + [dir];
    if dir.path != downloads {
      MovedOnce(start, seen + [dir.(files := dir.files[..j])], dir.files[j], dir.path, downloads);
      FileMovedOnce(start, seen + [dir.(files := dir.files[..j])], dir.files[j], dir.path, downloads);
    }
  }

  lemma FoundIsElsewhere(dirs: seq<DateDirectory>, name: string, downloads: string)
    ensures FoundIn(dirs, name, downloads) != Some(downloads)
  {
    FoundInSnoc(dirs, DateDirectory("", "", false, []), name, downloads);
  }

  // ---------------------------------------------------------------- the program

  datatype LogFile = LogFile(date: string, content: string)

  function LinesOfFiles(files: seq<LogFile>): (r: seq<seq<string>>)
    ensures |r| == |files|
    ensures forall i | 0 <= i < |r| :: r[i] == Text.FileLines(files[i].content)
  {
    seq(|files|, i requires 0 <= i < |files| => Text.FileLines(files[i].content))
  }

  /** INSERT OR IGNORE of an unsealed row for each file's date. */
  function Noted(snapshots: map<string, bool>, files: seq<LogFile>): map<string, bool>
  {
    if files == [] then snapshots
    else
      var s, d := Noted(snapshots, files[..|files| - 1]), files[|files| - 1].date;
      if d in s then s else s[d := false]
  }

  lemma NextFile(start: State, snapshots: map<string, bool>, files: seq<LogFile>, i: nat, downloads: string)
    requires i < |files|
    ensures
      var lines := LinesOfFiles(files);
      ReplayedFiles(start, lines[..i + 1], downloads)
      == ReplayedAll(ReplayedFiles(start, lines[..i], downloads), Text.FileLines(files[i].content), downloads)
    ensures
      var s, d := Noted(snapshots, files[..i]), files[i].date;
      Noted(snapshots, files[..i + 1]) == if d in s then s else s[d := false]
  {
    hide ReplayedAll, Text.FileLines;
    Longer(files, i);
    Longer(LinesOfFiles(files), i);
  }

  lemma NoFiles(start: State, snapshots: map<string, bool>, downloads: string)
    ensures ReplayedFiles(start, [], downloads) == start && Noted(snapshots, []) == snapshots
  {}

  lemma {:induction false} EveryDayIsNoted(snapshots: map<string, bool>, files: seq<LogFile>, d: string)
    ensures d in Noted(snapshots, files) <==> d in snapshots || exists i :: 0 <= i < |files| && files[i].date == d
    ensures d in Noted(snapshots, files) ==> Noted(snapshots, files)[d] == (d in snapshots && snapshots[d])
  {
    if files != [] {
      EveryDayIsNoted(snapshots, files[..|files| - 1], d);
      assert forall i | 0 <= i < |files| - 1 :: files[..|files| - 1][i] == files[i];
    }
  }

  class RebuildRun {
    var db: Db
    var pending: map<string, HostLog.Message>
    var stats: Stats
    var snapshots: map<string, bool>
    const downloads: string

    constructor (db: Db, snapshots: map<string, bool>, downloads: string)
      ensures this.db == db && this.snapshots == snapshots && this.downloads == downloads
    {
      this.db, this.snapshots, this.downloads := db, snapshots, downloads;
      pending, stats := map[], NO_STATS;
    }

    function Now(): State
      reads this
    {
      State(db, pending, stats)
    }

    method ApplyAction(m: HostLog.Message)
      modifies this`db, this`stats
      ensures db == RunOps(old(db), ActionOps(m, downloads))
      ensures stats == Tally(old(stats), m)
      ensures Records(old(db), db, m.url, m.timestamp, m.title, m.tag == "of_interest", EventTag(m.tag),
                      Text.PyBasename(m.filename), downloads)
      ensures
        var was := old(stats);
        && stats.visitsInserted == was.visitsInserted + 1
        && stats.ofInterestSet == was.ofInterestSet + (if m.tag == "of_interest" then 1 else 0)
        && stats.readEvents == was.readEvents + (if m.tag == "read" then 1 else 0)
        && stats.skimmedEvents == was.skimmedEvents + (if m.tag == "skimmed" then 1 else 0)
        && stats.success == was.success && stats.errors == was.errors && stats.malformed == was.malformed
        && stats.orphanActions == was.orphanActions && stats.orphanResults == was.orphanResults
    {
      hide Records;
      ActionRecords(db, m, downloads);
      ghost var ops := ActionOps(m, downloads);
      RunShort(db, ops);
      assert ops[..|ops|] == ops;
      db := RunOp(db, InsertVisit(m.url, m.timestamp, m.title));
      stats := stats.(visitsInserted := stats.visitsInserted + 1);
      if m.tag == "of_interest" {
        db := RunOp(db, MarkInterest(m.url));
        stats := stats.(ofInterestSet := stats.ofInterestSet + 1);
      } else if EventTag(m.tag).Some? {
        TagVisit(EventTag(m.tag).value, m);
        if EventTag(m.tag).value == Read {
          stats := stats.(readEvents := stats.readEvents + 1);
        } else {
          stats := stats.(skimmedEvents := stats.skimmedEvents + 1);
        }
      }
    }

    /** The event row, and the counter only if the row is new. */
    method TagVisit(t: Tag, m: HostLog.Message)
      requires m.url in db.visits
      modifies this`db
      ensures db ==
        RunOp(old(db), AddEvent(EventKey(t, m.url, m.timestamp), Event(Text.PyBasename(m.filename), downloads)))
    {
      var key := EventKey(t, m.url, m.timestamp);
      var inserted := key !in db.events;
      db := InsertEventRow(db, key, Event(Text.PyBasename(m.filename), downloads));
      if inserted {
        db := BumpCounter(db, key);
      }
    }

    method ReplayOneFile(content: string)
      modifies this`db, this`pending, this`stats
      ensures Now() == ReplayedAll(old(Now()), Text.FileLines(content), downloads)
    {
      hide RunOps, ActionOps, Tally, Parse, Text.FileLines;
      var lines := Text.FileLines(content);
      var i := 0;
      while i < |lines|
        invariant 0 <= i <= |lines|
        invariant Now() == ReplayedAll(old(Now()), lines[..i], downloads)
      {
        Longer(lines, i);
        var entry := Parse(lines[i]);
        ghost var was := Now();
        match entry {
          case Blank =>
          case Malformed => stats := stats.(malformed := stats.malformed + 1);
          case Result(id, success) =>
            if id !in pending {
              stats := stats.(orphanResults := stats.orphanResults + 1);
            } else {
              var m := pending[id];
              pending := pending - {id};
              if success {
                ApplyAction(m);
                stats := stats.(success := stats.success + 1);
              } else {
                stats := stats.(errors := stats.errors + 1);
              }
            }
          case Action(id, m) =>
            if id in pending {
              stats := stats.(orphanActions := stats.orphanActions + 1);
            }
            pending := pending[id := m];
        }
        assert Now() == Replayed(was, lines[i], downloads);
        i := i + 1;
      }
      assert lines[..i] == lines;
    }

    /** All files, with one table of pending actions; every date gets a row. */
    method ReplayLogs(files: seq<LogFile>)
      modifies this
      ensures
        var end := ReplayedFiles(State(old(db), map[], NO_STATS), LinesOfFiles(files), downloads);
        db == end.db && stats == Report(end)
      ensures snapshots == Noted(old(snapshots), files)
    {
      hide ReplayedAll, ReplayedFiles, Replayed, Noted, LinesOfFiles, RunOps, ActionOps, Text.FileLines;
      pending, stats := map[], NO_STATS;
      ghost var start, lines := Now(), LinesOfFiles(files);
      NoFiles(start, snapshots, downloads);
      assert lines[..0] == [] && files[..0] == [];
      var i := 0;
      while i < |files|
        invariant 0 <= i <= |files|
        invariant Now() == ReplayedFiles(start, lines[..i], downloads)
        invariant snapshots == Noted(old(snapshots), files[..i])
      {
        NextFile(start, old(snapshots), files, i, downloads);
        if files[i].date !in snapshots {
          snapshots := snapshots[files[i].date := false];
        }
        ReplayOneFile(files[i].content);
        i := i + 1;
      }
      assert lines[..i] == lines && files[..i] == files;
      stats := stats.(orphanActions := stats.orphanActions + |pending|);
    }

    /** Each file of each directory in turn.  The counts tell what happened: a row
        per directory, sealed if it has a manifest, and every row that moved. */
    method Rehydrate(dirs: seq<DateDirectory>) returns (counts: Counts)
      modifies this`db, this`snapshots
      ensures db == Rehydrated(old(db), dirs, downloads) && snapshots == Flagged(old(snapshots), dirs)
      ensures counts.upserted == |dirs| == counts.sealed + counts.unsealed
      ensures counts.sealed == |set i | 0 <= i < |dirs| && dirs[i].hasManifest|
      ensures Tells(counts.relocated, counts.withoutEvents, old(db), db, dirs, FilesIn(dirs), downloads)
    {
      hide *;
      counts := Counts(0, 0, 0, 0, 0);
      NothingMoved(db, downloads);
      NoDirectories(db, snapshots, downloads);
      var i := 0;
      assert dirs[..0] == [];
      while i < |dirs|
        invariant 0 <= i <= |dirs|
        invariant db == Rehydrated(old(db), dirs[..i], downloads) && snapshots == Flagged(old(snapshots), dirs[..i])
        invariant counts.upserted == i == counts.sealed + counts.unsealed && counts.sealed == Manifests(dirs[..i])
        invariant Tells(counts.relocated, counts.withoutEvents, old(db), db, dirs[..i], FilesIn(dirs[..i]), downloads)
      {
        Longer(dirs, i);
        OneMoreDirectory(old(snapshots), dirs[..i], dirs[i]);
        var sealed := dirs[i].hasManifest;
        snapshots := snapshots[dirs[i].date := sealed];
        counts := counts.(upserted := counts.upserted + 1);
        counts := if sealed then counts.(sealed := counts.sealed + 1) else counts.(unsealed := counts.unsealed + 1);
        var relocated, without :=
          RehydrateDirectory(old(db), dirs[..i], dirs[i], counts.relocated, counts.withoutEvents);
        counts := counts.(relocated := relocated, withoutEvents := without);
        i := i + 1;
      }
      assert dirs[..i] == dirs;
      ManifestsAre(dirs);
    }

    method RehydrateDirectory(ghost start: Db, ghost seen: seq<DateDirectory>, dir: DateDirectory, moved: nat,
                              bare: nat)
      returns (relocated: nat, without: nat)
      requires db == Rehydrated(start, seen, downloads)
      requires Tells(moved, bare, start, db, seen, FilesIn(seen), downloads)
      modifies this`db
      ensures db == Rehydrated(start, seen + [dir], downloads)
      ensures Tells(relocated, without, start, db, seen + [dir], FilesIn(seen) + SnapshotFiles(dir.files), downloads)
    {
      hide *;
      relocated, without := moved, bare;
      TellsNoLess(moved, bare, start, db, seen, dir, FilesIn(seen), downloads);
      var j := 0;
      NoFilesYet(start, seen, dir.(files := dir.files[..0]), downloads);
      NoSnapshotFiles();
      assert dir.files[..0] == [];
      while j < |dir.files|
        invariant 0 <= j <= |dir.files|
        invariant db == Rehydrated(start, seen + [dir.(files := dir.files[..j])], downloads)
        invariant Tells(relocated, without, start, db, seen + [dir], FilesIn(seen) + SnapshotFiles(dir.files[..j]),
            downloads)
      {
        var name := dir.files[j];
        NamesDiffer(dir.date);
        OneMoreFile(start, seen, dir.(files := dir.files[..j]), name, downloads);
        SnapshotFilesNext(dir.files, j);
        Longer(dir.files, j);
        if name != MANIFEST && name != LogName(dir.date) && IsSnapshotName(name) {
          TellsOneMore(start, seen, dir, j, FilesIn(seen) + SnapshotFiles(dir.files[..j]), relocated, without,
                       downloads);
          var hits := |AtDownloads(db, name, downloads)|;
          db := RelocateRows(db, name, dir.path, downloads);
          relocated, without := relocated + hits, without + if hits > 0 then 0 else 1;
        }
        j := j + 1;
      }
      assert dir.files[..j] == dir.files;
    }

    /** The whole program with its three switches, and its report. */
    method Run(truncate: bool, doLog: bool, doRehydrate: bool, files: seq<LogFile>, dirs: seq<DateDirectory>)
      returns (replay: Option<Stats>, rehydrate: Option<Counts>)
      modifies this
      ensures
        var start, days := if truncate then EMPTY else old(db), if truncate then map[] else old(snapshots);
        var end := ReplayedFiles(State(start, map[], NO_STATS), LinesOfFiles(files), downloads);
        var replayed, noted := if doLog then end.db else start, if doLog then Noted(days, files) else days;
        && db == (if doRehydrate then Rehydrated(replayed, dirs, downloads) else replayed)
        && snapshots == (if doRehydrate then Flagged(noted, dirs) else noted)
        && replay == (if doLog then Some(Report(end)) else None)
        && (rehydrate.Some? <==> doRehydrate)
        && (doRehydrate ==>
              && rehydrate.value.upserted == |dirs| == rehydrate.value.sealed + rehydrate.value.unsealed
              && rehydrate.value.sealed == |set i | 0 <= i < |dirs| && dirs[i].hasManifest|
              && Tells(rehydrate.value.relocated, rehydrate.value.withoutEvents, replayed, db, dirs, FilesIn(dirs),
                downloads))
    {
      replay, rehydrate := None, None;
      if truncate {
        db, snapshots := EMPTY, map[];
      }
      if doLog {
        ReplayLogs(files);
        replay := Some(stats);
      }
      if doRehydrate {
        var counts := Rehydrate(dirs);
        rehydrate := Some(counts);
      }
    }
  }

  /** A directory's day ends with the flag of its last listing, and no other day
      changes. */
  lemma {:induction false} FlagsAreTheManifests(snapshots: map<string, bool>, dirs: seq<DateDirectory>, d: string)
    ensures d in Flagged(snapshots, dirs) <==> d in snapshots || exists i :: 0 <= i < |dirs| && dirs[i].date == d
    ensures (forall i | 0 <= i < |dirs| :: dirs[i].date != d) && d in snapshots ==>
        Flagged(snapshots, dirs)[d] == snapshots[d]
    ensures forall i | 0 <= i < |dirs| && dirs[i].date == d && (forall j | i < j < |dirs| :: dirs[j].date != d) ::
              Flagged(snapshots, dirs)[d] == dirs[i].hasManifest
  {
    if dirs != [] {
      var n := |dirs| - 1;
      FlagsAreTheManifests(snapshots, dirs[..n], d);
      assert forall i | 0 <= i < n :: dirs[..n][i] == dirs[i];
    }
  }
}
