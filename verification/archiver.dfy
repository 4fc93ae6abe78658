/** The archive's programs: moving one snapshot, sealing one directory, writing a
    manifest anew. */
module Archiver {
  import opened Text
  import Dates
  import opened Names
  import opened Tables
  import opened Replay
  import opened Archive
  import opened Seqs
  import M = Manifest
  import S = Sealed
  import E = MoverErrors
  import L = Lifecycle
  import R = ManifestRows

  /** The manifest's text for the rows. */
  method Body(rows: seq<seq<string>>) returns (text: string)
    requires forall i | 0 <= i < |rows| :: rows[i] != []
    ensures text == Unlines([Join(M.HEADER, '\t')] + M.Printed(rows))
  {
    text := Join(M.HEADER, '\t') + "\n";
    ghost var lines := [Join(M.HEADER, '\t')];
    var i := 0;
    UnlinesSnoc([], lines[0]);
    while i < |rows|
      invariant 0 <= i <= |rows|
      invariant lines == [Join(M.HEADER, '\t')] + M.Printed(rows)[..i]
      invariant text == Unlines(lines)
    {
      text := text + Join(rows[i], '\t') + "\n";
      UnlinesSnoc(lines, Join(rows[i], '\t'));
      lines := lines + [Join(rows[i], '\t')];
      i := i + 1;
    }
    assert M.Printed(rows)[..i] == M.Printed(rows);
  }

  lemma UnlinesSnoc(lines: seq<string>, l: string)
    ensures Unlines(lines + [l]) == Unlines(lines) + l + "\n"
  {
    UnlinesConcat(lines, [l]);
    assert [l][1..] == [];
    assert Unlines([l]) == l + "\n";
  }

  const MOVE := "move"
  const REWRITE := "rewrite_manifest"
  const SEAL := "seal"

  class ArchiveRoot {
    var sources: map<string, string>
    var dirs: map<string, M.Directory>
    var db: Db
    var days: map<string, bool>
    var logs: map<string, string>
    const errors: E.ErrorTable
    const root: string
    const downloads: string

    constructor (db: Db, errors: E.ErrorTable, root: string, downloads: string)
      ensures Now() == World(map[], map[], db, map[], map[])
      ensures this.errors == errors && this.root == root && this.downloads == downloads
    {
      sources, dirs, days, logs := map[], map[], map[], map[];
      this.db, this.errors, this.root, this.downloads := db, errors, root, downloads;
    }

    function Now(): World
      reads this
    {
      World(sources, dirs, db, days, logs)
    }

    /** The manifest of a directory as it should be now. */
    method ManifestBody(path: string, now: string) returns (text: string)
      requires path in dirs
      modifies errors
      ensures text == M.ManifestText(db, dirs[path], path)
    {
      var rows, _ := E.BuildManifestRows(errors, db, dirs[path], path, now);
      text := Body(rows);
    }

    /** One snapshot into the archive.  A failure before the source is removed is
        recorded as a failed move, a failure after it as a failed rewriting of the
        manifest; success clears them.  `noted` says that the error table took it. */
    method MoveOne(name: string, partial: string, now: string) returns (done: nat, noted: bool)
      requires name in sources && name != MANIFEST
      modifies this, errors
      ensures done <= LAST
      ensures Now() == Moving(old(Now()), Move(name, root, downloads, partial), done)
      ensures MoveShows(old(Now()), Now(), Move(name, root, downloads, partial), done)
      ensures done == LAST && IsStraggler(old(Now()), name) && DateDir(root, name) in old(dirs) ==>
        R.Truthful(db, dirs[DateDir(root, name)], DateDir(root, name))
      ensures done <= 8 ==> noted ==>
        exists text, severe ::
          errors.rows == E.Recorded(old(errors.rows), MOVE, E.JoinPath(downloads, name), text, now, severe)
      ensures 9 <= done < LAST && noted ==>
        E.Key(REWRITE, DateDir(root, name)) in errors.rows && errors.rows[E.Key(REWRITE, DateDir(root, name))].immediate
      ensures done == LAST && noted && !IsStraggler(old(Now()), name) ==>
        E.Key(MOVE, E.JoinPath(downloads, name)) !in errors.rows
      ensures done == LAST && noted && IsStraggler(old(Now()), name) ==>
        E.Key(REWRITE, DateDir(root, name)) !in errors.rows
    {
      hide MoveShows, R.Truthful;
      var straggler := DayOf(name) in days && days[DayOf(name)];
      ghost var w, mv := Now(), Move(name, root, downloads, partial);
      done, noted := MoveSteps(name, partial, now);
      MovingShows(w, mv, IsStraggler(w, name), done);
      if done == LAST && straggler && mv.Path() in w.dirs {
        ManifestOnTheWay(w, mv, LAST);
        R.SealedIsTruthful(db, dirs[mv.Path()], mv.Path());
      }
      var text: string, severe: bool := *, *;
      if done <= 8 {
        noted := errors.TryRecord(MOVE, E.JoinPath(downloads, name), text, now, severe);
      } else if done < LAST {
        noted := errors.TryRecord(REWRITE, DateDir(root, name), text, now, severe);
      } else if straggler {
        noted := errors.TryClear(REWRITE, DateDir(root, name));
      }
    }

    /** Copy, mark read-only, update the rows, note the day, remove the source,
        and for a straggler write the manifest anew.  Any step may fail; what
        `done` steps did stays done, which is also what a crash leaves. */
    method MoveSteps(name: string, partial: string, now: string) returns (done: nat, cleared: bool)
      requires name in sources && name != MANIFEST
      modifies this, errors
      ensures done <= LAST
      ensures Now() == Moving(old(Now()), Move(name, root, downloads, partial), done)
      ensures done <= 8 ==> errors.rows == old(errors.rows)
      ensures cleared && !IsStraggler(old(Now()), name) && done > 8 ==>
        E.Key(MOVE, E.JoinPath(downloads, name)) !in errors.rows
    {
      cleared := false;
      var path, day := DateDir(root, name), DayOf(name);
      ghost var w, mv, straggling := Now(), Move(name, root, downloads, partial), IsStraggler(Now(), name);
      done := Prepare(path, name, partial);
      if done < 2 {
        return;
      }
      done := CopyFile(w, path, name, partial);
      if done < 5 {
        return;
      }
      var ok := *;
      if !ok { return 5, cleared; }
      db := RelocateTag(db, Read, name, path, downloads);
      assert Now() == Reached(w, mv, straggling, 6);
      ok := *;
      if !ok { return 6, cleared; }
      db := RelocateTag(db, Skimmed, name, path, downloads);
      assert Now() == Reached(w, mv, straggling, 7);
      ok := *;
      if !ok { return 7, cleared; }
      ghost var before := days;
      var straggler := day in days && days[day];
      if day !in days {
        days := days[day := false];
      }
      SevenSteps(w, mv, straggling);
      assert straggler == straggling;
      assert Now() == Reached(w, mv, straggling, 8);
      ok := *;
      if !ok { return 8, cleared; }
      sources := sources - {name};
      assert Now() == Reached(w, mv, straggling, 9);
      cleared := errors.TryClear(MOVE, E.JoinPath(downloads, name));
      if straggler {
        SourceAndCopy(w, mv, straggling, 9);
        DatabaseOnTheWay(w, mv, straggling, 8);
        done := Rewrite(w, mv, path, now);
      } else {
        NoRewrite(w, mv);
        done := LAST;
      }
    }

    /** The host's call after an event: nothing for an empty name, an error row for
        a name that is no snapshot's, nothing for a file that is not there. */
    method ForTag(filename: string, partial: string, now: string) returns (done: nat, noted: bool)
      modifies this, errors
      ensures
        var base := SwiftBasename(filename);
        if IsSnapshotName(base) && base in old(sources)
        then
          && done <= LAST && Now() == Moving(old(Now()), Move(base, root, downloads, partial), done)
          && MoveShows(old(Now()), Now(), Move(base, root, downloads, partial), done)
        else Now() == old(Now())
      ensures
        var base := SwiftBasename(filename);
        base != "" && !IsSnapshotName(base) ==>
          (errors.rows == old(errors.rows) ||
           errors.rows == E.Recorded(old(errors.rows), E.INVALID, E.JoinPath(downloads, base), E.INVALID_TEXT, now,
             false))
      ensures
        var base := SwiftBasename(filename);
        IsSnapshotName(base) && base in old(sources) && done <= 8 && noted ==>
          exists text, severe ::
            errors.rows == E.Recorded(old(errors.rows), MOVE, E.JoinPath(downloads, base), text, now, severe)
      ensures
        var base := SwiftBasename(filename);
        base == "" || (IsSnapshotName(base) && base !in old(sources)) ==> errors.rows == old(errors.rows)
    {
      hide MoveShows, R.Truthful;
      var base := SwiftBasename(filename);
      done, noted := 0, false;
      if base == "" {
        return;
      }
      if !IsSnapshotName(base) {
        noted := errors.TryRecord(E.INVALID, E.JoinPath(downloads, base), E.INVALID_TEXT, now, false);
        return;
      }
      if base !in sources {
        return;
      }
      NamesDiffer(base);
      done, noted := MoveOne(base, partial, now);
    }

    /** The directory, without an earlier copy of the file. */
    method Prepare(path: string, name: string, partial: string) returns (done: nat)
      requires path == DateDir(root, name)
      modifies this`dirs
      ensures done <= 2 && Now() == Moving(old(Now()), Move(name, root, downloads, partial), done)
      ensures done == 2 ==> path in dirs
    {
      ghost var w, mv, straggling := Now(), Move(name, root, downloads, partial), IsStraggler(Now(), name);
      var ok := *;
      if !ok { return 0; }
      var dir := if path in dirs then dirs[path] else map[];
      dirs := dirs[path := dir];
      assert Now() == Reached(w, mv, straggling, 1);
      ok := *;
      if !ok { return 1; }
      dirs := dirs[path := dirs[path] - {name}];
      assert Now() == Reached(w, mv, straggling, 2);
      return 2;
    }

    /** The copy, whose first bytes may be all that a crash leaves. */
    method CopyFile(ghost w: World, path: string, name: string, partial: string) returns (done: nat)
      requires path == DateDir(root, name) && path in dirs && name in sources
      requires Now() == Moving(w, Move(name, root, downloads, partial), 2)
      modifies this`dirs
      ensures 2 <= done <= 5 && Now() == Moving(w, Move(name, root, downloads, partial), done)
    {
      ghost var mv, straggling := Move(name, root, downloads, partial), IsStraggler(w, name);
      var ok := *;
      if !ok { return 2; }
      dirs := dirs[path := dirs[path][name := M.File(partial, false)]];
      assert Now() == Reached(w, mv, straggling, 3);
      ok := *;
      if !ok { return 3; }
      dirs := dirs[path := dirs[path][name := M.File(sources[name], false)]];
      assert Now() == Reached(w, mv, straggling, 4);
      ok := *;
      if !ok { return 4; }
      dirs := dirs[path := dirs[path][name := M.File(sources[name], true)]];
      assert Now() == Reached(w, mv, straggling, 5);
      return 5;
    }

    method Rewrite(ghost w: World, ghost mv: Move, path: string, now: string) returns (done: nat)
      requires path in dirs && path == mv.Path() && Now() == Reached(w, mv, true, 9)
      modifies this`dirs, errors
      ensures 9 <= done <= LAST && Now() == Reached(w, mv, true, done)
    {
      var ok := *;
      if !ok { return 9; }
      dirs := dirs[path := dirs[path] - {MANIFEST}];
      assert Now() == Reached(w, mv, true, 10);
      ok := *;
      if !ok { return 10; }
      done := WriteAnew(w, mv, path, now);
    }

    method WriteAnew(ghost w: World, ghost mv: Move, path: string, now: string) returns (done: nat)
      requires path in dirs && path == mv.Path() && Now() == Reached(w, mv, true, 10)
      modifies this`dirs, errors
      ensures 11 <= done <= LAST && Now() == Reached(w, mv, true, done)
    {
      ghost var was := DirAt(Reached(w, mv, true, 10), path);
      var text := ManifestBody(path, now);
      dirs := dirs[path := dirs[path][MANIFEST := M.File(text, false)]];
      assert Now() == Reached(w, mv, true, 11);
      var ok := *;
      if !ok { return 11; }
      assert M.ListedNames(DirAt(Reached(w, mv, true, 11), path), path) == M.ListedNames(was, path);
      dirs := dirs[path := dirs[path][MANIFEST := M.File(text, true)]];
      assert Now() == Reached(w, mv, true, 12);
      return 12;
    }

    /** Removes the old manifest, builds and writes the new one, marks it
        read-only. */
    method WriteManifestFile(path: string, now: string) returns (ok: bool)
      requires path in dirs
      modifies this`dirs, errors
      ensures path in dirs && dirs == old(dirs)[path := dirs[path]] && SameButManifest(old(dirs[path]), dirs[path])
      ensures ok ==> M.SealedBy(db, dirs[path], path) && R.Truthful(db, dirs[path], path)
    {
      hide R.Truthful;
      var all, was := dirs, dirs[path];
      ok := *;
      if !ok { return; }
      dirs := dirs[path := was - {MANIFEST}];
      ok := *;
      if !ok { return; }
      var text := ManifestBody(path, now);
      dirs := dirs[path := was[MANIFEST := M.File(text, false)]];
      SetTwice(all, path, was - {MANIFEST}, was[MANIFEST := M.File(text, false)]);
      NewManifest(db, was, text, path);
      ok := *;
      if !ok { return; }
      dirs := dirs[path := was[MANIFEST := M.File(text, true)]];
      SetTwice(all, path, was[MANIFEST := M.File(text, false)], was[MANIFEST := M.File(text, true)]);
      R.SealedIsTruthful(db, dirs[path], path);
    }

    /** Refused when the directory has a log of the day already. */
    method MoveLogIntoSealedDir(path: string, date: string) returns (ok: bool)
      requires path in dirs
      modifies this`dirs, this`logs
      ensures date !in old(logs) ==> ok && dirs == old(dirs) && logs == old(logs)
      ensures ok && date in old(logs) ==>
        && LogName(date) !in old(dirs[path]) && logs == old(logs) - {date}
        && dirs == old(dirs)[path := old(dirs[path])[LogName(date) := M.File(old(logs)[date], true)]]
      ensures !ok && LogName(date) in old(dirs[path]) ==> dirs == old(dirs) && logs == old(logs)
    {
      if date !in logs {
        return true;
      }
      if LogName(date) in dirs[path] {
        return false;
      }
      ghost var was, dir := dirs, dirs[path];
      var text := logs[date];
      ok := *;
      if !ok { return; }
      dirs := dirs[path := dirs[path][LogName(date) := M.File(text, false)]];
      logs := logs - {date};
      ok := *;
      if !ok { return; }
      dirs := dirs[path := dirs[path][LogName(date) := M.File(text, true)]];
      assert dirs[path] == dir[LogName(date) := M.File(text, true)];
      assert dirs == was[path := dir[LogName(date) := M.File(text, true)]];
    }

    /** Seals a directory: manifest, and for a day its log and its flag, in this
        order, so that a failure leaves the day unsealed and the next run tries
        again.  When it reports success the check accepts the directory exactly if
        the files in it are in order.  A failure is recorded, success clears it. */
    method SealDirectory(path: string, date: Option<string>, now: string) returns (ok: bool, noted: bool)
      requires path in dirs && (date.Some? ==> M.ExpectedLog(path) == Some(LogName(date.value)))
      modifies this`dirs, this`logs, this`days, errors
      ensures !ok || date.None? ==> days == old(days)
      ensures ok && date.Some? ==> days == old(days)[date.value := true]
      ensures ok ==> path in dirs && M.SealedBy(db, dirs[path], path) && R.Truthful(db, dirs[path], path)
      ensures ok ==>
        (M.Accepts(db, dirs[path], path) <==>
           (S.NoStray(dirs[path], path) && S.NoOrphan(db, dirs[path], path)
            && S.NoTabNames(dirs[path], path) && S.LogInPlace(dirs[path], path)))
      ensures ok && date.Some? && date.value in old(logs) ==>
        && LogName(date.value) in dirs[path] && dirs[path][LogName(date.value)] == M.File(old(logs)[date.value], true)
        && date.value !in logs && S.LogInPlace(dirs[path], path)
      ensures !ok && noted ==> E.Key(SEAL, path) in errors.rows && errors.rows[E.Key(SEAL, path)].lastSeen == now
      ensures ok && noted ==> E.Key(SEAL, path) !in errors.rows
    {
      hide R.Truthful;
      ok := SealSteps(path, date, now);
      if ok {
        S.SealedIsValidExactly(db, dirs[path], path);
        R.SealedIsTruthful(db, dirs[path], path);
        noted := errors.TryClear(SEAL, path);
      } else {
        var text: string, severe: bool := *, *;
        noted := errors.TryRecord(SEAL, path, text, now, severe);
      }
    }

    method SealSteps(path: string, date: Option<string>, now: string) returns (ok: bool)
      requires path in dirs && (date.Some? ==> M.ExpectedLog(path) == Some(LogName(date.value)))
      modifies this`dirs, this`logs, this`days, errors
      ensures !ok || date.None? ==> days == old(days)
      ensures ok && date.Some? ==> days == old(days)[date.value := true]
      ensures ok ==> path in dirs && M.SealedBy(db, dirs[path], path)
      ensures ok && date.Some? && date.value in old(logs) ==>
        && LogName(date.value) in dirs[path] && dirs[path][LogName(date.value)] == M.File(old(logs)[date.value], true)
        && date.value !in logs && S.LogInPlace(dirs[path], path)
    {
      hide M.SealedBy, R.Truthful, SameButManifest;
      ok := WriteManifestFile(path, now);
      if !ok || date.None? {
        return;
      }
      ghost var sealed := dirs[path];
      ok := MoveLogIntoSealedDir(path, date.value);
      if !ok {
        return;
      }
      if date.value in old(logs) {
        LogJoinsManifest(db, sealed, path, date.value, M.File(old(logs)[date.value], true));
      }
      ok := *;
      if ok {
        days := days[date.value := true];
      }
    }

    /** One line at the end of a day's live log. */
    method AppendLine(date: string, line: string) returns (ok: bool)
      modifies this`logs
      ensures Now() == if ok then Appended(old(Now()), date, line) else old(Now())
      ensures LogText(logs, date) == LogText(old(logs), date) + (if ok then line + "\n" else "")
      ensures forall d | d != date :: (d in logs <==> d in old(logs)) && LogText(logs, d) == LogText(old(logs), d)
    {
      ok := *;
      if ok {
        logs := logs[date := (if date in logs then logs[date] else "") + line + "\n"];
      }
    }

    /** INSERT OR IGNORE of the day's row. */
    method NoteDay(date: string) returns (ok: bool)
      modifies this`days
      ensures Now() == if ok then DayNoted(old(Now()), date) else old(Now())
      ensures DayShows(old(days), days, date, ok)
    {
      ok := *;
      if ok && date !in days {
        days := days[date := false];
      }
    }
  }

  /** The day's log beside the manifest changes nothing for it. */
  lemma LogJoinsManifest(db: Db, dir: M.Directory, path: string, date: string, e: M.Entry)
    requires M.ExpectedLog(path) == Some(LogName(date)) && M.SealedBy(db, dir, path)
    ensures M.SealedBy(db, dir[LogName(date) := e], path)
  {
    S.LogIsNotManifest(path);
    assert M.ListedNames(dir[LogName(date) := e], path) == M.ListedNames(dir, path);
  }

  /** The text of a day's live log. */
  function LogText(logs: map<string, string>, date: string): string
  {
    if date in logs then logs[date] else ""
  }

  ghost predicate SameButManifest(was: M.Directory, now: M.Directory)
  {
    && (forall f | f != MANIFEST :: f in now <==> f in was)
    && (forall f | f != MANIFEST && f in now :: now[f] == was[f])
  }

  lemma NewManifest(db: Db, was: M.Directory, text: string, path: string)
    requires text == M.ManifestText(db, was - {MANIFEST}, path)
    ensures M.SealedBy(db, was[MANIFEST := M.File(text, true)], path)
    ensures forall ro :: SameButManifest(was, was[MANIFEST := M.File(text, ro)])
  {
    assert M.ListedNames(was[MANIFEST := M.File(text, true)], path) == M.ListedNames(was - {MANIFEST}, path);
  }

  function Appended(w: World, date: string, line: string): World
  {
    w.(logs := w.logs[date := (if date in w.logs then w.logs[date] else "") + line + "\n"])
  }

  function DayNoted(w: World, date: string): World
  {
    w.(days := if date in w.days then w.days else w.days[date := false])
  }

  // ---------------------------------------------------------------- the day's log, as the rebuild sees it

  /** The two files of one day's log. */
  function DayLogs(w: World, path: string, date: string): L.Logs
  {
    var d, dir, name := Dates.Ordinal(date), DirAt(w, path), LogName(date);
    L.Logs(if name in dir && dir[name].File? then map[d := FileLines(dir[name].text)] else map[],
           if date in w.logs then map[d := FileLines(w.logs[date])] else map[])
  }

  /** A finished move of the log is the step that conserves the day's lines, and so
      is a refused one. */
  lemma LogMoveIsAStep(was: World, now: World, path: string, date: string)
    requires path in was.dirs && (LogName(date) in was.dirs[path] ==> was.dirs[path][LogName(date)].File?)
    requires
      if date in was.logs && LogName(date) !in was.dirs[path] then
        && now.logs == was.logs - {date}
        && now.dirs == was.dirs[path := was.dirs[path][LogName(date) := M.File(was.logs[date], true)]]
      else now.logs == was.logs && now.dirs == was.dirs
    ensures DayLogs(now, path, date) == L.Stepped(DayLogs(was, path, date), L.Move(Dates.Ordinal(date)))
  {
    var d := Dates.Ordinal(date);
    if date in was.logs && LogName(date) !in was.dirs[path] {
      assert map[d := FileLines(was.logs[date])] - {d} == map[];
      assert DirAt(now, path)[LogName(date)] == M.File(was.logs[date], true);
    }
  }

  lemma AppendedLog(w: World, date: string, lines: seq<string>, line: string)
    requires if date in w.logs then w.logs[date] == Unlines(lines) else lines == []
    ensures date in Appended(w, date, line).logs && Appended(w, date, line).logs[date] == Unlines(lines + [line])
  {
    UnlinesSnoc(lines, line);
  }

  /** A line without line breaks at the end of a log of such lines is the step in
      which a host emits it. */
  lemma AppendIsAStep(w: World, path: string, date: string, lines: seq<string>, line: string)
    requires '\n' !in line && '\r' !in line && forall l | l in lines :: '\n' !in l && '\r' !in l
    requires if date in w.logs then w.logs[date] == Unlines(lines) else lines == []
    ensures DayLogs(Appended(w, date, line), path, date).live == map[Dates.Ordinal(date) := lines + [line]]
    ensures DayLogs(Appended(w, date, line), path, date) ==
        L.Stepped(DayLogs(w, path, date), L.Emit(Dates.Ordinal(date), line))
  {
    var now, d := Appended(w, date, line), Dates.Ordinal(date);
    AppendedLog(w, date, lines, line);
    FileRoundTrip(lines);
    FileRoundTrip(lines + [line]);
    var was := DayLogs(w, path, date);
    assert (if d in was.live then was.live[d] else []) == lines;
    assert was.live[d := lines + [line]] == map[d := lines + [line]];
    assert DirAt(now, path) == DirAt(w, path);
  }

  lemma SevenSteps(w: World, mv: Move, straggler: bool)
    ensures Reached(w, mv, straggler, 7).days == w.days
  {
    RestOnTheWay(w, mv, straggler, 7);
  }

  lemma NoRewrite(w: World, mv: Move)
    ensures Reached(w, mv, false, 12) == Reached(w, mv, false, 9)
  {
    assert Reached(w, mv, false, 10) == OneStep(Reached(w, mv, false, 9), mv, false, 9);
    assert Reached(w, mv, false, 11) == OneStep(Reached(w, mv, false, 10), mv, false, 10);
  }
}
