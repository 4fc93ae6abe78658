/** Moving a snapshot into the archive and sealing a day, step by step, with a
    crash possible after every step. */
module Archive {
  import Text
  import Dates
  import Listing
  import opened Names
  import opened Tables
  import Rebuild
  import M = Manifest
  import S = Sealed

  /** The files in Downloads, the archive's directories by path, the database with
      its rows of days (true: sealed), and the live logs by date. */
  datatype World = World(sources: map<string, string>, dirs: map<string, M.Directory>, db: Db,
                         days: map<string, bool>, logs: map<string, string>)

  function DirAt(w: World, path: string): M.Directory
  {
    if path in w.dirs then w.dirs[path] else map[]
  }

  function DayOf(name: string): string
  {
    if |name| >= 10 then name[..10] else name
  }

  predicate IsStraggler(w: World, name: string)
  {
    DayOf(name) in w.days && w.days[DayOf(name)]
  }

  /** UPDATE of one event table. */
  function RelocateTag(db: Db, t: Tag, name: string, path: string, downloads: string): Db
  {
    db.(events := map k | k in db.events ::
          if k.tag == t && db.events[k] == Event(name, downloads) then Event(name, path) else db.events[k])
  }

  // ---------------------------------------------------------------- the steps of a move

  /** What a crash in the middle of the copy leaves of the file. */
  datatype Move = Move(name: string, root: string, downloads: string, partial: string)
  {
    function Path(): string
    {
      DateDir(root, name)
    }
  }

  const LAST := 12

  function Put(w: World, path: string, f: string, e: M.Entry): World
  {
    w.(dirs := w.dirs[path := DirAt(w, path)[f := e]])
  }

  function Drop(w: World, path: string, f: string): World
  {
    w.(dirs := w.dirs[path := DirAt(w, path) - {f}])
  }

  function Source(w: World, name: string): string
  {
    if name in w.sources then w.sources[name] else ""
  }

  /** Make the directory, remove what is in the way, copy, set read-only. */
  function CopyStep(dir: M.Directory, mv: Move, text: string, k: nat): M.Directory
  {
    if k == 0 then dir
    else if k == 1 then dir - {mv.name}
    else if k == 2 then dir[mv.name := M.File(mv.partial, false)]
    else if k == 3 then dir[mv.name := M.File(text, false)]
    else dir[mv.name := M.File(text, true)]
  }

  /** The k-th step.  Only a straggler, a file whose day is sealed already, takes
      the last three, which write the manifest anew. */
  ghost function OneStep(w: World, mv: Move, straggler: bool, k: nat): World
  {
    var path, name := mv.Path(), mv.name;
    if k < 5 then w.(dirs := w.dirs[path := CopyStep(DirAt(w, path), mv, Source(w, name), k)])
    else if k == 5 then w.(db := RelocateTag(w.db, Read, name, path, mv.downloads))
    else if k == 6 then w.(db := RelocateTag(w.db, Skimmed, name, path, mv.downloads))
    else if k == 7 then (if DayOf(name) in w.days then w else w.(days := w.days[DayOf(name) := false]))
    else if k == 8 then w.(sources := w.sources - {name})
    else if !straggler then w
    else if k == 9 then Drop(w, path, MANIFEST)
    else if k == 10 then Put(w, path, MANIFEST, M.File(M.ManifestText(w.db, DirAt(w, path), path), false))
    else if k == 11 then Put(w, path, MANIFEST, M.File(M.ManifestText(w.db, DirAt(w, path), path), true))
    else w
  }

  /** The world after the first k steps. */
  ghost function Reached(w: World, mv: Move, straggler: bool, k: nat): World
  {
    if k == 0 then w else OneStep(Reached(w, mv, straggler, k - 1), mv, straggler, k - 1)
  }

  ghost function Moving(w: World, mv: Move, k: nat): World
  {
    Reached(w, mv, IsStraggler(w, mv.name), k)
  }

  // ---------------------------------------------------------------- nothing is lost

  lemma {:induction false} SourcesOnTheWay(w: World, mv: Move, straggler: bool, k: nat)
    requires k <= LAST
    ensures Reached(w, mv, straggler, k).sources == if k <= 8 then w.sources else w.sources - {mv.name}
  {
    if k > 0 {
      SourcesOnTheWay(w, mv, straggler, k - 1);
    }
  }

  lemma {:induction false} SourceAndCopy(w: World, mv: Move, straggler: bool, k: nat)
    requires mv.name in w.sources && k <= LAST && mv.name != MANIFEST
    ensures
      var r := Reached(w, mv, straggler, k);
      && (k <= 8 ==> r.sources == w.sources)
      && (k > 8 ==> r.sources == w.sources - {mv.name})
      && (k >= 1 ==> mv.Path() in r.dirs)
      && (k >= 4 ==> mv.name in r.dirs[mv.Path()])
      && (k == 4 ==> r.dirs[mv.Path()][mv.name] == M.File(w.sources[mv.name], false))
      && (k >= 5 ==> r.dirs[mv.Path()][mv.name] == M.File(w.sources[mv.name], true))
  {
    SourcesOnTheWay(w, mv, straggler, k);
    if k > 0 {
      SourceAndCopy(w, mv, straggler, k - 1);
    }
  }

  /** At every crash point the snapshot is whole in Downloads or in the archive. */
  lemma SnapshotSurvives(w: World, mv: Move, k: nat)
    requires mv.name in w.sources && k <= LAST && IsSnapshotName(mv.name)
    ensures
      var r := Moving(w, mv, k);
      || (mv.name in r.sources && r.sources[mv.name] == w.sources[mv.name])
      || (mv.Path() in r.dirs && mv.name in r.dirs[mv.Path()]
          && r.dirs[mv.Path()][mv.name] == M.File(w.sources[mv.name], true))
  {
    NamesDiffer("");
    SourceAndCopy(w, mv, IsStraggler(w, mv.name), k);
  }

  // ---------------------------------------------------------------- what a move changes

  /** The day of a snapshot is the date its name begins with; its directory is named
      by it, and so is the log that belongs there. */
  lemma DayOfSnapshot(root: string, f: string)
    requires IsSnapshotName(f)
    ensures DayOf(f) == f[..10] && Dates.IsDateText(f[..10]) && DateDir(root, f) == root + "/" + f[..10]
    ensures
      var log := M.ExpectedLog(DateDir(root, f));
      log.Some? && log.value == "browser-visits-" + f[..10] + ".log"
  {
    var d := f[..10];
    assert '/' !in d by {
      assert forall i | 0 <= i < 10 :: d[i] != '/';
    }
    Text.BasenameOf(root, d);
  }

  /** The k-th crash point of a move, file by file and row by row: the source until
      it is removed, the copy once it is made, the rows once they are updated, the
      day's row once it is inserted, which leaves a row that is there alone. */
  ghost predicate MoveShows(was: World, now: World, mv: Move, k: nat)
  {
    && now.logs == was.logs
    && now.sources == (if k <= 8 then was.sources else was.sources - {mv.name})
    && (k >= 5 && mv.name in was.sources ==>
          && mv.Path() in now.dirs && mv.name in now.dirs[mv.Path()]
          && now.dirs[mv.Path()][mv.name] == M.File(was.sources[mv.name], true))
    && OthersStay(was.dirs, now.dirs, mv)
    && RowsShow(was.db, now.db, mv, k)
    && DayShows(was.days, now.days, DayOf(mv.name), k >= 8)
  }

  /** Of the archive only the file and its directory's manifest are touched. */
  ghost predicate OthersStay(was: map<string, M.Directory>, now: map<string, M.Directory>, mv: Move)
  {
    && (forall p | p != mv.Path() :: (p in now <==> p in was) && (p in was ==> now[p] == was[p]))
    && (mv.Path() in was ==> mv.Path() in now)
    && (mv.Path() in now ==> SameBut(if mv.Path() in was then was[mv.Path()] else map[], now[mv.Path()], mv.name))
  }

  predicate SameBut(was: M.Directory, now: M.Directory, name: string)
  {
    && (forall f | f in was && f != name && f != MANIFEST :: f in now && now[f] == was[f])
    && (forall f | f in now && f != name && f != MANIFEST :: f in was)
  }

  /** A row of the file that says Downloads says the archive's directory once its
      table is updated, the read table first; any other row stays. */
  ghost predicate RowsShow(was: Db, now: Db, mv: Move, k: nat)
  {
    && now.visits == was.visits && now.events.Keys == was.events.Keys
    && forall e | e in was.events ::
         && now.events[e].filename == was.events[e].filename
         && now.events[e].directory ==
              if && was.events[e].filename == mv.name && was.events[e].directory == mv.downloads
                 && k >= (if e.tag == Read then 6 else 7)
              then mv.Path() else was.events[e].directory
  }

  ghost predicate DayShows(was: map<string, bool>, now: map<string, bool>, day: string, inserted: bool)
  {
    && (forall d :: d in now <==> d in was || (inserted && d == day))
    && (forall d | d in now :: now[d] == (d in was && was[d]))
  }

  lemma OneStepStays(w: World, r: World, mv: Move, straggler: bool, k: nat)
    requires OthersStay(w.dirs, r.dirs, mv)
    ensures OthersStay(w.dirs, OneStep(r, mv, straggler, k).dirs, mv)
  {
    hide RelocateTag;
    var dir := DirAt(r, mv.Path());
    if k < 5 {
      CopyStepTouches(dir, mv, Source(r, mv.name), k);
      TouchedStays(w.dirs, r.dirs, mv, dir, CopyStep(dir, mv, Source(r, mv.name), k));
    } else if straggler && k == 9 {
      TouchedStays(w.dirs, r.dirs, mv, dir, dir - {MANIFEST});
    } else if straggler && 10 <= k <= 11 {
      var text := M.ManifestText(r.db, dir, mv.Path());
      TouchedStays(w.dirs, r.dirs, mv, dir, dir[MANIFEST := M.File(text, k == 11)]);
    } else {
      assert OneStep(r, mv, straggler, k).dirs == r.dirs;
    }
  }

  lemma TouchedStays(was: map<string, M.Directory>, now: map<string, M.Directory>, mv: Move, dir: M.Directory,
                     next: M.Directory)
    requires OthersStay(was, now, mv) && dir == if mv.Path() in now then now[mv.Path()] else map[]
    requires forall f | f != mv.name && f != MANIFEST :: (f in next <==> f in dir) && (f in dir ==> next[f] == dir[f])
    ensures OthersStay(was, now[mv.Path() := next], mv)
  {
  }

  lemma OneStepRows(was: Db, r: World, mv: Move, straggler: bool, k: nat)
    requires RowsShow(was, r.db, mv, k)
    ensures RowsShow(was, OneStep(r, mv, straggler, k).db, mv, k + 1)
  {
    hide OneStep, RowsShow;
    StepLeavesRows(r, mv, straggler, k);
    if k == 5 {
      RowsOfTag(was, r.db, mv, Read, 5);
    } else if k == 6 {
      RowsOfTag(was, r.db, mv, Skimmed, 6);
    } else {
      RowsLeft(was, r.db, mv, k);
    }
  }

  lemma RowsLeft(was: Db, now: Db, mv: Move, k: nat)
    requires RowsShow(was, now, mv, k) && k != 5 && k != 6
    ensures RowsShow(was, now, mv, k + 1)
  {
  }

  lemma StepLeavesRows(r: World, mv: Move, straggler: bool, k: nat)
    ensures k != 5 && k != 6 ==> OneStep(r, mv, straggler, k).db == r.db
    ensures k == 5 ==> OneStep(r, mv, straggler, k).db == RelocateTag(r.db, Read, mv.name, mv.Path(), mv.downloads)
    ensures k == 6 ==> OneStep(r, mv, straggler, k).db == RelocateTag(r.db, Skimmed, mv.name, mv.Path(), mv.downloads)
  {
    hide CopyStep, DirAt, RelocateTag;
  }

  lemma RowsOfTag(was: Db, now: Db, mv: Move, t: Tag, k: nat)
    requires RowsShow(was, now, mv, k) && k == (if t == Read then 5 else 6)
    ensures RowsShow(was, RelocateTag(now, t, mv.name, mv.Path(), mv.downloads), mv, k + 1)
  {
    var next := RelocateTag(now, t, mv.name, mv.Path(), mv.downloads);
    forall e | e in was.events
      ensures next.events[e].filename == was.events[e].filename
      ensures next.events[e].directory ==
              if && was.events[e].filename == mv.name && was.events[e].directory == mv.downloads
                 && k + 1 >= (if e.tag == Read then 6 else 7)
              then mv.Path() else was.events[e].directory
    {
      assert e.tag == Read || e.tag == Skimmed;
      assert now.events[e] == Event(now.events[e].filename, now.events[e].directory);
    }
  }

  lemma OneStepDays(was: map<string, bool>, r: World, mv: Move, straggler: bool, k: nat)
    requires DayShows(was, r.days, DayOf(mv.name), k >= 8)
    ensures DayShows(was, OneStep(r, mv, straggler, k).days, DayOf(mv.name), k + 1 >= 8)
    ensures OneStep(r, mv, straggler, k).logs == r.logs
  {
    hide CopyStep, Put, Drop, DirAt, RelocateTag;
    var next := OneStep(r, mv, straggler, k);
    if k == 7 {
      assert next.days == if DayOf(mv.name) in r.days then r.days else r.days[DayOf(mv.name) := false];
    } else {
      StepLeavesDays(r, mv, straggler, k);
    }
  }

  lemma StepLeavesDays(r: World, mv: Move, straggler: bool, k: nat)
    ensures k != 7 ==> OneStep(r, mv, straggler, k).days == r.days
    ensures OneStep(r, mv, straggler, k).logs == r.logs
  {
    hide CopyStep, DirAt, RelocateTag;
  }

  lemma {:induction false} MovingShows(w: World, mv: Move, straggler: bool, k: nat)
    requires k <= LAST && mv.name in w.sources && mv.name != MANIFEST
    ensures MoveShows(w, Reached(w, mv, straggler, k), mv, k)
  {
    hide OneStep, OthersStay, RowsShow, DayShows;
    SourceAndCopy(w, mv, straggler, k);
    if k >= 5 {
      CopyStays(w, mv, straggler, k);
    }
    if k == 0 {
      NothingMoved(w, mv);
    } else {
      var r := Reached(w, mv, straggler, k - 1);
      MovingShows(w, mv, straggler, k - 1);
      OneStepStays(w, r, mv, straggler, k - 1);
      OneStepRows(w.db, r, mv, straggler, k - 1);
      StepLeavesDays(r, mv, straggler, k - 1);
      OneStepDays(w.days, r, mv, straggler, k - 1);
    }
  }

  lemma CopyStays(w: World, mv: Move, straggler: bool, k: nat)
    requires 5 <= k <= LAST && mv.name in w.sources && mv.name != MANIFEST
    ensures
      var r := Reached(w, mv, straggler, k);
      && mv.Path() in r.dirs && mv.name in r.dirs[mv.Path()]
      && r.dirs[mv.Path()][mv.name] == M.File(w.sources[mv.name], true)
  {
    hide OneStep;
    SourceAndCopy(w, mv, straggler, k);
  }

  lemma NothingMoved(w: World, mv: Move)
    ensures OthersStay(w.dirs, w.dirs, mv) && RowsShow(w.db, w.db, mv, 0)
    ensures DayShows(w.days, w.days, DayOf(mv.name), false)
  {
  }

  // ---------------------------------------------------------------- running again

  /** What the steps up to the unlinking amount to. */
  ghost function UpTo8(w: World, mv: Move): World
  {
    var path, name := mv.Path(), mv.name;
    World(w.sources,
          w.dirs[path := DirAt(w, path)[name := M.File(Source(w, name), true)]],
          Rebuild.RelocateRows(w.db, name, path, mv.downloads),
          if DayOf(name) in w.days then w.days else w.days[DayOf(name) := false],
          w.logs)
  }

  lemma TwoTables(db: Db, name: string, path: string, downloads: string)
    ensures RelocateTag(RelocateTag(db, Read, name, path, downloads), Skimmed, name, path, downloads)
         == Rebuild.RelocateRows(db, name, path, downloads)
  {
  }

  /** The directories after the first k steps: only the one file may differ. */
  ghost predicate OnlyTheFile(w: World, r: World, mv: Move)
  {
    var path := mv.Path();
    && (forall p | p != path :: p in r.dirs <==> p in w.dirs)
    && (forall p | p != path && p in w.dirs :: r.dirs[p] == w.dirs[p])
    && (forall f | f != mv.name :: f in DirAt(r, path) <==> f in DirAt(w, path))
    && (forall f | f != mv.name && f in DirAt(w, path) :: DirAt(r, path)[f] == DirAt(w, path)[f])
  }

  lemma DirsTouched(w: World, r: World, mv: Move, dir: M.Directory, next: World)
    requires OnlyTheFile(w, r, mv) && next.dirs == r.dirs[mv.Path() := dir]
    requires forall f | f != mv.name :: f in dir <==> f in DirAt(r, mv.Path())
    requires forall f | f != mv.name && f in dir :: dir[f] == DirAt(r, mv.Path())[f]
    ensures OnlyTheFile(w, next, mv)
  {
    assert DirAt(next, mv.Path()) == dir;
  }

  lemma CopyStepTouches(dir: M.Directory, mv: Move, text: string, k: nat)
    ensures forall f | f != mv.name :: f in CopyStep(dir, mv, text, k) <==> f in dir
    ensures forall f | f != mv.name && f in dir :: CopyStep(dir, mv, text, k)[f] == dir[f]
  {
  }

  lemma StepTouchesTheFile(w: World, r: World, mv: Move, straggler: bool, k: nat)
    requires k < 9 && OnlyTheFile(w, r, mv)
    ensures OnlyTheFile(w, OneStep(r, mv, straggler, k), mv)
  {
    var next := OneStep(r, mv, straggler, k);
    if k < 5 {
      CopyStepTouches(DirAt(r, mv.Path()), mv, Source(r, mv.name), k);
      DirsTouched(w, r, mv, CopyStep(DirAt(r, mv.Path()), mv, Source(r, mv.name), k), next);
    } else {
      SameDirsTouched(w, r, mv, next);
    }
  }

  lemma SameDirsTouched(w: World, r: World, mv: Move, next: World)
    requires OnlyTheFile(w, r, mv) && next.dirs == r.dirs
    ensures OnlyTheFile(w, next, mv)
  {
    assert DirAt(next, mv.Path()) == DirAt(r, mv.Path());
  }

  lemma {:induction false} FilesOnTheWay(w: World, mv: Move, straggler: bool, k: nat)
    requires k <= 9
    ensures OnlyTheFile(w, Reached(w, mv, straggler, k), mv)
  {
    if k > 0 {
      FilesOnTheWay(w, mv, straggler, k - 1);
      StepTouchesTheFile(w, Reached(w, mv, straggler, k - 1), mv, straggler, k - 1);
    }
  }

  lemma {:induction false} DatabaseOnTheWay(w: World, mv: Move, straggler: bool, k: nat)
    requires k <= 8
    ensures Reached(w, mv, straggler, k).db ==
      if k <= 5 then w.db
      else if k == 6 then RelocateTag(w.db, Read, mv.name, mv.Path(), mv.downloads)
      else Rebuild.RelocateRows(w.db, mv.name, mv.Path(), mv.downloads)
  {
    if k > 0 {
      DatabaseOnTheWay(w, mv, straggler, k - 1);
      TwoTables(w.db, mv.name, mv.Path(), mv.downloads);
    }
  }

  lemma {:induction false} RestOnTheWay(w: World, mv: Move, straggler: bool, k: nat)
    requires k <= 8
    ensures
      var r := Reached(w, mv, straggler, k);
      && r.sources == w.sources && r.logs == w.logs
      && r.days == if k < 8 || DayOf(mv.name) in w.days then w.days else w.days[DayOf(mv.name) := false]
  {
    if k > 0 {
      RestOnTheWay(w, mv, straggler, k - 1);
    }
  }

  lemma EightSteps(w: World, mv: Move, straggler: bool)
    requires mv.name in w.sources && mv.name != MANIFEST
    ensures Reached(w, mv, straggler, 8) == UpTo8(w, mv)
  {
    hide Reached, OneStep, CopyStep, RelocateTag;
    FilesOnTheWay(w, mv, straggler, 8);
    DatabaseOnTheWay(w, mv, straggler, 8);
    RestOnTheWay(w, mv, straggler, 8);
    SourceAndCopy(w, mv, straggler, 8);
    var r := Reached(w, mv, straggler, 8);
    assert DirAt(r, mv.Path()) == DirAt(w, mv.Path())[mv.name := M.File(w.sources[mv.name], true)];
    assert r.dirs == UpTo8(w, mv).dirs;
  }

  lemma Again(w: World, r: World, mv: Move)
    requires r.sources == w.sources && r.logs == w.logs
    requires OnlyTheFile(w, r, mv)
    requires Rebuild.RelocateRows(r.db, mv.name, mv.Path(), mv.downloads) ==
        Rebuild.RelocateRows(w.db, mv.name, mv.Path(), mv.downloads)
    requires r.days == w.days || (DayOf(mv.name) !in w.days && r.days == w.days[DayOf(mv.name) := false])
    ensures UpTo8(r, mv) == UpTo8(w, mv)
  {
    var text := M.File(Source(w, mv.name), true);
    assert DirAt(r, mv.Path())[mv.name := text] == DirAt(w, mv.Path())[mv.name := text];
    assert UpTo8(r, mv).dirs == UpTo8(w, mv).dirs;
  }

  lemma RelocatedAgain(db: Db, name: string, path: string, downloads: string)
    ensures Rebuild.RelocateRows(RelocateTag(db, Read, name, path, downloads), name, path, downloads)
         == Rebuild.RelocateRows(db, name, path, downloads)
    ensures Rebuild.RelocateRows(Rebuild.RelocateRows(db, name, path, downloads), name, path, downloads)
         == Rebuild.RelocateRows(db, name, path, downloads)
  {
  }

  /** The rest of the way depends on where one stands only. */
  lemma {:induction false} FromThere(w: World, r: World, mv: Move, straggler: bool, k: nat)
    requires k >= 8 && Reached(w, mv, straggler, 8) == Reached(r, mv, straggler, 8)
    ensures Reached(w, mv, straggler, k) == Reached(r, mv, straggler, k)
  {
    if k > 8 {
      FromThere(w, r, mv, straggler, k - 1);
    }
  }

  /** A move that died before it removed the source, run again, ends where the
      uninterrupted move ends; `again` may differ in what a crash left of a copy. */
  lemma RerunFinishes(w: World, mv: Move, k: nat, again: Move)
    requires mv.name in w.sources && k <= 8 && IsSnapshotName(mv.name)
    requires again == mv.(partial := again.partial)
    ensures Moving(Moving(w, mv, k), again, LAST) == Moving(w, mv, LAST)
  {
    var straggler, r := IsStraggler(w, mv.name), Moving(w, mv, k);
    NamesDiffer("");
    FilesOnTheWay(w, mv, straggler, k);
    DatabaseOnTheWay(w, mv, straggler, k);
    RestOnTheWay(w, mv, straggler, k);
    RelocatedAgain(w.db, mv.name, mv.Path(), mv.downloads);
    Again(w, r, mv);
    EightSteps(w, mv, straggler);
    EightSteps(r, mv, straggler);
    assert IsStraggler(r, mv.name) == straggler;
    FromThere(w, r, mv, straggler, LAST);
    PartialForgotten(r, mv, again, straggler);
  }

  lemma PartialForgotten(r: World, mv: Move, again: Move, straggler: bool)
    requires again == mv.(partial := again.partial) && mv.name in r.sources && mv.name != MANIFEST
    ensures Reached(r, again, straggler, LAST) == Reached(r, mv, straggler, LAST)
  {
    EightSteps(r, mv, straggler);
    EightSteps(r, again, straggler);
    SameFrom8(r, mv, again, straggler, LAST);
  }

  lemma {:induction false} SameFrom8(r: World, mv: Move, again: Move, straggler: bool, k: nat)
    requires again == mv.(partial := again.partial) && k >= 8
    requires Reached(r, again, straggler, 8) == Reached(r, mv, straggler, 8)
    ensures Reached(r, again, straggler, k) == Reached(r, mv, straggler, k)
  {
    if k > 8 {
      SameFrom8(r, mv, again, straggler, k - 1);
    }
  }

  // ---------------------------------------------------------------- stragglers

  /** The manifest file on the way. */
  lemma {:induction false} ManifestOnTheWay(w: World, mv: Move, k: nat)
    requires mv.name in w.sources && mv.name != MANIFEST && k <= LAST
    requires mv.Path() in w.dirs
    ensures
      var r, path := Reached(w, mv, true, k), mv.Path();
      && path in r.dirs
      && (k <= 9 && MANIFEST in w.dirs[path] ==>
            MANIFEST in r.dirs[path] && r.dirs[path][MANIFEST] == w.dirs[path][MANIFEST])
      && (k == 10 ==> MANIFEST !in r.dirs[path])
      && (k == 11 ==> MANIFEST in r.dirs[path] && r.dirs[path][MANIFEST].File? && !r.dirs[path][MANIFEST].readOnly)
      && (k == 12 ==> M.SealedBy(r.db, r.dirs[path], path))
  {
    if k > 0 {
      ManifestOnTheWay(w, mv, k - 1);
      var r := Reached(w, mv, true, k - 1);
      if k == 12 {
        S.WithManifestIsSealed(r.db, r.dirs[mv.Path()], mv.Path());
      }
    }
  }

  /** A snapshot that the manifest does not know is noticed. */
  lemma UnknownFileIsFlagged(db: Db, dir: M.Directory, now: Db, later: M.Directory, path: string, name: string)
    requires M.SealedBy(db, dir, path) && name !in dir && M.OnDisk(later, path, name)
    requires MANIFEST in later && later[MANIFEST] == dir[MANIFEST]
    requires forall f | f in dir && f != MANIFEST :: f in later && later[f] == dir[f]
    ensures !M.Accepts(now, later, path)
  {
    var names := Listing.SortedNames(M.ListedNames(dir, path));
    S.SealedReads(db, dir, path);
    var lines := M.ManifestLines(dir)[1..];
    S.TabsCannotBeRead(lines);
    if M.Accepts(now, later, path) {
      S.AcceptedParts(now, later, path);
      S.NoFileIssue(now, later, path, M.Entries(lines));
      assert S.NoTabs(names) by {
        forall i | 0 <= i < |names| ensures '\t' !in names[i] {
          assert names[i] in names && M.IsListed(later, path, names[i]);
          assert M.OnDisk(later, path, names[i]) && names[i] in M.Entries(lines);
        }
      }
      S.RowsReadBack(db, names, path);
      assert false;
    }
  }
}
