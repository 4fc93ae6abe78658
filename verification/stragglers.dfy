/** Snapshots that arrive after their day was sealed: what the check makes of every
    point at which such a move, or any repetition of it, can have died. */
module Stragglers {
  import opened Text
  import opened Listing
  import opened Names
  import opened Tables
  import opened Archive
  import M = Manifest
  import S = Sealed
  import E = MoverErrors

  // ---------------------------------------------------------------- equal manifests

  ghost predicate IsRowed(db: Db, dir: M.Directory, path: string, f: string)
  {
    M.IsListed(dir, path, f) && M.HasRow(db, f, path)
  }

  /** The files with rows and what the rows say decide the manifest. */
  lemma SameManifest(db: Db, dir: M.Directory, now: Db, later: M.Directory, path: string)
    requires forall f :: IsRowed(db, dir, path, f) <==> IsRowed(now, later, path, f)
    requires forall f | IsRowed(db, dir, path, f) && IsRowed(now, later, path, f) ::
               M.Expected(M.Lookup(db, f, path).value) == M.Expected(M.Lookup(now, f, path).value)
    ensures M.ManifestText(db, dir, path) == M.ManifestText(now, later, path)
  {
    var a, b := SortedNames(M.ListedNames(dir, path)), SortedNames(M.ListedNames(later, path));
    E.RowsArePartOfAPartition(db, a, path);
    E.RowsArePartOfAPartition(now, b, path);
    var x, y := E.Rowed(db, a, path), E.Rowed(now, b, path);
    forall f ensures f in x <==> IsRowed(db, dir, path, f) {
      assert f in a <==> M.IsListed(dir, path, f);
    }
    forall f ensures f in y <==> IsRowed(now, later, path, f) {
      assert f in b <==> M.IsListed(later, path, f);
    }
    OneOrder(x, y);
    SameRowsOf(db, a, now, b, path);
  }

  lemma SameRowsOf(db: Db, a: seq<string>, now: Db, b: seq<string>, path: string)
    requires Ordered(a) && Ordered(b) && E.Rowed(db, a, path) == E.Rowed(now, b, path)
    requires forall f | f in E.Rowed(db, a, path) :: M.Lookup(db, f, path).Some? && M.Lookup(now, f, path).Some?
               && M.Expected(M.Lookup(db, f, path).value) == M.Expected(M.Lookup(now, f, path).value)
    ensures M.RowsOf(db, a, path) == M.RowsOf(now, b, path)
  {
    E.RowsArePartOfAPartition(db, a, path);
    E.RowsArePartOfAPartition(now, b, path);
    var files, x, y := E.Rowed(db, a, path), M.RowsOf(db, a, path), M.RowsOf(now, b, path);
    forall i | 0 <= i < |x| ensures x[i] == y[i] {
      assert files[i] in files;
    }
  }

  // ---------------------------------------------------------------- names with tabs

  lemma {:induction false} SanitisedChars(s: string)
    requires '\r' !in s
    ensures |Sanitise(s)| == |s|
    ensures forall i | 0 <= i < |s| :: Sanitise(s)[i] == if s[i] == '\t' || s[i] == '\n' then ' ' else s[i]
  {
    if s != "" {
      SanitisedChars(s[1..]);
    }
  }

  lemma SanitisedNames(f: string)
    requires IsSnapshotName(f)
    ensures IsSnapshotName(Sanitise(f))
  {
    SanitisedChars(f);
    SanitiseIsClean(f);
    assert forall i | 0 <= i < 21 :: Sanitise(f)[i] == f[i];
    assert Sanitise(f)[..10] == f[..10];
  }

  /** A row of five columns leaves an entry of its name. */
  lemma {:induction false} RowHasEntry(lines: seq<string>, i: nat)
    requires i < |lines| && |Split(lines[i], '\t')| == 5
    ensures Split(lines[i], '\t')[0] in M.Entries(lines)
  {
    if i < |lines| - 1 {
      RowHasEntry(lines[..|lines| - 1], i);
    }
  }

  lemma TwoRowsOneName(lines: seq<string>, i: nat, j: nat)
    requires i < j < |lines| && |Split(lines[i], '\t')| == |Split(lines[j], '\t')| == 5
    requires Split(lines[i], '\t')[0] == Split(lines[j], '\t')[0]
    ensures M.RowIssue(lines, M.DuplicateName(j + 2, Split(lines[j], '\t')[0]))
  {
    RowHasEntry(lines[..j], i);
    assert M.RowIssueAt(lines, j, M.DuplicateName(j + 2, Split(lines[j], '\t')[0]));
  }

  /** The printed row of a file. */
  lemma RowOfFile(db: Db, names: seq<string>, path: string, f: string) returns (i: nat)
    requires Ordered(names) && f in names && M.HasRow(db, f, path)
    ensures i < |E.Rowed(db, names, path)| && E.Rowed(db, names, path)[i] == f
    ensures
      var lines := M.Printed(M.RowsOf(db, names, path));
      && i < |lines| && |Split(lines[i], '\t')| == 5 && Split(lines[i], '\t')[0] == Sanitise(f)
  {
    E.RowsArePartOfAPartition(db, names, path);
    var files := E.Rowed(db, names, path);
    assert f in files;
    i :| 0 <= i < |files| && files[i] == f;
    S.RowSplits(M.RowsOf(db, names, path)[i]);
  }

  // ---------------------------------------------------------------- right or flagged

  /** A directory and a database that agree with sealed ones in everything but one
      file and that file's rows. */
  ghost predicate ButForOne(db: Db, dir: M.Directory, now: Db, later: M.Directory, path: string, name: string)
  {
    && (forall f | f != name :: f in later <==> f in dir)
    && (forall f | f != name && f in dir :: later[f] == dir[f])
    && (forall f | f != name :: M.Lookup(now, f, path) == M.Lookup(db, f, path))
    && (name in later ==> later[name].File?)
  }

  lemma ListedAlike(db: Db, dir: M.Directory, now: Db, later: M.Directory, path: string, name: string, f: string)
    requires ButForOne(db, dir, now, later, path, name) && f != name
    ensures M.IsListed(dir, path, f) <==> M.IsListed(later, path, f)
    ensures M.HasRow(db, f, path) <==> M.HasRow(now, f, path)
  {
  }

  lemma ManifestReads(db: Db, dir: M.Directory, now: Db, later: M.Directory, path: string, name: string)
    requires M.SealedBy(db, dir, path) && ButForOne(db, dir, now, later, path, name) && name != MANIFEST
    ensures M.Readable(later) && M.ManifestLines(later)[1..] == S.Written(db, dir, path)
  {
    S.SealedReads(db, dir, path);
  }

  /** If the check accepts, the manifest's entries are the sealed directory's, and
      so is the file's entry. */
  lemma AcceptedNames(db: Db, dir: M.Directory, now: Db, later: M.Directory, path: string, name: string)
    requires M.SealedBy(db, dir, path) && ButForOne(db, dir, now, later, path, name) && name != MANIFEST
    requires M.Accepts(now, later, path)
    ensures forall f | f != name && M.IsListed(dir, path, f) :: '\t' !in f
    ensures M.OnDisk(later, path, name) ==> '\t' !in name
  {
    ManifestReads(db, dir, now, later, path, name);
    var lines := M.ManifestLines(later)[1..];
    S.TabsCannotBeRead(lines);
    S.AcceptedParts(now, later, path);
    S.NoFileIssue(now, later, path, M.Entries(lines));
    forall f | f != name && M.IsListed(dir, path, f) ensures '\t' !in f {
      ListedAlike(db, dir, now, later, path, name, f);
      assert M.OnDisk(later, path, f);
    }
  }

  /** A row whose file was removed is noticed, also if its name has a tab. */
  lemma RemovedRowIsFlagged(db: Db, dir: M.Directory, now: Db, later: M.Directory, path: string, name: string)
    requires M.SealedBy(db, dir, path) && ButForOne(db, dir, now, later, path, name) && name != MANIFEST
    requires IsRowed(db, dir, path, name) && name !in later
    ensures !M.Accepts(now, later, path)
  {
    if M.Accepts(now, later, path) {
      SanitisedIsRowed(db, dir, now, later, path, name);
      SameColumn(db, dir, path, name);
      ManifestReads(db, dir, now, later, path, name);
      S.AcceptedParts(now, later, path);
      assert false;
    }
  }

  lemma WrittenRow(db: Db, dir: M.Directory, path: string, f: string) returns (i: nat)
    requires IsRowed(db, dir, path, f)
    ensures i < |S.Written(db, dir, path)| && |Split(S.Written(db, dir, path)[i], '\t')| == 5
    ensures Split(S.Written(db, dir, path)[i], '\t')[0] == Sanitise(f)
    ensures i < |E.Rowed(db, SortedNames(M.ListedNames(dir, path)), path)|
    ensures E.Rowed(db, SortedNames(M.ListedNames(dir, path)), path)[i] == f
  {
    i := RowOfFile(db, SortedNames(M.ListedNames(dir, path)), path, f);
  }

  /** Two files whose sanitised names are equal give a row of a repeated name. */
  lemma SameColumn(db: Db, dir: M.Directory, path: string, name: string)
    requires IsRowed(db, dir, path, name) && IsRowed(db, dir, path, Sanitise(name)) && Sanitise(name) != name
    ensures exists x :: M.RowIssue(S.Written(db, dir, path), x)
  {
    var i := WrittenRow(db, dir, path, name);
    var j := WrittenRow(db, dir, path, Sanitise(name));
    SanitiseIsClean(name);
    SanitiseIsClean(Sanitise(name));
    if i < j {
      TwoRowsOneName(S.Written(db, dir, path), i, j);
    } else {
      TwoRowsOneName(S.Written(db, dir, path), j, i);
    }
  }

  /** When the check accepts although the row's file is gone, another file carries
      the name that the row shows. */
  lemma SanitisedIsRowed(db: Db, dir: M.Directory, now: Db, later: M.Directory, path: string, name: string)
    requires M.SealedBy(db, dir, path) && ButForOne(db, dir, now, later, path, name) && name != MANIFEST
    requires IsRowed(db, dir, path, name) && name !in later && M.Accepts(now, later, path)
    ensures Sanitise(name) != name && IsRowed(db, dir, path, Sanitise(name))
  {
    var lines, n := S.Written(db, dir, path), Sanitise(name);
    ManifestReads(db, dir, now, later, path, name);
    var i := WrittenRow(db, dir, path, name);
    RowHasEntry(lines, i);
    SanitisedNames(name);
    S.AcceptedParts(now, later, path);
    AcceptedEntry(now, later, path, M.Entries(lines), n);
    ListedAlike(db, dir, now, later, path, name, n);
  }

  lemma AcceptedEntry(now: Db, later: M.Directory, path: string, entries: map<string, M.Columns>, f: string)
    requires (forall x :: !M.FileIssue(now, later, path, entries, x)) && IsSnapshotName(f)
    ensures f in entries <==> M.OnDisk(later, path, f)
    ensures f in entries ==> M.Lookup(now, f, path).Some? && entries[f] == M.Expected(M.Lookup(now, f, path).value)
  {
    assert !M.FileIssue(now, later, path, entries, M.ListedButGone(f));
    assert !M.FileIssue(now, later, path, entries, M.NotListed(f));
    assert !M.FileIssue(now, later, path, entries, M.NoEventRow(f));
    assert !M.FileIssue(now, later, path, entries, M.Mismatch(f));
  }

  /** What the entries say of the file, when the check accepts. */
  lemma AcceptedRow(db: Db, dir: M.Directory, now: Db, later: M.Directory, path: string, name: string)
    requires M.SealedBy(db, dir, path) && ButForOne(db, dir, now, later, path, name) && IsSnapshotName(name)
    requires M.IsListed(dir, path, name) ==> '\t' !in name
    requires M.Accepts(now, later, path)
    ensures IsRowed(db, dir, path, name) <==> IsRowed(now, later, path, name)
    ensures IsRowed(db, dir, path, name) ==>
              M.Expected(M.Lookup(db, name, path).value) == M.Expected(M.Lookup(now, name, path).value)
  {
    NamesDiffer("");
    ManifestReads(db, dir, now, later, path, name);
    AcceptedNames(db, dir, now, later, path, name);
    WrittenEntry(db, dir, path, name);
    S.AcceptedParts(now, later, path);
    AcceptedEntry(now, later, path, M.Entries(S.Written(db, dir, path)), name);
  }

  lemma WrittenEntry(db: Db, dir: M.Directory, path: string, f: string)
    requires forall g | M.IsListed(dir, path, g) :: '\t' !in g
    ensures
      var entries := M.Entries(S.Written(db, dir, path));
      && (f in entries <==> IsRowed(db, dir, path, f))
      && (f in entries ==> entries[f] == M.Expected(M.Lookup(db, f, path).value))
  {
    var names := SortedNames(M.ListedNames(dir, path));
    assert S.NoTabs(names) by {
      forall i | 0 <= i < |names| ensures '\t' !in names[i] {
        assert names[i] in names;
      }
    }
    S.RowsReadBack(db, names, path);
    assert f in names <==> M.IsListed(dir, path, f);
  }

  /** Whatever became of one file and its rows, the manifest is right for what is
      there or the check flags the directory. */
  lemma RightOrFlagged(db: Db, dir: M.Directory, now: Db, later: M.Directory, path: string, name: string)
    requires M.SealedBy(db, dir, path) && ButForOne(db, dir, now, later, path, name) && IsSnapshotName(name)
    ensures M.SealedBy(now, later, path) || !M.Accepts(now, later, path)
  {
    NamesDiffer("");
    if M.Accepts(now, later, path) {
      if M.IsListed(dir, path, name) && '\t' in name {
        TabNameKept(db, dir, now, later, path, name);
      } else {
        AcceptedRow(db, dir, now, later, path, name);
      }
      forall f ensures IsRowed(db, dir, path, f) <==> IsRowed(now, later, path, f) {
        if f != name {
          ListedAlike(db, dir, now, later, path, name, f);
        }
      }
      SameManifest(db, dir, now, later, path);
    }
  }

  /** With a tab in its name an accepted file has no row and is not there. */
  lemma TabNameKept(db: Db, dir: M.Directory, now: Db, later: M.Directory, path: string, name: string)
    requires M.SealedBy(db, dir, path) && ButForOne(db, dir, now, later, path, name) && IsSnapshotName(name)
    requires M.Accepts(now, later, path) && M.IsListed(dir, path, name) && '\t' in name
    ensures !IsRowed(db, dir, path, name) && !IsRowed(now, later, path, name)
  {
    NamesDiffer("");
    AcceptedNames(db, dir, now, later, path, name);
    assert !M.IsListed(later, path, name);
    if IsRowed(db, dir, path, name) {
      SnapshotIsListed(dir, later, path, name);
      RemovedRowIsFlagged(db, dir, now, later, path, name);
    }
  }

  lemma SnapshotIsListed(dir: M.Directory, later: M.Directory, path: string, name: string)
    requires M.IsListed(dir, path, name) && !M.IsListed(later, path, name) && (name in later ==> later[name].File?)
    ensures name !in later
  {
  }

  // ---------------------------------------------------------------- any chain of crashed moves

  /** A move of the file that died before it removed the source. */
  datatype Crash = Crash(partial: string, at: nat)

  ghost predicate Died(runs: seq<Crash>)
  {
    forall i | 0 <= i < |runs| :: runs[i].at <= 8
  }

  ghost function AfterCrashes(w: World, mv: Move, runs: seq<Crash>): World
  {
    if runs == [] then w
    else
      var last := runs[|runs| - 1];
      Moving(AfterCrashes(w, mv, runs[..|runs| - 1]), mv.(partial := last.partial), last.at)
  }

  ghost predicate OthersFound(db: Db, now: Db, mv: Move)
  {
    forall f | f != mv.name :: M.Lookup(now, f, mv.Path()) == M.Lookup(db, f, mv.Path())
  }

  /** Nothing but the one file and its rows has changed, and it only becomes a file
      and never a folder. */
  ghost predicate Kept(w: World, r: World, mv: Move)
  {
    && OnlyTheFile(w, r, mv) && OthersFound(w.db, r.db, mv) && r.sources == w.sources
    && (IsStraggler(w, mv.name) ==> IsStraggler(r, mv.name))
    && (mv.Path() in w.dirs ==> mv.Path() in r.dirs)
    && ((mv.name in DirAt(r, mv.Path()) ==> DirAt(r, mv.Path())[mv.name].File?)
        || (DirAt(r, mv.Path()) == DirAt(w, mv.Path()) && r.db == w.db))
  }

  lemma RelocateKeepsOthers(db: Db, t: Tag, name: string, path: string, downloads: string, f: string)
    requires f != name
    ensures M.Lookup(RelocateTag(db, t, name, path, downloads), f, path) == M.Lookup(db, f, path)
  {
    var now := RelocateTag(db, t, name, path, downloads);
    forall u ensures M.Matches(now, u, f, path) == M.Matches(db, u, f, path) {
      forall k ensures M.Match(now, k, u, f, path) <==> M.Match(db, k, u, f, path) {}
    }
    forall k ensures M.InfoOf(now, k) == M.InfoOf(db, k) {}
  }

  lemma StepFinds(w: World, r: World, mv: Move, straggler: bool, k: nat)
    requires OthersFound(w.db, r.db, mv) && k < 8
    ensures OthersFound(w.db, OneStep(r, mv, straggler, k).db, mv)
  {
    forall f | f != mv.name
      ensures M.Lookup(OneStep(r, mv, straggler, k).db, f, mv.Path()) == M.Lookup(w.db, f, mv.Path())
    {
      StepFindsOne(w, r, mv, straggler, k, f);
    }
  }

  lemma StepFindsOne(w: World, r: World, mv: Move, straggler: bool, k: nat, f: string)
    requires OthersFound(w.db, r.db, mv) && k < 8 && f != mv.name
    ensures M.Lookup(OneStep(r, mv, straggler, k).db, f, mv.Path()) == M.Lookup(w.db, f, mv.Path())
  {
    assert M.Lookup(r.db, f, mv.Path()) == M.Lookup(w.db, f, mv.Path());
    if k == 5 {
      RelocateKeepsOthers(r.db, Read, mv.name, mv.Path(), mv.downloads, f);
    } else if k == 6 {
      RelocateKeepsOthers(r.db, Skimmed, mv.name, mv.Path(), mv.downloads, f);
    } else {
      assert OneStep(r, mv, straggler, k).db == r.db;
    }
  }

  /** What a step does to the directory of the move. */
  lemma StepDir(r: World, mv: Move, straggler: bool, k: nat)
    requires k < 8
    ensures
      var next, dir := OneStep(r, mv, straggler, k), DirAt(r, mv.Path());
      && DirAt(next, mv.Path()) == (if k < 5 then CopyStep(dir, mv, Source(r, mv.name), k) else dir)
      && (mv.Path() in r.dirs ==> mv.Path() in next.dirs)
      && (k < 5 ==> next.db == r.db)
  {
  }

  lemma StepDays(r: World, mv: Move, straggler: bool, k: nat)
    requires k < 8
    ensures OneStep(r, mv, straggler, k).sources == r.sources
    ensures IsStraggler(r, mv.name) ==> IsStraggler(OneStep(r, mv, straggler, k), mv.name)
  {
  }

  lemma StepKeeps(w: World, r: World, mv: Move, straggler: bool, k: nat)
    requires Kept(w, r, mv) && k < 8
    requires k >= 5 ==> mv.name in DirAt(r, mv.Path()) && DirAt(r, mv.Path())[mv.name].File?
    ensures Kept(w, OneStep(r, mv, straggler, k), mv)
  {
    StepTouchesTheFile(w, r, mv, straggler, k);
    StepFinds(w, r, mv, straggler, k);
    StepDir(r, mv, straggler, k);
    StepDays(r, mv, straggler, k);
  }

  lemma {:induction false} ReachedKeeps(w: World, r: World, mv: Move, straggler: bool, k: nat)
    requires Kept(w, r, mv) && k <= 8
    ensures Kept(w, Reached(r, mv, straggler, k), mv)
    ensures k >= 3 ==> var dir := DirAt(Reached(r, mv, straggler, k), mv.Path()); mv.name in dir && dir[mv.name].File?
  {
    if k > 0 {
      ReachedKeeps(w, r, mv, straggler, k - 1);
      StepDir(Reached(r, mv, straggler, k - 1), mv, straggler, k - 1);
      StepKeeps(w, Reached(r, mv, straggler, k - 1), mv, straggler, k - 1);
    }
  }

  lemma KeptFor(w: World, r: World, mv: Move, again: Move)
    requires Kept(w, r, mv) && again == mv.(partial := again.partial)
    ensures Kept(w, r, again)
  {
  }

  lemma {:induction false} CrashesKeep(w: World, mv: Move, runs: seq<Crash>)
    requires Died(runs)
    ensures Kept(w, AfterCrashes(w, mv, runs), mv)
  {
    if runs != [] {
      var init, last := runs[..|runs| - 1], runs[|runs| - 1];
      assert forall i | 0 <= i < |init| :: init[i] == runs[i];
      CrashesKeep(w, mv, init);
      var r, again := AfterCrashes(w, mv, init), mv.(partial := last.partial);
      KeptFor(w, r, mv, again);
      ReachedKeeps(w, r, again, IsStraggler(r, mv.name), last.at);
      KeptFor(w, AfterCrashes(w, mv, runs), again, mv);
    }
  }

  /** The directory and the database at any step up to the unlinking, and just
      after it. */
  lemma KeptIsButForOne(w: World, r: World, mv: Move)
    requires Kept(w, r, mv) && mv.Path() in w.dirs
    ensures mv.Path() in r.dirs
    ensures (r.dirs[mv.Path()] == w.dirs[mv.Path()] && r.db == w.db)
         || ButForOne(w.db, w.dirs[mv.Path()], r.db, r.dirs[mv.Path()], mv.Path(), mv.name)
  {
    assert DirAt(r, mv.Path()) == r.dirs[mv.Path()] && DirAt(w, mv.Path()) == w.dirs[mv.Path()];
  }

  lemma BeforeTheRewrite(w: World, r: World, mv: Move)
    requires Kept(w, r, mv) && IsSnapshotName(mv.name) && mv.Path() in w.dirs
    requires M.SealedBy(w.db, w.dirs[mv.Path()], mv.Path())
    ensures
      var path := mv.Path();
      && path in r.dirs
      && (M.SealedBy(r.db, r.dirs[path], path) || !M.Accepts(r.db, r.dirs[path], path))
      && (mv.name !in w.dirs[path] ==>
            if mv.name in r.dirs[path] then !M.Accepts(r.db, r.dirs[path], path)
            else M.SealedBy(r.db, r.dirs[path], path))
  {
    var path, dir := mv.Path(), w.dirs[mv.Path()];
    KeptIsButForOne(w, r, mv);
    if r.dirs[path] != dir || r.db != w.db {
      RightOrFlagged(w.db, dir, r.db, r.dirs[path], path, mv.name);
      if mv.name !in dir {
        FreshFile(w.db, dir, r.db, r.dirs[path], path, mv.name);
      }
    }
  }

  lemma FreshFile(db: Db, dir: M.Directory, now: Db, later: M.Directory, path: string, name: string)
    requires M.SealedBy(db, dir, path) && ButForOne(db, dir, now, later, path, name)
    requires IsSnapshotName(name) && name !in dir
    ensures if name in later then !M.Accepts(now, later, path) else M.SealedBy(now, later, path)
  {
    NamesDiffer(SwiftBasename(path));
    if name in later {
      UnknownFileIsFlagged(db, dir, now, later, path, name);
    } else {
      forall f ensures IsRowed(db, dir, path, f) <==> IsRowed(now, later, path, f) {
        if f != name {
          ListedAlike(db, dir, now, later, path, name, f);
        }
      }
      SameManifest(db, dir, now, later, path);
    }
  }

  /** The unlinking touches neither the directory nor the rows. */
  lemma Unlinked(w: World, mv: Move)
    ensures Reached(w, mv, true, 9).dirs == Reached(w, mv, true, 8).dirs
    ensures Reached(w, mv, true, 9).db == Reached(w, mv, true, 8).db
  {
    assert Reached(w, mv, true, 9) == OneStep(Reached(w, mv, true, 8), mv, true, 8);
  }

  /** A straggler's move that died any number of times, anywhere before the source
      was removed, and was run again, and again may die at any step: the manifest
      is right for what is there or the check flags the directory, and at the end it
      is right.  For a file that is new to the directory the check flags it exactly
      while a copy is there and the manifest is not complete. */
  lemma NoSilentMismatch(w: World, mv: Move, runs: seq<Crash>, k: nat)
    requires mv.name in w.sources && IsSnapshotName(mv.name) && k <= LAST && Died(runs)
    requires IsStraggler(w, mv.name) && mv.Path() in w.dirs
    requires M.SealedBy(w.db, w.dirs[mv.Path()], mv.Path())
    ensures
      var r, path := Moving(AfterCrashes(w, mv, runs), mv, k), mv.Path();
      && path in r.dirs
      && (M.SealedBy(r.db, r.dirs[path], path) || !M.Accepts(r.db, r.dirs[path], path))
      && (k == LAST ==> M.SealedBy(r.db, r.dirs[path], path))
      && (mv.name !in w.dirs[path] && k < LAST ==>
            if mv.name in r.dirs[path] then !M.Accepts(r.db, r.dirs[path], path)
            else M.SealedBy(r.db, r.dirs[path], path))
  {
    var s, path := AfterCrashes(w, mv, runs), mv.Path();
    CrashesKeep(w, mv, runs);
    NamesDiffer("");
    if k <= 9 {
      var m := if k <= 8 then k else 8;
      ReachedKeeps(w, s, mv, true, m);
      Unlinked(s, mv);
      BeforeTheRewrite(w, Reached(s, mv, true, m), mv);
    } else {
      WhileRewriting(s, mv, k);
    }
  }

  lemma WhileRewriting(s: World, mv: Move, k: nat)
    requires mv.name in s.sources && IsSnapshotName(mv.name) && 10 <= k <= LAST && mv.Path() in s.dirs
    ensures
      var r, path := Reached(s, mv, true, k), mv.Path();
      && path in r.dirs && mv.name in r.dirs[path]
      && if k == LAST then M.SealedBy(r.db, r.dirs[path], path) else !M.Accepts(r.db, r.dirs[path], path)
  {
    var r, path := Reached(s, mv, true, k), mv.Path();
    NamesDiffer("");
    ManifestOnTheWay(s, mv, k);
    SourceAndCopy(s, mv, true, k);
    if k == 10 {
      assert M.IsIssue(r.db, r.dirs[path], path, M.NoManifest);
    } else if k == 11 {
      assert M.IsIssue(r.db, r.dirs[path], path, M.ManifestWritable);
    }
  }

  /** A straggler's whole move is the arrival that sealed directories stay sealed
      under. */
  lemma WholeMove(w: World, mv: Move)
    requires mv.name in w.sources && IsSnapshotName(mv.name) && IsStraggler(w, mv.name) && mv.Path() in w.dirs
    ensures
      var r, path, arrival := Moving(w, mv, LAST), mv.Path(), S.Straggler(mv.name, w.sources[mv.name]);
      && r.sources == w.sources - {mv.name}
      && r.db == S.Database(w.db, path, mv.downloads, arrival)
      && path in r.dirs && r.dirs[path] == S.Contents(w.db, w.dirs[path], path, mv.downloads, arrival)
  {
    NamesDiffer("");
    var nine := OneStep(UpTo8(w, mv), mv, true, 8);
    EightSteps(w, mv, true);
    EndOfTheMove(w, mv);
    Rewritten(nine, mv);
    MovedContents(w, mv, nine);
  }

  lemma MovedContents(w: World, mv: Move, nine: World)
    requires mv.name in w.sources && IsSnapshotName(mv.name) && mv.Path() in w.dirs
    requires nine == OneStep(UpTo8(w, mv), mv, true, 8) && mv.name != MANIFEST
    ensures
      var path, arrival := mv.Path(), S.Straggler(mv.name, w.sources[mv.name]);
      var text := M.File(M.ManifestText(nine.db, DirAt(nine, path), path), true);
      && nine.sources == w.sources - {mv.name} && nine.db == S.Database(w.db, path, mv.downloads, arrival)
      && DirAt(nine, path)[MANIFEST := text] == S.Contents(w.db, w.dirs[path], path, mv.downloads, arrival)
  {
  }

  lemma EndOfTheMove(w: World, mv: Move)
    ensures Reached(w, mv, true, LAST) ==
      OneStep(OneStep(OneStep(OneStep(Reached(w, mv, true, 8), mv, true, 8), mv, true, 9), mv, true, 10), mv, true, 11)
  {
    assert Reached(w, mv, true, 9) == OneStep(Reached(w, mv, true, 8), mv, true, 8);
    assert Reached(w, mv, true, 11) == OneStep(Reached(w, mv, true, 10), mv, true, 10);
    assert Reached(w, mv, true, 10) == OneStep(Reached(w, mv, true, 9), mv, true, 9);
  }

  /** The last three steps write the manifest of what they find. */
  lemma Rewritten(x: World, mv: Move)
    ensures OneStep(OneStep(OneStep(x, mv, true, 9), mv, true, 10), mv, true, 11) ==
      Put(x, mv.Path(), MANIFEST, M.File(M.ManifestText(x.db, DirAt(x, mv.Path()), mv.Path()), true))
  {
    var path := mv.Path();
    var dir := DirAt(x, path);
    var text := M.ManifestText(x.db, dir, path);
    ListedWithout(dir, path, M.File(text, false));
    var ten := Drop(x, path, MANIFEST);
    assert OneStep(x, mv, true, 9) == ten && DirAt(ten, path) == dir - {MANIFEST};
    PutAfterDrop(x, path, MANIFEST, M.File(text, false));
    var eleven := Put(x, path, MANIFEST, M.File(text, false));
    assert OneStep(ten, mv, true, 10) == eleven;
    ListedWith(dir, path, M.File(text, false));
    PutTwice(x, path, MANIFEST, M.File(text, false), M.File(text, true));
  }

  lemma PutAfterDrop(x: World, path: string, f: string, e: M.Entry)
    ensures Put(Drop(x, path, f), path, f, e) == Put(x, path, f, e)
  {
    assert (DirAt(x, path) - {f})[f := e] == DirAt(x, path)[f := e];
  }

  lemma PutTwice(x: World, path: string, f: string, a: M.Entry, b: M.Entry)
    ensures Put(Put(x, path, f, a), path, f, b) == Put(x, path, f, b)
  {
    assert DirAt(x, path)[f := a][f := b] == DirAt(x, path)[f := b];
  }

  lemma ListedWith(dir: M.Directory, path: string, e: M.Entry)
    ensures M.ListedNames(dir[MANIFEST := e], path) == M.ListedNames(dir, path)
  {
  }

  lemma ListedWithout(dir: M.Directory, path: string, e: M.Entry)
    ensures M.ListedNames(dir - {MANIFEST}, path) == M.ListedNames(dir, path)
    ensures M.ListedNames((dir - {MANIFEST})[MANIFEST := e], path) == M.ListedNames(dir, path)
  {
  }
}
