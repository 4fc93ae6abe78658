/** When a sealed directory checks out, and that it stays so. */
module Sealed {
  import opened Text
  import opened Listing
  import opened Names
  import opened Tables
  import opened Replay
  import opened HostLog
  import opened Seqs
  import Rebuild
  import M = Manifest

  // ---------------------------------------------------------------- reading a manifest back

  ghost predicate NoTabs(names: seq<string>)
  {
    forall i | 0 <= i < |names| :: '\t' !in names[i]
  }

  lemma PrintedSnoc(rows: seq<seq<string>>, row: seq<string>)
    requires (forall i | 0 <= i < |rows| :: rows[i] != []) && row != []
    ensures M.Printed(rows + [row]) == M.Printed(rows) + [Join(row, '\t')]
  {
  }

  lemma RowSplits(row: seq<string>)
    requires M.CleanRow(row)
    ensures Split(Join(row, '\t'), '\t') == row
    ensures '\n' !in Join(row, '\t')
  {
    SplitJoin(row, '\t');
    JoinNewline(row);
  }

  /** One more line of a manifest, whatever it is. */
  lemma NextLine(lines: seq<string>, line: string)
    ensures
      var e, f := M.Entries(lines), Split(line, '\t');
      M.Entries(lines + [line]) ==
        if |f| != 5 || f[0] in e then e else e[f[0] := M.Columns(f[1], f[2], f[3], f[4])]
    ensures forall x :: M.RowIssue(lines + [line], x) <==>
        M.RowIssue(lines, x) || M.RowIssueAt(lines + [line], |lines|, x)
  {
    var all := lines + [line];
    assert all[..|all| - 1] == lines;
    M.NextRowIssue(all, |lines|);
    forall x ensures M.RowIssueBefore(all, |lines|, x) <==> M.RowIssue(lines, x) {
      SameRowIssues(lines, all, x);
    }
  }

  lemma NextEntry(lines: seq<string>, row: seq<string>)
    requires M.CleanRow(row)
    ensures
      var e, now := M.Entries(lines), M.Entries(lines + [Join(row, '\t')]);
      now == if row[0] in e then e else e[row[0] := M.Columns(row[1], row[2], row[3], row[4])]
    ensures row[0] !in M.Entries(lines) ==>
              forall x :: M.RowIssue(lines + [Join(row, '\t')], x) <==> M.RowIssue(lines, x)
  {
    RowSplits(row);
    NextLine(lines, Join(row, '\t'));
    assert (lines + [Join(row, '\t')])[..|lines|] == lines;
  }

  lemma SameRowIssues(lines: seq<string>, all: seq<string>, x: M.Issue)
    requires lines <= all
    ensures M.RowIssueBefore(all, |lines|, x) <==> M.RowIssue(lines, x)
  {
    forall i | 0 <= i < |lines| ensures M.RowIssueAt(lines, i, x) <==> M.RowIssueAt(all, i, x) {
      assert all[..i] == lines[..i] && all[i] == lines[i];
    }
    if M.RowIssueBefore(all, |lines|, x) {
      var i :| 0 <= i < |lines| && M.RowIssueAt(all, i, x);
      assert M.RowIssueAt(lines, i, x);
    }
    if M.RowIssue(lines, x) {
      var i :| 0 <= i < |lines| && M.RowIssueAt(lines, i, x);
      assert M.RowIssueAt(all, i, x);
    }
  }

  /** The rows of a list of different names without tabs read back as the names'
      entries, with nothing wrong. */
  lemma {:induction false} RowsReadBack(db: Db, names: seq<string>, path: string)
    requires Ordered(names) && NoTabs(names)
    ensures
      var lines := M.Printed(M.RowsOf(db, names, path));
      && NewlineFree(lines)
      && (forall x :: !M.RowIssue(lines, x))
      && (forall f :: f in M.Entries(lines) <==> f in names && M.HasRow(db, f, path))
      && (forall f | f in M.Entries(lines) :: M.Entries(lines)[f] == M.Expected(M.Lookup(db, f, path).value))
  {
    if names != [] {
      var init, f := names[..|names| - 1], names[|names| - 1];
      assert names == init + [f];
      RowsReadBack(db, init, path);
      assert f !in init by {
        TextLessTotal(f, f);
      }
      if M.HasRow(db, f, path) {
        var row := M.Row(f, M.Lookup(db, f, path).value);
        M.RowIsClean(f, M.Lookup(db, f, path).value);
        assert '\t' !in names[|names| - 1] && Clean(f);
        SanitiseIsClean(f);
        PrintedSnoc(M.RowsOf(db, init, path), row);
        NextEntry(M.Printed(M.RowsOf(db, init, path)), row);
        RowSplits(row);
      }
    }
  }

  lemma {:induction false} TabsCannotBeRead(lines: seq<string>)
    ensures forall f | f in M.Entries(lines) :: '\t' !in f
  {
    if lines != [] {
      TabsCannotBeRead(lines[..|lines| - 1]);
      JoinSplit(lines[|lines| - 1], '\t');
    }
  }

  // ---------------------------------------------------------------- what is accepted

  ghost predicate NoStray(dir: M.Directory, path: string)
  {
    forall f | M.IsListed(dir, path, f) :: IsSnapshotName(f)
  }

  ghost predicate NoOrphan(db: Db, dir: M.Directory, path: string)
  {
    forall f | M.OnDisk(dir, path, f) :: M.Lookup(db, f, path).Some?
  }

  predicate LogInPlace(dir: M.Directory, path: string)
  {
    match M.ExpectedLog(path)
    case None => true
    case Some(log) => log in dir && dir[log].File? && dir[log].readOnly
  }

  ghost predicate NoTabNames(dir: M.Directory, path: string)
  {
    forall f | M.OnDisk(dir, path, f) :: '\t' !in f
  }

  lemma HeaderReads()
    ensures '\n' !in Join(M.HEADER, '\t')
  {
    JoinNewline(M.HEADER);
    assert forall p | p in M.HEADER :: '\n' !in p;
  }

  /** The rows of a manifest that was just written. */
  ghost function Written(db: Db, dir: M.Directory, path: string): seq<string>
  {
    var names := SortedNames(M.ListedNames(dir, path));
    M.Printed(M.RowsOf(db, names, path))
  }

  lemma SealedReads(db: Db, dir: M.Directory, path: string)
    requires M.SealedBy(db, dir, path)
    ensures M.Readable(dir) && M.ManifestLines(dir)[1..] == Written(db, dir, path)
    ensures forall x :: !M.ManifestIssue(dir, x)
  {
    var rows := Written(db, dir, path);
    HeaderReads();
    assert NewlineFree([Join(M.HEADER, '\t')] + rows) by {
      WrittenNewlineFree(db, SortedNames(M.ListedNames(dir, path)), path);
    }
    LinesUnlines([Join(M.HEADER, '\t')] + rows);
  }

  lemma WrittenNewlineFree(db: Db, names: seq<string>, path: string)
    ensures NewlineFree(M.Printed(M.RowsOf(db, names, path)))
  {
    var rows := M.RowsOf(db, names, path);
    forall l | l in M.Printed(rows) ensures '\n' !in l {
      var i :| 0 <= i < |rows| && M.Printed(rows)[i] == l;
      RowSplits(rows[i]);
    }
  }

  /** The entries are those of the files that have rows. */
  ghost predicate EntriesRight(db: Db, dir: M.Directory, path: string, entries: map<string, M.Columns>)
  {
    && (forall f :: f in entries <==> M.IsListed(dir, path, f) && M.HasRow(db, f, path))
    && (forall f | f in entries :: entries[f] == M.Expected(M.Lookup(db, f, path).value))
  }

  lemma FilesInOrder(db: Db, dir: M.Directory, path: string, entries: map<string, M.Columns>)
    requires EntriesRight(db, dir, path, entries) && NoStray(dir, path) && NoOrphan(db, dir, path)
    ensures forall x :: !M.FileIssue(db, dir, path, entries, x)
  {
  }

  lemma ValidWhenInOrder(db: Db, dir: M.Directory, path: string)
    requires M.SealedBy(db, dir, path)
    requires NoStray(dir, path) && NoOrphan(db, dir, path) && LogInPlace(dir, path) && NoTabNames(dir, path)
    ensures M.Accepts(db, dir, path)
  {
    var names := SortedNames(M.ListedNames(dir, path));
    SealedReads(db, dir, path);
    assert NoTabs(names) by {
      forall i | 0 <= i < |names| ensures '\t' !in names[i] {
        assert names[i] in names;
      }
    }
    RowsReadBack(db, names, path);
    var entries := M.Entries(M.ManifestLines(dir)[1..]);
    assert EntriesRight(db, dir, path, entries);
    FilesInOrder(db, dir, path, entries);
    forall x ensures !M.IsIssue(db, dir, path, x) {
      assert !M.RowIssue(M.ManifestLines(dir)[1..], x);
      assert !M.LogIssue(dir, path, x);
    }
  }

  lemma NoFileIssue(db: Db, dir: M.Directory, path: string, entries: map<string, M.Columns>)
    requires forall x :: !M.FileIssue(db, dir, path, entries, x)
    ensures NoStray(dir, path) && NoOrphan(db, dir, path)
    ensures forall f | M.OnDisk(dir, path, f) :: f in entries
  {
    forall f | M.IsListed(dir, path, f) ensures IsSnapshotName(f) {
      assert !M.FileIssue(db, dir, path, entries, M.NonConforming(f));
    }
    forall f | M.OnDisk(dir, path, f) ensures f in entries && M.Lookup(db, f, path).Some? {
      assert !M.FileIssue(db, dir, path, entries, M.NotListed(f));
      assert !M.FileIssue(db, dir, path, entries, M.NoEventRow(f));
    }
  }

  lemma NoLogIssue(dir: M.Directory, path: string)
    requires forall x :: !M.LogIssue(dir, path, x)
    ensures LogInPlace(dir, path)
  {
    assert !M.LogIssue(dir, path, M.LogMissing);
    assert !M.LogIssue(dir, path, M.LogNotAFile);
    assert !M.LogIssue(dir, path, M.LogWritable);
  }

  lemma AcceptedParts(db: Db, dir: M.Directory, path: string)
    requires M.Accepts(db, dir, path) && M.Readable(dir)
    ensures forall x :: !M.FileIssue(db, dir, path, M.Entries(M.ManifestLines(dir)[1..]), x)
    ensures forall x :: !M.LogIssue(dir, path, x)
    ensures forall x :: !M.RowIssue(M.ManifestLines(dir)[1..], x)
  {
    forall x
      ensures !M.FileIssue(db, dir, path, M.Entries(M.ManifestLines(dir)[1..]), x)
      ensures !M.LogIssue(dir, path, x)
      ensures !M.RowIssue(M.ManifestLines(dir)[1..], x)
    {
      assert !M.IsIssue(db, dir, path, x);
    }
  }

  lemma InOrderWhenValid(db: Db, dir: M.Directory, path: string)
    requires M.SealedBy(db, dir, path) && M.Accepts(db, dir, path)
    ensures NoStray(dir, path) && NoOrphan(db, dir, path) && LogInPlace(dir, path) && NoTabNames(dir, path)
  {
    SealedReads(db, dir, path);
    TabsCannotBeRead(M.ManifestLines(dir)[1..]);
    AcceptedParts(db, dir, path);
    NoFileIssue(db, dir, path, M.Entries(M.ManifestLines(dir)[1..]));
    NoLogIssue(dir, path);
  }

  /** A directory with its own manifest checks out exactly if it holds no stray
      file, no orphan and no name with a tab, and its log is there, read-only. */
  lemma SealedIsValidExactly(db: Db, dir: M.Directory, path: string)
    requires M.SealedBy(db, dir, path)
    ensures M.Accepts(db, dir, path) <==>
      (NoStray(dir, path) && NoOrphan(db, dir, path) && LogInPlace(dir, path) && NoTabNames(dir, path))
  {
    if M.Accepts(db, dir, path) {
      InOrderWhenValid(db, dir, path);
    }
    if NoStray(dir, path) && NoOrphan(db, dir, path) && LogInPlace(dir, path) && NoTabNames(dir, path) {
      ValidWhenInOrder(db, dir, path);
    }
  }

  // ---------------------------------------------------------------- what the check overlooks

  lemma LogIsNotManifest(path: string)
    ensures M.ExpectedLog(path) != Some(MANIFEST)
  {
    var base := SwiftBasename(path);
    assert LogName(base)[0] == 'b' && MANIFEST[0] == 'M';
  }

  /** The manifest with one more line. */
  function WithLine(dir: M.Directory, line: string): M.Directory
    requires M.Readable(dir)
  {
    dir[MANIFEST := M.File(Unlines(M.ManifestLines(dir) + [line]), true)]
  }

  lemma LinesAreLines(content: string)
    ensures NewlineFree(Lines(content))
  {
    JoinSplit(content, '\n');
  }

  lemma WithLineReads(dir: M.Directory, line: string)
    requires M.Readable(dir) && '\n' !in line
    ensures M.Readable(WithLine(dir, line))
    ensures M.ManifestLines(WithLine(dir, line))[1..] == M.ManifestLines(dir)[1..] + [line]
    ensures forall x :: !M.ManifestIssue(WithLine(dir, line), x)
  {
    var all := M.ManifestLines(dir) + [line];
    LinesAreLines(dir[MANIFEST].text);
    LinesUnlines(all);
    assert M.ManifestLines(WithLine(dir, line)) == all;
    ReadableIsInOrder(WithLine(dir, line));
  }

  lemma ReadableIsInOrder(dir: M.Directory)
    requires M.Readable(dir) && dir[MANIFEST].readOnly
    ensures forall x :: !M.ManifestIssue(dir, x)
  {
  }

  lemma SameLog(dir: M.Directory, line: string, path: string)
    requires M.Readable(dir)
    ensures forall x :: M.LogIssue(WithLine(dir, line), path, x) <==> M.LogIssue(dir, path, x)
  {
    LogIsNotManifest(path);
  }

  /** A row that changes nothing the check looks at. */
  ghost predicate Overlooked(dir: M.Directory, line: string)
    requires M.Readable(dir)
  {
    var f := Split(line, '\t');
    |f| == 5 && f[0] !in M.Entries(M.ManifestLines(dir)[1..]) && !IsSnapshotName(f[0])
  }

  /** When a directory that checks out still does so with one more line in its
      manifest: exactly if the line has five columns and names, for the first time,
      a file whose name is not a snapshot's; such a file need never have existed. */
  lemma ForeignRowIsAccepted(db: Db, dir: M.Directory, path: string, line: string)
    requires M.Accepts(db, dir, path) && M.Readable(dir) && '\n' !in line
    ensures M.Accepts(db, WithLine(dir, line), path) <==> Overlooked(dir, line)
  {
    WithLineReads(dir, line);
    SameLog(dir, line, path);
    NextLine(M.ManifestLines(dir)[1..], line);
    AcceptedParts(db, dir, path);
    if Overlooked(dir, line) {
      ForeignRowPasses(db, dir, path, line);
    } else {
      OtherRowsAreFound(db, dir, path, line);
    }
  }

  lemma ForeignRowPasses(db: Db, dir: M.Directory, path: string, line: string)
    requires M.Accepts(db, dir, path) && M.Readable(dir) && '\n' !in line && Overlooked(dir, line)
    ensures M.Accepts(db, WithLine(dir, line), path)
  {
    var lines, more, name := M.ManifestLines(dir)[1..], WithLine(dir, line), Split(line, '\t')[0];
    WithLineReads(dir, line);
    SameLog(dir, line, path);
    NextLine(lines, line);
    AcceptedParts(db, dir, path);
    assert (lines + [line])[..|lines|] == lines;
    assert !M.IsListed(dir, path, name) by {
      assert !M.FileIssue(db, dir, path, M.Entries(lines), M.NonConforming(name));
    }
    ForeignFiles(db, dir, more, path, M.Entries(lines), M.Entries(lines + [line]));
  }

  lemma OtherRowsAreFound(db: Db, dir: M.Directory, path: string, line: string)
    requires M.Accepts(db, dir, path) && M.Readable(dir) && '\n' !in line && !Overlooked(dir, line)
    ensures !M.Accepts(db, WithLine(dir, line), path)
  {
    var lines, f := M.ManifestLines(dir)[1..], Split(line, '\t');
    if |f| == 5 && f[0] !in M.Entries(lines) {
      GoneFileIsFound(db, dir, path, line);
    } else {
      BadRowIsFound(db, dir, path, line);
    }
  }

  lemma BadRowIsFound(db: Db, dir: M.Directory, path: string, line: string)
    requires M.Readable(dir) && '\n' !in line
    requires var f := Split(line, '\t'); |f| != 5 || f[0] in M.Entries(M.ManifestLines(dir)[1..])
    ensures !M.Accepts(db, WithLine(dir, line), path)
  {
    var lines, more, f := M.ManifestLines(dir)[1..], WithLine(dir, line), Split(line, '\t');
    WithLineReads(dir, line);
    NextLine(lines, line);
    Snoc(lines, line);
    var issue := if |f| != 5 then M.WrongColumns(|lines| + 2) else M.DuplicateName(|lines| + 2, f[0]);
    assert M.RowIssueAt(lines + [line], |lines|, issue);
    assert M.IsIssue(db, more, path, issue);
  }

  lemma GoneFileIsFound(db: Db, dir: M.Directory, path: string, line: string)
    requires M.Accepts(db, dir, path) && M.Readable(dir) && '\n' !in line && !Overlooked(dir, line)
    requires var f := Split(line, '\t'); |f| == 5 && f[0] !in M.Entries(M.ManifestLines(dir)[1..])
    ensures !M.Accepts(db, WithLine(dir, line), path)
  {
    var lines, more, f := M.ManifestLines(dir)[1..], WithLine(dir, line), Split(line, '\t');
    NotThere(db, dir, path, f[0]);
    WithLineReads(dir, line);
    NextLine(lines, line);
    assert M.FileIssue(db, more, path, M.Entries(lines + [line]), M.ListedButGone(f[0]));
    assert M.IsIssue(db, more, path, M.ListedButGone(f[0]));
  }

  lemma NotThere(db: Db, dir: M.Directory, path: string, f: string)
    requires M.Accepts(db, dir, path) && M.Readable(dir) && f !in M.Entries(M.ManifestLines(dir)[1..])
    ensures !M.OnDisk(dir, path, f)
  {
    hide M.Entries, M.ManifestLines, M.Accepts, M.RowIssue, M.LogIssue, M.OnDisk;
    AcceptedParts(db, dir, path);
    assert !M.FileIssue(db, dir, path, M.Entries(M.ManifestLines(dir)[1..]), M.NotListed(f));
  }

  lemma ForeignFiles(db: Db, dir: M.Directory, more: M.Directory, path: string,
                     entries: map<string, M.Columns>, all: map<string, M.Columns>)
    requires forall x :: !M.FileIssue(db, dir, path, entries, x)
    requires forall f :: f in dir <==> f in more
    requires forall f :: f in dir && f != MANIFEST ==> more[f] == dir[f]
    requires forall f | f in entries :: f in all && all[f] == entries[f]
    requires forall f | f in all && f !in entries :: !IsSnapshotName(f) && !M.IsListed(dir, path, f)
    ensures forall x :: !M.FileIssue(db, more, path, all, x)
  {
    forall f ensures M.IsListed(more, path, f) <==> M.IsListed(dir, path, f) {}
    forall x ensures !M.FileIssue(db, more, path, all, x) {
      assert !M.FileIssue(db, dir, path, entries, x);
    }
  }

  // ---------------------------------------------------------------- what keeps a manifest right

  /** Nothing about the directory's rows has changed. */
  ghost predicate SameRows(db: Db, now: Db, path: string)
  {
    && (forall k :: k in now.events && now.events[k].directory == path ==>
      k in db.events && db.events[k] == now.events[k])
    && (forall k :: k in db.events && db.events[k].directory == path ==>
          k in now.events && db.events[k] == now.events[k] && M.InfoOf(db, k) == M.InfoOf(now, k))
  }

  lemma LookupKept(db: Db, now: Db, name: string, path: string)
    requires SameRows(db, now, path)
    ensures M.Lookup(now, name, path) == M.Lookup(db, name, path)
  {
    forall t ensures M.Matches(db, t, name, path) == M.Matches(now, t, name, path) {
      forall k ensures M.Match(db, k, t, name, path) <==> M.Match(now, k, t, name, path) {}
    }
    assert forall t :: M.Matches(db, t, name, path) != {} ==>
             M.First(M.Matches(db, t, name, path)) in M.Matches(db, t, name, path);
  }

  lemma {:induction false} RowsKept(db: Db, now: Db, names: seq<string>, path: string)
    requires SameRows(db, now, path)
    ensures M.RowsOf(now, names, path) == M.RowsOf(db, names, path)
  {
    if names != [] {
      LookupKept(db, now, names[|names| - 1], path);
      RowsKept(db, now, names[..|names| - 1], path);
    }
  }

  lemma ManifestKept(db: Db, now: Db, dir: M.Directory, later: M.Directory, path: string)
    requires SameRows(db, now, path)
    requires M.ListedNames(dir, path) == M.ListedNames(later, path)
    ensures M.ManifestText(now, later, path) == M.ManifestText(db, dir, path)
  {
    RowsKept(db, now, SortedNames(M.ListedNames(dir, path)), path);
  }

  /** A host's write touches no row of the directory and no title. */
  lemma OneWriteKeepsRows(db: Db, op: Op, path: string)
    requires forall k | k in db.events && db.events[k].directory == path :: k.url in db.visits
    requires op.AddEvent? ==> op.row.directory != path
    ensures SameRows(db, RunOp(db, op), path)
    ensures forall k | k in RunOp(db, op).events && RunOp(db, op).events[k].directory == path ::
              k.url in RunOp(db, op).visits
  {
  }

  lemma SameRowsTrans(db: Db, mid: Db, now: Db, path: string)
    requires SameRows(db, mid, path) && SameRows(mid, now, path)
    ensures SameRows(db, now, path)
  {
  }

  lemma {:induction false} WritesKeepRows(db: Db, ops: seq<Op>, path: string)
    requires forall k | k in db.events && db.events[k].directory == path :: k.url in db.visits
    requires forall op | op in ops && op.AddEvent? :: op.row.directory != path
    ensures SameRows(db, RunOps(db, ops), path)
    decreases |ops|
  {
    if ops != [] {
      var next := RunOp(db, ops[0]);
      assert ops[0] in ops;
      OneWriteKeepsRows(db, ops[0], path);
      WritesKeepRows(next, ops[1..], path);
      SameRowsTrans(db, next, RunOps(next, ops[1..]), path);
    }
  }

  // ---------------------------------------------------------------- later steps

  datatype Later =
    | HostWrite(m: Message, alsoOfInterest: bool)
    | OtherDay(name: string, other: string)
    | LogMerged(text: string)
    | Straggler(name: string, text: string)

  ghost predicate Enabled(db: Db, dir: M.Directory, path: string, downloads: string, s: Later)
  {
    match s
    case HostWrite(_, _) => true
    case OtherDay(_, other) => other != path
    case LogMerged(_) => M.ExpectedLog(path).Some? && M.ExpectedLog(path).value in dir
    case Straggler(name, _) => IsSnapshotName(name)
  }

  /** The directory with its manifest written anew. */
  ghost function WithManifest(db: Db, dir: M.Directory, path: string): M.Directory
  {
    dir[MANIFEST := M.File(M.ManifestText(db, dir, path), true)]
  }

  ghost function Database(db: Db, path: string, downloads: string, s: Later): Db
  {
    match s
    case HostWrite(m, also) => RunOps(db, HostOps(m, also, downloads))
    case OtherDay(name, other) => Rebuild.RelocateRows(db, name, other, downloads)
    case LogMerged(_) => db
    case Straggler(name, _) => Rebuild.RelocateRows(db, name, path, downloads)
  }

  ghost function Contents(db: Db, dir: M.Directory, path: string, downloads: string, s: Later): M.Directory
  {
    match s
    case LogMerged(text) => dir[M.ExpectedLog(path).GetOr("") := M.File(text, true)]
    case Straggler(name, text) =>
      WithManifest(Database(db, path, downloads, s), dir[name := M.File(text, true)], path)
    case _ => dir
  }

  /** What sealed directories keep. */
  ghost predicate StaysSealed(db: Db, dir: M.Directory, path: string, downloads: string)
  {
    && M.SealedBy(db, dir, path) && path != downloads
    && forall k | k in db.events :: k.url in db.visits
  }

  lemma WithManifestIsSealed(db: Db, dir: M.Directory, path: string)
    ensures M.SealedBy(db, WithManifest(db, dir, path), path)
  {
    var now := WithManifest(db, dir, path);
    assert M.ListedNames(now, path) == M.ListedNames(dir, path);
  }

  lemma {:induction false} EventsKeepVisits(db: Db, ops: seq<Op>)
    requires forall k | k in db.events :: k.url in db.visits
    requires Guarded(db.visits.Keys, ops)
    ensures forall k | k in RunOps(db, ops).events :: k.url in RunOps(db, ops).visits
    decreases |ops|
  {
    if ops != [] {
      StepFacts(db, ops[0]);
      EventsKeepVisits(RunOp(db, ops[0]), ops[1..]);
    }
  }

  /** Host writes, archiving of other days, merges into the day's log and whole
      straggler arrivals leave the directory with a right manifest. */
  lemma LaterStepKeeps(db: Db, dir: M.Directory, path: string, downloads: string, s: Later)
    requires StaysSealed(db, dir, path, downloads) && Enabled(db, dir, path, downloads, s)
    ensures StaysSealed(Database(db, path, downloads, s), Contents(db, dir, path, downloads, s), path, downloads)
  {
    match s
    case HostWrite(m, also) => HostWriteKeeps(db, dir, path, downloads, m, also);
    case OtherDay(name, other) =>
      var now := Database(db, path, downloads, s);
      assert SameRows(db, now, path);
      ManifestKept(db, now, dir, dir, path);
    case LogMerged(text) => LogMergedKeeps(db, dir, path, downloads, text);
    case Straggler(name, text) =>
      WithManifestIsSealed(Database(db, path, downloads, s), dir[name := M.File(text, true)], path);
  }

  lemma HostWriteKeeps(db: Db, dir: M.Directory, path: string, downloads: string, m: Message, also: bool)
    requires StaysSealed(db, dir, path, downloads)
    ensures StaysSealed(Database(db, path, downloads, HostWrite(m, also)), dir, path, downloads)
  {
    HostOpsGuarded(m, also, downloads, db.visits.Keys);
    EventsKeepVisits(db, HostOps(m, also, downloads));
    WritesKeepRows(db, HostOps(m, also, downloads), path);
    ManifestKept(db, Database(db, path, downloads, HostWrite(m, also)), dir, dir, path);
  }

  lemma LogMergedKeeps(db: Db, dir: M.Directory, path: string, downloads: string, text: string)
    requires StaysSealed(db, dir, path, downloads) && Enabled(db, dir, path, downloads, LogMerged(text))
    ensures StaysSealed(db, Contents(db, dir, path, downloads, LogMerged(text)), path, downloads)
  {
    var later := Contents(db, dir, path, downloads, LogMerged(text));
    NamesDiffer(path);
    LogIsNotManifest(path);
    assert M.ListedNames(later, path) == M.ListedNames(dir, path);
    ManifestKept(db, db, dir, later, path);
  }

  ghost predicate IsLater(dbs: seq<Db>, dirs: seq<M.Directory>, steps: seq<Later>, path: string, downloads: string)
  {
    && |dbs| == |dirs| == |steps| + 1
    && forall i | 0 <= i < |steps| ::
         && Enabled(dbs[i], dirs[i], path, downloads, steps[i])
         && dbs[i + 1] == Database(dbs[i], path, downloads, steps[i])
         && dirs[i + 1] == Contents(dbs[i], dirs[i], path, downloads, steps[i])
  }

  /** At every later time the check says exactly whether the directory is in order. */
  lemma {:induction false} SealedForGood(dbs: seq<Db>, dirs: seq<M.Directory>, steps: seq<Later>, path: string,
                                         downloads: string, i: nat)
    requires IsLater(dbs, dirs, steps, path, downloads) && i < |dbs|
    requires StaysSealed(dbs[0], dirs[0], path, downloads)
    ensures StaysSealed(dbs[i], dirs[i], path, downloads)
    ensures M.Accepts(dbs[i], dirs[i], path) <==>
      (NoStray(dirs[i], path) && NoOrphan(dbs[i], dirs[i], path) && LogInPlace(dirs[i], path)
        && NoTabNames(dirs[i], path))
  {
    if i > 0 {
      SealedForGood(dbs, dirs, steps, path, downloads, i - 1);
      LaterStepKeeps(dbs[i - 1], dirs[i - 1], path, downloads, steps[i - 1]);
    }
    SealedIsValidExactly(dbs[i], dirs[i], path);
  }
}
