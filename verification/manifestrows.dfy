/** What a manifest says, in the columns of the event and visits tables, and when
    the check calls a row wrong. */
module ManifestRows {
  import opened Text
  import opened Listing
  import opened Names
  import opened Tables
  import opened Replay
  import M = Manifest
  import S = Sealed

  // ---------------------------------------------------------------- the row of a file

  /** The event row that is found for a file: one of the read table if it has one,
      and of several the first by primary key. */
  ghost predicate Found(db: Db, name: string, path: string, k: EventKey)
  {
    && k in db.events && db.events[k].filename == name && db.events[k].directory == path
    && forall j | j in db.events && j != k && db.events[j].filename == name && db.events[j].directory == path ::
         if j.tag == k.tag then M.KeyLess(k, j) else k.tag == Read
  }

  /** The title of the url's visits row, or nothing if there is none. */
  function TitleOf(db: Db, k: EventKey): string
  {
    if k.url in db.visits then db.visits[k.url].title else ""
  }

  /** The columns after the name. */
  predicate Shows(f: seq<string>, db: Db, k: EventKey)
  {
    && |f| == 5 && f[1] == (if k.tag == Read then "read" else "skimmed")
    && f[2] == Sanitise(k.timestamp) && f[3] == Sanitise(k.url) && f[4] == Sanitise(TitleOf(db, k))
  }

  lemma {:induction false} HasFirst(keys: set<EventKey>, t: Tag) returns (k: EventKey)
    requires keys != {} && forall j | j in keys :: j.tag == t
    ensures M.IsFirst(keys, k)
    decreases |keys|
  {
    var one :| one in keys;
    var rest := keys - {one};
    assert forall i | i in keys :: i == one || i in rest;
    if rest == {} {
      k := one;
    } else {
      var j := HasFirst(rest, t);
      M.KeysAreOrdered(one, j, j);
      k := if M.KeyLess(j, one) then j else one;
      forall i | i in keys && i != k ensures M.KeyLess(k, i) {
        M.KeysAreOrdered(one, j, i);
      }
    }
  }

  lemma FirstIs(keys: set<EventKey>, t: Tag)
    requires keys != {} && forall j | j in keys :: j.tag == t
    ensures M.IsFirst(keys, M.First(keys))
  {
    var k := HasFirst(keys, t);
    M.OneFirst(keys, k);
  }

  lemma FoundIsFirst(db: Db, name: string, path: string, t: Tag, k: EventKey)
    requires M.IsFirst(M.Matches(db, t, name, path), k) && (t == Read || M.Matches(db, Read, name, path) == {})
    ensures Found(db, name, path, k) && k.tag == t
  {
    forall j | j in db.events && j != k && db.events[j].filename == name && db.events[j].directory == path
      ensures if j.tag == k.tag then M.KeyLess(k, j) else k.tag == Read
    {
      assert db.events[j] == Event(name, path) && j in M.Matches(db, j.tag, name, path);
    }
  }

  /** The lookup gives the columns of the row that is found, and fails exactly if
      there is no row of the file. */
  lemma LookupFinds(db: Db, name: string, path: string)
    ensures
      match M.Lookup(db, name, path)
      case None => forall k :: !Found(db, name, path, k)
      case Some(info) =>
        exists k :: && Found(db, name, path, k) && info.tag == k.tag && info.timestamp == k.timestamp
                    && info.url == k.url && info.title == TitleOf(db, k)
  {
    var read, skimmed := M.Matches(db, Read, name, path), M.Matches(db, Skimmed, name, path);
    if read != {} {
      FirstIs(read, Read);
      FoundIsFirst(db, name, path, Read, M.First(read));
    } else if skimmed != {} {
      FirstIs(skimmed, Skimmed);
      FoundIsFirst(db, name, path, Skimmed, M.First(skimmed));
    } else {
      forall k ensures !Found(db, name, path, k) {
        assert k !in read && k !in skimmed;
      }
    }
  }

  lemma FoundOnce(db: Db, name: string, path: string, j: EventKey, k: EventKey)
    requires Found(db, name, path, j) && Found(db, name, path, k)
    ensures j == k
  {
    TextLessTotal(j.url, k.url);
    TextLessTotal(j.timestamp, k.timestamp);
  }

  /** A printed row shows the row found for the file. */
  lemma RowShows(db: Db, name: string, path: string)
    requires M.Lookup(db, name, path).Some?
    ensures exists k :: Found(db, name, path, k) && Shows(M.Row(name, M.Lookup(db, name, path).value), db, k)
    ensures M.Row(name, M.Lookup(db, name, path).value)[0] == Sanitise(name)
  {
    hide Sanitise;
    LookupFinds(db, name, path);
    var info := M.Lookup(db, name, path).value;
    var k :| && Found(db, name, path, k) && info.tag == k.tag && info.timestamp == k.timestamp
             && info.url == k.url && info.title == TitleOf(db, k);
    assert Shows(M.Row(name, info), db, k);
  }

  // ---------------------------------------------------------------- what a sealed directory's manifest says

  /** A snapshot in the directory. */
  predicate Snapshot(dir: M.Directory, name: string)
  {
    name in dir && dir[name].File? && IsSnapshotName(name)
  }

  /** No snapshot is taken for the manifest, the day's log or Finder's file. */
  lemma SnapshotIsOnDisk(dir: M.Directory, path: string, name: string)
    ensures Snapshot(dir, name) <==> M.IsListed(dir, path, name) && IsSnapshotName(name)
  {
    NamesDiffer(SwiftBasename(path));
  }

  /** The line is the row of the file. */
  ghost predicate Tells(line: string, db: Db, path: string, name: string)
  {
    var f := Split(line, '\t');
    f[0] == Sanitise(name) && exists k :: Found(db, name, path, k) && Shows(f, db, k)
  }

  /** The line is the row of one of these files. */
  ghost predicate IsRowOf(line: string, db: Db, path: string, names: set<string>)
  {
    exists name :: name in names && Tells(line, db, path, name)
  }

  /** One of the lines is the row of the file. */
  ghost predicate HasLine(lines: seq<string>, db: Db, path: string, name: string)
  {
    exists i :: 0 <= i < |lines| && Tells(lines[i], db, path, name)
  }

  /** Each line is the row of one of these files, and each of them that has an event
      row has a line. */
  ghost predicate TellAll(lines: seq<string>, db: Db, path: string, names: set<string>)
  {
    && (forall i | 0 <= i < |lines| :: IsRowOf(lines[i], db, path, names))
    && (forall name, k | name in names && Found(db, name, path, k) :: HasLine(lines, db, path, name))
  }

  function Snapshots(dir: M.Directory): set<string>
  {
    set name | name in dir && Snapshot(dir, name)
  }

  /** A header, then a row for each snapshot that has an event row, and no other. */
  ghost predicate Truthful(db: Db, dir: M.Directory, path: string)
  {
    && MANIFEST in dir && dir[MANIFEST].File?
    && var lines := Lines(dir[MANIFEST].text);
    && lines != [] && Split(lines[0], '\t') == ["filename", "tag", "timestamp", "url", "title"]
    && TellAll(lines[1..], db, path, Snapshots(dir))
  }

  lemma HeaderIs()
    ensures Split(Join(M.HEADER, '\t'), '\t') == ["filename", "tag", "timestamp", "url", "title"]
  {
    SplitJoin(M.HEADER, '\t');
  }

  lemma RowTells(db: Db, name: string, path: string)
    requires M.Lookup(db, name, path).Some?
    ensures Tells(Join(M.Row(name, M.Lookup(db, name, path).value), '\t'), db, path, name)
  {
    var row := M.Row(name, M.Lookup(db, name, path).value);
    M.RowIsClean(name, M.Lookup(db, name, path).value);
    S.RowSplits(row);
    RowShows(db, name, path);
  }

  function OfSnapshots(names: seq<string>): set<string>
  {
    set name | name in names && IsSnapshotName(name)
  }

  /** The lines of the rows of some files, in order. */
  lemma {:induction false} RowsTell(db: Db, names: seq<string>, path: string)
    ensures TellAll(M.Printed(M.RowsOf(db, names, path)), db, path, OfSnapshots(names))
  {
    hide Tells, Found, TellAll;
    if names == [] {
      NothingTold(db, path);
    } else {
      var init, f := names[..|names| - 1], names[|names| - 1];
      assert names == init + [f];
      RowsTell(db, init, path);
      LookupFinds(db, f, path);
      var lines := M.Printed(M.RowsOf(db, init, path));
      if M.HasRow(db, f, path) {
        RowTells(db, f, path);
        S.PrintedSnoc(M.RowsOf(db, init, path), M.Row(f, M.Lookup(db, f, path).value));
        assert OfSnapshots(names) == OfSnapshots(init) + {f};
        OneMoreTold(db, path, lines, OfSnapshots(init), f, Join(M.Row(f, M.Lookup(db, f, path).value), '\t'));
      } else if IsSnapshotName(f) {
        assert OfSnapshots(names) == OfSnapshots(init) + {f};
        OneWithoutRow(db, path, lines, OfSnapshots(init), f);
      } else {
        assert OfSnapshots(names) == OfSnapshots(init);
      }
    }
  }

  lemma NothingTold(db: Db, path: string)
    ensures TellAll([], db, path, OfSnapshots([]))
  {
  }

  lemma OneMoreTold(db: Db, path: string, lines: seq<string>, names: set<string>, f: string, line: string)
    requires TellAll(lines, db, path, names) && Tells(line, db, path, f)
    ensures TellAll(lines + [line], db, path, names + {f})
  {
    hide Tells, Found;
    var all := lines + [line];
    forall i | 0 <= i < |all| ensures IsRowOf(all[i], db, path, names + {f}) {
      if i < |lines| {
        assert IsRowOf(lines[i], db, path, names);
        var name :| name in names && Tells(lines[i], db, path, name);
        assert name in names + {f};
      } else {
        assert f in names + {f};
      }
    }
    forall name, k | name in names + {f} && Found(db, name, path, k) ensures HasLine(all, db, path, name) {
      if name in names {
        assert HasLine(lines, db, path, name);
        var i :| 0 <= i < |lines| && Tells(lines[i], db, path, name);
        assert all[i] == lines[i];
      } else {
        assert all[|lines|] == line;
      }
    }
  }

  lemma OneWithoutRow(db: Db, path: string, lines: seq<string>, names: set<string>, f: string)
    requires TellAll(lines, db, path, names) && forall k :: !Found(db, f, path, k)
    ensures TellAll(lines, db, path, names + {f})
  {
    hide Tells, Found;
    forall i | 0 <= i < |lines| ensures IsRowOf(lines[i], db, path, names + {f}) {
      assert IsRowOf(lines[i], db, path, names);
      var name :| name in names && Tells(lines[i], db, path, name);
      assert name in names + {f};
    }
  }

  /** The manifest that sealing writes is truthful. */
  lemma SealedIsTruthful(db: Db, dir: M.Directory, path: string)
    requires M.SealedBy(db, dir, path)
    ensures Truthful(db, dir, path)
  {
    hide TellAll;
    var names := SortedNames(M.ListedNames(dir, path));
    S.SealedReads(db, dir, path);
    HeaderIs();
    RowsTell(db, names, path);
    forall name ensures name in OfSnapshots(names) <==> name in Snapshots(dir) {
      SnapshotIsOnDisk(dir, path, name);
    }
    assert OfSnapshots(names) == Snapshots(dir);
  }

  // ---------------------------------------------------------------- when the check calls a row wrong

  /** The first row of a name: of those with five columns. */
  ghost predicate Heads(lines: seq<string>, i: nat, name: string)
  {
    i < |lines| && IsRowNamed(lines[i], name) && forall j | 0 <= j < i :: !IsRowNamed(lines[j], name)
  }

  lemma {:induction false} EntryHeads(lines: seq<string>, name: string)
    ensures name in M.Entries(lines) <==> exists i: nat :: Heads(lines, i, name)
    ensures forall i: nat | Heads(lines, i, name) ::
              name in M.Entries(lines) && IsEntry(M.Entries(lines)[name], lines[i])
  {
    hide Split;
    if lines != [] {
      var n := |lines| - 1;
      var init := lines[..n];
      EntryHeads(init, name);
      forall i: nat | i < n ensures Heads(lines, i, name) <==> Heads(init, i, name) {
        assert forall j | 0 <= j <= i :: init[j] == lines[j];
      }
      LastHeads(lines, name);
      if name in M.Entries(init) {
        var i: nat :| Heads(init, i, name);
        assert Heads(lines, i, name);
        SameHead(lines, i, name);
      } else {
        assert forall i: nat | Heads(lines, i, name) :: i == n;
      }
    }
  }

  predicate IsEntry(c: M.Columns, line: string)
  {
    var f := Split(line, '\t');
    |f| == 5 && c == M.Columns(f[1], f[2], f[3], f[4])
  }

  predicate IsRowNamed(line: string, name: string)
  {
    |Split(line, '\t')| == 5 && Split(line, '\t')[0] == name
  }

  /** The last line heads a name exactly if no earlier one does. */
  lemma LastHeads(lines: seq<string>, name: string)
    requires lines != []
    ensures
      var n: nat := |lines| - 1;
      Heads(lines, n, name) <==> IsRowNamed(lines[n], name) && !exists i: nat :: Heads(lines[..n], i, name)
  {
    hide Split;
    var n: nat := |lines| - 1;
    var init := lines[..n];
    assert forall j | 0 <= j < n :: init[j] == lines[j];
    if Heads(lines, n, name) {
      forall i: nat ensures !Heads(init, i, name) {
        assert i < n ==> !IsRowNamed(lines[i], name);
      }
    }
    if IsRowNamed(lines[n], name) && !exists i: nat :: Heads(init, i, name) {
      forall j: nat | j < n ensures !IsRowNamed(lines[j], name) {
        if IsRowNamed(init[j], name) {
          SomeHeads(init, name, j);
        }
      }
    }
  }

  lemma {:induction false} SomeHeads(lines: seq<string>, name: string, j: nat)
    requires j < |lines| && IsRowNamed(lines[j], name)
    ensures exists i: nat :: Heads(lines, i, name)
    decreases j
  {
    hide Split;
    if k: nat :| k < j && IsRowNamed(lines[k], name) {
      SomeHeads(lines, name, k);
    } else {
      assert Heads(lines, j, name);
    }
  }

  lemma SameHead(lines: seq<string>, i: nat, name: string)
    requires Heads(lines, i, name)
    ensures forall j: nat | Heads(lines, j, name) :: j == i
  {
    hide Split;
    assert IsRowNamed(lines[i], name);
  }

  /** A row that differs from the event row found for its file. */
  ghost predicate Differs(lines: seq<string>, i: nat, db: Db, path: string, name: string, k: EventKey)
  {
    Heads(lines, i, name) && Found(db, name, path, k) && !Shows(Split(lines[i], '\t'), db, k)
  }

  /** The check reports a mismatch exactly for a snapshot whose first row differs from
      its event row in the tag, the timestamp, the url or the title. */
  lemma MismatchExactly(db: Db, dir: M.Directory, path: string, name: string)
    ensures M.IsIssue(db, dir, path, M.Mismatch(name)) <==>
      && M.Readable(dir) && Snapshot(dir, name)
      && exists i: nat, k :: Differs(M.ManifestLines(dir)[1..], i, db, path, name, k)
  {
    OnlyARowIssue(db, dir, path, name);
    if M.Readable(dir) {
      RowDiffers(db, dir, path, name, M.ManifestLines(dir)[1..]);
    }
  }

  lemma OnlyARowIssue(db: Db, dir: M.Directory, path: string, name: string)
    ensures M.IsIssue(db, dir, path, M.Mismatch(name)) <==>
      M.Readable(dir) && M.FileIssue(db, dir, path, M.Entries(M.ManifestLines(dir)[1..]), M.Mismatch(name))
  {
    hide M.FileIssue, M.Entries;
  }

  lemma RowDiffers(db: Db, dir: M.Directory, path: string, name: string, lines: seq<string>)
    ensures M.FileIssue(db, dir, path, M.Entries(lines), M.Mismatch(name)) <==>
      Snapshot(dir, name) && exists i: nat, k :: Differs(lines, i, db, path, name, k)
  {
    hide Split, Sanitise, M.Entries, Found, M.IsListed, IsSnapshotName;
    SnapshotIsOnDisk(dir, path, name);
    EntryHeads(lines, name);
    LookupFinds(db, name, path);
    if name in M.Entries(lines) && M.Lookup(db, name, path).Some? {
      var i: nat :| Heads(lines, i, name);
      SameHead(lines, i, name);
      var k := ColumnsDiffer(db, name, path, M.Entries(lines)[name], lines[i]);
      if M.Entries(lines)[name] != M.Expected(M.Lookup(db, name, path).value) {
        assert Differs(lines, i, db, path, name, k);
      }
    }
  }

  lemma ColumnsDiffer(db: Db, name: string, path: string, c: M.Columns, line: string) returns (k: EventKey)
    requires M.Lookup(db, name, path).Some? && IsEntry(c, line)
    ensures Found(db, name, path, k) && forall j | Found(db, name, path, j) :: j == k
    ensures c == M.Expected(M.Lookup(db, name, path).value) <==> Shows(Split(line, '\t'), db, k)
  {
    hide Split, Sanitise, Found;
    LookupFinds(db, name, path);
    var info := M.Lookup(db, name, path).value;
    k :| && Found(db, name, path, k) && info.tag == k.tag && info.timestamp == k.timestamp
         && info.url == k.url && info.title == TitleOf(db, k);
    forall j | Found(db, name, path, j) ensures j == k {
      FoundOnce(db, name, path, j, k);
    }
  }
}
