/** The manifest of an archive directory: what it lists of the directory and of the
    event rows, and the check that reads it back.  A character here is one Swift
    Character, so a CR LF pair is a character of its own. */
module Manifest {
  import opened Text
  import Dates
  import opened Listing
  import opened Names
  import opened Tables
  import opened Replay
  import opened Seqs

  datatype Entry = File(text: string, readOnly: bool) | Folder

  type Directory = map<string, Entry>

  /** The day log's name, in directories named by a date. */
  function ExpectedLog(path: string): Option<string>
  {
    var base := SwiftBasename(path);
    if Dates.IsDateText(base) then Some(LogName(base)) else None
  }

  /** The files a manifest is about. */
  predicate IsListed(dir: Directory, path: string, f: string)
  {
    f in dir && dir[f].File? && f != MANIFEST && Some(f) != ExpectedLog(path) && f != DS_STORE
  }

  function ListedNames(dir: Directory, path: string): set<string>
  {
    set f | f in dir && IsListed(dir, path, f)
  }

  // ---------------------------------------------------------------- event rows of files

  datatype Info = Info(tag: Tag, timestamp: string, url: string, title: string)

  predicate Match(db: Db, k: EventKey, t: Tag, name: string, path: string)
  {
    k in db.events && k.tag == t && db.events[k] == Event(name, path)
  }

  function InfoOf(db: Db, k: EventKey): Info
  {
    Info(k.tag, k.timestamp, k.url, if k.url in db.visits then db.visits[k.url].title else "")
  }

  function Matches(db: Db, t: Tag, name: string, path: string): set<EventKey>
  {
    set k | k in db.events && Match(db, k, t, name, path)
  }

  predicate KeyLess(a: EventKey, b: EventKey)
  {
    Dates.TextLess(a.url, b.url) || (a.url == b.url && Dates.TextLess(a.timestamp, b.timestamp))
  }

  ghost predicate IsFirst(keys: set<EventKey>, k: EventKey)
  {
    k in keys && forall j | j in keys && j != k :: KeyLess(k, j)
  }

  /** The row a query returns first: the first by its primary key. */
  ghost function First(keys: set<EventKey>): EventKey
    requires keys != {}
  {
    if k :| IsFirst(keys, k) then k else var k :| k in keys; k
  }

  lemma OneFirst(keys: set<EventKey>, k: EventKey)
    requires IsFirst(keys, k)
    ensures First(keys) == k
  {
    var j := First(keys);
    assert IsFirst(keys, j);
    TextLessTotal(j.url, k.url);
    TextLessTotal(j.timestamp, k.timestamp);
  }

  lemma KeysAreOrdered(a: EventKey, b: EventKey, c: EventKey)
    requires a.tag == b.tag
    ensures KeyLess(a, b) || KeyLess(b, a) || a == b
    ensures KeyLess(a, b) && KeyLess(b, c) ==> KeyLess(a, c)
  {
    TextLessTotal(a.url, b.url);
    TextLessTotal(a.timestamp, b.timestamp);
    if Dates.TextLess(a.url, b.url) && Dates.TextLess(b.url, c.url) {
      TextLessTrans(a.url, b.url, c.url);
    }
    if Dates.TextLess(a.timestamp, b.timestamp) && Dates.TextLess(b.timestamp, c.timestamp) {
      TextLessTrans(a.timestamp, b.timestamp, c.timestamp);
    }
  }

  method FirstRow(keys: set<EventKey>, t: Tag) returns (first: EventKey)
    requires keys != {} && forall k | k in keys :: k.tag == t
    ensures first == First(keys)
  {
    first :| first in keys;
    var left := keys - {first};
    while left != {}
      invariant left <= keys && first in keys - left
      invariant forall j | j in keys - left && j != first :: KeyLess(first, j)
      decreases |left|
    {
      var k :| k in left;
      left := left - {k};
      KeysAreOrdered(first, k, k);
      if KeyLess(k, first) {
        forall j | j in keys - left && j != k ensures KeyLess(k, j) {
          KeysAreOrdered(k, first, j);
        }
        first := k;
      }
    }
    OneFirst(keys, first);
  }

  ghost function Lookup(db: Db, name: string, path: string): Option<Info>
  {
    if Matches(db, Read, name, path) != {} then Some(InfoOf(db, First(Matches(db, Read, name, path))))
    else if Matches(db, Skimmed, name, path) != {} then Some(InfoOf(db, First(Matches(db, Skimmed, name, path))))
    else None
  }

  /** Reads the one table, then the other. */
  method LookupEvent(db: Db, name: string, path: string) returns (info: Option<Info>)
    ensures info == Lookup(db, name, path)
  {
    var keys := Matches(db, Read, name, path);
    if keys != {} {
      var k := FirstRow(keys, Read);
      return Some(InfoOf(db, k));
    }
    keys := Matches(db, Skimmed, name, path);
    if keys != {} {
      var k := FirstRow(keys, Skimmed);
      return Some(InfoOf(db, k));
    }
    return None;
  }

  /** A lookup fails only if neither table has a row of the file; what it finds is
      such a row, of the read table if that has one. */
  lemma LookedUpIsARow(db: Db, name: string, path: string)
    ensures
      match Lookup(db, name, path)
      case None => forall k, t :: !Match(db, k, t, name, path)
      case Some(info) =>
        exists k ::
          && k in db.events && db.events[k].filename == name && db.events[k].directory == path
          && info.tag == k.tag && info.timestamp == k.timestamp && info.url == k.url
          && info.title == if k.url in db.visits then db.visits[k.url].title else ""
    ensures (exists k :: Match(db, k, Read, name, path)) ==>
              Lookup(db, name, path).Some? && Lookup(db, name, path).value.tag == Read
  {
    forall k, t ensures Match(db, k, t, name, path) <==> k in Matches(db, t, name, path) {}
    var read, skimmed := Matches(db, Read, name, path), Matches(db, Skimmed, name, path);
    if read != {} {
      assert First(read) in read;
    } else if skimmed != {} {
      assert First(skimmed) in skimmed;
    }
  }

  // ---------------------------------------------------------------- the text

  const HEADER := ["filename", "tag", "timestamp", "url", "title"]

  function TagName(t: Tag): string
  {
    if t == Read then "read" else "skimmed"
  }

  datatype Columns = Columns(tag: string, timestamp: string, url: string, title: string)

  /** What a row must say, apart from the name. */
  function Expected(info: Info): Columns
  {
    Columns(TagName(info.tag), Sanitise(info.timestamp), Sanitise(info.url), Sanitise(info.title))
  }

  function Row(name: string, info: Info): seq<string>
  {
    var c := Expected(info);
    [Sanitise(name), c.tag, c.timestamp, c.url, c.title]
  }

  predicate CleanRow(row: seq<string>)
  {
    |row| == 5 && forall j | 0 <= j < 5 :: Clean(row[j])
  }

  lemma RowIsClean(name: string, info: Info)
    ensures CleanRow(Row(name, info))
  {
    hide Sanitise, Clean;
    SanitiseIsClean(name);
    SanitiseIsClean(info.timestamp);
    SanitiseIsClean(info.url);
    SanitiseIsClean(info.title);
    TagIsClean(info.tag);
  }

  lemma TagIsClean(t: Tag)
    ensures Clean(TagName(t))
  {
  }

  ghost predicate HasRow(db: Db, name: string, path: string)
  {
    IsSnapshotName(name) && Lookup(db, name, path).Some?
  }

  /** The rows of the given files: snapshots that have an event row. */
  ghost function RowsOf(db: Db, names: seq<string>, path: string): (rows: seq<seq<string>>)
    ensures forall i | 0 <= i < |rows| :: CleanRow(rows[i])
  {
    if names == [] then []
    else
      var init, f := RowsOf(db, names[..|names| - 1], path), names[|names| - 1];
      if HasRow(db, f, path) then
        RowIsClean(f, Lookup(db, f, path).value);
        init + [Row(f, Lookup(db, f, path).value)]
      else init
  }

  function Printed(rows: seq<seq<string>>): (lines: seq<string>)
    requires forall i | 0 <= i < |rows| :: rows[i] != []
    ensures |lines| == |rows|
    ensures forall i | 0 <= i < |rows| :: lines[i] == Join(rows[i], '\t')
  {
    seq(|rows|, i requires 0 <= i < |rows| => Join(rows[i], '\t'))
  }

  ghost function ManifestText(db: Db, dir: Directory, path: string): string
  {
    Unlines([Join(HEADER, '\t')] + Printed(RowsOf(db, SortedNames(ListedNames(dir, path)), path)))
  }

  /** The directory has a manifest that is right for it and the database. */
  ghost predicate SealedBy(db: Db, dir: Directory, path: string)
  {
    MANIFEST in dir && dir[MANIFEST] == File(ManifestText(db, dir, path), true)
  }

  // ---------------------------------------------------------------- what the check finds

  datatype Issue =
    | NoManifest | ManifestWritable | ManifestUnreadable | ManifestEmpty | WrongHeader
    | WrongColumns(row: nat) | DuplicateName(row: nat, name: string)
    | NonConforming(name: string) | NonConformingListed(name: string)
    | ListedButGone(name: string) | NotListed(name: string)
    | NoEventRow(name: string) | Mismatch(name: string) | OrphanFile(name: string)
    | LogMissing | LogNotAFile | LogWritable

  function ManifestLines(dir: Directory): seq<string>
    requires MANIFEST in dir && dir[MANIFEST].File?
  {
    Lines(dir[MANIFEST].text)
  }

  /** The manifest can be read and has the right header. */
  predicate Readable(dir: Directory)
  {
    MANIFEST in dir && dir[MANIFEST].File? && ManifestLines(dir) != [] && ManifestLines(dir)[0] == Join(HEADER, '\t')
  }

  /** The rows that count: five columns, the first of their name. */
  function Entries(lines: seq<string>): map<string, Columns>
  {
    if lines == [] then map[]
    else
      var e, f := Entries(lines[..|lines| - 1]), Split(lines[|lines| - 1], '\t');
      if |f| != 5 || f[0] in e then e else e[f[0] := Columns(f[1], f[2], f[3], f[4])]
  }

  ghost predicate RowIssue(lines: seq<string>, x: Issue)
  {
    RowIssueBefore(lines, |lines|, x)
  }

  ghost predicate RowIssueBefore(lines: seq<string>, n: nat, x: Issue)
    requires n <= |lines|
  {
    exists i :: 0 <= i < n && RowIssueAt(lines, i, x)
  }

  lemma NextRowIssue(lines: seq<string>, n: nat)
    requires n < |lines|
    ensures forall x :: RowIssueBefore(lines, n + 1, x) <==> RowIssueBefore(lines, n, x) || RowIssueAt(lines, n, x)
  {
    forall x ensures RowIssueBefore(lines, n + 1, x) <==> RowIssueBefore(lines, n, x) || RowIssueAt(lines, n, x) {
      if RowIssueBefore(lines, n, x) {
        var i :| 0 <= i < n && RowIssueAt(lines, i, x);
        assert 0 <= i < n + 1;
      }
    }
  }

  predicate RowIssueAt(lines: seq<string>, i: nat, x: Issue)
    requires i < |lines|
  {
    var f := Split(lines[i], '\t');
    if |f| != 5 then x == WrongColumns(i + 2)
    else f[0] in Entries(lines[..i]) && x == DuplicateName(i + 2, f[0])
  }

  predicate OnDisk(dir: Directory, path: string, f: string)
  {
    IsListed(dir, path, f) && IsSnapshotName(f)
  }

  ghost predicate FileIssue(db: Db, dir: Directory, path: string, entries: map<string, Columns>, x: Issue)
  {
    match x
    case NonConforming(f) => IsListed(dir, path, f) && !IsSnapshotName(f)
    case NonConformingListed(f) => IsListed(dir, path, f) && !IsSnapshotName(f) && f in entries
    case ListedButGone(f) => f in entries && IsSnapshotName(f) && !OnDisk(dir, path, f)
    case NotListed(f) => OnDisk(dir, path, f) && f !in entries
    case NoEventRow(f) => OnDisk(dir, path, f) && f in entries && Lookup(db, f, path).None?
    case Mismatch(f) =>
      OnDisk(dir, path, f) && f in entries && Lookup(db, f, path).Some?
        && entries[f] != Expected(Lookup(db, f, path).value)
    case OrphanFile(f) => OnDisk(dir, path, f) && f !in entries && Lookup(db, f, path).None?
    case _ => false
  }

  ghost predicate LogIssue(dir: Directory, path: string, x: Issue)
  {
    match ExpectedLog(path)
    case None => false
    case Some(log) =>
      if log !in dir then x == LogMissing
      else if dir[log].Folder? then x == LogNotAFile
      else !dir[log].readOnly && x == LogWritable
  }

  ghost predicate ManifestIssue(dir: Directory, x: Issue)
  {
    match x
    case NoManifest => MANIFEST !in dir
    case ManifestWritable => MANIFEST in dir && (dir[MANIFEST].Folder? || !dir[MANIFEST].readOnly)
    case ManifestUnreadable => MANIFEST in dir && dir[MANIFEST].Folder?
    case ManifestEmpty => MANIFEST in dir && dir[MANIFEST].File? && ManifestLines(dir) == []
    case WrongHeader =>
      MANIFEST in dir && dir[MANIFEST].File? && ManifestLines(dir) != [] && ManifestLines(dir)[0] != Join(HEADER, '\t')
    case _ => false
  }

  /** Everything that is wrong with a directory, and nothing else. */
  ghost predicate IsIssue(db: Db, dir: Directory, path: string, x: Issue)
  {
    || ManifestIssue(dir, x)
    || (Readable(dir) &&
          (|| RowIssue(ManifestLines(dir)[1..], x)
           || FileIssue(db, dir, path, Entries(ManifestLines(dir)[1..]), x)
           || LogIssue(dir, path, x)))
  }

  /** What the check accepts. */
  ghost predicate Accepts(db: Db, dir: Directory, path: string)
  {
    forall x :: !IsIssue(db, dir, path, x)
  }

  // ---------------------------------------------------------------- the checker

  method ParseRows(lines: seq<string>) returns (entries: map<string, Columns>, issues: seq<Issue>)
    ensures entries == Entries(lines)
    ensures forall x :: x in issues <==> RowIssue(lines, x)
  {
    entries, issues := map[], [];
    var i := 0;
    while i < |lines|
      invariant 0 <= i <= |lines|
      invariant entries == Entries(lines[..i])
      invariant forall x :: x in issues <==> RowIssueBefore(lines, i, x)
    {
      NextRowIssue(lines, i);
      assert lines[..i + 1][..i] == lines[..i];
      ghost var found := issues;
      var f := Split(lines[i], '\t');
      if |f| != 5 {
        issues := issues + [WrongColumns(i + 2)];
      } else if f[0] in entries {
        issues := issues + [DuplicateName(i + 2, f[0])];
      } else {
        entries := entries[f[0] := Columns(f[1], f[2], f[3], f[4])];
      }
      assert forall x :: x in issues <==> x in found || RowIssueAt(lines, i, x);
      i := i + 1;
    }
    assert lines[..i] == lines;
  }

  method ListConforming(dir: Directory, path: string, entries: map<string, Columns>)
    returns (onDisk: set<string>, issues: seq<Issue>)
    ensures forall f :: f in onDisk <==> OnDisk(dir, path, f)
    ensures forall x :: x in issues <==>
              match x
              case NonConforming(f) => IsListed(dir, path, f) && !IsSnapshotName(f)
              case NonConformingListed(f) => IsListed(dir, path, f) && !IsSnapshotName(f) && f in entries
              case _ => false
  {
    onDisk, issues := {}, [];
    var left := dir.Keys;
    while left != {}
      invariant left <= dir.Keys
      invariant forall f :: f in onDisk <==> OnDisk(dir, path, f) && f !in left
      invariant forall x :: x in issues <==>
                  match x
                  case NonConforming(f) => IsListed(dir, path, f) && !IsSnapshotName(f) && f !in left
                  case NonConformingListed(f) => IsListed(dir, path, f) && !IsSnapshotName(f) && f in entries
                    && f !in left
                  case _ => false
      decreases |left|
    {
      var f :| f in left;
      left := left - {f};
      if IsListed(dir, path, f) {
        if !IsSnapshotName(f) {
          issues := issues + [NonConforming(f)];
          if f in entries {
            issues := issues + [NonConformingListed(f)];
          }
        } else {
          onDisk := onDisk + {f};
        }
      }
    }
  }

  method FindGone(gone: set<string>) returns (issues: seq<Issue>)
    ensures forall x :: x in issues <==> x.ListedButGone? && IsSnapshotName(x.name) && x.name in gone
  {
    issues := [];
    var names := Sort(gone);
    var i := 0;
    while i < |names|
      invariant 0 <= i <= |names|
      invariant forall x :: x in issues <==> x.ListedButGone? && IsSnapshotName(x.name) && x.name in names[..i]
    {
      if IsSnapshotName(names[i]) {
        issues := issues + [ListedButGone(names[i])];
      }
      Longer(names, i);
      i := i + 1;
    }
    assert names[..i] == names;
  }

  method FindUnlisted(unlisted: set<string>) returns (issues: seq<Issue>)
    ensures forall x :: x in issues <==> x.NotListed? && x.name in unlisted
  {
    issues := [];
    var names := Sort(unlisted);
    var i := 0;
    while i < |names|
      invariant 0 <= i <= |names|
      invariant forall x :: x in issues <==> x.NotListed? && x.name in names[..i]
    {
      issues := issues + [NotListed(names[i])];
      Longer(names, i);
      i := i + 1;
    }
    assert names[..i] == names;
  }

  method CompareNames(dir: Directory, path: string, entries: map<string, Columns>, onDisk: set<string>)
    returns (issues: seq<Issue>)
    requires forall f :: f in onDisk <==> OnDisk(dir, path, f)
    ensures forall x :: x in issues <==>
              match x
              case ListedButGone(f) => f in entries && IsSnapshotName(f) && !OnDisk(dir, path, f)
              case NotListed(f) => OnDisk(dir, path, f) && f !in entries
              case _ => false
  {
    var gone := FindGone(entries.Keys - onDisk);
    var unlisted := FindUnlisted(onDisk - entries.Keys);
    issues := gone + unlisted;
  }

  method CheckRows(db: Db, path: string, entries: map<string, Columns>, onDisk: set<string>)
    returns (issues: seq<Issue>)
    ensures forall x :: x in issues <==>
              match x
              case NoEventRow(f) => f in onDisk && f in entries && Lookup(db, f, path).None?
              case Mismatch(f) =>
                f in onDisk && f in entries && Lookup(db, f, path).Some?
                  && entries[f] != Expected(Lookup(db, f, path).value)
              case OrphanFile(f) => f in onDisk && f !in entries && Lookup(db, f, path).None?
              case _ => false
  {
    var wrong := CompareRows(db, path, entries, entries.Keys * onDisk);
    var orphans := CheckOrphans(db, path, onDisk - entries.Keys);
    issues := wrong + orphans;
  }

  ghost predicate RowWrong(db: Db, path: string, columns: Columns, name: string, x: Issue)
  {
    match Lookup(db, name, path)
    case None => x == NoEventRow(name)
    case Some(info) => columns != Expected(info) && x == Mismatch(name)
  }

  method CompareRows(db: Db, path: string, entries: map<string, Columns>, both: set<string>)
    returns (issues: seq<Issue>)
    requires forall f | f in both :: f in entries
    ensures forall x :: x in issues <==> exists f :: f in both && RowWrong(db, path, entries[f], f, x)
  {
    issues := [];
    var names := Sort(both);
    var i := 0;
    while i < |names|
      invariant 0 <= i <= |names|
      invariant forall x :: x in issues <==> exists f ::
          f in both && f in names[..i] && RowWrong(db, path, entries[f], f, x)
    {
      var f := names[i];
      assert f in names;
      assert forall g :: g in names[..i + 1] <==> g in names[..i] || g == f;
      ghost var found := issues;
      var info := LookupEvent(db, f, path);
      if info.None? {
        issues := issues + [NoEventRow(f)];
      } else if entries[f] != Expected(info.value) {
        issues := issues + [Mismatch(f)];
      }
      assert forall x :: x in issues <==> x in found || RowWrong(db, path, entries[f], f, x);
      i := i + 1;
    }
    assert names[..i] == names;
  }

  method CheckOrphans(db: Db, path: string, unlisted: set<string>) returns (issues: seq<Issue>)
    ensures forall x :: x in issues <==> x.OrphanFile? && x.name in unlisted && Lookup(db, x.name, path).None?
  {
    issues := [];
    var names := Sort(unlisted);
    var i := 0;
    while i < |names|
      invariant 0 <= i <= |names|
      invariant forall x :: x in issues <==> x.OrphanFile? && x.name in names[..i] && Lookup(db, x.name, path).None?
    {
      var info := LookupEvent(db, names[i], path);
      if info.None? {
        issues := issues + [OrphanFile(names[i])];
      }
      Longer(names, i);
      i := i + 1;
    }
    assert names[..i] == names;
  }

  method CheckLog(dir: Directory, path: string) returns (issues: seq<Issue>)
    ensures forall x :: x in issues <==> LogIssue(dir, path, x)
  {
    issues := [];
    match ExpectedLog(path) {
      case None =>
      case Some(log) =>
        if log !in dir {
          issues := [LogMissing];
        } else if dir[log].Folder? {
          issues := [LogNotAFile];
        } else if !dir[log].readOnly {
          issues := [LogWritable];
        }
    }
  }

  /** The manifest itself: whether it can be read as one, and what is wrong with it. */
  method OpenManifest(dir: Directory) returns (ok: bool, issues: seq<Issue>)
    ensures ok <==> Readable(dir)
    ensures forall x :: x in issues <==> ManifestIssue(dir, x)
  {
    ok, issues := false, [];
    if MANIFEST !in dir {
      issues := [NoManifest];
      return;
    }
    if dir[MANIFEST].Folder? || !dir[MANIFEST].readOnly {
      issues := [ManifestWritable];
    }
    if dir[MANIFEST].Folder? {
      issues := issues + [ManifestUnreadable];
      return;
    }
    var lines := Lines(dir[MANIFEST].text);
    if |lines| == 0 {
      issues := issues + [ManifestEmpty];
      return;
    }
    if lines[0] != Join(HEADER, '\t') {
      issues := issues + [WrongHeader];
      return;
    }
    ok := true;
  }

  /** The independent check of one sealed directory: valid exactly if nothing is
      wrong, and each finding is reported exactly if it is so. */
  method Verify(db: Db, dir: Directory, path: string) returns (valid: bool, issues: seq<Issue>)
    ensures forall x :: x in issues <==> IsIssue(db, dir, path, x)
    ensures valid <==> Accepts(db, dir, path)
  {
    var ok;
    ok, issues := OpenManifest(dir);
    if ok {
      ghost var first := issues;
      var lines := Lines(dir[MANIFEST].text);
      var entries, rowIssues := ParseRows(lines[1..]);
      var onDisk, diskIssues := ListConforming(dir, path, entries);
      var nameIssues := CompareNames(dir, path, entries, onDisk);
      var eventIssues := CheckRows(db, path, entries, onDisk);
      var logIssues := CheckLog(dir, path);
      issues := issues + rowIssues + diskIssues + nameIssues + eventIssues + logIssues;
      forall x ensures x in diskIssues + nameIssues + eventIssues <==> FileIssue(db, dir, path, entries, x) {}
      forall x ensures x in issues <==> IsIssue(db, dir, path, x) {
        assert x in issues <==>
            x in first || x in rowIssues || x in diskIssues + nameIssues + eventIssues || x in logIssues;
      }
    }
    valid := |issues| == 0;
    ValidIfNone(db, dir, path, issues);
  }

  lemma ValidIfNone(db: Db, dir: Directory, path: string, issues: seq<Issue>)
    requires forall x :: x in issues <==> IsIssue(db, dir, path, x)
    ensures |issues| == 0 <==> Accepts(db, dir, path)
  {
    if |issues| > 0 {
      assert issues[0] in issues;
    }
  }
}
