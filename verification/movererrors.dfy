/** Building a manifest's rows while keeping the table of unresolved errors in step
    with what is in the directory. */
module MoverErrors {
  import Text
  import Dates
  import opened Listing
  import Names
  import Tables
  import opened Replay
  import opened Manifest

  datatype ErrorRow = ErrorRow(operation: string, target: string, message: string,
                               firstSeen: string, lastSeen: string, attempts: nat, notified: bool, immediate: bool)

  /** The table by its primary key. */
  type Errors = map<string, ErrorRow>

  function Key(op: string, target: string): string
  {
    op + ":" + target
  }

  lemma KeysDiffer(op: string, target: string, op2: string, target2: string)
    requires ':' !in op && ':' !in op2 && Key(op, target) == Key(op2, target2)
    ensures op == op2 && target == target2
  {
    var k := Key(op, target);
    assert k[|op|] == ':' && Key(op2, target2)[|op2|] == ':';
    assert forall i | 0 <= i < |op| :: k[i] == op[i];
    assert forall i | 0 <= i < |op2| :: k[i] == op2[i];
    assert |op| == |op2|;
    assert k[..|op|] == op && k[..|op2|] == op2;
    assert k[|op| + 1..] == target && k[|op2| + 1..] == target2;
  }

  ghost predicate WellKeyed(e: Errors)
  {
    forall k | k in e :: ':' !in e[k].operation && k == Key(e[k].operation, e[k].target)
  }

  const INVALID := "invalid_filename"
  const ORPHAN := "orphan_file"

  /** Errors the user is told of at once; `severe` stands for the disk and
      database conditions that count as such. */
  predicate IsImmediate(op: string, severe: bool)
  {
    op in {"top_level", "rewrite_manifest", INVALID, ORPHAN, "manifest_invalid"} || severe
  }

  function Message(text: string): string
  {
    var m := Text.Sanitise(text);
    if |m| <= 500 then m else m[..500]
  }

  /** The upsert: a streak keeps its first time, is never demoted, and counts. */
  function Recorded(e: Errors, op: string, target: string, text: string, now: string, severe: bool): Errors
  {
    var k, immediate := Key(op, target), IsImmediate(op, severe);
    if k in e then
      e[k := e[k].(attempts := e[k].attempts + 1, lastSeen := now, message := Message(text),
                   immediate := e[k].immediate || immediate)]
    else e[k := ErrorRow(op, target, Message(text), now, now, 1, false, immediate)]
  }

  /** One failure of an operation on a target. */
  datatype Failure = Failure(text: string, now: string, severe: bool)

  function RecordedAll(e: Errors, op: string, target: string, failures: seq<Failure>): Errors
  {
    if failures == [] then e
    else
      var f := failures[|failures| - 1];
      Recorded(RecordedAll(e, op, target, failures[..|failures| - 1]), op, target, f.text, f.now, f.severe)
  }

  /** What a streak of failures leaves: one row, which counts them, has the first
      one's time and the last one's time and text, is immediate if any of them was,
      and no other row changed. */
  lemma {:induction false} StreakIsOneRow(e: Errors, op: string, target: string, failures: seq<Failure>)
    requires Key(op, target) !in e && failures != []
    ensures
      var k, now, last := Key(op, target), RecordedAll(e, op, target, failures), failures[|failures| - 1];
      && k in now && now - {k} == e
      && now[k].operation == op && now[k].target == target && !now[k].notified
      && now[k].attempts == |failures| && now[k].firstSeen == failures[0].now
      && now[k].lastSeen == last.now && now[k].message == Message(last.text)
      && (now[k].immediate <==> exists i :: 0 <= i < |failures| && IsImmediate(op, failures[i].severe))
  {
    var init, last := failures[..|failures| - 1], failures[|failures| - 1];
    var k := Key(op, target);
    if init == [] {
      assert RecordedAll(e, op, target, init) == e;
      assert Recorded(e, op, target, last.text, last.now, last.severe) - {k} == e;
    } else {
      StreakIsOneRow(e, op, target, init);
      var was := RecordedAll(e, op, target, init);
      var now := RecordedAll(e, op, target, failures);
      assert now - {k} == was - {k};
      if i :| 0 <= i < |init| && IsImmediate(op, init[i].severe) {
        assert failures[i] == init[i];
      }
      if i :| 0 <= i < |failures| && IsImmediate(op, failures[i].severe) {
        assert i < |init| ==> init[i] == failures[i];
      }
    }
  }

  /** Rows of the operation under the directory go, unless they are current. */
  predicate Stale(row: ErrorRow, op: string, prefix: string, current: set<string>)
  {
    row.operation == op && prefix <= row.target && row.target !in current
  }

  function Reconciled(e: Errors, op: string, prefix: string, current: set<string>): Errors
  {
    map k | k in e && !Stale(e[k], op, prefix, current) :: e[k]
  }

  /** os.path.join */
  function JoinPath(dir: string, name: string): string
  {
    if dir == "" || dir[|dir| - 1] == '/' then dir + name else dir + "/" + name
  }

  /** The path of a file is its directory, a slash, and its name. */
  lemma PathOfFile(dir: string, name: string)
    requires name != "" && '/' !in name
    ensures dir <= JoinPath(dir, name) && Text.PyBasename(JoinPath(dir, name)) == name
  {
    if dir == "" {
      Text.OnePart(name, '/');
      assert dir + name == name && Text.PyBasename(name) == Text.Split(name, '/')[0];
    } else if dir[|dir| - 1] == '/' {
      Text.BasenameOf(dir[..|dir| - 1], name);
      assert dir[..|dir| - 1] + "/" == dir;
    } else {
      Text.BasenameOf(dir, name);
      assert dir + "/" + name == dir + ("/" + name);
    }
  }

  lemma JoinPathInjective(dir: string, a: string, b: string)
    ensures JoinPath(dir, "") <= JoinPath(dir, a)
    ensures JoinPath(dir, a) == JoinPath(dir, b) ==> a == b
  {
    var p := JoinPath(dir, "");
    assert JoinPath(dir, a) == p + a && JoinPath(dir, b) == p + b;
    assert (p + a)[|p|..] == a && (p + b)[|p|..] == b;
  }

  // ---------------------------------------------------------------- the pass over the files

  const INVALID_TEXT := "filename does not match snapshot format"
  const ORPHAN_TEXT := "snapshot file has no matching events row"

  ghost predicate IsOrphan(db: Tables.Db, name: string, path: string)
  {
    Names.IsSnapshotName(name) && Lookup(db, name, path).None?
  }

  ghost function Noted(e: Errors, db: Tables.Db, names: seq<string>, path: string, now: string): Errors
  {
    if names == [] then e else NotedFile(Noted(e, db, names[..|names| - 1], path, now), db, names[|names| - 1], path,
      now)
  }

  ghost function NotedFile(e: Errors, db: Tables.Db, f: string, path: string, now: string): Errors
  {
    if !Names.IsSnapshotName(f) then Recorded(e, INVALID, JoinPath(path, f), INVALID_TEXT, now, false)
    else if Lookup(db, f, path).None? then Recorded(e, ORPHAN, JoinPath(path, f), ORPHAN_TEXT, now, false)
    else e
  }

  ghost function InvalidPaths(names: set<string>, path: string): set<string>
  {
    set f | f in names && !Names.IsSnapshotName(f) :: JoinPath(path, f)
  }

  ghost function OrphanPaths(db: Tables.Db, names: set<string>, path: string): set<string>
  {
    set f | f in names && IsOrphan(db, f, path) :: JoinPath(path, f)
  }

  ghost function Built(e: Errors, db: Tables.Db, names: set<string>, path: string, now: string): Errors
  {
    var noted := Noted(e, db, SortedNames(names), path, now);
    var prefix := JoinPath(path, "");
    Reconciled(Reconciled(noted, INVALID, prefix, InvalidPaths(names, path)), ORPHAN, prefix,
      OrphanPaths(db, names, path))
  }

  lemma {:induction false} NotedRows(e: Errors, db: Tables.Db, names: seq<string>, path: string, now: string)
    requires WellKeyed(e) && Ordered(names)
    ensures
      var n := Noted(e, db, names, path, now);
      && WellKeyed(n)
      && (forall f | f in names && !Names.IsSnapshotName(f) :: Key(INVALID, JoinPath(path, f)) in n)
      && (forall f | f in names && IsOrphan(db, f, path) :: Key(ORPHAN, JoinPath(path, f)) in n)
      && (forall k | k in e :: k in n)
      && (forall k | k in n && (k !in e || n[k] != e[k]) :: NotedNow(e, n[k], db, names, path, now))
  {
    if names != [] {
      var init, f := names[..|names| - 1], names[|names| - 1];
      assert names == init + [f];
      NotedRows(e, db, init, path, now);
      var was := Noted(e, db, init, path, now);
      if !Names.IsSnapshotName(f) {
        NewlyNoted(e, was, db, init, f, path, now, INVALID, INVALID_TEXT);
      } else if IsOrphan(db, f, path) {
        NewlyNoted(e, was, db, init, f, path, now, ORPHAN, ORPHAN_TEXT);
      } else {
        forall row | NotedNow(e, row, db, init, path, now) ensures NotedNow(e, row, db, names, path, now) {
          NotedStays(e, row, db, init, f, path, now);
        }
      }
    }
  }

  /** The row of one of these files, counted once more than before. */
  ghost predicate NotedNow(e: Errors, row: ErrorRow, db: Tables.Db, names: seq<string>, path: string, now: string)
  {
    && (exists f :: f in names && row.target == JoinPath(path, f) &&
          if Names.IsSnapshotName(f) then row.operation == ORPHAN && IsOrphan(db, f, path)
            else row.operation == INVALID)
    && CountedOnce(e, row, now)
  }

  predicate CountedOnce(e: Errors, row: ErrorRow, now: string)
  {
    var k := Key(row.operation, row.target);
    && row.lastSeen == now && row.immediate
    && if k in e then row.attempts == e[k].attempts + 1 && row.firstSeen == e[k].firstSeen
      && row.notified == e[k].notified
       else row.attempts == 1 && row.firstSeen == now && !row.notified
  }

  lemma NotedStays(e: Errors, row: ErrorRow, db: Tables.Db, init: seq<string>, f: string, path: string, now: string)
    requires NotedNow(e, row, db, init, path, now)
    ensures NotedNow(e, row, db, init + [f], path, now)
  {
    var g :| g in init && row.target == JoinPath(path, g) &&
          if Names.IsSnapshotName(g) then row.operation == ORPHAN && IsOrphan(db, g, path)
            else row.operation == INVALID;
    assert g in init + [f];
  }

  lemma NewlyNoted(e: Errors, was: Errors, db: Tables.Db, init: seq<string>, f: string, path: string, now: string,
                   op: string, text: string)
    requires WellKeyed(e) && WellKeyed(was) && Ordered(init + [f])
    requires if Names.IsSnapshotName(f) then op == ORPHAN && IsOrphan(db, f, path) else op == INVALID
    requires forall k | k in e :: k in was
    requires forall k | k in was && (k !in e || was[k] != e[k]) :: NotedNow(e, was[k], db, init, path, now)
    ensures
      var n := Recorded(was, op, JoinPath(path, f), text, now, false);
      && WellKeyed(n)
      && (forall k | k in n && (k !in e || n[k] != e[k]) :: NotedNow(e, n[k], db, init + [f], path, now))
  {
    var k, n := Key(op, JoinPath(path, f)), Recorded(was, op, JoinPath(path, f), text, now, false);
    RecordedWellKeyed(was, op, JoinPath(path, f), text, now);
    NotYetNoted(e, was, db, init, f, path, now, op);
    JustNoted(e, was, db, init, f, path, now, op, text);
    forall j | j in n && j != k && (j !in e || n[j] != e[j]) ensures NotedNow(e, n[j], db, init + [f], path, now) {
      NotedStays(e, was[j], db, init, f, path, now);
    }
  }

  lemma NotYetNoted(e: Errors, was: Errors, db: Tables.Db, init: seq<string>, f: string, path: string, now: string,
                    op: string)
    requires WellKeyed(was) && Ordered(init + [f]) && ':' !in op
    requires forall k | k in was && (k !in e || was[k] != e[k]) :: NotedNow(e, was[k], db, init, path, now)
    ensures var k := Key(op, JoinPath(path, f)); k in was ==> k in e && was[k] == e[k]
  {
    var k := Key(op, JoinPath(path, f));
    if k in was && (k !in e || was[k] != e[k]) {
      NotTwice(e, was[k], db, init, f, path, now, op);
    }
  }

  lemma JustNoted(e: Errors, was: Errors, db: Tables.Db, init: seq<string>, f: string, path: string, now: string,
                  op: string, text: string)
    requires if Names.IsSnapshotName(f) then op == ORPHAN && IsOrphan(db, f, path) else op == INVALID
    requires var k := Key(op, JoinPath(path, f)); k in was <==> k in e
    requires var k := Key(op, JoinPath(path, f)); k in was ==> was[k] == e[k]
    requires WellKeyed(e)
    ensures
      var n := Recorded(was, op, JoinPath(path, f), text, now, false);
      NotedNow(e, n[Key(op, JoinPath(path, f))], db, init + [f], path, now)
  {
    var k := Key(op, JoinPath(path, f));
    if k in e {
      KeysDiffer(op, JoinPath(path, f), e[k].operation, e[k].target);
    }
    assert f in init + [f];
  }

  lemma RecordedWellKeyed(was: Errors, op: string, target: string, text: string, now: string)
    requires WellKeyed(was) && ':' !in op
    ensures WellKeyed(Recorded(was, op, target, text, now, false))
  {
  }

  lemma NotTwice(e: Errors, row: ErrorRow, db: Tables.Db, init: seq<string>, f: string, path: string, now: string,
                 op: string)
    requires NotedNow(e, row, db, init, path, now) && Ordered(init + [f]) && ':' !in row.operation && ':' !in op
    ensures Key(row.operation, row.target) != Key(op, JoinPath(path, f))
  {
    var g :| g in init && row.target == JoinPath(path, g) &&
          if Names.IsSnapshotName(g) then row.operation == ORPHAN && IsOrphan(db, g, path)
            else row.operation == INVALID;
    if Key(row.operation, row.target) == Key(op, JoinPath(path, f)) {
      KeysDiffer(row.operation, row.target, op, JoinPath(path, f));
      JoinPathInjective(path, f, g);
      LastIsNew(init, f);
    }
  }

  lemma LastIsNew(init: seq<string>, f: string)
    requires Ordered(init + [f])
    ensures f !in init
  {
    forall i | 0 <= i < |init| ensures init[i] != f {
      assert (init + [f])[i] == init[i] && (init + [f])[|init|] == f;
      TextLessTotal(init[i], f);
    }
  }

  /** After a build without database failures the rows of the two operations under
      the directory are exactly the directory's current strays; of the others,
      none has changed; and a stray that was known keeps its first time. */
  lemma ErrorsAreTheStrays(e: Errors, db: Tables.Db, names: set<string>, path: string, now: string)
    requires WellKeyed(e)
    ensures
      var b, prefix := Built(e, db, names, path, now), JoinPath(path, "");
      && WellKeyed(b)
      && (forall t | prefix <= t :: Key(INVALID, t) in b <==> t in InvalidPaths(names, path))
      && (forall t | prefix <= t :: Key(ORPHAN, t) in b <==> t in OrphanPaths(db, names, path))
      && (forall k | k in e && !((e[k].operation == INVALID || e[k].operation == ORPHAN) && prefix <= e[k].target) ::
            k in b && b[k] == e[k])
      && (forall k | k in b && (k !in e || b[k] != e[k]) :: CountedOnce(e, b[k], now))
  {
    var n, sorted, prefix := Noted(e, db, SortedNames(names), path, now), SortedNames(names), JoinPath(path, "");
    var b := Built(e, db, names, path, now);
    NotedRows(e, db, sorted, path, now);
    forall t | prefix <= t ensures Key(INVALID, t) in b <==> t in InvalidPaths(names, path) {
      InvalidKept(n, b, db, names, path, t);
    }
    forall t | prefix <= t ensures Key(ORPHAN, t) in b <==> t in OrphanPaths(db, names, path) {
      OrphanKept(n, b, db, names, path, t);
    }
    forall k | k in e && !((e[k].operation == INVALID || e[k].operation == ORPHAN) && prefix <= e[k].target)
      ensures k in b && b[k] == e[k]
    {
      if n[k] != e[k] {
        UnderTheDirectory(e, n[k], db, sorted, path, now);
        KeysDiffer(n[k].operation, n[k].target, e[k].operation, e[k].target);
      }
    }
  }

  lemma UnderTheDirectory(e: Errors, row: ErrorRow, db: Tables.Db, names: seq<string>, path: string, now: string)
    requires NotedNow(e, row, db, names, path, now)
    ensures (row.operation == INVALID || row.operation == ORPHAN) && JoinPath(path, "") <= row.target
  {
    var g :| g in names && row.target == JoinPath(path, g) &&
          if Names.IsSnapshotName(g) then row.operation == ORPHAN && IsOrphan(db, g, path)
            else row.operation == INVALID;
    JoinPathInjective(path, g, g);
  }

  lemma InvalidKept(n: Errors, b: Errors, db: Tables.Db, names: set<string>, path: string, t: string)
    requires WellKeyed(n) && JoinPath(path, "") <= t
    requires b == Reconciled(Reconciled(n, INVALID, JoinPath(path, ""), InvalidPaths(names, path)),
                             ORPHAN, JoinPath(path, ""), OrphanPaths(db, names, path))
    requires forall f | f in names && !Names.IsSnapshotName(f) :: Key(INVALID, JoinPath(path, f)) in n
    ensures Key(INVALID, t) in b <==> t in InvalidPaths(names, path)
  {
    var k := Key(INVALID, t);
    if k in n {
      KeysDiffer(n[k].operation, n[k].target, INVALID, t);
    }
    if t in InvalidPaths(names, path) {
      var f :| f in names && !Names.IsSnapshotName(f) && t == JoinPath(path, f);
    }
  }

  lemma OrphanKept(n: Errors, b: Errors, db: Tables.Db, names: set<string>, path: string, t: string)
    requires WellKeyed(n) && JoinPath(path, "") <= t
    requires b == Reconciled(Reconciled(n, INVALID, JoinPath(path, ""), InvalidPaths(names, path)),
                             ORPHAN, JoinPath(path, ""), OrphanPaths(db, names, path))
    requires forall f | f in names && IsOrphan(db, f, path) :: Key(ORPHAN, JoinPath(path, f)) in n
    ensures Key(ORPHAN, t) in b <==> t in OrphanPaths(db, names, path)
  {
    var k := Key(ORPHAN, t);
    if k in n {
      KeysDiffer(n[k].operation, n[k].target, ORPHAN, t);
    }
    if t in OrphanPaths(db, names, path) {
      var f :| f in names && IsOrphan(db, f, path) && t == JoinPath(path, f);
    }
  }

  // ---------------------------------------------------------------- the rows

  function NamesOfRows(rows: seq<seq<string>>): (names: seq<string>)
    requires forall i | 0 <= i < |rows| :: |rows[i]| == 5
    ensures |names| == |rows|
    ensures forall i | 0 <= i < |rows| :: names[i] == rows[i][0]
  {
    seq(|rows|, i requires 0 <= i < |rows| => rows[i][0])
  }

  /** The files that get rows. */
  ghost function Rowed(db: Tables.Db, names: seq<string>, path: string): seq<string>
  {
    if names == [] then []
    else
      var init, f := Rowed(db, names[..|names| - 1], path), names[|names| - 1];
      if HasRow(db, f, path) then init + [f] else init
  }

  /** Every listed file is in exactly one of rows, invalid names and orphans; the
      rows are those of their files, which come strictly sorted. */
  lemma {:induction false} RowsArePartOfAPartition(db: Tables.Db, names: seq<string>, path: string)
    requires Ordered(names)
    ensures
      var rows, files := RowsOf(db, names, path), Rowed(db, names, path);
      && |rows| == |files| && Ordered(files)
      && (forall i | 0 <= i < |rows| ::
          Lookup(db, files[i], path).Some? && rows[i] == Row(files[i], Lookup(db, files[i], path).value))
      && (forall f | f in files :: f in names)
      && (forall f | f in names ::
            if f in files then Names.IsSnapshotName(f) && !IsOrphan(db, f, path)
            else !Names.IsSnapshotName(f) <==> !IsOrphan(db, f, path))
  {
    if names != [] {
      var init, f := names[..|names| - 1], names[|names| - 1];
      assert names == init + [f];
      RowsArePartOfAPartition(db, init, path);
      LastIsNew(init, f);
      var was := Rowed(db, init, path);
      forall i | 0 <= i < |was| ensures Dates.TextLess(was[i], f) {
        assert was[i] in was && was[i] in init;
        var j :| 0 <= j < |init| && init[j] == was[i];
        assert names[j] == init[j];
      }
    }
  }

  /** Without tabs in the names the rows themselves are sorted by name. */
  lemma RowsAreSorted(db: Tables.Db, names: seq<string>, path: string)
    requires Ordered(names) && forall f | f in names && Names.IsSnapshotName(f) :: '\t' !in f
    ensures forall i | 0 <= i < |RowsOf(db, names, path)| :: |RowsOf(db, names, path)[i]| == 5
    ensures Ordered(NamesOfRows(RowsOf(db, names, path)))
  {
    var rows, files := RowsOf(db, names, path), Rowed(db, names, path);
    RowsArePartOfAPartition(db, names, path);
    forall i | 0 <= i < |rows| ensures |rows[i]| == 5 && rows[i][0] == files[i] {
      assert files[i] in files && files[i] in names;
      Text.SanitiseIsClean(files[i]);
    }
  }

  // ---------------------------------------------------------------- the program

  class ErrorTable {
    var rows: Errors

    constructor ()
      ensures rows == map[]
    {
      rows := map[];
    }

    /** Records a failure if the database lets it: the row's streak is counted once
        more, its first time, its notification and an immediate mark are kept, and
        no other row changes.  A failed commit may leave the change pending. */
    method TryRecord(op: string, target: string, text: string, now: string, severe: bool) returns (ok: bool)
      modifies this
      ensures rows == old(rows) || rows == Recorded(old(rows), op, target, text, now, severe)
      ensures ok ==> rows == Recorded(old(rows), op, target, text, now, severe)
      ensures ok ==>
        var k := Key(op, target);
        && k in rows && rows - {k} == old(rows) - {k}
        && rows[k].lastSeen == now
        && rows[k].message <= Text.Sanitise(text)
        && |rows[k].message| == (if |Text.Sanitise(text)| <= 500 then |Text.Sanitise(text)| else 500)
        && (rows[k].immediate <==>
              || severe || (k in old(rows) && old(rows)[k].immediate)
              || op in {"top_level", "rewrite_manifest", "invalid_filename", "orphan_file", "manifest_invalid"})
        && if k in old(rows) then
             && rows[k].attempts == old(rows)[k].attempts + 1 && rows[k].firstSeen == old(rows)[k].firstSeen
             && rows[k].notified == old(rows)[k].notified && (old(rows)[k].immediate ==> rows[k].immediate)
           else rows[k].attempts == 1 && rows[k].firstSeen == now && !rows[k].notified
    {
      ok := *;
      if !ok {
        return;
      }
      var k, immediate := Key(op, target), IsImmediate(op, severe);
      if k in rows {
        var row := rows[k];
        rows := rows[k := row.(attempts := row.attempts + 1, lastSeen := now, message := Message(text),
                               immediate := row.immediate || immediate)];
      } else {
        rows := rows[k := ErrorRow(op, target, Message(text), now, now, 1, false, immediate)];
      }
      ok := *;
    }

    method TryClear(op: string, target: string) returns (ok: bool)
      modifies this
      ensures rows == old(rows) || rows == old(rows) - {Key(op, target)}
      ensures ok ==> Key(op, target) !in rows
    {
      ok := *;
      if ok {
        rows := rows - {Key(op, target)};
        ok := *;
      }
    }

    /** Deletes, row by row, what is no longer current.  A failure stops it; what it
        deleted before stays deleted. */
    method Reconcile(op: string, dir: string, current: set<string>) returns (ok: bool)
      modifies this
      ensures ok ==> rows == Reconciled(old(rows), op, JoinPath(dir, ""), current)
      ensures forall k | k in rows :: k in old(rows) && rows[k] == old(rows)[k]
      ensures forall k | k in old(rows) && k !in rows ::
                var row := old(rows)[k];
                row.operation == op && JoinPath(dir, "") <= row.target && row.target !in current
      ensures ok ==> forall k | k in rows && rows[k].operation == op && JoinPath(dir, "") <= rows[k].target ::
                       rows[k].target in current
    {
      var prefix, prior := JoinPath(dir, ""), rows;
      var left := prior.Keys;
      while left != {}
        invariant left <= prior.Keys
        invariant forall k :: k in rows <==> k in prior && (k in left || !Stale(prior[k], op, prefix, current))
        invariant forall k | k in rows :: rows[k] == prior[k]
        decreases |left|
      {
        var k :| k in left;
        left := left - {k};
        if Stale(prior[k], op, prefix, current) {
          ok := *;
          if !ok {
            return;
          }
          rows := rows - {k};
        }
      }
      assert rows == Reconciled(prior, op, prefix, current);
      ok := *;
    }
  }

  /** What a pass over the files gathers. */
  datatype Pass = Pass(rows: seq<seq<string>>, invalid: set<string>, orphan: set<string>)

  ghost function PassFile(p: Pass, db: Tables.Db, f: string, path: string): Pass
  {
    if !Names.IsSnapshotName(f) then p.(invalid := p.invalid + {JoinPath(path, f)})
    else if Lookup(db, f, path).None? then p.(orphan := p.orphan + {JoinPath(path, f)})
    else p.(rows := p.rows + [Row(f, Lookup(db, f, path).value)])
  }

  ghost function PassAll(db: Tables.Db, names: seq<string>, path: string): Pass
  {
    if names == [] then Pass([], {}, {})
    else PassFile(PassAll(db, names[..|names| - 1], path), db, names[|names| - 1], path)
  }

  lemma {:induction false} PassGathers(db: Tables.Db, names: seq<string>, path: string)
    ensures
      var p := PassAll(db, names, path);
      && p.rows == RowsOf(db, names, path)
      && p.invalid == InvalidPaths(Members(names), path)
      && p.orphan == OrphanPaths(db, Members(names), path)
  {
    if names == [] {
      assert Members(names) == {};
    } else {
      var init, f := names[..|names| - 1], names[|names| - 1];
      PassGathers(db, init, path);
      MembersNext(db, init, f, path);
      assert init + [f] == names;
    }
  }

  /** The rows of a directory's manifest; `ok` says that every write to the error
      table succeeded. */
  method BuildManifestRows(errors: ErrorTable, db: Tables.Db, dir: Directory, path: string, now: string)
    returns (rows: seq<seq<string>>, ok: bool)
    modifies errors
    ensures rows == RowsOf(db, SortedNames(ListedNames(dir, path)), path)
    ensures ok ==> errors.rows == Built(old(errors.rows), db, ListedNames(dir, path), path, now)
  {
    var files := Sort(ListedNames(dir, path));
    var p, noted := NoteFiles(errors, db, files, path, now);
    PassGathers(db, files, path);
    assert Members(files) == ListedNames(dir, path);
    rows := p.rows;
    var cleared := errors.Reconcile(INVALID, path, p.invalid);
    var healed := errors.Reconcile(ORPHAN, path, p.orphan);
    ok := noted && cleared && healed;
  }

  method NoteFiles(errors: ErrorTable, db: Tables.Db, files: seq<string>, path: string, now: string)
    returns (p: Pass, ok: bool)
    modifies errors
    ensures p == PassAll(db, files, path)
    ensures ok ==> errors.rows == Noted(old(errors.rows), db, files, path, now)
  {
    p, ok := Pass([], {}, {}), true;
    var i := 0;
    while i < |files|
      invariant 0 <= i <= |files|
      invariant p == PassAll(db, files[..i], path)
      invariant ok ==> errors.rows == Noted(old(errors.rows), db, files[..i], path, now)
    {
      assert files[..i + 1][..i] == files[..i];
      var done;
      p, done := NoteFile(errors, p, db, files[i], path, now);
      ok := ok && done;
      i := i + 1;
    }
    assert files[..i] == files;
  }

  /** One file: a row, or one of the two errors. */
  method NoteFile(errors: ErrorTable, before: Pass, db: Tables.Db, f: string, path: string, now: string)
    returns (p: Pass, ok: bool)
    modifies errors
    ensures p == PassFile(before, db, f, path)
    ensures ok ==> errors.rows == NotedFile(old(errors.rows), db, f, path, now)
  {
    p := before;
    var full := JoinPath(path, f);
    if !Names.IsSnapshotName(f) {
      ok := errors.TryRecord(INVALID, full, INVALID_TEXT, now, false);
      return p.(invalid := p.invalid + {full}), ok;
    }
    var info := LookupEvent(db, f, path);
    if info.None? {
      ok := errors.TryRecord(ORPHAN, full, ORPHAN_TEXT, now, false);
      return p.(orphan := p.orphan + {full}), ok;
    }
    return p.(rows := p.rows + [Row(f, info.value)]), true;
  }

  ghost function Members(names: seq<string>): set<string>
  {
    set f | f in names
  }

  lemma MembersNext(db: Tables.Db, seen: seq<string>, f: string, path: string)
    ensures InvalidPaths(Members(seen + [f]), path)
         == InvalidPaths(Members(seen), path) + if Names.IsSnapshotName(f) then {} else {JoinPath(path, f)}
    ensures OrphanPaths(db, Members(seen + [f]), path)
         == OrphanPaths(db, Members(seen), path) + if IsOrphan(db, f, path) then {JoinPath(path, f)} else {}
  {
    assert Members(seen + [f]) == Members(seen) + {f};
  }
}
