/** What a rebuild gives back of the live database. */
module RebuildCorrect {
  import Text
  import Names
  import opened Tables
  import opened Replay
  import opened HostLog
  import opened Rebuilder
  import opened Rebuild
  import opened Seqs

  // ---------------------------------------------------------------- one host run after the other

  /** A host run all of whose log writes succeed; its transaction was committed or
      rolled back. */
  datatype Invocation = Invocation(id: string, m: Message, written: bool, error: string)

  /** `Archived` is a completed move; after `Copied` the file is in the archive while
      the rows were not updated. */
  datatype Happening = Ran(run: Invocation) | Archived(name: string) | Copied(name: string)

  datatype Live = Live(db: Db, log: seq<string>, archive: set<string>)

  function Outcome(r: Invocation): string
  {
    if r.written then "success" else r.error
  }

  function Lived(h: seq<Happening>, root: string, downloads: string): Live
  {
    if h == [] then Live(EMPTY, [], {})
    else
      var l := Lived(h[..|h| - 1], root, downloads);
      match h[|h| - 1]
      case Ran(r) =>
        l.(db := if r.written then RunOps(l.db, HostOps(r.m, false, downloads)) else l.db,
           log := l.log + [PrintAction(r.id, r.m), PrintResult(r.id, Outcome(r))])
      case Archived(name) =>
        l.(db := RelocateRows(l.db, name, Names.DateDir(root, name), downloads), archive := l.archive + {name})
      case Copied(name) => l.(archive := l.archive + {name})
  }

  /** Fields that the log keeps as they are. */
  predicate Plain(m: Message)
  {
    && ValidTag(m.tag) && Text.Clean(m.timestamp) && Text.Clean(m.url) && Text.Clean(m.title) && Text.Clean(m.filename)
    && (m.filename == "" || m.filename[|m.filename| - 1] != '/')
  }

  ghost predicate Orderly(h: seq<Happening>)
  {
    forall i | 0 <= i < |h| ::
      match h[i]
      case Ran(r) => IsRecordId(r.id) && Plain(r.m) && "error: " <= r.error
      case Archived(name) => Names.IsSnapshotName(name)
      case Copied(name) => Names.IsSnapshotName(name)
  }

  /** The archive as the rebuild lists it: each snapshot in its date's directory,
      among whatever other files there are. */
  ghost predicate Lists(dirs: seq<DateDirectory>, archive: set<string>, root: string)
  {
    && (forall i, f | 0 <= i < |dirs| && Holds(dirs[i], f) :: f in archive && dirs[i].path == Names.DateDir(root, f))
    && (forall f | f in archive :: exists i :: 0 <= i < |dirs| && Holds(dirs[i], f))
  }

  /** No row still says Downloads of a file that is in the archive. */
  ghost predicate NoneLeftBehind(l: Live, downloads: string)
  {
    forall k | k in l.db.events && l.db.events[k].directory == downloads :: l.db.events[k].filename !in l.archive
  }

  /** On plain messages the host and the rebuild run the same statements. */
  lemma SameStatements(m: Message, downloads: string)
    requires Plain(m)
    ensures ActionOps(Printed(m), downloads) == HostOps(m, false, downloads)
  {
    SwiftIsIdentity(m.timestamp);
    SwiftIsIdentity(m.url);
    SwiftIsIdentity(m.title);
    SwiftIsIdentity(m.filename);
    Text.BasenamesAgree(m.filename);
  }

  /** Equal but for where event rows say their files are: `r` says Downloads
      throughout, `live` that or, for archived files, the date's directory. */
  ghost predicate SameButPlaces(live: Db, r: Db, archive: set<string>, root: string, downloads: string)
  {
    && live.visits == r.visits && live.events.Keys == r.events.Keys
    && forall k | k in live.events ::
         && r.events[k] == Event(live.events[k].filename, downloads)
         && (live.events[k].directory == downloads
             || (live.events[k].directory == Names.DateDir(root, live.events[k].filename)
               && live.events[k].filename in archive))
  }

  lemma {:induction false} SameOps(live: Db, r: Db, archive: set<string>, root: string, downloads: string, ops: seq<Op>)
    requires SameButPlaces(live, r, archive, root, downloads)
    requires forall op | op in ops && op.AddEvent? :: op.row.directory == downloads
    ensures SameButPlaces(RunOps(live, ops), RunOps(r, ops), archive, root, downloads)
    decreases |ops|
  {
    if ops != [] {
      assert ops[0] in ops;
      SameOps(RunOp(live, ops[0]), RunOp(r, ops[0]), archive, root, downloads, ops[1..]);
    }
  }

  lemma SameMore(live: Db, r: Db, archive: set<string>, name: string, root: string, downloads: string)
    requires SameButPlaces(live, r, archive, root, downloads)
    ensures SameButPlaces(live, r, archive + {name}, root, downloads)
    ensures SameButPlaces(RelocateRows(live, name, Names.DateDir(root, name), downloads), r, archive + {name}, root,
        downloads)
  {
  }

  /** A pair of lines takes effect at once and leaves nothing pending. */
  lemma PairReplayed(s: State, r: Invocation, downloads: string)
    requires IsRecordId(r.id) && Plain(r.m) && "error: " <= r.error && s.pending == map[]
    ensures
      var t := ReplayedAll(s, [PrintAction(r.id, r.m), PrintResult(r.id, Outcome(r))], downloads);
      && t.pending == map[]
      && t.db == if r.written then RunOps(s.db, HostOps(r.m, false, downloads)) else s.db
  {
    ActionRoundTrip(r.id, r.m);
    ResultRoundTrip(r.id, Outcome(r));
    SameStatements(r.m, downloads);
    TwoLines(s, PrintAction(r.id, r.m), PrintResult(r.id, Outcome(r)), downloads);
    assert r.error != "success" by {
      assert r.error[0] == 'e';
    }
    var u := Replayed(s, PrintAction(r.id, r.m), downloads);
    assert u.pending == map[r.id := Printed(r.m)];
    assert u.pending - {r.id} == map[];
  }

  lemma {:induction false} ReplayFollowsLife(h: seq<Happening>, root: string, downloads: string)
    requires Orderly(h)
    ensures
      var l := Lived(h, root, downloads);
      var r := ReplayedAll(BLANK, l.log, downloads);
      r.pending == map[] && SameButPlaces(l.db, r.db, l.archive, root, downloads)
    ensures forall f | f in Lived(h, root, downloads).archive :: Names.IsSnapshotName(f)
  {
    if h != [] {
      var init := h[..|h| - 1];
      assert forall i | 0 <= i < |init| :: init[i] == h[i];
      ReplayFollowsLife(init, root, downloads);
      var l := Lived(init, root, downloads);
      var r := ReplayedAll(BLANK, l.log, downloads);
      match h[|h| - 1]
      case Ran(run) =>
        var pair := [PrintAction(run.id, run.m), PrintResult(run.id, Outcome(run))];
        ReplayConcat(BLANK, l.log, pair, downloads);
        PairReplayed(r, run, downloads);
        SameOps(l.db, r.db, l.archive, root, downloads, HostOps(run.m, false, downloads));
      case Archived(name) => SameMore(l.db, r.db, l.archive, name, root, downloads);
      case Copied(name) => SameMore(l.db, r.db, l.archive, name, root, downloads);
    }
  }

  lemma {:induction false} FoundInArchive(dirs: seq<DateDirectory>, name: string, root: string, downloads: string)
    requires forall i | 0 <= i < |dirs| && Holds(dirs[i], name) :: dirs[i].path == Names.DateDir(root, name)
    requires Names.DateDir(root, name) != downloads
    ensures FoundIn(dirs, name, downloads) ==
      if exists i :: 0 <= i < |dirs| && Holds(dirs[i], name) then Some(Names.DateDir(root, name)) else None
  {
    if dirs != [] {
      assert forall i | 0 <= i < |dirs| - 1 :: dirs[1..][i] == dirs[i + 1];
      FoundInArchive(dirs[1..], name, root, downloads);
      if i :| 0 <= i < |dirs| && Holds(dirs[i], name) {
        assert i > 0 ==> Holds(dirs[1..][i - 1], name);
      }
    }
  }

  /** Truncating, replaying and rehydrating after any sequential history of
      committed and rolled-back runs and of moves gives exactly the live visits,
      event rows and counters, if and only if no live row was left behind. */
  lemma RebuildIsExact(h: seq<Happening>, root: string, downloads: string, dirs: seq<DateDirectory>)
    requires Orderly(h) && Lists(dirs, Lived(h, root, downloads).archive, root)
    requires forall name: string :: Names.DateDir(root, name) != downloads
    ensures
      var l := Lived(h, root, downloads);
      Rehydrated(ReplayedAll(BLANK, l.log, downloads).db, dirs, downloads) == l.db <==> NoneLeftBehind(l, downloads)
  {
    var l := Lived(h, root, downloads);
    var now := Rehydrated(ReplayedAll(BLANK, l.log, downloads).db, dirs, downloads);
    RowsExactly(h, root, downloads, dirs);
    if NoneLeftBehind(l, downloads) {
      assert now.events == l.db.events;
    }
  }

  lemma RowsExactly(h: seq<Happening>, root: string, downloads: string, dirs: seq<DateDirectory>)
    requires Orderly(h) && Lists(dirs, Lived(h, root, downloads).archive, root)
    requires forall name: string :: Names.DateDir(root, name) != downloads
    ensures
      var l := Lived(h, root, downloads);
      var now := Rehydrated(ReplayedAll(BLANK, l.log, downloads).db, dirs, downloads);
      && now.events.Keys == l.db.events.Keys && now.visits == l.db.visits
      && forall k | k in l.db.events :: now.events[k] == l.db.events[k] <==>
           (l.db.events[k].directory == downloads ==> l.db.events[k].filename !in l.archive)
  {
    var l := Lived(h, root, downloads);
    var r := ReplayedAll(BLANK, l.log, downloads).db;
    ReplayFollowsLife(h, root, downloads);
    forall k | k in l.db.events
      ensures Rehydrated(r, dirs, downloads).events[k] == l.db.events[k] <==>
        (l.db.events[k].directory == downloads ==> l.db.events[k].filename !in l.archive)
    {
      FoundInArchive(dirs, l.db.events[k].filename, root, downloads);
    }
  }

  // ---------------------------------------------------------------- host runs at the same time

  /** `result` is what the host printed last. */
  datatype Call = Call(m: Message, written: bool, result: string)

  /** The three writes of a host run; a killed host leaves out the later ones. */
  datatype Part = Logs(id: string) | Writes(id: string) | Closes(id: string)

  /** Any interleaving of any number of host runs, each part at most once and the
      result last; a success is reported only after both other parts. */
  ghost predicate Proper(h: seq<Part>, calls: map<string, Call>)
  {
    && (forall i | 0 <= i < |h| ::
          h[i].id in calls && IsRecordId(h[i].id) && Plain(calls[h[i].id].m) && IsResult(calls[h[i].id].result))
    && (forall i, j | 0 <= i < j < |h| :: h[i] != h[j] && (h[i].Closes? ==> h[i].id != h[j].id))
    && (forall i | 0 <= i < |h| && h[i].Closes? && calls[h[i].id].result == "success" ::
          calls[h[i].id].written && Logs(h[i].id) in h && Writes(h[i].id) in h)
  }

  /** Every committed write was logged and reported. */
  ghost predicate Complete(h: seq<Part>, calls: map<string, Call>)
  {
    forall i | 0 <= i < |h| && h[i].Writes? && h[i].id in calls && calls[h[i].id].written ::
      Closes(h[i].id) in h && calls[h[i].id].result == "success"
  }

  function LogOf(h: seq<Part>, calls: map<string, Call>): seq<string>
    requires forall i | 0 <= i < |h| :: h[i].id in calls
  {
    if h == [] then []
    else
      var log, p := LogOf(h[..|h| - 1], calls), h[|h| - 1];
      match p
      case Logs(id) => log + [PrintAction(id, calls[id].m)]
      case Writes(_) => log
      case Closes(id) => log + [PrintResult(id, calls[id].result)]
  }

  function LiveOps(h: seq<Part>, calls: map<string, Call>, downloads: string): seq<Op>
    requires forall i | 0 <= i < |h| :: h[i].id in calls
  {
    if h == [] then []
    else
      var ops, p := LiveOps(h[..|h| - 1], calls, downloads), h[|h| - 1];
      if p.Writes? && calls[p.id].written then ops + HostOps(calls[p.id].m, false, downloads) else ops
  }

  ghost predicate CallSays(c: Call, f: Fact)
  {
    InOps(HostOps(c.m, false, ""), f)
  }

  ghost predicate Told(h: seq<Part>, calls: map<string, Call>, f: Fact)
    requires forall i | 0 <= i < |h| :: h[i].id in calls
  {
    exists i :: 0 <= i < |h| && h[i].Closes? && calls[h[i].id].result == "success" && CallSays(calls[h[i].id], f)
  }

  ghost predicate Done(h: seq<Part>, calls: map<string, Call>, f: Fact)
    requires forall i | 0 <= i < |h| :: h[i].id in calls
  {
    exists i :: 0 <= i < |h| && h[i].Writes? && calls[h[i].id].written && CallSays(calls[h[i].id], f)
  }

  lemma SaysAnywhere(m: Message, downloads: string, f: Fact)
    ensures InOps(HostOps(m, false, downloads), f) <==> InOps(HostOps(m, false, ""), f)
  {
    OpsFacts(HostOps(m, false, downloads));
    OpsFacts(HostOps(m, false, ""));
  }

  lemma {:induction false} LiveFacts(h: seq<Part>, calls: map<string, Call>, downloads: string, urls: set<string>)
    requires forall i | 0 <= i < |h| :: h[i].id in calls
    ensures Guarded(urls, LiveOps(h, calls, downloads))
    ensures forall f :: InOps(LiveOps(h, calls, downloads), f) <==> Done(h, calls, f)
  {
    if h != [] {
      var init, p := h[..|h| - 1], h[|h| - 1];
      assert forall i | 0 <= i < |init| :: init[i] == h[i];
      LiveFacts(init, calls, downloads, urls);
      HostOpsGuarded(calls[p.id].m, false, downloads, urls);
      GuardedConcat(urls, LiveOps(init, calls, downloads), HostOps(calls[p.id].m, false, downloads));
      forall f ensures InOps(LiveOps(h, calls, downloads), f) <==> Done(h, calls, f) {
        InOpsConcat(LiveOps(init, calls, downloads), HostOps(calls[p.id].m, false, downloads), f);
        SaysAnywhere(calls[p.id].m, downloads, f);
        DoneSnoc(h, calls, f);
      }
    }
  }

  lemma DoneSnoc(h: seq<Part>, calls: map<string, Call>, f: Fact)
    requires h != [] && forall i | 0 <= i < |h| :: h[i].id in calls
    ensures
      var init, p := h[..|h| - 1], h[|h| - 1];
      Done(h, calls, f) <==> Done(init, calls, f) || (p.Writes? && calls[p.id].written && CallSays(calls[p.id], f))
  {
    var init := h[..|h| - 1];
    assert forall i | 0 <= i < |init| :: init[i] == h[i];
    if Done(init, calls, f) {
      var i :| 0 <= i < |init| && init[i].Writes? && calls[init[i].id].written && CallSays(calls[init[i].id], f);
      assert h[i].Writes?;
    }
  }

  /** One part more has told one fact more only if it closes a success. */
  lemma ToldNext(h: seq<Part>, calls: map<string, Call>, n: nat, f: Fact)
    requires n < |h| && forall i | 0 <= i < |h| :: h[i].id in calls
    ensures Told(h[..n + 1], calls, f) <==>
        Told(h[..n], calls, f)
        || (h[n].Closes? && calls[h[n].id].result == "success" && CallSays(calls[h[n].id], f))
  {
    var was, now := h[..n], h[..n + 1];
    assert forall i | 0 <= i < n :: was[i] == h[i];
    assert forall i | 0 <= i <= n :: now[i] == h[i];
    if i :| 0 <= i < n && was[i].Closes? && calls[was[i].id].result == "success" && CallSays(calls[was[i].id], f) {
      assert now[i].Closes?;
    }
    if h[n].Closes? {
      assert now[n].Closes?;
    }
    if i :| 0 <= i <= n && now[i].Closes? && calls[now[i].id].result == "success" && CallSays(calls[now[i].id], f) {
      assert i < n ==> was[i].Closes?;
    }
  }

  ghost predicate PendingAt(h: seq<Part>, calls: map<string, Call>, n: nat, pending: map<string, Message>)
    requires n <= |h|
  {
    && (forall id :: id in pending <==> Logs(id) in h[..n] && Closes(id) !in h[..n])
    && (forall id | id in pending :: id in calls && pending[id] == Printed(calls[id].m))
  }

  ghost predicate FactsAt(h: seq<Part>, calls: map<string, Call>, n: nat, db: Db)
    requires n <= |h| && forall i | 0 <= i < |h| :: h[i].id in calls
  {
    Consistent(db) && forall f :: InDb(db, f) <==> Told(h[..n], calls, f)
  }

  /** What the replay has read and what it waits for, after the first n parts. */
  ghost predicate ReplayAt(h: seq<Part>, calls: map<string, Call>, n: nat, s: State)
    requires n <= |h| && forall i | 0 <= i < |h| :: h[i].id in calls
  {
    PendingAt(h, calls, n, s.pending) && FactsAt(h, calls, n, s.db)
  }

  lemma LogBeforeClose(h: seq<Part>, calls: map<string, Call>, n: nat)
    requires Proper(h, calls) && n < |h| && h[n].Closes?
    ensures calls[h[n].id].result == "success" ==> Logs(h[n].id) in h[..n]
    ensures Closes(h[n].id) !in h[..n]
  {
    var id := h[n].id;
    if calls[id].result == "success" {
      var i :| 0 <= i < |h| && h[i] == Logs(id);
      assert i < n;
      assert h[..n][i] == Logs(id);
    }
    assert forall i | 0 <= i < n :: h[..n][i] == h[i] && h[i] != h[n];
  }

  lemma LoggedNow(s: State, id: string, m: Message, downloads: string)
    requires IsRecordId(id) && ValidTag(m.tag)
    ensures
      var t := Replayed(s, PrintAction(id, m), downloads);
      t.db == s.db && t.pending == s.pending[id := Printed(m)]
  {
    ActionRoundTrip(id, m);
  }

  lemma ClosedNow(s: State, id: string, c: Call, downloads: string)
    requires IsRecordId(id) && Plain(c.m) && IsResult(c.result) && Consistent(s.db)
    requires id in s.pending ==> s.pending[id] == Printed(c.m)
    ensures
      var t := Replayed(s, PrintResult(id, c.result), downloads);
      && Consistent(t.db) && t.pending == s.pending - {id}
      && forall f :: InDb(t.db, f) <==> InDb(s.db, f) || (id in s.pending && c.result == "success" && CallSays(c, f))
  {
    ResultRoundTrip(id, c.result);
    SameStatements(c.m, downloads);
    HostOpsGuarded(c.m, false, downloads, s.db.visits.Keys);
    RunFacts(s.db, HostOps(c.m, false, downloads));
    forall f ensures InOps(HostOps(c.m, false, downloads), f) <==> CallSays(c, f) {
      SaysAnywhere(c.m, downloads, f);
    }
    if id !in s.pending {
      assert s.pending - {id} == s.pending;
    }
  }

  lemma OpenYet(h: seq<Part>, calls: map<string, Call>, n: nat)
    requires Proper(h, calls) && n < |h| && !h[n].Closes?
    ensures Closes(h[n].id) !in h[..n]
  {
    assert forall i | 0 <= i < n :: h[..n][i] == h[i] && (h[i].Closes? ==> h[i].id != h[n].id);
  }

  lemma PartsSoFar(h: seq<Part>, n: nat)
    requires n < |h|
    ensures forall p :: p in h[..n + 1] <==> p in h[..n] || p == h[n]
  {
    assert h[..n + 1] == h[..n] + [h[n]];
  }

  lemma SameTold(h: seq<Part>, calls: map<string, Call>, n: nat, db: Db)
    requires n < |h| && (forall i | 0 <= i < |h| :: h[i].id in calls)
    requires !h[n].Closes? && FactsAt(h, calls, n, db)
    ensures FactsAt(h, calls, n + 1, db)
  {
    forall f ensures Told(h[..n + 1], calls, f) <==> Told(h[..n], calls, f) {
      ToldNext(h, calls, n, f);
    }
  }

  lemma AfterLogging(h: seq<Part>, calls: map<string, Call>, n: nat, p: map<string, Message>)
    requires Proper(h, calls) && n < |h| && h[n].Logs? && PendingAt(h, calls, n, p)
    ensures PendingAt(h, calls, n + 1, p[h[n].id := Printed(calls[h[n].id].m)])
  {
    PartsSoFar(h, n);
    OpenYet(h, calls, n);
  }

  lemma AfterWriting(h: seq<Part>, calls: map<string, Call>, n: nat, p: map<string, Message>)
    requires n < |h| && h[n].Writes? && PendingAt(h, calls, n, p)
    ensures PendingAt(h, calls, n + 1, p)
  {
    PartsSoFar(h, n);
  }

  lemma AfterClosing(h: seq<Part>, calls: map<string, Call>, n: nat, p: map<string, Message>)
    requires n < |h| && h[n].Closes? && PendingAt(h, calls, n, p)
    ensures PendingAt(h, calls, n + 1, p - {h[n].id})
  {
    PartsSoFar(h, n);
  }

  lemma ToldByClosing(h: seq<Part>, calls: map<string, Call>, n: nat, s: State, db: Db)
    requires Proper(h, calls) && n < |h| && h[n].Closes? && ReplayAt(h, calls, n, s) && Consistent(db)
    requires forall f :: InDb(db, f) <==>
               (InDb(s.db, f) || (h[n].id in s.pending && calls[h[n].id].result == "success"
                 && CallSays(calls[h[n].id], f)))
    ensures FactsAt(h, calls, n + 1, db)
  {
    LogBeforeClose(h, calls, n);
    forall f ensures InDb(db, f) <==> Told(h[..n + 1], calls, f) {
      ToldNext(h, calls, n, f);
    }
  }

  lemma LogsStep(h: seq<Part>, calls: map<string, Call>, n: nat, s: State, downloads: string)
    requires Proper(h, calls) && n < |h| && h[n].Logs? && ReplayAt(h, calls, n, s)
    ensures ReplayAt(h, calls, n + 1, Replayed(s, PrintAction(h[n].id, calls[h[n].id].m), downloads))
  {
    LoggedNow(s, h[n].id, calls[h[n].id].m, downloads);
    AfterLogging(h, calls, n, s.pending);
    SameTold(h, calls, n, s.db);
  }

  lemma ClosesStep(h: seq<Part>, calls: map<string, Call>, n: nat, s: State, downloads: string)
    requires Proper(h, calls) && n < |h| && h[n].Closes? && ReplayAt(h, calls, n, s)
    ensures ReplayAt(h, calls, n + 1, Replayed(s, PrintResult(h[n].id, calls[h[n].id].result), downloads))
  {
    var t := Replayed(s, PrintResult(h[n].id, calls[h[n].id].result), downloads);
    ClosedNow(s, h[n].id, calls[h[n].id], downloads);
    AfterClosing(h, calls, n, s.pending);
    ToldByClosing(h, calls, n, s, t.db);
  }

  lemma {:induction false} ReplayReaches(h: seq<Part>, calls: map<string, Call>, n: nat, downloads: string)
    requires Proper(h, calls) && n <= |h|
    ensures ReplayAt(h, calls, n, ReplayedAll(BLANK, LogOf(h[..n], calls), downloads))
    decreases n
  {
    if n == 0 {
      NothingReplayed(h, calls, downloads);
    } else {
      ReplayReaches(h, calls, n - 1, downloads);
      NextPart(h, calls, n - 1, ReplayedAll(BLANK, LogOf(h[..n - 1], calls), downloads), downloads);
    }
  }

  lemma NothingReplayed(h: seq<Part>, calls: map<string, Call>, downloads: string)
    requires forall i | 0 <= i < |h| :: h[i].id in calls
    ensures ReplayAt(h, calls, 0, ReplayedAll(BLANK, LogOf(h[..0], calls), downloads))
  {
    EmptyIsConsistent();
    assert h[..0] == [] && forall f :: !InDb(EMPTY, f);
  }

  lemma NextPart(h: seq<Part>, calls: map<string, Call>, n: nat, s: State, downloads: string)
    requires Proper(h, calls) && n < |h| && ReplayAt(h, calls, n, s)
    requires s == ReplayedAll(BLANK, LogOf(h[..n], calls), downloads)
    ensures ReplayAt(h, calls, n + 1, ReplayedAll(BLANK, LogOf(h[..n + 1], calls), downloads))
  {
    LogGrows(h, calls, n, downloads);
    match h[n]
    case Logs(_) => LogsStep(h, calls, n, s, downloads);
    case Writes(_) =>
      AfterWriting(h, calls, n, s.pending);
      SameTold(h, calls, n, s.db);
    case Closes(_) => ClosesStep(h, calls, n, s, downloads);
  }

  lemma LogGrows(h: seq<Part>, calls: map<string, Call>, n: nat, downloads: string)
    requires n < |h| && forall i | 0 <= i < |h| :: h[i].id in calls
    ensures
      var s := ReplayedAll(BLANK, LogOf(h[..n], calls), downloads);
      ReplayedAll(BLANK, LogOf(h[..n + 1], calls), downloads) ==
        match h[n]
        case Logs(id) => Replayed(s, PrintAction(id, calls[id].m), downloads)
        case Writes(_) => s
        case Closes(id) => Replayed(s, PrintResult(id, calls[id].result), downloads)
  {
    Longer(h, n);
  }

  /** The replay of a log says exactly what its reported successes say. */
  lemma RebuiltSaysTold(h: seq<Part>, calls: map<string, Call>, downloads: string)
    requires Proper(h, calls)
    ensures
      var rebuilt := ReplayedAll(BLANK, LogOf(h, calls), downloads).db;
      Consistent(rebuilt) && forall f :: InDb(rebuilt, f) <==> Told(h, calls, f)
  {
    assert h[..|h|] == h;
    ReplayReaches(h, calls, |h|, downloads);
  }

  /** The live database says exactly what the committed runs say. */
  lemma LiveSaysDone(h: seq<Part>, calls: map<string, Call>, downloads: string)
    requires Proper(h, calls)
    ensures
      var live := RunOps(EMPTY, LiveOps(h, calls, downloads));
      Consistent(live) && forall f :: InDb(live, f) <==> Done(h, calls, f)
  {
    EmptyIsConsistent();
    LiveFacts(h, calls, downloads, EMPTY.visits.Keys);
    RunFacts(EMPTY, LiveOps(h, calls, downloads));
  }

  /** A success is reported of what was committed; of a complete history, of all. */
  lemma ToldIsDone(h: seq<Part>, calls: map<string, Call>)
    requires Proper(h, calls)
    ensures forall f | Told(h, calls, f) :: Done(h, calls, f)
    ensures Complete(h, calls) ==> forall f | Done(h, calls, f) :: Told(h, calls, f)
  {
    forall f | Told(h, calls, f) ensures Done(h, calls, f) {
      var i :| 0 <= i < |h| && h[i].Closes? && calls[h[i].id].result == "success" && CallSays(calls[h[i].id], f);
      var j :| 0 <= j < |h| && h[j] == Writes(h[i].id);
      assert h[j].Writes?;
    }
    if Complete(h, calls) {
      forall f | Done(h, calls, f) ensures Told(h, calls, f) {
        var i :| 0 <= i < |h| && h[i].Writes? && calls[h[i].id].written && CallSays(calls[h[i].id], f);
        var j :| 0 <= j < |h| && h[j] == Closes(h[i].id);
        assert h[j].Closes?;
      }
    }
  }

  /** From any interleaving of any host runs, killed ones included, the rebuild
      says exactly what successes say: nothing that was not committed, and if
      every committed run was logged and reported, all of it; then the
      order-insensitive part is that of the live database, whatever the order of
      the lines. */
  lemma InterleavedRebuild(h: seq<Part>, calls: map<string, Call>, downloads: string)
    requires Proper(h, calls)
    ensures
      var live := RunOps(EMPTY, LiveOps(h, calls, downloads));
      var rebuilt := ReplayedAll(BLANK, LogOf(h, calls), downloads).db;
      && (forall f | InDb(rebuilt, f) :: InDb(live, f))
      && (Complete(h, calls) ==> Summarise(rebuilt) == Summarise(live))
  {
    RebuiltSaysTold(h, calls, downloads);
    LiveSaysDone(h, calls, downloads);
    ToldIsDone(h, calls);
    if Complete(h, calls) {
      FactsDecide(ReplayedAll(BLANK, LogOf(h, calls), downloads).db, RunOps(EMPTY, LiveOps(h, calls, downloads)));
    }
  }
}
