/** The invariant of the replication protocol holds in every run. */
module ProtocolProof {
  import opened Dates
  import opened DayLogs
  import opened Tables
  import opened Replay
  import opened Mirror
  import opened SyncSteps
  import opened Protocol

  // ---------------------------------------------------------------- monotonicity

  ghost predicate LinesDated(log: DayLog)
  {
    forall x | Has(log, x) :: x.date > NO_DATE
  }

  /** What a step of the server may do as seen from the laptops: mirrors extend at
      their ends, facts are added, calls work off their statements. */
  ghost predicate Grows(v: ServerState, w: ServerState)
  {
    && MirrorsGrow(v, w)
    && (forall f | InDb(v.db, f) :: InDb(w.db, f))
    && CallsWorkOff(v, w)
  }

  ghost predicate MirrorsGrow(v: ServerState, w: ServerState)
  {
    && (forall m :: PrefixOf(MirrorOf(v, m), MirrorOf(w, m)) && LinesDated(MirrorOf(w, m)))
    && (forall m | m in v.dirs :: m in w.dirs)
  }

  ghost predicate CallsWorkOff(v: ServerState, w: ServerState)
  {
    && v.next <= w.next
    && forall id | id in w.calls && id < v.next ::
         id in v.calls && forall f | InOps(v.calls[id], f) :: InDb(w.db, f) || InOps(w.calls[id], f)
  }

  lemma PointsMono(c: Cursor, m: DayLog, w: DayLog)
    requires Points(c, m) && PrefixOf(m, w)
    ensures Points(c, w)
  {
    if c.date != NO_DATE {
      var x := LogLine(c.date, c.offset, m[c.date][c.offset]);
      assert Has(m, x) && Has(w, x);
    }
  }

  lemma ReflectedMono(m: DayLog, w: DayLog, c: Cursor, db: Db)
    requires Reflected(m, c, db) && Points(c, m) && PrefixOf(m, w) && LinesDated(w)
    ensures Reflected(w, c, db)
  {
    forall x, f | Has(w, x) && LineSays(x, f) && !Past(x, c) ensures InDb(db, f) {
      var y := LogLine(c.date, c.offset, m[c.date][c.offset]);
      assert Has(m, y) && Has(w, y);
      assert x == y || Before(x, y);
      assert Has(m, x);
    }
  }

  lemma AcknowledgedMono(log: DayLog, c: Cursor, v: ServerState, w: ServerState, m: string)
    requires Acknowledged(log, c, v, m) && Grows(v, w)
    ensures Acknowledged(log, c, w, m)
  {
    assert PrefixOf(MirrorOf(v, m), MirrorOf(w, m));
    PointsMono(c, MirrorOf(v, m), MirrorOf(w, m));
  }

  lemma LogSaysMono(m: DayLog, w: DayLog, f: Fact)
    requires LogSays(m, f) && forall x :: Has(m, x) ==> Has(w, x)
    ensures LogSays(w, f)
  {
    var x :| Has(m, x) && LineSays(x, f);
    assert Has(w, x);
  }

  lemma SourcedMono(m: string, log: DayLog, db: Db, v: ServerState, w: ServerState)
    requires SourcedOk(m, log, db, v) && Grows(v, w)
    ensures SourcedOk(m, log, db, w)
  {
    forall f | InDb(db, f) ensures LogSays(log, f) || MirrorsSay(w, f) {
      if !LogSays(log, f) {
        var p :| p in v.dirs && LogSays(MirrorOf(v, p), f);
        assert PrefixOf(MirrorOf(v, p), MirrorOf(w, p));
        LogSaysMono(MirrorOf(v, p), MirrorOf(w, p), f);
      }
    }
  }

  lemma TablesMono(m: string, log: DayLog, t: LaptopTables, v: ServerState, w: ServerState)
    requires TablesOk(m, log, t, v) && Grows(v, w)
    ensures TablesOk(m, log, t, w)
  {
    AcknowledgedMono(log, GetCursor(t, m), v, w, m);
    forall p | p != m
      ensures Reflected(MirrorOf(w, p), GetCursor(t, p), t.db) && Points(GetCursor(t, p), MirrorOf(w, p))
    {
      assert PrefixOf(MirrorOf(v, p), MirrorOf(w, p));
      ReflectedMono(MirrorOf(v, p), MirrorOf(w, p), GetCursor(t, p), t.db);
      PointsMono(GetCursor(t, p), MirrorOf(v, p), MirrorOf(w, p));
    }
    SourcedMono(m, log, t.db, v, w);
  }

  lemma PushMono(m: string, l: Laptop, v: ServerState, w: ServerState)
    requires PushOk(m, l, v) && Grows(v, w)
    ensures PushOk(m, l, w)
  {
    assert PrefixOf(MirrorOf(v, m), MirrorOf(w, m));
    match l.phase
    case Pushing(upTo) => AcknowledgedMono(l.log, upTo, v, w, m);
    case Waiting(upTo, end, call) =>
      AcknowledgedMono(l.log, upTo, v, w, m);
      PointsMono(end, MirrorOf(v, m), MirrorOf(w, m));
    case _ =>
  }

  /** A laptop is not disturbed by what the server does meanwhile. */
  lemma LaptopMono(m: string, l: Laptop, v: ServerState, w: ServerState)
    requires LaptopOk(m, l, v) && Grows(v, w)
    ensures LaptopOk(m, l, w)
  {
    TablesMono(m, l.log, l.disk, v, w);
    TablesMono(m, l.log, l.work, v, w);
    PushMono(m, l, v, w);
  }

  // ---------------------------------------------------------------- statements of pulled lines

  lemma {:induction false} LineOpsGuarded(urls: set<string>, lines: seq<LogLine>, directory: string)
    ensures Guarded(urls, LineOps(lines, directory))
  {
    if lines != [] {
      var init, last := lines[..|lines| - 1], lines[|lines| - 1];
      LineOpsGuarded(urls, init, directory);
      LinesGuarded(last.raw, directory, urls);
      GuardedConcat(urls, LineOps(init, directory), PyOps(last.raw, directory));
    }
  }

  ghost predicate LinesSay(lines: seq<LogLine>, f: Fact)
  {
    exists x :: x in lines && LineSays(x, f)
  }

  lemma LineSaid(x: LogLine, f: Fact, directory: string)
    requires Regular(x.raw)
    ensures InOps(PyOps(x.raw, directory), f) <==> LineSays(x, f)
  {
    ReplayersAgree(x.raw, directory);
    SameFacts(GoOps(x.raw), PyOps(x.raw, directory), f);
  }

  lemma LinesSaySnoc(lines: seq<LogLine>, f: Fact)
    requires lines != []
    ensures LinesSay(lines, f) <==> LinesSay(lines[..|lines| - 1], f) || LineSays(lines[|lines| - 1], f)
  {
    var q, x := lines[..|lines| - 1], lines[|lines| - 1];
    assert lines == q + [x];
    if LinesSay(lines, f) {
      var y :| y in lines && LineSays(y, f);
      assert y in q || y == x;
    }
    if LinesSay(q, f) {
      var y :| y in q && LineSays(y, f);
      assert y in lines;
    }
  }

  /** On regular lines the client's statements carry the facts the server reads. */
  lemma {:induction false} LineOpsFacts(lines: seq<LogLine>, f: Fact, directory: string)
    requires forall x | x in lines :: Regular(x.raw)
    ensures InOps(LineOps(lines, directory), f) <==> LinesSay(lines, f)
  {
    if lines != [] {
      var q, x := lines[..|lines| - 1], lines[|lines| - 1];
      LineOpsFacts(q, f, directory);
      InOpsConcat(LineOps(q, directory), PyOps(x.raw, directory), f);
      LineSaid(x, f, directory);
      LinesSaySnoc(lines, f);
    }
  }

  /** What the statements of lines may say when the last line is cut off. */
  lemma PartOpsFacts(lines: seq<LogLine>, done: nat, directory: string, urls: set<string>)
    requires forall x | x in lines :: Regular(x.raw)
    requires lines != [] ==> done <= |PyOps(lines[|lines| - 1].raw, directory)|
    ensures Guarded(urls, PartOps(lines, done, directory))
    ensures forall f | InOps(PartOps(lines, done, directory), f) :: LinesSay(lines, f)
  {
    if lines != [] {
      var q, x := lines[..|lines| - 1], lines[|lines| - 1];
      var ops := PyOps(x.raw, directory);
      LineOpsGuarded(urls, q, directory);
      LinesGuarded(x.raw, directory, urls);
      GuardedPrefix(urls, ops, done);
      GuardedConcat(urls, LineOps(q, directory), ops[..done]);
      forall f | InOps(PartOps(lines, done, directory), f) ensures LinesSay(lines, f) {
        PartOpsFact(lines, done, f, directory);
      }
    }
  }

  lemma PartOpsFact(lines: seq<LogLine>, done: nat, f: Fact, directory: string)
    requires (forall x | x in lines :: Regular(x.raw)) && lines != []
    requires done <= |PyOps(lines[|lines| - 1].raw, directory)| && InOps(PartOps(lines, done, directory), f)
    ensures LinesSay(lines, f)
  {
    var q, x := lines[..|lines| - 1], lines[|lines| - 1];
    var ops := PyOps(x.raw, directory);
    InOpsConcat(LineOps(q, directory), ops[..done], f);
    assert forall op | op in ops[..done] :: op in ops;
    LineOpsFacts(q, f, directory);
    LineSaid(x, f, directory);
    LinesSaySnoc(lines, f);
  }

  /** Running statements that say only what lines of some log say. */
  lemma PulledRun(m: string, log: DayLog, db: Db, v: ServerState, p: string, lines: seq<LogLine>, ops: seq<Op>)
    requires Consistent(db) && SourcedOk(m, log, db, v) && p in v.dirs
    requires forall x | x in lines :: Has(MirrorOf(v, p), x)
    requires Guarded(db.visits.Keys, ops) && forall f | InOps(ops, f) :: LinesSay(lines, f)
    ensures var now := RunOps(db, ops);
      && Consistent(now) && SourcedOk(m, log, now, v)
      && (forall f | InDb(db, f) :: InDb(now, f))
  {
    RunFacts(db, ops);
    var now := RunOps(db, ops);
    forall f | InDb(now, f) ensures LogSays(log, f) || MirrorsSay(v, f) {
      if !InDb(db, f) {
        var x :| x in lines && LineSays(x, f);
        assert LogSays(MirrorOf(v, p), f);
      }
    }
  }

  /** After all statements of the lines the tables reflect them. */
  lemma WholeRun(db: Db, lines: seq<LogLine>, directory: string)
    requires forall x | x in lines :: Regular(x.raw)
    ensures Guarded(db.visits.Keys, LineOps(lines, directory))
    ensures forall f :: InOps(LineOps(lines, directory), f) <==> LinesSay(lines, f)
    ensures forall x, f | x in lines && LineSays(x, f) :: InDb(RunOps(db, LineOps(lines, directory)), f)
  {
    LineOpsGuarded(db.visits.Keys, lines, directory);
    RunFacts(db, LineOps(lines, directory));
    forall f ensures InOps(LineOps(lines, directory), f) <==> LinesSay(lines, f) {
      LineOpsFacts(lines, f, directory);
    }
  }

  // ---------------------------------------------------------------- steps of a laptop alone

  /** It is enough to look at the laptop that moved. */
  lemma LaptopStep(s: System, m: string, l: Laptop)
    requires Inv(s) && m in s.laptops && LaptopOk(m, l, s.server)
    requires m in s.server.dirs ==> PrefixOf(MirrorOf(s.server, m), l.log)
    ensures Inv(System(s.laptops[m := l], s.server))
  {
    var t := System(s.laptops[m := l], s.server);
    MirrorsStay(s.server, s.laptops, m, l);
    forall k | k in t.laptops ensures LaptopOk(k, t.laptops[k], t.server) {
      if k != m {
        assert LaptopOk(k, s.laptops[k], s.server);
      }
    }
  }

  lemma MirrorsStay(v: ServerState, laptops: map<string, Laptop>, m: string, l: Laptop)
    requires ServerOk(v, laptops) && (m in v.dirs ==> PrefixOf(MirrorOf(v, m), l.log))
    ensures ServerOk(v, laptops[m := l])
  {
    forall id | id in v.calls ensures CallOk(v, id) {}
  }

  lemma AppendedLine(log: DayLog, d: Date, raw: string, x: LogLine)
    requires forall e | e in log :: log[e] == [] || e <= d
    ensures
      var now, line := log[d := LinesAt(log, d) + [raw]], LogLine(d, |LinesAt(log, d)|, raw);
      && (Has(now, x) <==> Has(log, x) || x == line)
      && (Has(log, x) ==> Before(x, line))
  {
  }

  ghost predicate Extended(log: DayLog, now: DayLog, line: LogLine)
  {
    && line.date > NO_DATE
    && (forall x :: Has(now, x) <==> Has(log, x) || x == line)
    && (forall x | Has(log, x) :: Before(x, line))
  }

  lemma AppendPast(mirror: DayLog, log: DayLog, now: DayLog, line: LogLine, c: Cursor)
    requires PrefixOf(mirror, log) && Points(c, mirror) && Extended(log, now, line)
    ensures Past(line, c)
  {
    if c.date != NO_DATE {
      var y := LogLine(c.date, c.offset, mirror[c.date][c.offset]);
      assert Has(mirror, y) && Has(log, y);
    }
  }

  lemma AppendAcknowledged(m: string, log: DayLog, now: DayLog, line: LogLine, c: Cursor, v: ServerState)
    requires Acknowledged(log, c, v, m) && PrefixOf(MirrorOf(v, m), log) && Extended(log, now, line)
    ensures Acknowledged(now, c, v, m)
  {
    AppendPast(MirrorOf(v, m), log, now, line, c);
  }

  lemma AppendTables(m: string, log: DayLog, now: DayLog, line: LogLine, t: LaptopTables, v: ServerState)
    requires TablesOk(m, log, t, v) && PrefixOf(MirrorOf(v, m), log) && Extended(log, now, line)
    ensures TablesOk(m, now, t, v)
  {
    AppendAcknowledged(m, log, now, line, GetCursor(t, m), v);
    forall f | InDb(t.db, f) ensures LogSays(now, f) || MirrorsSay(v, f) {
      if LogSays(log, f) {
        LogSaysMono(log, now, f);
      }
    }
  }

  lemma AppendPush(m: string, l: Laptop, now: DayLog, line: LogLine, v: ServerState)
    requires PushOk(m, l, v) && PrefixOf(MirrorOf(v, m), l.log) && Extended(l.log, now, line)
    ensures PushOk(m, l.(log := now), v)
  {
    match l.phase
    case Pushing(upTo) => AppendAcknowledged(m, l.log, now, line, upTo, v);
    case Waiting(upTo, end, call) =>
      AppendAcknowledged(m, l.log, now, line, upTo, v);
      AppendPast(MirrorOf(v, m), l.log, now, line, end);
    case _ =>
  }

  lemma AppendGood(log: DayLog, d: Date, raw: string)
    requires GoodLog(log) && d > NO_DATE && '\n' !in raw && Regular(raw)
    requires forall e | e in log :: log[e] == [] || e <= d
    ensures GoodLog(log[d := LinesAt(log, d) + [raw]])
    ensures Extended(log, log[d := LinesAt(log, d) + [raw]], LogLine(d, |LinesAt(log, d)|, raw))
  {
    var now := log[d := LinesAt(log, d) + [raw]];
    forall x {
      AppendedLine(log, d, raw, x);
    }
    assert LogNewlineFree(now) by {
      assert forall r | r in LinesAt(log, d) + [raw] :: r == raw || r in LinesAt(log, d);
    }
  }

  lemma AppendLaptop(m: string, l: Laptop, now: DayLog, line: LogLine, v: ServerState)
    requires LaptopOk(m, l, v) && GoodLog(now) && PrefixOf(MirrorOf(v, m), l.log) && Extended(l.log, now, line)
    ensures LaptopOk(m, l.(log := now), v)
  {
    AppendTables(m, l.log, now, line, l.disk, v);
    AppendTables(m, l.log, now, line, l.work, v);
    AppendPush(m, l, now, line, v);
  }

  lemma AppendPrefix(mirror: DayLog, log: DayLog, now: DayLog, line: LogLine)
    requires PrefixOf(mirror, log) && Extended(log, now, line)
    ensures PrefixOf(mirror, now)
  {
  }

  /** A new line is later than every line already there, so no cursor passes it
      and the mirror stays a prefix. */
  lemma HostAppendKeeps(s: System, m: string, d: Date, raw: string)
    requires Inv(s) && Enabled(s, HostAppend(m, d, raw))
    ensures Inv(Apply(s, HostAppend(m, d, raw)))
  {
    var l, v := s.laptops[m], s.server;
    var now, line := l.log[d := LinesAt(l.log, d) + [raw]], LogLine(d, |LinesAt(l.log, d)|, raw);
    MirrorPrefix(s, m);
    assert LaptopOk(m, l, v);
    AppendGood(l.log, d, raw);
    AppendLaptop(m, l, now, line, v);
    AppendPrefix(MirrorOf(v, m), l.log, now, line);
    LaptopStep(s, m, l.(log := now));
    assert Apply(s, HostAppend(m, d, raw)) == System(s.laptops[m := l.(log := now)], v);
  }

  lemma MirrorPrefix(s: System, m: string)
    requires Inv(s) && m in s.laptops
    ensures PrefixOf(MirrorOf(s.server, m), s.laptops[m].log)
  {
  }

  /** Adding facts of the logs to a laptop's tables. */
  lemma MoreFacts(m: string, log: DayLog, t: LaptopTables, db: Db, v: ServerState)
    requires TablesOk(m, log, t, v) && Consistent(db) && SourcedOk(m, log, db, v)
    requires forall f | InDb(t.db, f) :: InDb(db, f)
    ensures TablesOk(m, log, t.(db := db), v)
  {
  }

  lemma OwnRun(m: string, log: DayLog, db: Db, v: ServerState, line: LogLine)
    requires Consistent(db) && SourcedOk(m, log, db, v) && Has(log, line)
    ensures
      var now := RunOps(db, GoOps(line.raw));
      && Consistent(now) && SourcedOk(m, log, now, v)
      && forall f | InDb(db, f) :: InDb(now, f)
  {
    var now := RunOps(db, GoOps(line.raw));
    LinesGuarded(line.raw, "", db.visits.Keys);
    RunFacts(db, GoOps(line.raw));
    forall f | InDb(now, f) ensures LogSays(log, f) || MirrorsSay(v, f) {
      if !InDb(db, f) {
        assert LineSays(line, f);
      }
    }
  }

  /** New tables for both copies, with the same own cursor, between two syncs or
      inside a push. */
  lemma BothCopies(m: string, l: Laptop, t: LaptopTables, phase: Phase, v: ServerState)
    requires LaptopOk(m, l, v) && TablesOk(m, l.log, t, v)
    requires PushOk(m, l.(work := t, phase := phase), v)
    ensures LaptopOk(m, l.(disk := t, work := t, phase := phase), v)
  {
  }

  lemma HostApplyKeeps(s: System, m: string, line: LogLine)
    requires Inv(s) && Enabled(s, HostApply(m, line))
    ensures Inv(Apply(s, HostApply(m, line)))
  {
    var l, v := s.laptops[m], s.server;
    var db := RunOps(l.work.db, GoOps(line.raw));
    OwnRun(m, l.log, l.work.db, v, line);
    MoreFacts(m, l.log, l.work, db, v);
    BothCopies(m, l, l.work.(db := db), l.phase, v);
    LaptopStep(s, m, Moved(s, HostApply(m, line)));
  }

  lemma AttemptCursors(t: LaptopTables, m: string, p: string)
    ensures var c, was := GetCursor(MarkAttempt(t, m), p), GetCursor(t, p);
      c == was || (p == m && was == START && c == Cursor(NO_DATE, 0))
  {
  }

  /** The row that recording an attempt creates hides no line. */
  lemma AttemptTables(m: string, log: DayLog, t: LaptopTables, v: ServerState)
    requires TablesOk(m, log, t, v) && GoodLog(log)
    ensures TablesOk(m, log, MarkAttempt(t, m), v)
  {
    forall p {
      AttemptCursors(t, m, p);
    }
    var c, was := GetCursor(MarkAttempt(t, m), m), GetCursor(t, m);
    if c != was {
      forall x | Has(log, x) ensures Past(x, c) <==> Past(x, was) {}
      assert Acknowledged(log, c, v, m);
    }
  }

  lemma StartSyncKeeps(s: System, m: string)
    requires Inv(s) && Enabled(s, StartSync(m))
    ensures Inv(Apply(s, StartSync(m)))
  {
    var l, v := s.laptops[m], s.server;
    var t := MarkAttempt(l.work, m);
    AttemptTables(m, l.log, l.work, v);
    BothCopies(m, l, t, Pushing(GetCursor(t, m)), v);
    MirrorPrefix(s, m);
    LaptopStep(s, m, Moved(s, StartSync(m)));
  }

  lemma PushFailKeeps(s: System, m: string)
    requires Inv(s) && Enabled(s, PushFail(m))
    ensures Inv(Apply(s, PushFail(m)))
  {
    var l, v := s.laptops[m], s.server;
    BothCopies(m, l, l.work, Idle, v);
    MirrorPrefix(s, m);
    LaptopStep(s, m, Moved(s, PushFail(m)));
  }

  lemma PullDoneKeeps(s: System, m: string)
    requires Inv(s) && Enabled(s, PullDone(m))
    ensures Inv(Apply(s, PullDone(m)))
  {
    var l, v := s.laptops[m], s.server;
    BothCopies(m, l, l.work, Idle, v);
    MirrorPrefix(s, m);
    LaptopStep(s, m, Moved(s, PullDone(m)));
  }

  lemma CrashKeeps(s: System, m: string, p: string, n: nat, lines: nat)
    requires Inv(s) && Enabled(s, Crash(m, p, n, lines))
    ensures Inv(Apply(s, Crash(m, p, n, lines)))
  {
    var l, v := s.laptops[m], s.server;
    BothCopies(m, l, l.disk, Idle, v);
    MirrorPrefix(s, m);
    LaptopStep(s, m, Moved(s, Crash(m, p, n, lines)));
  }

  lemma CursorSet(t: LaptopTables, m: string, c: Cursor, p: string)
    ensures GetCursor(SetCursor(t, m, c), p) == if p == m then c else GetCursor(t, p)
  {
  }

  lemma OwnCursorTables(m: string, log: DayLog, t: LaptopTables, c: Cursor, v: ServerState)
    requires TablesOk(m, log, t, v) && Acknowledged(log, c, v, m)
    ensures TablesOk(m, log, SetCursor(t, m, c), v)
  {
    forall p {
      CursorSet(t, m, c, p);
    }
  }

  /** The cursor moves only over acknowledged lines. */
  lemma PushDoneKeeps(s: System, m: string)
    requires Inv(s) && Enabled(s, PushDone(m))
    ensures Inv(Apply(s, PushDone(m)))
  {
    var l, v := s.laptops[m], s.server;
    var t := Moved(s, PushDone(m)).work;
    OwnCursorTables(m, l.log, l.work, l.phase.upTo, v);
    BothCopies(m, l, t, Pulling, v);
    MirrorPrefix(s, m);
    LaptopStep(s, m, Moved(s, PushDone(m)));
  }

  // ---------------------------------------------------------------- pulling

  lemma PeerLines(s: System, m: string, p: string, n: nat)
    requires Inv(s) && IsChunk(s, m, p, n)
    ensures forall x | x in Next(s, m, p) :: Has(MirrorOf(s.server, p), x) && Regular(x.raw)
    ensures forall x | x in Next(s, m, p)[..n] :: x in Next(s, m, p)
  {
    AfterMembers(MirrorOf(s.server, p), GetCursor(s.laptops[m].work, p));
    assert GoodLog(s.laptops[p].log);
  }

  /** After a whole chunk the peer's cursor stands at the chunk's last line and
      the tables reflect every line up to there. */
  lemma ChunkTables(m: string, log: DayLog, t: LaptopTables, v: ServerState, p: string, n: nat, directory: string)
    requires TablesOk(m, log, t, v) && p in v.dirs && p != m
    requires 1 <= n <= |After(MirrorOf(v, p), GetCursor(t, p))|
    requires forall x | x in After(MirrorOf(v, p), GetCursor(t, p))[..n] :: Has(MirrorOf(v, p), x) && Regular(x.raw)
    ensures
      var lines := After(MirrorOf(v, p), GetCursor(t, p))[..n];
      && TablesOk(m, log, Pulled(t, p, lines, directory), v)
      && CursorLe(GetCursor(t, p), At(lines[n - 1]))
  {
    var mirror, c := MirrorOf(v, p), GetCursor(t, p);
    var lines := After(mirror, c)[..n];
    var end, db := At(lines[n - 1]), RunOps(t.db, LineOps(lines, directory));
    WholeRun(t.db, lines, directory);
    PulledRun(m, log, t.db, v, p, lines, LineOps(lines, directory));
    MoreFacts(m, log, t, db, v);
    AfterAdvance(mirror, c, n);
    assert lines[n - 1] in lines;
    assert Points(end, mirror);
    assert Reflected(mirror, end, db);
    PeerCursorTables(m, log, t.(db := db), p, end, v);
  }

  lemma PeerCursorTables(m: string, log: DayLog, t: LaptopTables, p: string, c: Cursor, v: ServerState)
    requires TablesOk(m, log, t, v) && p != m
    requires Reflected(MirrorOf(v, p), c, t.db) && Points(c, MirrorOf(v, p))
    ensures TablesOk(m, log, SetCursor(t, p, c), v)
  {
    forall q {
      CursorSet(t, p, c, q);
    }
  }

  ghost function Pulled(t: LaptopTables, p: string, lines: seq<LogLine>, directory: string): LaptopTables
    requires lines != []
  {
    SetCursor(t.(db := RunOps(t.db, LineOps(lines, directory))), p, At(lines[|lines| - 1]))
  }

  lemma ChunkLaptop(m: string, l: Laptop, v: ServerState, p: string, lines: seq<LogLine>,
                    received: map<string, seq<LogLine>>)
    requires LaptopOk(m, l, v) && l.phase == Pulling && lines != []
    requires TablesOk(m, l.log, Pulled(l.work, p, lines, l.directory), v)
    requires CursorLe(GetCursor(l.work, p), At(lines[|lines| - 1]))
    ensures LaptopOk(m, l.(work := Pulled(l.work, p, lines, l.directory), received := received), v)
  {
    forall q {
      PulledCursor(l.work, p, lines, l.directory, q);
    }
    WorkAhead(m, l, p, Pulled(l.work, p, lines, l.directory), received, v);
  }

  lemma PulledCursor(t: LaptopTables, p: string, lines: seq<LogLine>, directory: string, q: string)
    requires lines != []
    ensures GetCursor(Pulled(t, p, lines, directory), q) == if q == p then At(lines[|lines| - 1]) else GetCursor(t, q)
  {
    CursorSet(t.(db := RunOps(t.db, LineOps(lines, directory))), p, At(lines[|lines| - 1]), q);
  }

  lemma ChunkFor(m: string, l: Laptop, v: ServerState, p: string, n: nat, lines: seq<LogLine>)
    requires LaptopOk(m, l, v) && l.phase == Pulling && p in v.dirs && p != m
    requires 1 <= n <= |After(MirrorOf(v, p), GetCursor(l.work, p))|
    requires lines == After(MirrorOf(v, p), GetCursor(l.work, p))[..n]
    requires forall x | x in lines :: Has(MirrorOf(v, p), x) && Regular(x.raw)
    ensures LaptopOk(m, l.(work := Pulled(l.work, p, lines, l.directory), received := Receive(l, p, lines)), v)
  {
    assert TablesOk(m, l.log, l.work, v);
    ChunkTables(m, l.log, l.work, v, p, n, l.directory);
    ChunkLaptop(m, l, v, p, lines, Receive(l, p, lines));
  }

  lemma ChunkKeeps(s: System, m: string, p: string, n: nat)
    requires Inv(s) && Enabled(s, PullChunk(m, p, n))
    ensures
      var l, lines := s.laptops[m], Next(s, m, p)[..n];
      LaptopOk(m, l.(work := Pulled(l.work, p, lines, l.directory), received := Receive(l, p, lines)), s.server)
  {
    PeerLines(s, m, p, n);
    ChunkFor(m, s.laptops[m], s.server, p, n, Next(s, m, p)[..n]);
  }

  lemma PullChunkMoves(s: System, m: string, p: string, n: nat)
    requires Enabled(s, PullChunk(m, p, n))
    ensures
      var l, lines := s.laptops[m], Next(s, m, p)[..n];
      Moved(s, PullChunk(m, p, n)) ==
        l.(work := Pulled(l.work, p, lines, l.directory), received := Receive(l, p, lines))
  {
    hide After, Append, RunOps, LineOps, MarkAttempt, SetCursor, Receive;
  }

  lemma PullChunkKeeps(s: System, m: string, p: string, n: nat)
    requires Inv(s) && Enabled(s, PullChunk(m, p, n))
    ensures Inv(Apply(s, PullChunk(m, p, n)))
  {
    ChunkKeeps(s, m, p, n);
    PullChunkMoves(s, m, p, n);
    MirrorPrefix(s, m);
    LaptopStep(s, m, Moved(s, PullChunk(m, p, n)));
  }

  lemma WorkAhead(m: string, l: Laptop, p: string, t: LaptopTables, received: map<string, seq<LogLine>>, v: ServerState)
    requires LaptopOk(m, l, v) && TablesOk(m, l.log, t, v) && l.phase == Pulling
    requires forall q | q != p :: GetCursor(t, q) == GetCursor(l.work, q)
    requires CursorLe(GetCursor(l.work, p), GetCursor(t, p))
    ensures LaptopOk(m, l.(work := t, received := received), v)
  {
  }

  lemma PartTables(m: string, l: Laptop, v: ServerState, p: string, lines: seq<LogLine>, done: nat)
    requires TablesOk(m, l.log, l.work, v) && p in v.dirs
    requires forall x | x in lines :: Has(MirrorOf(v, p), x) && Regular(x.raw)
    requires lines != [] ==> done <= |PyOps(lines[|lines| - 1].raw, l.directory)|
    ensures TablesOk(m, l.log, l.work.(db := RunOps(l.work.db, PartOps(lines, done, l.directory))), v)
  {
    var ops := PartOps(lines, done, l.directory);
    PartOpsFacts(lines, done, l.directory, l.work.db.visits.Keys);
    PulledRun(m, l.log, l.work.db, v, p, lines, ops);
    MoreFacts(m, l.log, l.work, RunOps(l.work.db, ops), v);
  }

  lemma PullFailKeeps(s: System, m: string, p: string, lines: nat, done: nat)
    requires Inv(s) && Enabled(s, PullFail(m, p, lines, done))
    ensures Inv(Apply(s, PullFail(m, p, lines, done)))
  {
    var l, part := s.laptops[m], Next(s, m, p)[..lines];
    PeerLines(s, m, p, lines);
    PartMeans(s, m, p, lines, done);
    PartLaptop(m, l, s.server, p, part, done, Moved(s, PullFail(m, p, lines, done)));
    MirrorPrefix(s, m);
    LaptopStep(s, m, Moved(s, PullFail(m, p, lines, done)));
  }

  lemma PartMeans(s: System, m: string, p: string, lines: nat, done: nat)
    requires Inv(s) && Enabled(s, PullFail(m, p, lines, done))
    ensures
      var l, part, next := s.laptops[m], Next(s, m, p)[..lines], Moved(s, PullFail(m, p, lines, done));
      && LaptopOk(m, l, s.server) && p in s.server.dirs && p != m
      && (part != [] ==> done <= |PyOps(part[|part| - 1].raw, l.directory)|)
      && next.log == l.log && next.work == next.disk && next.phase == Idle && next.received == Receive(l, p, part)
      && next.work == l.work.(db := RunOps(l.work.db, PartOps(part, done, l.directory)))
  {
    hide After, Append, RunOps, PartOps, LineOps, LaptopOk, ServerOk, MarkAttempt, SetCursor, PyOps;
  }

  lemma PartLaptop(m: string, l: Laptop, v: ServerState, p: string, part: seq<LogLine>, done: nat, next: Laptop)
    requires LaptopOk(m, l, v) && p in v.dirs
    requires forall x | x in part :: Has(MirrorOf(v, p), x) && Regular(x.raw)
    requires part != [] ==> done <= |PyOps(part[|part| - 1].raw, l.directory)|
    requires next.log == l.log && next.work == next.disk && next.phase == Idle
    requires next.work == l.work.(db := RunOps(l.work.db, PartOps(part, done, l.directory)))
    ensures LaptopOk(m, next, v)
  {
    PartTables(m, l, v, p, part, done);
    BothCopies(m, l, next.work, Idle, v);
  }

  // ---------------------------------------------------------------- steps of the server

  lemma ServerStep(s: System, w: ServerState)
    requires Inv(s) && Grows(s.server, w) && ServerOk(w, s.laptops)
    ensures Inv(System(s.laptops, w))
  {
    forall m | m in s.laptops ensures LaptopOk(m, s.laptops[m], w) {
      LaptopMono(m, s.laptops[m], s.server, w);
    }
  }

  lemma MirrorsDated(s: System)
    requires Inv(s)
    ensures forall m :: LinesDated(MirrorOf(s.server, m))
  {
    forall m ensures LinesDated(MirrorOf(s.server, m)) {
      if m in s.server.dirs {
        assert PrefixOf(MirrorOf(s.server, m), s.laptops[m].log);
        assert GoodLog(s.laptops[m].log);
      }
    }
  }

  lemma SameMirrors(v: ServerState, w: ServerState)
    requires v.dirs == w.dirs && forall m :: LinesDated(MirrorOf(v, m))
    ensures MirrorsGrow(v, w)
  {
    forall m ensures MirrorOf(w, m) == MirrorOf(v, m) {}
  }

  // A running call executes its next statement.

  lemma CallStepWorksOff(v: ServerState, id: nat, w: ServerState)
    requires id in v.calls && v.calls[id] != [] && Guarded(v.db.visits.Keys, v.calls[id])
    requires w == v.(db := RunOp(v.db, v.calls[id][0]), calls := v.calls[id := v.calls[id][1..]])
    ensures (forall f | InDb(v.db, f) :: InDb(w.db, f)) && CallsWorkOff(v, w)
    ensures w.db.visits.Keys == v.db.visits.Keys + {v.calls[id][0].Target()}
    ensures forall f | InDb(w.db, f) :: InDb(v.db, f) || InOps(v.calls[id], f)
  {
    var op := v.calls[id][0];
    assert Guarded(v.db.visits.Keys, [op]);
    StepFacts(v.db, op);
    forall f ensures InOps(v.calls[id], f) <==> f == FactOf(op) || InOps(v.calls[id][1..], f) {
      InOpsHead(v.calls[id], f);
    }
  }

  lemma CallStepServer(v: ServerState, id: nat, w: ServerState, laptops: map<string, Laptop>)
    requires ServerOk(v, laptops) && id in v.calls && v.calls[id] != []
    requires w == v.(db := RunOp(v.db, v.calls[id][0]), calls := v.calls[id := v.calls[id][1..]])
    ensures ServerOk(w, laptops)
  {
    var op := v.calls[id][0];
    assert CallOk(v, id) && Guarded(v.db.visits.Keys, [op]);
    StepConsistent(v.db, op);
    CallStepWorksOff(v, id, w);
    forall f | MirrorsSay(v, f) ensures MirrorsSay(w, f) {
      SaysSame(v, w, f);
    }
    assert CanonicalOk(w);
    assert MirrorsOk(w, laptops) by {
      forall p ensures MirrorOf(w, p) == MirrorOf(v, p) {}
    }
    forall k | k in w.calls ensures CallOk(w, k) {
      assert CallOk(v, k);
      CallLater(v, w, k, op);
    }
  }

  lemma SaysSame(v: ServerState, w: ServerState, f: Fact)
    requires v.dirs == w.dirs && MirrorsSay(v, f)
    ensures MirrorsSay(w, f)
  {
    var p :| p in v.dirs && LogSays(MirrorOf(v, p), f);
    assert MirrorOf(w, p) == MirrorOf(v, p);
  }

  lemma CallLater(v: ServerState, w: ServerState, k: nat, op: Op)
    requires k in v.calls && CallOk(v, k) && k in w.calls
    requires v.dirs == w.dirs && v.next == w.next && w.db.visits.Keys == v.db.visits.Keys + {op.Target()}
    requires w.calls[k] == v.calls[k] || (v.calls[k] != [] && v.calls[k][0] == op && w.calls[k] == v.calls[k][1..])
    ensures CallOk(w, k)
  {
    if w.calls[k] == v.calls[k] {
      GuardedMore(v.db.visits.Keys, w.db.visits.Keys, v.calls[k]);
    }
    forall f | InOps(w.calls[k], f) ensures MirrorsSay(w, f) {
      if w.calls[k] != v.calls[k] {
        InOpsHead(v.calls[k], f);
      }
      SaysSame(v, w, f);
    }
  }

  lemma CallStepKeeps(s: System, id: nat)
    requires Inv(s) && Enabled(s, CallStep(id))
    ensures Inv(Apply(s, CallStep(id)))
  {
    var v, w := s.server, Served(s, CallStep(id));
    MirrorsDated(s);
    SameMirrors(v, w);
    CallStepWorksOff(v, id, w);
    CallStepServer(v, id, w, s.laptops);
    ServerStep(s, w);
  }

  // A call ends, finished or not.

  lemma CallEnds(s: System, id: nat)
    requires Inv(s)
    ensures Grows(s.server, s.server.(calls := s.server.calls - {id}))
    ensures ServerOk(s.server.(calls := s.server.calls - {id}), s.laptops)
  {
    var v := s.server;
    MirrorsDated(s);
    SameMirrors(v, v.(calls := v.calls - {id}));
    FewerCalls(v, v.(calls := v.calls - {id}), s.laptops);
  }

  lemma FewerCalls(v: ServerState, w: ServerState, laptops: map<string, Laptop>)
    requires ServerOk(v, laptops) && v.dirs == w.dirs && v.db == w.db && v.next == w.next
    requires forall k | k in w.calls :: k in v.calls && w.calls[k] == v.calls[k]
    ensures ServerOk(w, laptops)
  {
    forall p ensures MirrorOf(w, p) == MirrorOf(v, p) {}
    forall f | MirrorsSay(v, f) ensures MirrorsSay(w, f) {
      SaysSame(v, w, f);
    }
    forall k | k in w.calls ensures CallOk(w, k) {
      assert CallOk(v, k);
    }
  }

  lemma CallDieKeeps(s: System, id: nat)
    requires Inv(s) && Enabled(s, CallDie(id))
    ensures Inv(Apply(s, CallDie(id)))
  {
    EndsCall(s, id);
  }

  /** Once the call is done, every line up to its last one is durable and applied. */
  lemma AckedLaptop(m: string, l: Laptop, v: ServerState)
    requires LaptopOk(m, l, v) && l.phase.Waiting? && l.phase.call in v.calls && v.calls[l.phase.call] == []
    ensures LaptopOk(m, l.(phase := Pushing(l.phase.end)), v)
  {
    assert Reflected(l.log, l.phase.end, v.db);
  }

  lemma PushAckMoves(s: System, m: string)
    requires Enabled(s, PushAck(m))
    ensures
      var l, v := s.laptops[m], s.server;
      Apply(s, PushAck(m)) ==
        System(s.laptops[m := l.(phase := Pushing(l.phase.end))], v.(calls := v.calls - {l.phase.call}))
  {
  }

  lemma PushAckKeeps(s: System, m: string)
    requires Inv(s) && Enabled(s, PushAck(m))
    ensures Inv(Apply(s, PushAck(m)))
  {
    var l, v := s.laptops[m], s.server;
    assert LaptopOk(m, l, v);
    AckedLaptop(m, l, v);
    MirrorPrefix(s, m);
    PushAckMoves(s, m);
    LaptopStep(s, m, l.(phase := Pushing(l.phase.end)));
    EndsCall(System(s.laptops[m := l.(phase := Pushing(l.phase.end))], v), l.phase.call);
  }

  lemma EndsCall(s: System, id: nat)
    requires Inv(s)
    ensures Inv(System(s.laptops, s.server.(calls := s.server.calls - {id})))
  {
    CallEnds(s, id);
    ServerStep(s, s.server.(calls := s.server.calls - {id}));
  }

  // ---------------------------------------------------------------- a push request arrives

  ghost function Batch(l: Laptop, n: nat): seq<LogLine>
    requires l.phase.Pushing? && n <= |After(l.log, l.phase.upTo)|
  {
    After(l.log, l.phase.upTo)[..n]
  }

  /** An honest client never sees the gap error. */
  lemma PushIsNeverRefused(s: System, m: string, n: nat)
    requires Inv(s) && Enabled(s, PushCall(m, n))
    ensures
      var l := s.laptops[m];
      var files, b := FilesOf(s.server, m), Batch(l, n);
      var o := Append(files, b);
      && !o.gap && Terminated(o.files)
      && (forall x :: Has(LinesOf(o.files), x) <==> Has(LinesOf(files), x) || x in b)
      && PrefixOf(LinesOf(o.files), l.log)
      && PrefixOf(LinesOf(files), LinesOf(o.files))
  {
    var l := s.laptops[m];
    MirrorPrefix(s, m);
    assert LaptopOk(m, l, s.server);
    HonestBatch(FilesOf(s.server, m), l.log, l.phase.upTo, n);
  }

  ghost function AfterCall(v: ServerState, m: string, files: Files, b: seq<LogLine>): ServerState
  {
    ServerState(v.dirs[m := files], v.db, v.calls[v.next := GoOpsOf(Raws(b))], v.next + 1)
  }

  lemma CallGrows(s: System, m: string, files: Files, b: seq<LogLine>)
    requires Inv(s) && m in s.laptops
    requires PrefixOf(MirrorOf(s.server, m), LinesOf(files)) && PrefixOf(LinesOf(files), s.laptops[m].log)
    ensures Grows(s.server, AfterCall(s.server, m, files, b))
  {
    var v, w := s.server, AfterCall(s.server, m, files, b);
    MirrorsDated(s);
    assert LinesDated(LinesOf(files)) by {
      assert LaptopOk(m, s.laptops[m], v);
    }
    CallMirrors(v, w, m, files);
  }

  lemma CallMirrors(v: ServerState, w: ServerState, m: string, files: Files)
    requires w.dirs == v.dirs[m := files] && forall p :: LinesDated(MirrorOf(v, p))
    requires PrefixOf(MirrorOf(v, m), LinesOf(files)) && LinesDated(LinesOf(files))
    ensures MirrorsGrow(v, w)
  {
    forall p ensures MirrorOf(w, p) == if p == m then LinesOf(files) else MirrorOf(v, p) {}
  }

  lemma MirrorsSayMono(v: ServerState, w: ServerState, f: Fact)
    requires Grows(v, w) && MirrorsSay(v, f)
    ensures MirrorsSay(w, f)
  {
    var p :| p in v.dirs && LogSays(MirrorOf(v, p), f);
    assert PrefixOf(MirrorOf(v, p), MirrorOf(w, p));
    LogSaysMono(MirrorOf(v, p), MirrorOf(w, p), f);
  }

  lemma BatchSays(b: seq<LogLine>, f: Fact)
    ensures InOps(GoOpsOf(Raws(b)), f) <==> LinesSay(b, f)
  {
    GoOpsOfFacts(Raws(b), f);
    if LinesSay(b, f) {
      var x :| x in b && LineSays(x, f);
      var i :| 0 <= i < |b| && b[i] == x;
      assert Raws(b)[i] in Raws(b);
    }
    if r :| r in Raws(b) && InOps(GoOps(r), f) {
      var i :| 0 <= i < |b| && Raws(b)[i] == r;
      assert b[i] in b && LineSays(b[i], f);
    }
  }

  lemma NewCallOk(v: ServerState, m: string, files: Files, b: seq<LogLine>)
    requires forall x | x in b :: Has(LinesOf(files), x)
    ensures CallOk(AfterCall(v, m, files, b), v.next)
  {
    var w := AfterCall(v, m, files, b);
    GoOpsOfGuarded(Raws(b), v.db.visits.Keys);
    forall f | InOps(w.calls[v.next], f) ensures MirrorsSay(w, f) {
      BatchSays(b, f);
      var x :| x in b && LineSays(x, f);
      assert MirrorOf(w, m) == LinesOf(files);
      assert LogSays(MirrorOf(w, m), f);
    }
  }

  lemma CallMirrorsOk(s: System, m: string, files: Files, b: seq<LogLine>)
    requires Inv(s) && m in s.laptops && Terminated(files) && PrefixOf(LinesOf(files), s.laptops[m].log)
    ensures MirrorsOk(AfterCall(s.server, m, files, b), s.laptops)
  {
    hide PrefixOf, Terminated, LaptopOk, CanonicalOk, CallOk, GoOpsOf;
  }

  lemma CallServer(s: System, m: string, files: Files, b: seq<LogLine>)
    requires Inv(s) && m in s.laptops
    requires Terminated(files) && (forall x | x in b :: Has(LinesOf(files), x))
    requires PrefixOf(MirrorOf(s.server, m), LinesOf(files)) && PrefixOf(LinesOf(files), s.laptops[m].log)
    ensures ServerOk(AfterCall(s.server, m, files, b), s.laptops)
  {
    var v, w := s.server, AfterCall(s.server, m, files, b);
    CallGrows(s, m, files, b);
    CallMirrorsOk(s, m, files, b);
    forall f | InDb(w.db, f) ensures MirrorsSay(w, f) {
      assert MirrorsSay(v, f);
      MirrorsSayMono(v, w, f);
    }
    NewCallOk(v, m, files, b);
    forall k | k in w.calls ensures CallOk(w, k) {
      if k != v.next {
        assert CallOk(v, k);
        OldCallOk(v, w, k);
      }
    }
    assert CanonicalOk(w);
  }

  lemma OldCallOk(v: ServerState, w: ServerState, k: nat)
    requires Grows(v, w) && k in v.calls && CallOk(v, k) && k in w.calls && w.calls[k] == v.calls[k] && w.db == v.db
    ensures CallOk(w, k)
  {
    forall f | InOps(w.calls[k], f) ensures MirrorsSay(w, f) {
      assert MirrorsSay(v, f);
      MirrorsSayMono(v, w, f);
    }
  }

  lemma WaitingLaptop(m: string, l: Laptop, w: ServerState, n: nat, call: nat)
    requires LaptopOk(m, l, w) && l.phase.Pushing? && 1 <= n <= |After(l.log, l.phase.upTo)|
    requires forall x | x in Batch(l, n) :: Has(MirrorOf(w, m), x)
    requires call in w.calls && w.calls[call] == GoOpsOf(Raws(Batch(l, n))) && call < w.next
    ensures LaptopOk(m, l.(phase := Waiting(l.phase.upTo, At(Batch(l, n)[n - 1]), call)), w)
  {
    var c, b := l.phase.upTo, Batch(l, n);
    var end := At(b[n - 1]);
    AfterAdvance(l.log, c, n);
    assert b[n - 1] in b;
    assert Points(end, MirrorOf(w, m));
    assert Mirrored(l.log, end, MirrorOf(w, m));
    forall x, f | Has(l.log, x) && LineSays(x, f)
      ensures Past(x, end) || InDb(w.db, f) || InOps(w.calls[call], f)
    {
      BatchSays(b, f);
      assert x in b ==> LinesSay(b, f);
    }
    assert PushOk(m, l.(phase := Waiting(c, end, call)), w);
  }

  lemma PushCallMoves(s: System, m: string, n: nat)
    requires Enabled(s, PushCall(m, n)) && !Append(FilesOf(s.server, m), Batch(s.laptops[m], n)).gap
    ensures
      var l, v := s.laptops[m], s.server;
      var b := Batch(l, n);
      Apply(s, PushCall(m, n)) ==
        System(s.laptops[m := l.(phase := Waiting(l.phase.upTo, At(b[n - 1]), v.next))],
               AfterCall(v, m, Append(FilesOf(v, m), b).files, b))
  {
  }

  lemma PushCallKeeps(s: System, m: string, n: nat)
    requires Inv(s) && Enabled(s, PushCall(m, n))
    ensures Inv(Apply(s, PushCall(m, n)))
  {
    var l, v, b := s.laptops[m], s.server, Batch(s.laptops[m], n);
    var files := Append(FilesOf(v, m), b).files;
    PushIsNeverRefused(s, m, n);
    CallGrows(s, m, files, b);
    CallServer(s, m, files, b);
    var w := AfterCall(v, m, files, b);
    ServerStep(s, w);
    assert MirrorOf(w, m) == LinesOf(files);
    WaitingLaptop(m, l, w, n, v.next);
    LaptopStep(System(s.laptops, w), m, l.(phase := Waiting(l.phase.upTo, At(b[n - 1]), v.next)));
    PushCallMoves(s, m, n);
  }
}
