/** Any number of laptops and the server as one transition system.  A step is one
    atomic action of one party: a host appends a line or applies it, a push request
    reaches the server, a running push call executes one statement or dies, an
    answer arrives or is lost, a chunk is pulled or given up half way, a client
    commits or is killed. */
module Protocol {
  import opened Dates
  import opened DayLogs
  import opened Tables
  import opened Replay
  import opened Mirror
  import SyncServer
  import opened SyncSteps

  // ---------------------------------------------------------------- states

  /** Where a laptop's client is.  `upTo` is the last line acknowledged so far in
      this push; a waiting client has the lines up to `end` in call `call`. */
  datatype Phase = Idle | Pushing(upTo: Cursor) | Waiting(upTo: Cursor, end: Cursor, call: nat) | Pulling

  /** `disk` is the committed database, `work` what the client's transaction sees.
      `received` are the lines appended to each peer's mirror files so far, and
      `torn` records that a pull was given up inside a chunk or its commits were
      lost.  `directory` is the default of the directory column of its tables. */
  datatype Laptop = Laptop(log: DayLog, disk: LaptopTables, work: LaptopTables, phase: Phase,
                           received: map<string, seq<LogLine>>, torn: bool, directory: string)

  /** `calls` are the running push calls with the statements they still have to
      execute; `next` numbers the next one. */
  datatype ServerState = ServerState(dirs: map<string, Files>, db: Db, calls: map<nat, seq<Op>>, next: nat)

  datatype System = System(laptops: map<string, Laptop>, server: ServerState)

  function MirrorOf(v: ServerState, m: string): DayLog
  {
    if m in v.dirs then LinesOf(v.dirs[m]) else map[]
  }

  function FilesOf(v: ServerState, m: string): Files
  {
    if m in v.dirs then v.dirs[m] else map[]
  }

  function ReceivedFrom(l: Laptop, p: string): seq<LogLine>
  {
    if p in l.received then l.received[p] else []
  }

  const NO_TABLES := LaptopTables(EMPTY, map[], map[])

  function NewLaptop(directory: string): Laptop
  {
    Laptop(map[], NO_TABLES, NO_TABLES, Idle, map[], false, directory)
  }

  ghost predicate Init(s: System)
  {
    && (forall m | m in s.laptops :: s.laptops[m] == NewLaptop(s.laptops[m].directory))
    && s.server == ServerState(map[], EMPTY, map[], 0)
  }

  // ---------------------------------------------------------------- steps

  datatype Step =
    | HostAppend(m: string, d: Date, raw: string)
    | HostApply(m: string, line: LogLine)
    | StartSync(m: string)
    | PushCall(m: string, n: nat)
    | PushAck(m: string)
    | PushFail(m: string)
    | PushDone(m: string)
    | CallStep(id: nat)
    | CallDie(id: nat)
    | PullChunk(m: string, p: string, n: nat)
    | PullFail(m: string, p: string, lines: nat, done: nat)
    | PullDone(m: string)
    | Crash(m: string, p: string, n: nat, lines: nat)

  /** The next lines of peer `p` past a laptop's cursor. */
  ghost function Next(s: System, m: string, p: string): seq<LogLine>
    requires m in s.laptops
  {
    After(MirrorOf(s.server, p), GetCursor(s.laptops[m].work, p))
  }

  ghost predicate IsChunk(s: System, m: string, p: string, n: nat)
  {
    m in s.laptops && p != m && p in s.server.dirs && n <= SyncServer.CHUNK && n <= |Next(s, m, p)|
  }

  ghost predicate Enabled(s: System, step: Step)
  {
    match step
    case HostAppend(m, d, raw) =>
      && m in s.laptops && d > NO_DATE && '\n' !in raw && Regular(raw)
      && forall e | e in s.laptops[m].log :: s.laptops[m].log[e] == [] || e <= d
    case HostApply(m, line) =>
      m in s.laptops && Has(s.laptops[m].log, line) && s.laptops[m].work == s.laptops[m].disk
    case StartSync(m) => m in s.laptops && s.laptops[m].phase == Idle
    case PushCall(m, n) =>
      && m in s.laptops && s.laptops[m].phase.Pushing?
      && 1 <= n <= PUSH_BATCH && n <= |After(s.laptops[m].log, s.laptops[m].phase.upTo)|
    case PushAck(m) =>
      && m in s.laptops && s.laptops[m].phase.Waiting?
      && s.laptops[m].phase.call in s.server.calls && s.server.calls[s.laptops[m].phase.call] == []
    case PushFail(m) => m in s.laptops && (s.laptops[m].phase.Pushing? || s.laptops[m].phase.Waiting?)
    case PushDone(m) => m in s.laptops && s.laptops[m].phase.Pushing?
    case CallStep(id) => id in s.server.calls && s.server.calls[id] != []
    case CallDie(id) => id in s.server.calls
    case PullChunk(m, p, n) => IsChunk(s, m, p, n) && s.laptops[m].phase == Pulling && n >= 1
    case PullFail(m, p, lines, done) =>
      && IsChunk(s, m, p, lines) && s.laptops[m].phase == Pulling
      && done <= if lines == 0 then 0 else |PyOps(Next(s, m, p)[lines - 1].raw, s.laptops[m].directory)|
    case PullDone(m) => m in s.laptops && s.laptops[m].phase == Pulling
    case Crash(m, p, n, lines) =>
      && m in s.laptops
      && (lines == 0 || (IsChunk(s, m, p, n) && s.laptops[m].phase == Pulling && lines <= n))
  }

  ghost function Receive(l: Laptop, p: string, lines: seq<LogLine>): map<string, seq<LogLine>>
  {
    if lines == [] then l.received else l.received[p := ReceivedFrom(l, p) + lines]
  }

  /** The laptop after a step of its own. */
  ghost function Moved(s: System, step: Step): Laptop
    requires Enabled(s, step) && !step.CallStep? && !step.CallDie?
  {
    var l := s.laptops[step.m];
    match step
    case HostAppend(m, d, raw) => l.(log := l.log[d := LinesAt(l.log, d) + [raw]])
    case HostApply(m, line) =>
      var t := l.work.(db := RunOps(l.work.db, GoOps(line.raw)));
      l.(disk := t, work := t)
    case StartSync(m) =>
      var t := MarkAttempt(l.work, m);
      l.(disk := t, work := t, phase := Pushing(GetCursor(t, m)))
    case PushCall(m, n) =>
      var b := After(l.log, l.phase.upTo)[..n];
      if Append(FilesOf(s.server, m), b).gap then l.(disk := l.work, phase := Idle)
      else l.(phase := Waiting(l.phase.upTo, At(b[n - 1]), s.server.next))
    case PushAck(m) => l.(phase := Pushing(l.phase.end))
    case PushFail(m) => l.(disk := l.work, phase := Idle)
    case PushDone(m) =>
      var t := if l.phase.upTo == GetCursor(l.work, m) then l.work else SetCursor(l.work, m, l.phase.upTo);
      l.(disk := t, work := t, phase := Pulling)
    case PullChunk(m, p, n) =>
      var lines := Next(s, m, p)[..n];
      var t := l.work.(db := RunOps(l.work.db, LineOps(lines, l.directory)));
      l.(work := SetCursor(t, p, At(lines[n - 1])), received := Receive(l, p, lines))
    case PullFail(m, p, lines, done) =>
      var t := l.work.(db := RunOps(l.work.db, PartOps(Next(s, m, p)[..lines], done, l.directory)));
      l.(disk := t, work := t, phase := Idle, received := Receive(l, p, Next(s, m, p)[..lines]),
         torn := l.torn || lines > 0)
    case PullDone(m) => l.(disk := l.work, phase := Idle)
    case Crash(m, p, n, lines) =>
      l.(work := l.disk, phase := Idle,
         received := if lines == 0 then l.received else Receive(l, p, Next(s, m, p)[..lines]),
         torn := l.torn || lines > 0 || l.work != l.disk)
  }

  /** The server after a step. */
  ghost function Served(s: System, step: Step): ServerState
    requires Enabled(s, step)
  {
    var v := s.server;
    match step
    case PushCall(m, n) =>
      var b := After(s.laptops[m].log, s.laptops[m].phase.upTo)[..n];
      var o := Append(FilesOf(v, m), b);
      if o.gap then v.(dirs := v.dirs[m := o.files])
      else ServerState(v.dirs[m := o.files], v.db, v.calls[v.next := GoOpsOf(Raws(b))], v.next + 1)
    case PushAck(m) => v.(calls := v.calls - {s.laptops[m].phase.call})
    case CallStep(id) => v.(db := RunOp(v.db, v.calls[id][0]), calls := v.calls[id := v.calls[id][1..]])
    case CallDie(id) => v.(calls := v.calls - {id})
    case _ => v
  }

  ghost function Apply(s: System, step: Step): System
    requires Enabled(s, step)
  {
    System(if step.CallStep? || step.CallDie? then s.laptops else s.laptops[step.m := Moved(s, step)], Served(s, step))
  }

  // ---------------------------------------------------------------- the invariant

  ghost predicate LineSays(x: LogLine, f: Fact)
  {
    InOps(GoOps(x.raw), f)
  }

  ghost predicate LogSays(log: DayLog, f: Fact)
  {
    exists x :: Has(log, x) && LineSays(x, f)
  }

  /** Every line of `log` up to the cursor is reflected in `db`. */
  ghost predicate Reflected(log: DayLog, c: Cursor, db: Db)
  {
    forall x, f | Has(log, x) && LineSays(x, f) :: Past(x, c) || InDb(db, f)
  }

  /** Every line of `log` up to the cursor is mirrored. */
  ghost predicate Mirrored(log: DayLog, c: Cursor, mirror: DayLog)
  {
    forall x | Has(log, x) :: Past(x, c) || Has(mirror, x)
  }

  /** The cursor names a line of the log, or nothing yet. */
  ghost predicate Points(c: Cursor, log: DayLog)
  {
    c.date == NO_DATE || (c.date in log && 0 <= c.offset < |log[c.date]|)
  }

  /** Durable and applied: what acknowledging lines up to `c` means. */
  ghost predicate Acknowledged(log: DayLog, c: Cursor, v: ServerState, m: string)
  {
    Mirrored(log, c, MirrorOf(v, m)) && Reflected(log, c, v.db) && Points(c, MirrorOf(v, m))
  }

  ghost predicate GoodLog(log: DayLog)
  {
    && Dated(log) && LogNewlineFree(log)
    && forall x | Has(log, x) :: Regular(x.raw)
  }

  ghost predicate PushOk(m: string, l: Laptop, v: ServerState)
  {
    match l.phase
    case Pushing(upTo) => Acknowledged(l.log, upTo, v, m) && CursorLe(GetCursor(l.work, m), upTo)
    case Waiting(upTo, end, call) =>
      && Acknowledged(l.log, upTo, v, m) && CursorLe(GetCursor(l.work, m), upTo) && CursorLe(upTo, end)
      && Mirrored(l.log, end, MirrorOf(v, m)) && Points(end, MirrorOf(v, m)) && call < v.next
      && (call in v.calls ==>
            forall x, f | Has(l.log, x) && LineSays(x, f) :: Past(x, end) || InDb(v.db, f) || InOps(v.calls[call], f))
    case _ => true
  }

  /** The pulled part of a laptop's tables `t`. */
  ghost predicate PulledOk(m: string, t: LaptopTables, v: ServerState)
  {
    forall p | p != m ::
      Reflected(MirrorOf(v, p), GetCursor(t, p), t.db) && Points(GetCursor(t, p), MirrorOf(v, p))
  }

  /** Nothing is in the tables that no log says. */
  ghost predicate SourcedOk(m: string, log: DayLog, db: Db, v: ServerState)
  {
    forall f | InDb(db, f) :: LogSays(log, f) || MirrorsSay(v, f)
  }

  ghost predicate TablesOk(m: string, log: DayLog, t: LaptopTables, v: ServerState)
  {
    && Consistent(t.db)
    && Acknowledged(log, GetCursor(t, m), v, m)
    && PulledOk(m, t, v)
    && SourcedOk(m, log, t.db, v)
  }

  ghost predicate LaptopOk(m: string, l: Laptop, v: ServerState)
  {
    && GoodLog(l.log)
    && TablesOk(m, l.log, l.disk, v) && TablesOk(m, l.log, l.work, v)
    && PushOk(m, l, v)
    && (l.phase != Pulling ==> l.work == l.disk)
    && (forall p :: CursorLe(GetCursor(l.disk, p), GetCursor(l.work, p)))
  }

  /** Some mirror holds a line that says so. */
  ghost predicate MirrorsSay(v: ServerState, f: Fact)
  {
    exists p :: p in v.dirs && LogSays(MirrorOf(v, p), f)
  }

  ghost predicate MirrorsOk(v: ServerState, laptops: map<string, Laptop>)
  {
    forall m | m in v.dirs :: m in laptops && Terminated(v.dirs[m]) && PrefixOf(MirrorOf(v, m), laptops[m].log)
  }

  ghost predicate CanonicalOk(v: ServerState)
  {
    Consistent(v.db) && forall f | InDb(v.db, f) :: MirrorsSay(v, f)
  }

  ghost predicate CallOk(v: ServerState, id: nat)
    requires id in v.calls
  {
    && id < v.next && Guarded(v.db.visits.Keys, v.calls[id])
    && forall f | InOps(v.calls[id], f) :: MirrorsSay(v, f)
  }

  ghost predicate ServerOk(v: ServerState, laptops: map<string, Laptop>)
  {
    && MirrorsOk(v, laptops)
    && CanonicalOk(v)
    && forall id | id in v.calls :: CallOk(v, id)
  }

  ghost predicate Inv(s: System)
  {
    && ServerOk(s.server, s.laptops)
    && forall m | m in s.laptops :: LaptopOk(m, s.laptops[m], s.server)
  }
}
