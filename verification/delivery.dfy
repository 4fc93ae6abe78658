/** What a laptop's tables and its copies of the peers' files hold after pulls that
    were cut off, repeated and rolled back. */
module Delivery {
  import opened Text
  import opened DayLogs
  import opened Tables
  import opened Replay
  import opened Mirror
  import opened SyncSteps
  import opened Protocol
  import opened ProtocolProof
  import opened Convergence
  import opened Redelivery
  import opened Seqs

  // ---------------------------------------------------------------- statements run again

  /** Two tries, each cut off anywhere, are the longer one. */
  lemma TwoTries(db: Db, ops: seq<Op>, a: nat, b: nat)
    requires Guarded(db.visits.Keys, ops) && a <= |ops| && b <= |ops|
    ensures RunOps(RunOps(db, ops[..a]), ops[..b]) == RunOps(db, ops[..if a < b then b else a])
  {
    var now := RunOps(db, ops[..a]);
    GuardedPrefix(db.visits.Keys, ops, a);
    RunFacts(db, ops[..a]);
    if b <= a {
      AlreadySaid(now, ops, a, b);
    } else {
      AlreadySaid(now, ops, a, a);
      assert ops[..b] == ops[..a] + ops[a..b];
      RunConcat(now, ops[..a], ops[a..b]);
      RunConcat(db, ops[..a], ops[a..b]);
    }
  }

  lemma AlreadySaid(now: Db, ops: seq<Op>, a: nat, b: nat)
    requires b <= a <= |ops| && forall f | InOps(ops[..a], f) :: InDb(now, f)
    ensures RunOps(now, ops[..b]) == now
  {
    forall op | op in ops[..b] ensures InDb(now, FactOf(op)) {
      assert op in ops[..a] && InOps(ops[..a], FactOf(op));
    }
    RunIdempotent(now, ops[..b]);
  }

  function Tries(db: Db, ops: seq<Op>, tries: seq<nat>): Db
    requires forall i | 0 <= i < |tries| :: tries[i] <= |ops|
  {
    if tries == [] then db else RunOps(Tries(db, ops, tries[..|tries| - 1]), ops[..tries[|tries| - 1]])
  }

  function Furthest(tries: seq<nat>): nat
  {
    if tries == [] then 0
    else
      var f, last := Furthest(tries[..|tries| - 1]), tries[|tries| - 1];
      if f < last then last else f
  }

  lemma {:induction false} TriesAreTheFurthest(db: Db, ops: seq<Op>, tries: seq<nat>)
    requires Guarded(db.visits.Keys, ops) && forall i | 0 <= i < |tries| :: tries[i] <= |ops|
    ensures Furthest(tries) <= |ops| && Tries(db, ops, tries) == RunOps(db, ops[..Furthest(tries)])
  {
    if tries != [] {
      TriesAreTheFurthest(db, ops, tries[..|tries| - 1]);
      TwoTries(db, ops, Furthest(tries[..|tries| - 1]), tries[|tries| - 1]);
    }
  }

  /** A chunk whose delivery broke off any number of times, each time after any
      statement, leaves in the end the very database that one delivery leaves. */
  lemma RedeliveredIsDelivered(db: Db, lines: seq<LogLine>, tries: seq<nat>, directory: string)
    requires forall i | 0 <= i < |tries| :: tries[i] <= |LineOps(lines, directory)|
    ensures
      var ops := LineOps(lines, directory);
      RunOps(Tries(db, ops, tries), ops) == RunOps(db, ops)
  {
    var ops := LineOps(lines, directory);
    LineOpsGuarded(db.visits.Keys, lines, directory);
    TriesAreTheFurthest(db, ops, tries);
    assert ops[..|ops|] == ops;
    TwoTries(db, ops, Furthest(tries), |ops|);
  }

  lemma {:induction false} LineOpsGrow(lines: seq<LogLine>, n: nat, directory: string)
    requires n <= |lines|
    ensures LineOps(lines[..n], directory) <= LineOps(lines, directory)
  {
    if n == |lines| {
      assert lines[..n] == lines;
    } else {
      LineOpsGrow(lines[..|lines| - 1], n, directory);
      assert lines[..|lines| - 1][..n] == lines[..n];
    }
  }

  /** What a chunk given up after `n` lines has run is such a try. */
  lemma PartIsATry(lines: seq<LogLine>, n: nat, done: nat, directory: string)
    requires n <= |lines| && (n > 0 ==> done <= |PyOps(lines[n - 1].raw, directory)|)
    ensures PartOps(lines[..n], done, directory) <= LineOps(lines, directory)
  {
    if n > 0 {
      LineOpsGrow(lines, n, directory);
      assert lines[..n][..n - 1] == lines[..n - 1];
    }
  }

  // ---------------------------------------------------------------- where the facts come from

  /** The database says only what the laptop's own lines say or lines that it has
      received. */
  ghost predicate Heard(m: string, l: Laptop, db: Db)
  {
    forall f | InDb(db, f) :: LogSays(l.log, f) || ReceivedSays(m, l, f)
  }

  ghost predicate ReceivedSays(m: string, l: Laptop, f: Fact)
  {
    exists p :: p != m && LinesSay(ReceivedFrom(l, p), f)
  }

  ghost predicate HeardOk(m: string, l: Laptop)
  {
    Heard(m, l, l.work.db) && Heard(m, l, l.disk.db)
  }

  /** More lines, and statements that say what some of them say. */
  lemma HearsMore(m: string, l: Laptop, next: Laptop, db: Db, ops: seq<Op>)
    requires Heard(m, l, db) && Guarded(db.visits.Keys, ops)
    requires forall f | LogSays(l.log, f) :: LogSays(next.log, f)
    requires forall f | ReceivedSays(m, l, f) :: ReceivedSays(m, next, f)
    requires forall f | InOps(ops, f) :: LogSays(next.log, f) || ReceivedSays(m, next, f)
    ensures Heard(m, next, RunOps(db, ops))
  {
    RunFacts(db, ops);
  }

  lemma ReceivedMore(m: string, l: Laptop, p: string, lines: seq<LogLine>, next: Laptop, f: Fact)
    requires next.received == Receive(l, p, lines) && (lines != [] ==> p != m)
    ensures ReceivedSays(m, l, f) ==> ReceivedSays(m, next, f)
    ensures LinesSay(lines, f) ==> ReceivedSays(m, next, f)
  {
    forall q ensures ReceivedFrom(next, q) == if q == p then ReceivedFrom(l, p) + lines else ReceivedFrom(l, q) {
      ReceivedNow(l, p, lines, next, q);
    }
    if ReceivedSays(m, l, f) {
      var q :| q != m && LinesSay(ReceivedFrom(l, q), f);
      var x :| x in ReceivedFrom(l, q) && LineSays(x, f);
      assert x in ReceivedFrom(next, q);
    }
    if LinesSay(lines, f) {
      var x :| x in lines && LineSays(x, f);
      assert x in ReceivedFrom(next, p) && LinesSay(ReceivedFrom(next, p), f);
    }
  }

  lemma Nothing(db: Db)
    ensures RunOps(db, []) == db && Guarded(db.visits.Keys, []) && forall f :: !InOps([], f)
  {
  }

  /** Only the copies grow, or only the log. */
  lemma HearsTheSame(m: string, l: Laptop, next: Laptop, db: Db)
    requires Heard(m, l, db)
    requires forall f | LogSays(l.log, f) :: LogSays(next.log, f)
    requires forall f | ReceivedSays(m, l, f) :: ReceivedSays(m, next, f)
    ensures Heard(m, next, db)
  {
  }

  lemma SameReceived(m: string, l: Laptop, next: Laptop)
    requires next.received == l.received
    ensures forall f :: ReceivedSays(m, l, f) <==> ReceivedSays(m, next, f)
  {
    forall p ensures ReceivedFrom(next, p) == ReceivedFrom(l, p) {}
  }

  lemma HostAppendHeard(s: System, m: string, d: Dates.Date, raw: string)
    requires Inv(s) && Enabled(s, HostAppend(m, d, raw)) && HeardOk(m, s.laptops[m])
    ensures HeardOk(m, Moved(s, HostAppend(m, d, raw)))
  {
    var l := s.laptops[m];
    var next := Moved(s, HostAppend(m, d, raw));
    assert LaptopOk(m, l, s.server);
    AppendGood(l.log, d, raw);
    forall f | LogSays(l.log, f) ensures LogSays(next.log, f) {
      LogSaysMono(l.log, next.log, f);
    }
    SameReceived(m, l, next);
  }

  lemma HostApplyHeard(s: System, m: string, line: LogLine)
    requires Enabled(s, HostApply(m, line)) && HeardOk(m, s.laptops[m])
    ensures HeardOk(m, Moved(s, HostApply(m, line)))
  {
    var l, next := s.laptops[m], Moved(s, HostApply(m, line));
    LinesGuarded(line.raw, "", l.work.db.visits.Keys);
    SameReceived(m, l, next);
    forall f | InOps(GoOps(line.raw), f) ensures LogSays(l.log, f) {
      assert LineSays(line, f);
    }
    HearsMore(m, l, next, l.work.db, GoOps(line.raw));
  }

  lemma PullChunkHeard(s: System, m: string, p: string, n: nat)
    requires Inv(s) && Enabled(s, PullChunk(m, p, n)) && HeardOk(m, s.laptops[m])
    ensures HeardOk(m, Moved(s, PullChunk(m, p, n)))
  {
    var l, lines := s.laptops[m], Next(s, m, p)[..n];
    var next := Moved(s, PullChunk(m, p, n));
    PeerLines(s, m, p, n);
    WholeRun(l.work.db, lines, l.directory);
    forall f ensures (ReceivedSays(m, l, f) || LinesSay(lines, f)) ==> ReceivedSays(m, next, f) {
      ReceivedMore(m, l, p, lines, next, f);
    }
    HearsMore(m, l, next, l.work.db, LineOps(lines, l.directory));
    HearsTheSame(m, l, next, l.disk.db);
  }

  lemma PartHeard(m: string, l: Laptop, p: string, part: seq<LogLine>, done: nat, next: Laptop)
    requires HeardOk(m, l) && (part != [] ==> p != m) && (forall x | x in part :: Regular(x.raw))
    requires part != [] ==> done <= |PyOps(part[|part| - 1].raw, l.directory)|
    requires next.received == Receive(l, p, part) && next.log == l.log
    ensures Heard(m, next, RunOps(l.work.db, PartOps(part, done, l.directory)))
  {
    PartOpsFacts(part, done, l.directory, l.work.db.visits.Keys);
    forall f ensures (ReceivedSays(m, l, f) || LinesSay(part, f)) ==> ReceivedSays(m, next, f) {
      ReceivedMore(m, l, p, part, next, f);
    }
    HearsMore(m, l, next, l.work.db, PartOps(part, done, l.directory));
  }

  lemma PullFailHeard(s: System, m: string, p: string, lines: nat, done: nat)
    requires Inv(s) && Enabled(s, PullFail(m, p, lines, done)) && HeardOk(m, s.laptops[m])
    ensures HeardOk(m, Moved(s, PullFail(m, p, lines, done)))
  {
    PeerLines(s, m, p, lines);
    PartMeans(s, m, p, lines, done);
    PartHeard(m, s.laptops[m], p, Next(s, m, p)[..lines], done, Moved(s, PullFail(m, p, lines, done)));
  }

  lemma CrashHeard(s: System, m: string, p: string, n: nat, lines: nat)
    requires Enabled(s, Crash(m, p, n, lines)) && HeardOk(m, s.laptops[m])
    ensures HeardOk(m, Moved(s, Crash(m, p, n, lines)))
  {
    var l, next := s.laptops[m], Moved(s, Crash(m, p, n, lines));
    if lines == 0 {
      SameReceived(m, l, next);
    } else {
      forall f ensures ReceivedSays(m, l, f) ==> ReceivedSays(m, next, f) {
        ReceivedMore(m, l, p, Next(s, m, p)[..lines], next, f);
      }
    }
    HearsTheSame(m, l, next, l.disk.db);
  }

  predicate Quiet(step: Step)
  {
    step.StartSync? || step.PushCall? || step.PushAck? || step.PushFail? || step.PushDone? || step.PullDone?
  }

  /** The other steps neither receive nor write anything. */
  lemma QuietHeard(s: System, step: Step)
    requires Enabled(s, step) && Quiet(step) && HeardOk(step.m, s.laptops[step.m])
    ensures HeardOk(step.m, Moved(s, step))
  {
    var l, next := s.laptops[step.m], Moved(s, step);
    assert next.log == l.log && next.received == l.received && next.work.db == l.work.db;
    assert next.disk.db == l.disk.db || next.disk.db == l.work.db;
    SameReceived(step.m, l, next);
  }

  lemma OwnStepHeard(s: System, step: Step)
    requires Inv(s) && Enabled(s, step) && !step.CallStep? && !step.CallDie? && HeardOk(step.m, s.laptops[step.m])
    ensures HeardOk(step.m, Moved(s, step))
  {
    if Quiet(step) {
      QuietHeard(s, step);
    } else {
      match step
      case HostAppend(m, d, raw) => HostAppendHeard(s, m, d, raw);
      case HostApply(m, line) => HostApplyHeard(s, m, line);
      case PullChunk(m, p, n) => PullChunkHeard(s, m, p, n);
      case PullFail(m, p, lines, done) => PullFailHeard(s, m, p, lines, done);
      case Crash(m, p, n, lines) => CrashHeard(s, m, p, n, lines);
    }
  }

  ghost predicate AllHeard(s: System)
  {
    forall m | m in s.laptops :: HeardOk(m, s.laptops[m])
  }

  lemma InitHeard(s: System)
    requires Init(s)
    ensures AllHeard(s)
  {
    assert forall f :: !InDb(EMPTY, f);
  }

  lemma StepHeard(s: System, step: Step)
    requires Inv(s) && Enabled(s, step) && AllHeard(s)
    ensures AllHeard(Apply(s, step))
  {
    forall m | m in Apply(s, step).laptops ensures HeardOk(m, Apply(s, step).laptops[m]) {
      SameLaptops(s, step, m);
      OnlyItsOwn(s, step, m);
      if !step.CallStep? && !step.CallDie? && step.m == m {
        OwnStepHeard(s, step);
      }
    }
  }

  lemma SameLaptops(s: System, step: Step, m: string)
    requires Enabled(s, step) && m in Apply(s, step).laptops
    ensures m in s.laptops
  {
  }

  lemma {:induction false} RunHeard(run: seq<System>, steps: seq<Step>, i: nat)
    requires IsRun(run, steps) && i < |run|
    ensures AllHeard(run[i])
  {
    if i == 0 {
      InitHeard(run[0]);
    } else {
      RunHeard(run, steps, i - 1);
      NextHeard(run, steps, i - 1);
    }
  }

  lemma NextHeard(run: seq<System>, steps: seq<Step>, i: nat)
    requires IsRun(run, steps) && i < |steps| && AllHeard(run[i])
    ensures i + 1 < |run| && AllHeard(run[i + 1])
  {
    RunKeeps(run, steps, i);
    RunGoesOn(run, steps, i);
    StepHeard(run[i], steps[i]);
  }

  // ---------------------------------------------------------------- one delivery

  /** Every line once: the laptop's own, then each peer's at its first delivery. */
  ghost function OneDelivery(l: Laptop, peers: seq<string>): seq<Op>
  {
    if peers == [] then GoOpsOf(Raws(Flat(l.log)))
    else OneDelivery(l, peers[..|peers| - 1]) + LineOps(Firsts(ReceivedFrom(l, peers[|peers| - 1])), l.directory)
  }

  ghost predicate AllSay(l: Laptop, peers: seq<string>, f: Fact)
  {
    LogSays(l.log, f) || exists i :: 0 <= i < |peers| && LinesSay(Firsts(ReceivedFrom(l, peers[i])), f)
  }

  lemma AllSaySnoc(l: Laptop, peers: seq<string>, f: Fact)
    requires peers != []
    ensures AllSay(l, peers, f) <==>
      AllSay(l, peers[..|peers| - 1], f) || LinesSay(Firsts(ReceivedFrom(l, peers[|peers| - 1])), f)
  {
    var init := peers[..|peers| - 1];
    if i :| 0 <= i < |init| && LinesSay(Firsts(ReceivedFrom(l, init[i])), f) {
      assert LinesSay(Firsts(ReceivedFrom(l, peers[i])), f);
    }
    if i :| 0 <= i < |peers| && LinesSay(Firsts(ReceivedFrom(l, peers[i])), f) {
      assert i < |init| ==> LinesSay(Firsts(ReceivedFrom(l, init[i])), f);
    }
  }

  lemma {:induction false} OneDeliveryGuarded(l: Laptop, peers: seq<string>, urls: set<string>)
    ensures Guarded(urls, OneDelivery(l, peers))
  {
    if peers == [] {
      GoOpsOfGuarded(Raws(Flat(l.log)), urls);
    } else {
      var init, lines := peers[..|peers| - 1], Firsts(ReceivedFrom(l, peers[|peers| - 1]));
      OneDeliveryGuarded(l, init, urls);
      LineOpsGuarded(urls, lines, l.directory);
      GuardedConcat(urls, OneDelivery(l, init), LineOps(lines, l.directory));
    }
  }

  lemma {:induction false} OneDeliverySays(l: Laptop, peers: seq<string>, f: Fact)
    requires forall i, x | 0 <= i < |peers| && x in Firsts(ReceivedFrom(l, peers[i])) :: Regular(x.raw)
    ensures InOps(OneDelivery(l, peers), f) <==> AllSay(l, peers, f)
  {
    if peers == [] {
      BatchSays(Flat(l.log), f);
      OwnLinesSay(l.log, f);
    } else {
      var init, lines := peers[..|peers| - 1], Firsts(ReceivedFrom(l, peers[|peers| - 1]));
      assert forall i | 0 <= i < |init| :: init[i] == peers[i];
      OneDeliverySays(l, init, f);
      InOpsConcat(OneDelivery(l, init), LineOps(lines, l.directory), f);
      LineOpsFacts(lines, f, l.directory);
      AllSaySnoc(l, peers, f);
    }
  }

  lemma OwnLinesSay(log: DayLog, f: Fact)
    ensures LinesSay(Flat(log), f) <==> LogSays(log, f)
  {
    FlatMembers(log);
    if LogSays(log, f) {
      var x :| Has(log, x) && LineSays(x, f);
      assert x in Flat(log);
    }
    if LinesSay(Flat(log), f) {
      var x :| x in Flat(log) && LineSays(x, f);
      assert Has(log, x);
    }
  }

  /** All that was received has been applied and committed. */
  ghost predicate NothingOutstanding(m: string, l: Laptop)
  {
    && (forall p, x | p != m && x in ReceivedFrom(l, p) :: !Past(x, GetCursor(l.disk, p)))
    && (forall f | LogSays(l.log, f) :: InDb(l.disk.db, f))
  }

  lemma ReceivedFacts(run: seq<System>, steps: seq<Step>, i: nat, m: string, p: string, f: Fact)
    requires IsRun(run, steps) && i < |run| && m in run[i].laptops && p != m
    ensures
      var l := run[i].laptops[m];
      && (forall x | x in ReceivedFrom(l, p) :: Regular(x.raw) && Has(MirrorOf(run[i].server, p), x))
      && (LinesSay(Firsts(ReceivedFrom(l, p)), f) <==> LinesSay(ReceivedFrom(l, p), f))
      && (forall x :: x in Firsts(ReceivedFrom(l, p)) <==> x in ReceivedFrom(l, p))
  {
    RunKeeps(run, steps, i);
    RunKeepsCopies(run, steps, i);
    var l, v := run[i].laptops[m], run[i].server;
    assert CopiesOk(m, l, v);
    assert CopyOk(ReceivedFrom(l, p), MirrorOf(v, p), GetCursor(l.work, p), l.torn);
    FirstsInOrder(ReceivedFrom(l, p), MirrorOf(v, p));
    forall x | x in ReceivedFrom(l, p) ensures Regular(x.raw) {
      assert Has(MirrorOf(v, p), x) && p in v.dirs;
      assert LaptopOk(p, run[i].laptops[p], v);
    }
    if LinesSay(ReceivedFrom(l, p), f) {
      var x :| x in ReceivedFrom(l, p) && LineSays(x, f);
      assert x in Firsts(ReceivedFrom(l, p));
    }
  }

  /** In every run a laptop's database says only what its own lines and the lines it
      has received say; and once nothing received is outstanding it is, in its
      order-insensitive part, the database that one delivery of each line gives,
      whatever was delivered twice, cut off or rolled back before. */
  lemma TablesAreOneDelivery(run: seq<System>, steps: seq<Step>, i: nat, m: string, peers: seq<string>)
    requires IsRun(run, steps) && i < |run| && m in run[i].laptops
    requires forall p :: p in peers <==> p != m && ReceivedFrom(run[i].laptops[m], p) != []
    ensures
      var l := run[i].laptops[m];
      && (forall f | InDb(l.disk.db, f) :: InOps(OneDelivery(l, peers), f))
      && (NothingOutstanding(m, l) ==> Summarise(l.disk.db) == Summarise(RunOps(EMPTY, OneDelivery(l, peers))))
  {
    var l := run[i].laptops[m];
    RunHeard(run, steps, i);
    assert HeardOk(m, l);
    forall f ensures InOps(OneDelivery(l, peers), f) <==> LogSays(l.log, f) || ReceivedSays(m, l, f) {
      DeliveredFacts(run, steps, i, m, peers, f);
    }
    if NothingOutstanding(m, l) {
      forall f | ReceivedSays(m, l, f) ensures InDb(l.disk.db, f) {
        AppliedFact(run, steps, i, m, f);
      }
      CountersAreRight(run, steps, i);
      OneDeliveryDecides(l, peers);
    }
  }

  lemma OneDeliveryDecides(l: Laptop, peers: seq<string>)
    requires Consistent(l.disk.db) && forall f :: InDb(l.disk.db, f) <==> InOps(OneDelivery(l, peers), f)
    ensures Summarise(l.disk.db) == Summarise(RunOps(EMPTY, OneDelivery(l, peers)))
  {
    OneDeliveryGuarded(l, peers, EMPTY.visits.Keys);
    RunFacts(EMPTY, OneDelivery(l, peers));
    EmptyIsConsistent();
    FactsDecide(l.disk.db, RunOps(EMPTY, OneDelivery(l, peers)));
  }

  lemma DeliveredFacts(run: seq<System>, steps: seq<Step>, i: nat, m: string, peers: seq<string>, f: Fact)
    requires IsRun(run, steps) && i < |run| && m in run[i].laptops
    requires forall p :: p in peers <==> p != m && ReceivedFrom(run[i].laptops[m], p) != []
    ensures
      var l := run[i].laptops[m];
      InOps(OneDelivery(l, peers), f) <==> LogSays(l.log, f) || ReceivedSays(m, l, f)
  {
    var l := run[i].laptops[m];
    forall k, x | 0 <= k < |peers| && x in Firsts(ReceivedFrom(l, peers[k])) ensures Regular(x.raw) {
      assert peers[k] in peers;
      ReceivedFacts(run, steps, i, m, peers[k], f);
    }
    OneDeliverySays(l, peers, f);
    if ReceivedSays(m, l, f) {
      var p :| p != m && LinesSay(ReceivedFrom(l, p), f);
      ReceivedFacts(run, steps, i, m, p, f);
      var k :| 0 <= k < |peers| && peers[k] == p;
    }
    if k :| 0 <= k < |peers| && LinesSay(Firsts(ReceivedFrom(l, peers[k])), f) {
      assert peers[k] in peers;
      ReceivedFacts(run, steps, i, m, peers[k], f);
    }
  }

  lemma AppliedFact(run: seq<System>, steps: seq<Step>, i: nat, m: string, f: Fact)
    requires IsRun(run, steps) && i < |run| && m in run[i].laptops
    requires NothingOutstanding(m, run[i].laptops[m]) && ReceivedSays(m, run[i].laptops[m], f)
    ensures InDb(run[i].laptops[m].disk.db, f)
  {
    var l, v := run[i].laptops[m], run[i].server;
    RunKeeps(run, steps, i);
    assert LaptopOk(m, l, v) && TablesOk(m, l.log, l.disk, v);
    var p :| p != m && LinesSay(ReceivedFrom(l, p), f);
    ReceivedFacts(run, steps, i, m, p, f);
    var x :| x in ReceivedFrom(l, p) && LineSays(x, f);
    assert Reflected(MirrorOf(v, p), GetCursor(l.disk, p), l.disk.db);
  }

  // ---------------------------------------------------------------- the peers' files

  function TextsOn(s: seq<LogLine>, d: Dates.Date): seq<string>
  {
    if s == [] then []
    else
      var t, x := TextsOn(s[..|s| - 1], d), s[|s| - 1];
      if x.date == d then t + [x.raw] else t
  }

  function PeerFiles(received: seq<LogLine>, p: string): Files
  {
    var peers := AppendPeerLines(map[], p, received);
    if p in peers then peers[p] else map[]
  }

  lemma {:induction false} PeerFileText(received: seq<LogLine>, p: string, d: Dates.Date)
    ensures Content(PeerFiles(received, p), d) == Unlines(TextsOn(received, d))
    ensures d in PeerFiles(received, p) <==> TextsOn(received, d) != []
    ensures received != [] ==> p in AppendPeerLines(map[], p, received)
  {
    if received != [] {
      var q, x := received[..|received| - 1], received[|received| - 1];
      PeerFileText(q, p, d);
      assert PeerFiles(received, p) == PeerFiles(q, p)[x.date := Content(PeerFiles(q, p), x.date) + x.raw + "\n"];
      if x.date == d {
        UnlinesConcat(TextsOn(q, d), [x.raw]);
        assert [x.raw][1..] == [] && Unlines([x.raw]) == x.raw + "\n";
        assert Unlines(TextsOn(q, d)) + (x.raw + "\n") == Unlines(TextsOn(q, d)) + x.raw + "\n";
      }
    }
  }

  lemma {:induction false} TextsNewlineFree(s: seq<LogLine>, d: Dates.Date)
    requires forall x | x in s :: '\n' !in x.raw
    ensures NewlineFree(TextsOn(s, d))
  {
    if s != [] {
      TextsNewlineFree(s[..|s| - 1], d);
      assert s[|s| - 1] in s;
    }
  }

  /** A peer's file holds what was received for its day, in the order of arrival. */
  lemma PeerFilesHold(received: seq<LogLine>, p: string, d: Dates.Date)
    requires forall x | x in received :: '\n' !in x.raw
    ensures LinesAt(LinesOf(PeerFiles(received, p)), d) == TextsOn(received, d)
  {
    PeerFileText(received, p, d);
    TextsNewlineFree(received, d);
    LinesUnlines(TextsOn(received, d));
  }

  /** The first lines of a flattened log are, day by day, first lines of its days. */
  ghost predicate DayByDay(log: DayLog, s: seq<LogLine>)
  {
    && (forall d :: TextsOn(s, d) <= LinesAt(log, d))
    && (forall x :: x in s <==> Has(log, x) && x.offset < |TextsOn(s, x.date)|)
  }

  lemma {:induction false} FirstLines(log: DayLog, n: nat)
    requires n <= |Flat(log)|
    ensures DayByDay(log, Flat(log)[..n])
  {
    if n == 0 {
      NoLineYet(log);
      assert Flat(log)[..0] == [];
    } else {
      FirstLines(log, n - 1);
      NextLine(log, Flat(log), n - 1);
    }
  }

  lemma NextLine(log: DayLog, s: seq<LogLine>, n: nat)
    requires s == Flat(log) && n < |s| && DayByDay(log, s[..n])
    ensures DayByDay(log, s[..n + 1])
  {
    FlatMembers(log);
    NextOffset(log, s, n + 1);
    OneLineMore(log, s[..n], s[n]);
    Longer(s, n);
  }

  lemma NoLineYet(log: DayLog)
    ensures DayByDay(log, [])
  {
  }

  lemma OneText(q: seq<LogLine>, x: LogLine, d: Dates.Date)
    ensures TextsOn(q + [x], d) == if x.date == d then TextsOn(q, d) + [x.raw] else TextsOn(q, d)
  {
    Snoc(q, x);
  }

  lemma OneLineMore(log: DayLog, q: seq<LogLine>, x: LogLine)
    requires DayByDay(log, q) && Has(log, x) && x.offset == |TextsOn(q, x.date)|
    ensures DayByDay(log, q + [x])
  {
    forall d ensures TextsOn(q + [x], d) <= LinesAt(log, d) {
      OneText(q, x, d);
      NextText(log, q, x, d);
    }
    forall y ensures y in q + [x] <==> Has(log, y) && y.offset < |TextsOn(q + [x], y.date)| {
      LineThere(log, q, x, y);
    }
  }

  lemma LineThere(log: DayLog, q: seq<LogLine>, x: LogLine, y: LogLine)
    requires DayByDay(log, q) && Has(log, x) && x.offset == |TextsOn(q, x.date)|
    ensures y in q + [x] <==> Has(log, y) && y.offset < |TextsOn(q + [x], y.date)|
  {
    OneText(q, x, y.date);
    assert y in q <==> Has(log, y) && y.offset < |TextsOn(q, y.date)|;
    assert y in q + [x] <==> y in q || y == x;
  }

  lemma NextText(log: DayLog, q: seq<LogLine>, x: LogLine, d: Dates.Date)
    requires DayByDay(log, q) && Has(log, x) && x.offset == |TextsOn(q, x.date)|
    ensures (if x.date == d then TextsOn(q, d) + [x.raw] else TextsOn(q, d)) <= LinesAt(log, d)
  {
    var t, all := TextsOn(q, d), LinesAt(log, d);
    assert t <= all;
    if x.date == d {
      assert all[..|t|] == t && all[|t|] == x.raw;
    }
  }

  lemma NotBefore(s: seq<LogLine>, n: nat)
    requires Sorted(s) && 0 < n <= |s|
    ensures s[n - 1] !in s[..n - 1]
  {
    var q := s[..n - 1];
    forall j | 0 <= j < |q| ensures q[j] != s[n - 1] {
      assert Before(s[j], s[n - 1]);
    }
  }

  lemma EarlierIsBefore(s: seq<LogLine>, n: nat, y: LogLine)
    requires Sorted(s) && 0 < n <= |s| && y in s && Before(y, s[n - 1])
    ensures y in s[..n - 1]
  {
    var j :| 0 <= j < |s| && s[j] == y;
    assert forall k | n - 1 < k < |s| :: Before(s[n - 1], s[k]);
    assert s[..n - 1][j] == y;
  }

  lemma NextOffset(log: DayLog, s: seq<LogLine>, n: nat)
    requires Sorted(s) && (forall x :: x in s <==> Has(log, x)) && 0 < n <= |s| && DayByDay(log, s[..n - 1])
    ensures Has(log, s[n - 1]) && s[n - 1].offset == |TextsOn(s[..n - 1], s[n - 1].date)|
  {
    var x, k := s[n - 1], |TextsOn(s[..n - 1], s[n - 1].date)|;
    assert x in s;
    NotBefore(s, n);
    if x.offset > k {
      var y := LogLine(x.date, k, log[x.date][k]);
      assert Has(log, y) && y in s;
      EarlierIsBefore(s, n, y);
    }
  }

  lemma CopyIsHonest(run: seq<System>, steps: seq<Step>, i: nat, m: string, p: string)
    requires IsRun(run, steps) && i < |run| && m in run[i].laptops && p != m
    ensures
      var l, v := run[i].laptops[m], run[i].server;
      && CopyOk(ReceivedFrom(l, p), MirrorOf(v, p), GetCursor(l.work, p), l.torn)
      && forall x | x in ReceivedFrom(l, p) :: '\n' !in x.raw
  {
    RunKeeps(run, steps, i);
    RunKeepsCopies(run, steps, i);
    HonestCopy(run[i], m, p);
  }

  lemma HonestCopy(s: System, m: string, p: string)
    requires Inv(s) && m in s.laptops && CopiesOk(m, s.laptops[m], s.server) && p != m
    ensures
      var l, v := s.laptops[m], s.server;
      && CopyOk(ReceivedFrom(l, p), MirrorOf(v, p), GetCursor(l.work, p), l.torn)
      && forall x | x in ReceivedFrom(l, p) :: '\n' !in x.raw
  {
    hide Inv, LinesOf, Flat, After;
    var l, v := s.laptops[m], s.server;
    assert CopyOk(ReceivedFrom(l, p), MirrorOf(v, p), GetCursor(l.work, p), l.torn);
    forall x | x in ReceivedFrom(l, p) ensures '\n' !in x.raw {
      assert Has(MirrorOf(v, p), x);
      MirroredIsOneLine(s, p, x);
    }
  }

  lemma MirroredIsOneLine(s: System, p: string, x: LogLine)
    requires Inv(s) && Has(MirrorOf(s.server, p), x)
    ensures '\n' !in x.raw
  {
    assert p in s.server.dirs && LaptopOk(p, s.laptops[p], s.server) && Has(s.laptops[p].log, x);
    assert x.raw in s.laptops[p].log[x.date];
  }

  /** In every run the file of a peer's day holds what arrived for it; and if no pull
      was cut inside a chunk and no commit lost, the files read back as exactly the
      mirror's lines up to the cursor, each at its own offset. */
  lemma PeerFilesAreMirrors(run: seq<System>, steps: seq<Step>, i: nat, m: string, p: string)
    requires IsRun(run, steps) && i < |run| && m in run[i].laptops && p != m
    ensures
      var l, mirror := run[i].laptops[m], MirrorOf(run[i].server, p);
      var files := PeerFiles(ReceivedFrom(l, p), p);
      && (forall d :: LinesAt(LinesOf(files), d) == TextsOn(ReceivedFrom(l, p), d))
      && (!l.torn ==> forall x :: Has(LinesOf(files), x) <==> Has(mirror, x) && !Past(x, GetCursor(l.work, p)))
  {
    CopyIsHonest(run, steps, i, m, p);
    var l, v := run[i].laptops[m], run[i].server;
    var received, mirror, c := ReceivedFrom(l, p), MirrorOf(v, p), GetCursor(l.work, p);
    forall d ensures LinesAt(LinesOf(PeerFiles(received, p)), d) == TextsOn(received, d) {
      PeerFilesHold(received, p, d);
    }
    if !l.torn {
      UntornFiles(received, p, mirror, c);
    }
  }

  lemma UntornFiles(received: seq<LogLine>, p: string, mirror: DayLog, c: Cursor)
    requires received + After(mirror, c) == Flat(mirror)
    requires forall d :: LinesAt(LinesOf(PeerFiles(received, p)), d) == TextsOn(received, d)
    ensures forall x :: Has(LinesOf(PeerFiles(received, p)), x) <==> Has(mirror, x) && !Past(x, c)
  {
    var s := Flat(mirror);
    assert s[..|received|] == received;
    AfterMembers(mirror, c);
    FlatMembers(mirror);
    FirstLines(mirror, |received|);
    forall x ensures Has(LinesOf(PeerFiles(received, p)), x) <==> Has(mirror, x) && !Past(x, c) {
      UntornLine(received, mirror, c, x);
      assert Has(LinesOf(PeerFiles(received, p)), x) <==>
        0 <= x.offset < |TextsOn(received, x.date)| && TextsOn(received, x.date)[x.offset] == x.raw;
      assert TextsOn(received, x.date) <= LinesAt(mirror, x.date);
    }
  }

  lemma UntornLine(received: seq<LogLine>, mirror: DayLog, c: Cursor, x: LogLine)
    requires received + After(mirror, c) == Flat(mirror)
    ensures x in received <==> Has(mirror, x) && !Past(x, c)
  {
    AfterMembers(mirror, c);
    FlatMembers(mirror);
    var s := Flat(mirror);
    if x in received {
      var j :| 0 <= j < |received| && received[j] == x;
      assert s[j] == x && x in s;
      forall k | 0 <= k < |After(mirror, c)| ensures After(mirror, c)[k] != x {
        assert After(mirror, c)[k] == s[|received| + k] && Before(s[j], s[|received| + k]);
      }
    } else if Has(mirror, x) {
      assert x in s;
    }
  }
}
