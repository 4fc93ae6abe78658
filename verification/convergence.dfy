/** What every run of the replication protocol guarantees. */
module Convergence {
  import opened DayLogs
  import opened Tables
  import Mirror
  import opened SyncSteps
  import opened Protocol
  import opened ProtocolProof

  // ---------------------------------------------------------------- runs

  /** Any finite run from the initial state, whatever steps are taken. */
  ghost predicate IsRun(run: seq<System>, steps: seq<Step>)
  {
    && |run| == |steps| + 1
    && Init(run[0])
    && forall i | 0 <= i < |steps| :: Enabled(run[i], steps[i]) && run[i + 1] == Apply(run[i], steps[i])
  }

  lemma InitKeeps(s: System)
    requires Init(s)
    ensures Inv(s)
  {
    var v := s.server;
    forall f ensures !InDb(EMPTY, f) {}
    forall m | m in s.laptops ensures LaptopOk(m, s.laptops[m], v) {
      assert s.laptops[m] == NewLaptop(s.laptops[m].directory);
    }
  }

  lemma StepKeeps(s: System, step: Step)
    requires Inv(s) && Enabled(s, step)
    ensures Inv(Apply(s, step))
  {
    hide *;
    match step
    case HostAppend(m, d, raw) => HostAppendKeeps(s, m, d, raw);
    case HostApply(m, line) => HostApplyKeeps(s, m, line);
    case StartSync(m) => StartSyncKeeps(s, m);
    case PushCall(m, n) => PushCallKeeps(s, m, n);
    case PushAck(m) => PushAckKeeps(s, m);
    case PushFail(m) => PushFailKeeps(s, m);
    case PushDone(m) => PushDoneKeeps(s, m);
    case CallStep(id) => CallStepKeeps(s, id);
    case CallDie(id) => CallDieKeeps(s, id);
    case PullChunk(m, p, n) => PullChunkKeeps(s, m, p, n);
    case PullFail(m, p, lines, done) => PullFailKeeps(s, m, p, lines, done);
    case PullDone(m) => PullDoneKeeps(s, m);
    case Crash(m, p, n, lines) => CrashKeeps(s, m, p, n, lines);
  }

  lemma {:induction false} RunKeeps(run: seq<System>, steps: seq<Step>, i: nat)
    requires IsRun(run, steps) && i < |run|
    ensures Inv(run[i])
  {
    if i == 0 {
      InitKeeps(run[0]);
    } else {
      RunKeeps(run, steps, i - 1);
      RunGoesOn(run, steps, i - 1);
      StepKeeps(run[i - 1], steps[i - 1]);
    }
  }

  lemma CursorLeTrans(a: Cursor, b: Cursor, c: Cursor)
    requires CursorLe(a, b) && CursorLe(b, c)
    ensures CursorLe(a, c)
  {
  }

  lemma RunGoesOn(run: seq<System>, steps: seq<Step>, i: nat)
    requires IsRun(run, steps) && i < |steps|
    ensures i + 1 < |run| && Enabled(run[i], steps[i]) && run[i + 1] == Apply(run[i], steps[i])
  {
  }

  // ---------------------------------------------------------------- safety

  /** Each mirror is a prefix of its machine's log, and no cursor on any laptop
      stands past a mirror's end. */
  lemma MirrorsArePrefixes(run: seq<System>, steps: seq<Step>, i: nat, m: string)
    requires IsRun(run, steps) && i < |run| && m in run[i].laptops
    ensures Flat(MirrorOf(run[i].server, m)) <= Flat(run[i].laptops[m].log)
    ensures forall k | k in run[i].laptops ::
              && Points(GetCursor(run[i].laptops[k].disk, m), MirrorOf(run[i].server, m))
              && Points(GetCursor(run[i].laptops[k].work, m), MirrorOf(run[i].server, m))
  {
    RunKeeps(run, steps, i);
    MirrorPrefix(run[i], m);
    PrefixFlat(MirrorOf(run[i].server, m), run[i].laptops[m].log);
    forall k | k in run[i].laptops
      ensures Points(GetCursor(run[i].laptops[k].disk, m), MirrorOf(run[i].server, m))
      ensures Points(GetCursor(run[i].laptops[k].work, m), MirrorOf(run[i].server, m))
    {
      assert LaptopOk(k, run[i].laptops[k], run[i].server);
    }
  }

  /** The server never answers a push of this client with the gap error. */
  lemma NoPushIsRefused(run: seq<System>, steps: seq<Step>, i: nat)
    requires IsRun(run, steps) && i < |steps| && steps[i].PushCall?
    ensures
      var l := run[i].laptops[steps[i].m];
      !Mirror.Append(FilesOf(run[i].server, steps[i].m), Batch(l, steps[i].n)).gap
  {
    RunKeeps(run, steps, i);
    PushIsNeverRefused(run[i], steps[i].m, steps[i].n);
  }

  /** Every line up to a committed cursor is mirrored at its own offset, and all it
      says is in the canonical database, whatever died on the way. */
  lemma AcknowledgedIsDurableAndApplied(run: seq<System>, steps: seq<Step>, i: nat, m: string, x: LogLine)
    requires IsRun(run, steps) && i < |run| && m in run[i].laptops && Has(run[i].laptops[m].log, x)
    requires !Past(x, GetCursor(run[i].laptops[m].disk, m))
    ensures Has(MirrorOf(run[i].server, m), x)
    ensures forall f | LineSays(x, f) :: InDb(run[i].server.db, f)
  {
    RunKeeps(run, steps, i);
    assert LaptopOk(m, run[i].laptops[m], run[i].server);
  }

  /** In every state of every run the counters of every database are right. */
  lemma CountersAreRight(run: seq<System>, steps: seq<Step>, i: nat)
    requires IsRun(run, steps) && i < |run|
    ensures Consistent(run[i].server.db)
    ensures forall m | m in run[i].laptops ::
              Consistent(run[i].laptops[m].disk.db) && Consistent(run[i].laptops[m].work.db)
  {
    RunKeeps(run, steps, i);
    forall m | m in run[i].laptops
      ensures Consistent(run[i].laptops[m].disk.db) && Consistent(run[i].laptops[m].work.db)
    {
      assert LaptopOk(m, run[i].laptops[m], run[i].server);
    }
  }

  // ---------------------------------------------------------------- cursors and logs only advance

  lemma StepAdvances(s: System, step: Step, m: string, p: string)
    requires Inv(s) && Enabled(s, step) && m in s.laptops
    ensures m in Apply(s, step).laptops
    ensures CursorLe(GetCursor(s.laptops[m].disk, p), GetCursor(Apply(s, step).laptops[m].disk, p))
  {
    OnlyItsOwn(s, step, m);
    assert LaptopOk(m, s.laptops[m], s.server);
    if !step.CallStep? && !step.CallDie? && step.m == m {
      MovedAdvances(s, step, p);
    }
  }

  /** A step changes no laptop but its own. */
  lemma OnlyItsOwn(s: System, step: Step, m: string)
    requires Enabled(s, step) && m in s.laptops
    ensures
      && m in Apply(s, step).laptops
      && Apply(s, step).laptops[m] ==
           if step.CallStep? || step.CallDie? || step.m != m then s.laptops[m] else Moved(s, step)
  {
  }

  lemma NextAdvances(run: seq<System>, steps: seq<Step>, i: nat, m: string, p: string)
    requires IsRun(run, steps) && i < |steps| && m in run[i].laptops
    ensures i + 1 < |run| && m in run[i + 1].laptops
    ensures CursorLe(GetCursor(run[i].laptops[m].disk, p), GetCursor(run[i + 1].laptops[m].disk, p))
  {
    RunKeeps(run, steps, i);
    RunGoesOn(run, steps, i);
    StepAdvances(run[i], steps[i], m, p);
  }

  lemma MovedAdvances(s: System, step: Step, p: string)
    requires Enabled(s, step) && !step.CallStep? && !step.CallDie?
    requires LaptopOk(step.m, s.laptops[step.m], s.server)
    ensures CursorLe(GetCursor(s.laptops[step.m].disk, p), GetCursor(Moved(s, step).disk, p))
  {
    var l := s.laptops[step.m];
    match step
    case StartSync(m) => AttemptCursors(l.work, m, p);
    case PushDone(m) => CursorSet(l.work, m, l.phase.upTo, p);
    case _ =>
  }

  /** Committed cursors never go backwards. */
  lemma {:induction false} CursorsNeverGoBack(run: seq<System>, steps: seq<Step>, i: nat, j: nat, m: string, p: string)
    requires IsRun(run, steps) && i <= j < |run| && m in run[i].laptops
    ensures m in run[j].laptops
    ensures CursorLe(GetCursor(run[i].laptops[m].disk, p), GetCursor(run[j].laptops[m].disk, p))
    decreases j
  {
    if i < j {
      CursorsNeverGoBack(run, steps, i, j - 1, m, p);
      NextAdvances(run, steps, j - 1, m, p);
      CursorLeTrans(GetCursor(run[i].laptops[m].disk, p), GetCursor(run[j - 1].laptops[m].disk, p),
        GetCursor(run[j].laptops[m].disk, p));
    }
  }

  // ---------------------------------------------------------------- convergence

  /** All cursors of every laptop stand at the end of what they point into. */
  ghost predicate CaughtUp(s: System)
  {
    forall m | m in s.laptops ::
      && After(s.laptops[m].log, GetCursor(s.laptops[m].disk, m)) == []
      && forall p | p in s.laptops && p != m ::
           After(MirrorOf(s.server, p), GetCursor(s.laptops[m].disk, p)) == []
  }

  /** The hosts' own writes have all succeeded. */
  ghost predicate OwnLinesApplied(s: System)
  {
    forall m, f | m in s.laptops && LogSays(s.laptops[m].log, f) :: InDb(s.laptops[m].disk.db, f)
  }

  ghost predicate AllAgree(s: System)
  {
    forall m | m in s.laptops :: Summarise(s.laptops[m].disk.db) == Summarise(s.server.db)
  }

  ghost predicate SomeLogSays(s: System, f: Fact)
  {
    exists m :: m in s.laptops && LogSays(s.laptops[m].log, f)
  }

  lemma NothingAfter(log: DayLog, c: Cursor)
    requires After(log, c) == []
    ensures forall x | Has(log, x) :: !Past(x, c)
  {
    AfterMembers(log, c);
    forall x | Has(log, x) ensures !Past(x, c) {
      assert Past(x, c) ==> x in After(log, c);
    }
  }

  /** With all self cursors at the end the mirrors hold whole logs, and the
      canonical database says exactly what the logs say. */
  lemma CanonicalIsComplete(s: System)
    requires Inv(s) && CaughtUp(s)
    ensures forall m, x | m in s.laptops :: Has(MirrorOf(s.server, m), x) <==> Has(s.laptops[m].log, x)
    ensures forall f :: InDb(s.server.db, f) <==> SomeLogSays(s, f)
  {
    forall m, x | m in s.laptops ensures Has(MirrorOf(s.server, m), x) <==> Has(s.laptops[m].log, x) {
      MirrorPrefix(s, m);
      assert LaptopOk(m, s.laptops[m], s.server);
      NothingAfter(s.laptops[m].log, GetCursor(s.laptops[m].disk, m));
    }
    forall f | InDb(s.server.db, f) ensures SomeLogSays(s, f) {
      var p :| p in s.server.dirs && LogSays(MirrorOf(s.server, p), f);
      LogSaysMono(MirrorOf(s.server, p), s.laptops[p].log, f);
    }
    forall f | SomeLogSays(s, f) ensures InDb(s.server.db, f) {
      var m :| m in s.laptops && LogSays(s.laptops[m].log, f);
      assert LaptopOk(m, s.laptops[m], s.server);
      NothingAfter(s.laptops[m].log, GetCursor(s.laptops[m].disk, m));
    }
  }

  /** A caught-up laptop has all that its peers' logs say. */
  lemma PeersAreKnown(s: System, m: string, p: string, f: Fact)
    requires Inv(s) && CaughtUp(s) && m in s.laptops && p in s.laptops && p != m && LogSays(s.laptops[p].log, f)
    ensures InDb(s.laptops[m].disk.db, f)
  {
    CanonicalIsComplete(s);
    assert LaptopOk(m, s.laptops[m], s.server);
    LogSaysMono(s.laptops[p].log, MirrorOf(s.server, p), f);
    NothingAfter(MirrorOf(s.server, p), GetCursor(s.laptops[m].disk, p));
  }

  /** And nothing that no log says. */
  lemma NothingInvented(s: System, m: string, f: Fact)
    requires Inv(s) && m in s.laptops && InDb(s.laptops[m].disk.db, f)
    ensures SomeLogSays(s, f)
  {
    assert LaptopOk(m, s.laptops[m], s.server);
    if !LogSays(s.laptops[m].log, f) {
      var p :| p in s.server.dirs && LogSays(MirrorOf(s.server, p), f);
      LogSaysMono(MirrorOf(s.server, p), s.laptops[p].log, f);
    }
  }

  lemma SummaryDecides(a: Db, b: Db, f: Fact)
    requires Summarise(a) == Summarise(b)
    ensures InDb(a, f) <==> InDb(b, f)
  {
    match f
    case Url(u) => assert u in Summarise(a).urls <==> u in Summarise(b).urls;
    case Interest(u) => assert u in Summarise(a).ofInterest <==> u in Summarise(b).ofInterest;
    case Happened(k) => assert k in Summarise(a).events <==> k in Summarise(b).events;
  }

  lemma CaughtUpAgrees(s: System)
    requires Inv(s) && CaughtUp(s)
    ensures AllAgree(s) <==> OwnLinesApplied(s)
  {
    CanonicalIsComplete(s);
    if OwnLinesApplied(s) {
      forall m | m in s.laptops ensures Summarise(s.laptops[m].disk.db) == Summarise(s.server.db) {
        assert LaptopOk(m, s.laptops[m], s.server);
        forall f ensures InDb(s.laptops[m].disk.db, f) <==> InDb(s.server.db, f) {
          if InDb(s.laptops[m].disk.db, f) {
            NothingInvented(s, m, f);
          }
          if SomeLogSays(s, f) {
            var p :| p in s.laptops && LogSays(s.laptops[p].log, f);
            if p != m {
              PeersAreKnown(s, m, p, f);
            }
          }
        }
        FactsDecide(s.laptops[m].disk.db, s.server.db);
      }
    }
    if AllAgree(s) {
      forall m, f | m in s.laptops && LogSays(s.laptops[m].log, f) ensures InDb(s.laptops[m].disk.db, f) {
        SummaryDecides(s.laptops[m].disk.db, s.server.db, f);
      }
    }
  }

  /** In every run, with any number of laptops, failed pushes, aborted pulls and
      crashes: once all cursors are at the end, the databases of all laptops and
      the server agree exactly if each laptop has applied its own lines. */
  lemma ReplicasConverge(run: seq<System>, steps: seq<Step>, i: nat)
    requires IsRun(run, steps) && i < |run| && CaughtUp(run[i])
    ensures AllAgree(run[i]) <==> OwnLinesApplied(run[i])
    ensures forall f :: InDb(run[i].server.db, f) <==> SomeLogSays(run[i], f)
  {
    RunKeeps(run, steps, i);
    CaughtUpAgrees(run[i]);
    CanonicalIsComplete(run[i]);
  }
}
