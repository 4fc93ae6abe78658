/** From the files on disk back to the live database, end to end. */
module Recovery {
  import opened Dates
  import opened DayLogs
  import opened Tables
  import opened Rebuilder
  import opened Rebuild
  import opened RebuildCorrect
  import L = Lifecycle
  import HostLog
  import Names

  /** Days only advance. */
  ghost predicate InDateOrder(steps: seq<L.Step>)
  {
    forall i, j | 0 <= i < j < |steps| && steps[i].Emit? && steps[j].Emit? :: steps[i].d <= steps[j].d
  }

  /** All lines in the order the hosts printed them, whatever their day. */
  function AllEmitted(steps: seq<L.Step>): seq<string>
  {
    if steps == [] then []
    else
      var e, s := AllEmitted(steps[..|steps| - 1]), steps[|steps| - 1];
      if s.Emit? then e + [s.line] else e
  }

  lemma {:induction false} NothingYet(steps: seq<L.Step>, d: Date)
    requires forall i | 0 <= i < |steps| && steps[i].Emit? :: steps[i].d < d
    ensures L.Emitted(steps, d) == []
  {
    if steps != [] {
      assert forall i | 0 <= i < |steps| - 1 :: steps[..|steps| - 1][i] == steps[i];
      NothingYet(steps[..|steps| - 1], d);
    }
  }

  lemma {:induction false} LaterDaysEmpty(steps: seq<L.Step>, ds: seq<Date>)
    requires forall i | 0 <= i < |ds| :: L.Emitted(steps, ds[i]) == []
    ensures L.EmittedOn(steps, ds) == []
  {
    if ds != [] {
      LaterDaysEmpty(steps, ds[1..]);
    }
  }

  /** A line of the last day so far comes last in the concatenation of the days. */
  lemma {:induction false} LastDayLast(init: seq<L.Step>, s: L.Step, ds: seq<Date>)
    requires s.Emit? && Increasing(ds)
    requires forall i | 0 <= i < |ds| && ds[i] > s.d :: L.Emitted(init, ds[i]) == []
    ensures L.EmittedOn(init + [s], ds) == L.EmittedOn(init, ds) + if s.d in ds then [s.line] else []
    decreases |ds|
  {
    if ds != [] {
      var rest := ds[1..];
      forall i | 0 <= i < |rest| ensures rest[i] == ds[i + 1] && ds[0] < rest[i] {}
      LastDayLast(init, s, rest);
      EmittedNext(init, s, ds[0]);
      if ds[0] == s.d {
        LaterDaysEmpty(init, rest);
        assert s.d !in rest;
      } else {
        assert s.d in ds <==> s.d in rest;
      }
    }
  }

  lemma EmittedNext(init: seq<L.Step>, s: L.Step, d: Date)
    ensures L.Emitted(init + [s], d) == L.Emitted(init, d) + if s.Emit? && s.d == d then [s.line] else []
  {
    assert (init + [s])[..|init|] == init;
  }

  lemma {:induction false} OtherSteps(init: seq<L.Step>, s: L.Step, ds: seq<Date>)
    requires !s.Emit?
    ensures L.EmittedOn(init + [s], ds) == L.EmittedOn(init, ds)
  {
    if ds != [] {
      EmittedNext(init, s, ds[0]);
      OtherSteps(init, s, ds[1..]);
    }
  }

  /** If days only advance, day by day is the order of printing. */
  lemma {:induction false} DaysInOrder(steps: seq<L.Step>, ds: seq<Date>)
    requires InDateOrder(steps) && Increasing(ds)
    requires forall i | 0 <= i < |steps| && steps[i].Emit? :: steps[i].d in ds
    ensures L.EmittedOn(steps, ds) == AllEmitted(steps)
    decreases |steps|
  {
    if steps == [] {
      LaterDaysEmpty(steps, ds);
    } else {
      var init, s := steps[..|steps| - 1], steps[|steps| - 1];
      assert init + [s] == steps;
      assert forall i | 0 <= i < |init| :: init[i] == steps[i];
      DaysInOrder(init, ds);
      if s.Emit? {
        forall i | 0 <= i < |ds| && ds[i] > s.d ensures L.Emitted(init, ds[i]) == [] {
          NothingYet(init, ds[i]);
        }
        LastDayLast(init, s, ds);
      } else {
        OtherSteps(init, s, ds);
      }
    }
  }

  lemma {:induction false} EmitsHaveLines(steps: seq<L.Step>, i: nat)
    requires i < |steps| && steps[i].Emit?
    ensures L.Emitted(steps, steps[i].d) != []
  {
    if i < |steps| - 1 {
      EmitsHaveLines(steps[..|steps| - 1], i);
    }
  }

  /** The whole recovery.  The lines of a sequential history were appended day by
      day, moved by seals and merged by passes some of which died; the rebuild
      lists what files there are, replays and rehydrates.  The result is the live
      database, timestamps, titles, directories and counters included, exactly if
      no live row was left at Downloads while its file is archived. */
  lemma RecoversTheLiveDatabase(h: seq<Happening>, steps: seq<L.Step>, root: string, downloads: string,
                                dirs: seq<DateDirectory>)
    requires Orderly(h) && AllEmitted(steps) == Lived(h, root, downloads).log
    requires InDateOrder(steps) && forall d :: ActionsFirst(L.Emitted(steps, d))
    requires Lists(dirs, Lived(h, root, downloads).archive, root)
    requires forall name: string :: Names.DateDir(root, name) != downloads
    ensures
      var live, logs := Lived(h, root, downloads), L.SteppedAll(L.NO_LOGS, steps);
      var rebuilt := Rehydrated(ReplayedAll(BLANK, L.Read(logs, L.Sources(logs)), downloads).db, dirs, downloads);
      rebuilt == live.db <==> NoneLeftBehind(live, downloads)
  {
    var logs := L.SteppedAll(L.NO_LOGS, steps);
    var ds := Ascending(logs.archived.Keys + logs.live.Keys);
    AscendingMembers(logs.archived.Keys + logs.live.Keys);
    L.RebuildSurvivesCrashes(steps, downloads);
    forall i | 0 <= i < |steps| && steps[i].Emit? ensures steps[i].d in ds {
      EmitsHaveLines(steps, i);
    }
    DaysInOrder(steps, ds);
    RebuildIsExact(h, root, downloads, dirs);
  }

  // ---------------------------------------------------------------- host runs at the same time

  /** The parts of the runs of one day; a run keeps the day on which it began. */
  function OfDay(h: seq<Part>, days: map<string, Date>, d: Date): seq<Part>
    requires forall i | 0 <= i < |h| :: h[i].id in days
  {
    if h == [] then []
    else
      var q, p := OfDay(h[..|h| - 1], days, d), h[|h| - 1];
      if days[p.id] == d then q + [p] else q
  }

  function ByDays(h: seq<Part>, days: map<string, Date>, ds: seq<Date>): seq<Part>
    requires forall i | 0 <= i < |h| :: h[i].id in days
  {
    if ds == [] then [] else OfDay(h, days, ds[0]) + ByDays(h, days, ds[1..])
  }

  lemma {:induction false} OfDayMembers(h: seq<Part>, days: map<string, Date>, d: Date)
    requires forall i | 0 <= i < |h| :: h[i].id in days
    ensures forall p :: p in OfDay(h, days, d) <==> p in h && p.id in days && days[p.id] == d
  {
    if h != [] {
      OfDayMembers(h[..|h| - 1], days, d);
      assert h == h[..|h| - 1] + [h[|h| - 1]];
    }
  }

  lemma {:induction false} ByDaysMembers(h: seq<Part>, days: map<string, Date>, ds: seq<Date>)
    requires forall i | 0 <= i < |h| :: h[i].id in days
    ensures forall p :: p in ByDays(h, days, ds) <==> p in h && p.id in days && days[p.id] in ds
  {
    if ds != [] {
      OfDayMembers(h, days, ds[0]);
      ByDaysMembers(h, days, ds[1..]);
      assert forall d :: d in ds <==> d == ds[0] || d in ds[1..];
    }
  }

  /** What Proper asks of an earlier and a later part. */
  predicate Apart(p: Part, q: Part)
  {
    p != q && (p.Closes? ==> p.id != q.id)
  }

  ghost predicate AllApart(h: seq<Part>)
  {
    forall i, j | 0 <= i < j < |h| :: Apart(h[i], h[j])
  }

  lemma {:induction false} OfDayApart(h: seq<Part>, days: map<string, Date>, d: Date)
    requires (forall i | 0 <= i < |h| :: h[i].id in days) && AllApart(h)
    ensures AllApart(OfDay(h, days, d))
  {
    if h != [] {
      var init, p := h[..|h| - 1], h[|h| - 1];
      assert forall i | 0 <= i < |init| :: init[i] == h[i];
      OfDayApart(init, days, d);
      OfDayMembers(init, days, d);
      forall q | q in OfDay(init, days, d) ensures Apart(q, p) {
        var i :| 0 <= i < |init| && init[i] == q;
        assert Apart(h[i], h[|h| - 1]);
      }
    }
  }

  lemma ApartConcat(a: seq<Part>, b: seq<Part>)
    requires AllApart(a) && AllApart(b) && forall p, q | p in a && q in b :: Apart(p, q)
    ensures AllApart(a + b)
  {
  }

  lemma {:induction false} ByDaysApart(h: seq<Part>, days: map<string, Date>, ds: seq<Date>)
    requires (forall i | 0 <= i < |h| :: h[i].id in days) && AllApart(h) && Increasing(ds)
    ensures AllApart(ByDays(h, days, ds))
    decreases |ds|
  {
    if ds != [] {
      assert forall i | 0 <= i < |ds| - 1 :: ds[1..][i] == ds[i + 1] && ds[0] < ds[i + 1];
      OfDayApart(h, days, ds[0]);
      ByDaysApart(h, days, ds[1..]);
      OfDayMembers(h, days, ds[0]);
      ByDaysMembers(h, days, ds[1..]);
      ApartConcat(OfDay(h, days, ds[0]), ByDays(h, days, ds[1..]));
    }
  }

  /** Read day by day a proper history is a proper history. */
  lemma ByDaysProper(h: seq<Part>, calls: map<string, Call>, days: map<string, Date>, ds: seq<Date>)
    requires Proper(h, calls) && (forall i | 0 <= i < |h| :: h[i].id in days) && Increasing(ds)
    ensures Proper(ByDays(h, days, ds), calls)
  {
    var k := ByDays(h, days, ds);
    assert AllApart(h);
    ByDaysApart(h, days, ds);
    ByDaysMembers(h, days, ds);
    forall i | 0 <= i < |k|
      ensures k[i].id in calls && IsRecordId(k[i].id) && Plain(calls[k[i].id].m) && IsResult(calls[k[i].id].result)
    {
      assert k[i] in k && k[i] in h;
      var j :| 0 <= j < |h| && h[j] == k[i];
    }
    forall i | 0 <= i < |k| && k[i].Closes? && calls[k[i].id].result == "success"
      ensures calls[k[i].id].written && HostLogs(k[i].id) in k && Writes(k[i].id) in k
    {
      assert k[i] in k && k[i] in h;
      var j :| 0 <= j < |h| && h[j] == k[i];
      assert HostLogs(h[j].id) in h && Writes(h[j].id) in h;
    }
    assert forall i, j | 0 <= i < j < |k| :: Apart(k[i], k[j]);
  }

  function HostLogs(id: string): Part
  {
    Part.Logs(id)
  }

  ghost predicate PartsFine(h: seq<Part>, calls: map<string, Call>)
  {
    forall i | 0 <= i < |h| ::
      h[i].id in calls && IsRecordId(h[i].id) && Plain(calls[h[i].id].m) && IsResult(calls[h[i].id].result)
  }

  lemma {:induction false} ResultsAreCloses(h: seq<Part>, calls: map<string, Call>, id: string)
    requires PartsFine(h, calls) && HasResult(LogOf(h, calls), id)
    ensures Closes(id) in h
  {
    var init, p, all := h[..|h| - 1], h[|h| - 1], LogOf(h, calls);
    assert forall i | 0 <= i < |init| :: init[i] == h[i];
    var log := LogOf(init, calls);
    if HasResult(log, id) {
      ResultsAreCloses(init, calls, id);
    } else {
      var i :| 0 <= i < |all| && Parse(all[i]).Result? && Parse(all[i]).id == id;
      assert i < |log| ==> log[i] == all[i];
      LastLine(p, calls[p.id]);
    }
  }

  lemma LastLine(p: Part, c: Call)
    requires IsRecordId(p.id) && Plain(c.m) && IsResult(c.result)
    ensures
      var action, result := Parse(HostLog.PrintAction(p.id, c.m)), Parse(HostLog.PrintResult(p.id, c.result));
      action.Action? && action.id == p.id && result.Result? && result.id == p.id
  {
    ActionRoundTrip(p.id, c.m);
    ResultRoundTrip(p.id, c.result);
  }

  lemma FirstStays(log: seq<string>, line: string)
    requires ActionsFirst(log)
    requires Parse(line).Action? ==> !HasResult(log, Parse(line).id)
    ensures ActionsFirst(log + [line])
  {
    var all := log + [line];
    forall i, j | 0 <= i < j < |all| && Parse(all[i]).Result? && Parse(all[j]).Action?
      ensures Parse(all[i]).id != Parse(all[j]).id
    {
      assert all[i] == log[i];
      if j == |log| {
        assert HasResult(log, Parse(log[i]).id);
      }
    }
  }

  /** Hosts print actions before results, however they interleave. */
  lemma {:induction false} HostsPrintActionsFirst(h: seq<Part>, calls: map<string, Call>)
    requires PartsFine(h, calls) && AllApart(h)
    ensures ActionsFirst(LogOf(h, calls))
  {
    if h != [] {
      var init, p := h[..|h| - 1], h[|h| - 1];
      assert forall i | 0 <= i < |init| :: init[i] == h[i];
      HostsPrintActionsFirst(init, calls);
      var log := LogOf(init, calls);
      LastLine(p, calls[p.id]);
      match p
      case Logs(id) =>
        forall i | 0 <= i < |init| ensures init[i] != Closes(id) {
          assert Apart(h[i], h[|h| - 1]);
        }
        if HasResult(log, id) {
          ResultsAreCloses(init, calls, id);
        }
        FirstStays(log, HostLog.PrintAction(id, calls[id].m));
      case Writes(_) =>
      case Closes(id) => FirstStays(log, HostLog.PrintResult(id, calls[id].result));
    }
  }

  lemma {:induction false} LogConcat(a: seq<Part>, b: seq<Part>, calls: map<string, Call>)
    requires (forall i | 0 <= i < |a| :: a[i].id in calls) && forall i | 0 <= i < |b| :: b[i].id in calls
    ensures LogOf(a + b, calls) == LogOf(a, calls) + LogOf(b, calls)
    decreases |b|
  {
    if b == [] {
      assert a + b == a;
    } else {
      var init := b[..|b| - 1];
      assert (a + b)[..|a + b| - 1] == a + init;
      LogConcat(a, init, calls);
    }
  }

  lemma IdsIn(h: seq<Part>, k: seq<Part>, calls: map<string, Call>)
    requires (forall i | 0 <= i < |h| :: h[i].id in calls) && forall p | p in k :: p in h
    ensures forall i | 0 <= i < |k| :: k[i].id in calls
  {
    forall i | 0 <= i < |k| ensures k[i].id in calls {
      assert k[i] in k && k[i] in h;
      var j :| 0 <= j < |h| && h[j] == k[i];
    }
  }

  /** The day logs of a history: each holds the lines of its own day's runs. */
  ghost predicate HoldsDays(steps: seq<L.Step>, h: seq<Part>, calls: map<string, Call>, days: map<string, Date>)
  {
    && (forall i | 0 <= i < |h| :: h[i].id in calls && h[i].id in days)
    && forall d :: OfDayIn(h, days, calls, d) && L.Emitted(steps, d) == LogOf(OfDay(h, days, d), calls)
  }

  ghost predicate OfDayIn(h: seq<Part>, days: map<string, Date>, calls: map<string, Call>, d: Date)
    requires forall i | 0 <= i < |h| :: h[i].id in days
  {
    forall i | 0 <= i < |OfDay(h, days, d)| :: OfDay(h, days, d)[i].id in calls
  }

  lemma {:induction false} EmittedByDays(steps: seq<L.Step>, h: seq<Part>, calls: map<string, Call>,
                                         days: map<string, Date>, ds: seq<Date>)
    requires HoldsDays(steps, h, calls, days)
    ensures forall i | 0 <= i < |ByDays(h, days, ds)| :: ByDays(h, days, ds)[i].id in calls
    ensures L.EmittedOn(steps, ds) == LogOf(ByDays(h, days, ds), calls)
    decreases |ds|
  {
    ByDaysMembers(h, days, ds);
    IdsIn(h, ByDays(h, days, ds), calls);
    if ds != [] {
      assert OfDayIn(h, days, calls, ds[0]);
      EmittedByDays(steps, h, calls, days, ds[1..]);
      LogConcat(OfDay(h, days, ds[0]), ByDays(h, days, ds[1..]), calls);
    }
  }

  /** Every reported success is on a day whose log is read. */
  lemma SuccessesAreRead(steps: seq<L.Step>, h: seq<Part>, calls: map<string, Call>, days: map<string, Date>,
                         ds: seq<Date>, f: Fact)
    requires Proper(h, calls) && HoldsDays(steps, h, calls, days)
    requires forall d :: L.Emitted(steps, d) != [] ==> d in ds
    requires forall i | 0 <= i < |ByDays(h, days, ds)| :: ByDays(h, days, ds)[i].id in calls
    ensures Told(h, calls, f) <==> Told(ByDays(h, days, ds), calls, f)
  {
    var k := ByDays(h, days, ds);
    if Told(h, calls, f) {
      var i :| 0 <= i < |h| && h[i].Closes? && calls[h[i].id].result == "success" && CallSays(calls[h[i].id], f);
      ClosesAreRead(steps, h, calls, days, ds, i);
      ToldMember(k, calls, h[i], f);
    }
    if Told(k, calls, f) {
      var j :| 0 <= j < |k| && k[j].Closes? && calls[k[j].id].result == "success" && CallSays(calls[k[j].id], f);
      ReadIsThere(h, days, ds, k[j]);
      ToldMember(h, calls, k[j], f);
    }
  }

  lemma ToldMember(h: seq<Part>, calls: map<string, Call>, p: Part, f: Fact)
    requires (forall i | 0 <= i < |h| :: h[i].id in calls) && p in h
    requires p.Closes? && calls[p.id].result == "success" && CallSays(calls[p.id], f)
    ensures Told(h, calls, f)
  {
    var i :| 0 <= i < |h| && h[i] == p;
    assert h[i].Closes?;
  }

  lemma ReadIsThere(h: seq<Part>, days: map<string, Date>, ds: seq<Date>, p: Part)
    requires (forall i | 0 <= i < |h| :: h[i].id in days) && p in ByDays(h, days, ds)
    ensures p in h
  {
    ByDaysMembers(h, days, ds);
  }

  lemma ClosesAreRead(steps: seq<L.Step>, h: seq<Part>, calls: map<string, Call>, days: map<string, Date>,
                      ds: seq<Date>, i: nat)
    requires HoldsDays(steps, h, calls, days) && i < |h| && h[i].Closes?
    requires forall d :: L.Emitted(steps, d) != [] ==> d in ds
    ensures h[i] in ByDays(h, days, ds)
  {
    var d := days[h[i].id];
    OfDayMembers(h, days, d);
    assert h[i] in h && h[i] in OfDay(h, days, d);
    assert OfDayIn(h, days, calls, d);
    ClosesPrint(OfDay(h, days, d), calls, h[i]);
    assert L.Emitted(steps, d) != [];
    ByDaysMembers(h, days, ds);
  }

  lemma {:induction false} ClosesPrint(h: seq<Part>, calls: map<string, Call>, p: Part)
    requires (forall i | 0 <= i < |h| :: h[i].id in calls) && p in h && p.Closes?
    ensures LogOf(h, calls) != []
  {
    if p != h[|h| - 1] {
      var init := h[..|h| - 1];
      assert h == init + [h[|h| - 1]];
      ClosesPrint(init, calls, p);
    }
  }

  /** The recovery of host runs that overlapped, over midnight too, some of them
      killed, from the files after any seals, merges and crashed merges: nothing is
      invented; and if every committed run was logged and reported, the result is
      the live database in its order-insensitive part. */
  lemma RecoversOverlappingRuns(h: seq<Part>, calls: map<string, Call>, days: map<string, Date>, steps: seq<L.Step>,
                                downloads: string)
    requires Proper(h, calls) && HoldsDays(steps, h, calls, days)
    ensures
      var logs := L.SteppedAll(L.NO_LOGS, steps);
      var rebuilt := ReplayedAll(BLANK, L.Read(logs, L.Sources(logs)), downloads).db;
      var live := RunOps(EMPTY, LiveOps(h, calls, downloads));
      && (forall f | InDb(rebuilt, f) :: InDb(live, f))
      && (Complete(h, calls) ==> Summarise(rebuilt) == Summarise(live))
  {
    var logs := L.SteppedAll(L.NO_LOGS, steps);
    var ds := Ascending(logs.archived.Keys + logs.live.Keys);
    var rebuilt, live := ReplayedAll(BLANK, L.Read(logs, L.Sources(logs)), downloads).db,
                         RunOps(EMPTY, LiveOps(h, calls, downloads));
    AscendingMembers(logs.archived.Keys + logs.live.Keys);
    forall d ensures ActionsFirst(L.Emitted(steps, d)) {
      DayActionsFirst(steps, h, calls, days, d);
    }
    L.RebuildSurvivesCrashes(steps, downloads);
    EmittedByDays(steps, h, calls, days, ds);
    ByDaysProper(h, calls, days, ds);
    RebuiltSaysTold(ByDays(h, days, ds), calls, downloads);
    forall f ensures InDb(rebuilt, f) <==> Told(h, calls, f) {
      SuccessesAreRead(steps, h, calls, days, ds, f);
    }
    LiveSaysDone(h, calls, downloads);
    ToldIsDone(h, calls);
    if Complete(h, calls) {
      FactsDecide(rebuilt, live);
    }
  }

  lemma DayActionsFirst(steps: seq<L.Step>, h: seq<Part>, calls: map<string, Call>, days: map<string, Date>, d: Date)
    requires Proper(h, calls) && HoldsDays(steps, h, calls, days)
    ensures ActionsFirst(L.Emitted(steps, d))
  {
    var k := OfDay(h, days, d);
    assert AllApart(h);
    OfDayApart(h, days, d);
    OfDayMembers(h, days, d);
    forall i | 0 <= i < |k|
      ensures k[i].id in calls && IsRecordId(k[i].id) && Plain(calls[k[i].id].m) && IsResult(calls[k[i].id].result)
    {
      assert k[i] in k && k[i] in h;
      var j :| 0 <= j < |h| && h[j] == k[i];
    }
    HostsPrintActionsFirst(k, calls);
  }
}
