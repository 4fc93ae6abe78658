/** The programs that own a laptop's day logs: the seal's move, the merge pass over
    orphans, and the rebuild's collecting of files. */
module OrphanLog {
  import opened Dates
  import opened DayLogs
  import opened Lifecycle
  import opened Seqs
  import E = MoverErrors

  /** `Done` is a merge as intended; `Appended` one that failed before the source
      was removed; `Failed` one that changed nothing. */
  datatype MergeResult = Done | Appended | Failed

  function Merged(l: Logs, d: Date, r: MergeResult): Logs
  {
    match r case Done => Stepped(l, Merge(d)) case Appended => Stepped(l, TornMerge(d)) case Failed => l
  }

  function MergeStep(d: Date, r: MergeResult): seq<Step>
  {
    match r case Done => [Merge(d)] case Appended => [TornMerge(d)] case Failed => []
  }

  function MergeSteps(ds: seq<Date>, rs: seq<MergeResult>): seq<Step>
    requires |ds| == |rs|
  {
    if ds == [] then [] else MergeSteps(ds[..|ds| - 1], rs[..|ds| - 1]) + MergeStep(ds[|ds| - 1], rs[|ds| - 1])
  }

  lemma MergeStepsNext(ds: seq<Date>, rs: seq<MergeResult>, r: MergeResult)
    requires |rs| < |ds|
    ensures MergeSteps(ds[..|rs| + 1], rs + [r]) == MergeSteps(ds[..|rs|], rs) + MergeStep(ds[|rs|], r)
  {
    hide MergeStep;
    Longer(ds, |rs|);
    Snoc(rs, r);
    var d2, r2 := ds[..|rs| + 1], rs + [r];
    assert d2[..|d2| - 1] == ds[..|rs|] && r2[..|d2| - 1] == rs && d2[|d2| - 1] == ds[|rs|] && r2[|d2| - 1] == r;
  }

  /** Merging other days leaves a day's live log alone. */
  lemma {:induction false} MergesKeepOthers(l: Logs, ds: seq<Date>, rs: seq<MergeResult>, d: Date)
    requires |ds| == |rs| && forall i | 0 <= i < |ds| :: ds[i] != d
    ensures SameLive(l, SteppedAll(l, MergeSteps(ds, rs)), d)
    decreases |ds|
  {
    if ds != [] {
      var n := |ds| - 1;
      MergesKeepOthers(l, ds[..n], rs[..n], d);
      MergeKeepsOthers(l, MergeSteps(ds[..n], rs[..n]), ds[n], rs[n], d);
    }
  }

  predicate SameLive(l: Logs, now: Logs, d: Date)
  {
    (d in now.live <==> d in l.live) && (d in l.live ==> now.live[d] == l.live[d])
  }

  lemma MergeKeepsOthers(l: Logs, steps: seq<Step>, e: Date, r: MergeResult, d: Date)
    requires SameLive(l, SteppedAll(l, steps), d) && e != d
    ensures SameLive(l, SteppedAll(l, steps + MergeStep(e, r)), d)
  {
    AfterMergeStep(l, steps, e, r);
  }

  lemma AfterMergeStep(l: Logs, steps: seq<Step>, d: Date, r: MergeResult)
    ensures SteppedAll(l, steps + MergeStep(d, r)) == Merged(SteppedAll(l, steps), d, r)
  {
    if r == Failed {
      assert steps + [] == steps;
    } else {
      var s := MergeStep(d, r)[0];
      assert (steps + [s])[..|steps|] == steps;
    }
  }

  /** A past day's log that the archive has no counterpart of gets its day a row,
      unsealed, if it has none; no other row changes. */
  ghost predicate Backfilled(was: map<Date, bool>, now: map<Date, bool>, ds: seq<Date>, rs: seq<MergeResult>,
                             orphans: set<Date>)
    requires |rs| <= |ds|
  {
    && (forall d :: d in now <==>
        d in was || (d !in orphans && exists i :: 0 <= i < |rs| && ds[i] == d && rs[i] == Done))
    && (forall d | d in now :: now[d] == (d in was && was[d]))
  }

  lemma BackfilledOnce(start: map<Date, bool>, was: map<Date, bool>, now: map<Date, bool>, ds: seq<Date>,
                       rs: seq<MergeResult>, orphans: set<Date>, r: MergeResult)
    requires |rs| < |ds| && Backfilled(start, was, ds, rs, orphans)
    requires
      var d := ds[|rs|];
      now == if r == Done && d !in orphans && d !in was then was[d := false] else was
    ensures Backfilled(start, now, ds, rs + [r], orphans)
  {
    var all := rs + [r];
    assert all[|rs|] == r;
    forall d ensures d in now <==>
                 d in start || (d !in orphans && exists i :: 0 <= i < |all| && ds[i] == d && all[i] == Done) {
      if d in was && d !in start {
        var i :| 0 <= i < |rs| && ds[i] == d && rs[i] == Done;
        assert all[i] == Done;
      }
      if i :| 0 <= i < |all| && ds[i] == d && all[i] == Done && d !in orphans {
        assert i < |rs| ==> rs[i] == Done;
      }
    }
  }

  const SEAL := "seal"

  /** The two directories of logs on one laptop, the days' rows and the error table.
      Each date has its directory in the archive. */
  class LogFiles {
    var archived: DayLog
    var live: DayLog
    var days: map<Date, bool>
    const errors: E.ErrorTable
    const dateDir: Date -> string

    constructor (errors: E.ErrorTable, dateDir: Date -> string)
      ensures Now() == NO_LOGS && days == map[] && this.errors == errors && this.dateDir == dateDir
    {
      archived, live, days := map[], map[], map[];
      this.errors, this.dateDir := errors, dateDir;
    }

    function Now(): Logs
      reads this
    {
      Logs(archived, live)
    }

    function ErrorKey(d: Date): string
    {
      E.Key(SEAL, dateDir(d))
    }

    ghost predicate OneDirectoryEach()
    {
      forall a, b :: dateDir(a) == dateDir(b) ==> a == b
    }

    lemma KeysAreDays(a: Date, b: Date)
      requires OneDirectoryEach() && a != b
      ensures ErrorKey(a) != ErrorKey(b)
    {
      if ErrorKey(a) == ErrorKey(b) {
        E.KeysDiffer(SEAL, dateDir(a), SEAL, dateDir(b));
      }
    }

    method AppendLine(d: Date, line: string) returns (ok: bool)
      modifies this`live
      ensures Now() == if ok then Stepped(old(Now()), Emit(d, line)) else old(Now())
    {
      ok := *;
      if ok {
        live := live[d := (if d in live then live[d] else []) + [line]];
      }
    }

    /** Refused, with an error, when the day has an archived log already. */
    method MoveLogIntoSealedDir(d: Date) returns (ok: bool)
      modifies this`archived, this`live
      ensures ok ==> old(d !in live || d !in archived)
      ensures Now() == Stepped(old(Now()), Move(d)) || (!ok && Now() == old(Now()))
    {
      if d !in live {
        return true;
      }
      if d in archived {
        return false;
      }
      ok := *;
      if !ok {
        return;
      }
      archived := archived[d := live[d]];
      live := live - {d};
      ok := *;
    }

    /** The merge of one day's orphan.  A day without an archived log only gets its
        row, so that the next seal takes the log. */
    method MergeFiles(d: Date) returns (r: MergeResult)
      modifies this`archived, this`live, this`days
      ensures Now() == Merged(old(Now()), d, r)
      ensures archived.Keys == old(archived).Keys
      ensures days == if r == Done && d !in old(archived) && d !in old(days) then old(days)[d := false] else old(days)
    {
      var ok := *;
      if !ok {
        return Failed;
      }
      if d !in archived {
        if d !in days {
          days := days[d := false];
        }
        return Done;
      }
      if d !in live {
        return Failed;
      }
      var body := live[d];
      archived := archived[d := archived[d] + body];
      ok := *;
      if !ok {
        return Appended;
      }
      live := live - {d};
      return Done;
    }

    /** A failure is recorded against the day's directory, a merge clears it. */
    method MergeOne(d: Date, now: string) returns (r: MergeResult, noted: bool)
      modifies this`archived, this`live, this`days, errors
      ensures Now() == Merged(old(Now()), d, r)
      ensures archived.Keys == old(archived).Keys
      ensures days == if r == Done && d !in old(archived) && d !in old(days) then old(days)[d := false] else old(days)
      ensures errors.rows - {ErrorKey(d)} == old(errors.rows) - {ErrorKey(d)}
      ensures noted ==> Told(errors.rows, d, r, d in old(archived), now)
    {
      var orphan, text: string, severe: bool := d in archived, *, *;
      r := MergeFiles(d);
      noted := false;
      if r != Done {
        noted := errors.TryRecord(SEAL, dateDir(d), text, now, severe);
      } else if orphan {
        noted := errors.TryClear(SEAL, dateDir(d));
      }
    }

    /** What the error table says of a day after its merge. */
    ghost predicate Told(rows: E.Errors, d: Date, r: MergeResult, orphan: bool, now: string)
    {
      && (r != Done ==> ErrorKey(d) in rows && rows[ErrorKey(d)].lastSeen == now)
      && (r == Done && orphan ==> ErrorKey(d) !in rows)
    }

    /** The table says of each day what became of it. */
    ghost predicate AllTold(rows: E.Errors, ds: seq<Date>, rs: seq<MergeResult>, noted: seq<bool>, orphans: set<Date>,
                            now: string)
      requires |rs| == |noted| <= |ds|
    {
      forall i | 0 <= i < |rs| && noted[i] :: Told(rows, ds[i], rs[i], ds[i] in orphans, now)
    }

    lemma ToldOnce(was: E.Errors, rows: E.Errors, ds: seq<Date>, rs: seq<MergeResult>, noted: seq<bool>,
                   orphans: set<Date>, now: string, r: MergeResult, ok: bool)
      requires OneDirectoryEach() && Increasing(ds) && |rs| == |noted| < |ds|
          && AllTold(was, ds, rs, noted, orphans, now)
      requires rows - {ErrorKey(ds[|rs|])} == was - {ErrorKey(ds[|rs|])}
      requires ok ==> Told(rows, ds[|rs|], r, ds[|rs|] in orphans, now)
      ensures AllTold(rows, ds, rs + [r], noted + [ok], orphans, now)
    {
      var k := ErrorKey(ds[|rs|]);
      forall i | 0 <= i < |rs| && noted[i] ensures Told(rows, ds[i], rs[i], ds[i] in orphans, now) {
        KeysAreDays(ds[i], ds[|rs|]);
        var j := ErrorKey(ds[i]);
        assert j in rows <==> j in rows - {k};
        assert j in was <==> j in was - {k};
        assert j in was ==> rows[j] == (rows - {k})[j] == (was - {k})[j] == was[j];
      }
    }

    /** The orphan merge pass: every live log of a past day, whatever becomes of
        the others.  Today's log stays. */
    method MergePass(today: Date, now: string) returns (ds: seq<Date>, rs: seq<MergeResult>, noted: seq<bool>)
      requires OneDirectoryEach()
      modifies this`archived, this`live, this`days, errors
      ensures Increasing(ds) && forall d :: d in ds <==> d in old(live) && d < today
      ensures |ds| == |rs| == |noted| && Now() == SteppedAll(old(Now()), MergeSteps(ds, rs))
      ensures today in old(live) ==> today in live && live[today] == old(live)[today]
      ensures Backfilled(old(days), days, ds, rs, old(archived).Keys)
      ensures AllTold(errors.rows, ds, rs, noted, old(archived).Keys, now)
    {
      ds := PastDates(today);
      rs, noted := [], [];
      while |rs| < |ds|
        invariant |rs| == |noted| <= |ds|
        invariant Now() == SteppedAll(old(Now()), MergeSteps(ds[..|rs|], rs))
        invariant archived.Keys == old(archived).Keys
        invariant Backfilled(old(days), days, ds, rs, old(archived).Keys)
        invariant AllTold(errors.rows, ds, rs, noted, old(archived).Keys, now)
      {
        var d := ds[|rs|];
        ghost var rows, was := errors.rows, days;
        var r, ok := MergeOne(d, now);
        MergeStepsNext(ds, rs, r);
        AfterMergeStep(old(Now()), MergeSteps(ds[..|rs|], rs), d, r);
        ToldOnce(rows, errors.rows, ds, rs, noted, old(archived).Keys, now, r, ok);
        BackfilledOnce(old(days), was, days, ds, rs, old(archived).Keys, r);
        rs, noted := rs + [r], noted + [ok];
      }
      assert ds[..|rs|] == ds;
      forall i | 0 <= i < |ds| ensures ds[i] != today {
        assert ds[i] in ds;
      }
      MergesKeepOthers(old(Now()), ds, rs, today);
    }

    method PastDates(today: Date) returns (ds: seq<Date>)
      ensures Increasing(ds) && forall d :: d in ds <==> d in live && d < today
    {
      ds := [];
      var left := live.Keys;
      while left != {}
        invariant left <= live.Keys && Increasing(ds)
        invariant forall d :: d in ds <==> d in live.Keys - left && d < today
        decreases |left|
      {
        var d :| d in left;
        left := left - {d};
        if d < today {
          ds := InsertDate(ds, d);
        }
      }
    }

    /** The files a rebuild reads, in the order it reads them, however the two
        directories are listed. */
    method CollectLogPaths() returns (found: seq<Source>)
      ensures found == Sources(Now())
    {
      found := Discover([], archived.Keys, false);
      found := Discover(found, live.Keys, true);
      AscendingMembers(archived.Keys + live.Keys);
      SourcesMembers(Now(), Ascending(archived.Keys + live.Keys));
      OrderIsUnique(found, Sources(Now()));
    }
  }

  /** Adds one directory's files, each in its place. */
  method Discover(before: seq<Source>, dates: set<Date>, loose: bool) returns (found: seq<Source>)
    requires InReadingOrder(before) && forall s | s in before :: s.loose != loose
    ensures InReadingOrder(found)
    ensures forall s :: s in found <==> s in before || (s.loose == loose && s.date in dates)
  {
    found := before;
    var left := dates;
    while left != {}
      invariant left <= dates && InReadingOrder(found)
      invariant forall s :: s in found <==> s in before || (s.loose == loose && s.date in dates - left)
      decreases |left|
    {
      var d :| d in left;
      left := left - {d};
      found := InsertSource(found, Source(d, loose));
    }
  }

  function InsertSource(found: seq<Source>, s: Source): (r: seq<Source>)
    requires InReadingOrder(found) && s !in found
    ensures InReadingOrder(r)
    ensures forall x :: x in r <==> x == s || x in found
  {
    if found == [] then [s]
    else if Sooner(s, found[0]) then
      SourceCons(s, found);
      [s] + found
    else
      SourceTailOrder(found);
      assert found == [found[0]] + found[1..];
      var rest := InsertSource(found[1..], s);
      SourceCons(found[0], rest);
      [found[0]] + rest
  }

  lemma SourceCons(s: Source, rest: seq<Source>)
    requires InReadingOrder(rest) && (rest != [] ==> Sooner(s, rest[0]) || forall x | x in rest :: Sooner(s, x))
    ensures InReadingOrder([s] + rest)
  {
    forall i | 0 <= i < |rest| ensures Sooner(s, rest[i]) {
      assert rest[i] in rest;
      assert i > 0 ==> Sooner(rest[0], rest[i]);
    }
  }
}
