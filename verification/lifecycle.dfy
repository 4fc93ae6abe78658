/** A day's log from the live directory into the archive: appends by hosts, the
    move at the seal, the merge of what arrives after it, and the order in which a
    rebuild reads it all back. */
module Lifecycle {
  import opened Dates
  import opened DayLogs
  import Tables
  import opened Rebuilder
  import opened Seqs

  /** The day logs in the archive and in the live directory. */
  datatype Logs = Logs(archived: DayLog, live: DayLog)

  const NO_LOGS := Logs(map[], map[])

  /** `Move` is the seal's move, `Merge` the merge of one day's orphan, `TornMerge`
      a merge that appended and did not get to remove its source. */
  datatype Step = Emit(d: Date, line: string) | Move(d: Date) | Merge(d: Date) | TornMerge(d: Date)

  function Archived(l: Logs, d: Date): seq<string>
  {
    if d in l.archived then l.archived[d] else []
  }

  function Live(l: Logs, d: Date): seq<string>
  {
    if d in l.live then l.live[d] else []
  }

  /** What a reader finds of a day: the archived file, then the live one. */
  function Total(l: Logs, d: Date): seq<string>
  {
    Archived(l, d) + Live(l, d)
  }

  /** Swift's move refuses an existing destination; merging needs one. */
  function Stepped(l: Logs, s: Step): Logs
  {
    match s
    case Emit(d, line) => l.(live := l.live[d := Live(l, d) + [line]])
    case Move(d) =>
      if d in l.live && d !in l.archived then Logs(l.archived[d := l.live[d]], l.live - {d}) else l
    case Merge(d) =>
      if d in l.live && d in l.archived then Logs(l.archived[d := Total(l, d)], l.live - {d}) else l
    case TornMerge(d) =>
      if d in l.live && d in l.archived then l.(archived := l.archived[d := Total(l, d)]) else l
  }

  function SteppedAll(l: Logs, steps: seq<Step>): Logs
  {
    if steps == [] then l else Stepped(SteppedAll(l, steps[..|steps| - 1]), steps[|steps| - 1])
  }

  /** All lines the hosts emitted for a day, in order. */
  function Emitted(steps: seq<Step>, d: Date): seq<string>
  {
    if steps == [] then []
    else
      var e, s := Emitted(steps[..|steps| - 1], d), steps[|steps| - 1];
      if s.Emit? && s.d == d then e + [s.line] else e
  }

  // ---------------------------------------------------------------- without crashes

  /** Appends, moves and whole merges, in any order, lose, repeat and reorder
      nothing. */
  lemma {:induction false} LogsAreConserved(steps: seq<Step>, d: Date)
    requires forall s | s in steps :: !s.TornMerge?
    ensures Total(SteppedAll(NO_LOGS, steps), d) == Emitted(steps, d)
  {
    if steps != [] {
      assert steps[|steps| - 1] in steps;
      LogsAreConserved(steps[..|steps| - 1], d);
    }
  }

  /** The move as Python makes it: an archived file of the same day is replaced. */
  function PythonMove(l: Logs, d: Date): Logs
  {
    if d in l.live then Logs(l.archived[d := l.live[d]], l.live - {d}) else l
  }

  /** It keeps every line exactly when it has nothing to replace. */
  lemma PythonMoveKeeps(l: Logs, d: Date)
    ensures (forall e :: Total(PythonMove(l, d), e) == Total(l, e)) <==> d !in l.live || Archived(l, d) == []
  {
    if d in l.live && Archived(l, d) != [] {
      assert |Total(PythonMove(l, d), d)| < |Total(l, d)|;
    }
  }

  // ---------------------------------------------------------------- with crashes

  /** The same database and pending actions, whatever was read before. */
  ghost predicate Alike(a: seq<string>, b: seq<string>, downloads: string)
  {
    forall before: seq<string> :: SameTables(before + a, before + b, downloads)
  }

  lemma SameThenMore(x: seq<string>, y: seq<string>, c: seq<string>, downloads: string)
    requires SameTables(x, y, downloads)
    ensures SameTables(x + c, y + c, downloads)
  {
    ReplayConcat(BLANK, x, c, downloads);
    ReplayConcat(BLANK, y, c, downloads);
    SameButStats(ReplayedAll(BLANK, x, downloads), ReplayedAll(BLANK, y, downloads), c, downloads);
  }

  lemma AlikeConcat(a: seq<string>, b: seq<string>, c: seq<string>, d: seq<string>, downloads: string)
    requires Alike(a, b, downloads) && Alike(c, d, downloads)
    ensures Alike(a + c, b + d, downloads)
  {
    forall before: seq<string> ensures SameTables(before + (a + c), before + (b + d), downloads) {
      AlikeAfter(before, a, b, c, d, downloads);
    }
  }

  lemma AlikeAfter(before: seq<string>, a: seq<string>, b: seq<string>, c: seq<string>, d: seq<string>,
                   downloads: string)
    requires Alike(a, b, downloads) && Alike(c, d, downloads)
    ensures SameTables(before + (a + c), before + (b + d), downloads)
  {
    Assoc(before, a, c);
    Assoc(before, b, d);
    assert SameTables(before + a, before + b, downloads);
    SameThenMore(before + a, before + b, c, downloads);
    assert SameTables(before + b + c, before + b + d, downloads);
  }

  lemma TwiceIsAlike(a: seq<string>, part: seq<string>, downloads: string)
    requires Settled(part)
    ensures Alike(a + part + part, a + part, downloads)
  {
    forall before: seq<string> ensures SameTables(before + (a + part + part), before + (a + part), downloads) {
      TwiceAfter(before + a, part, downloads);
      Assoc(before, a + part, part);
      Assoc(before, a, part);
    }
  }

  lemma TwiceAfter(before: seq<string>, part: seq<string>, downloads: string)
    requires Settled(part)
    ensures SameTables(before + part + part, before + part, downloads)
  {
    var s := ReplayedAll(BLANK, before, downloads);
    Tables.EmptyIsConsistent();
    RebuiltIsConsistent(BLANK, before, downloads);
    TwiceExactly(s, part, downloads);
    SettledRepeats(part, ReplayedAll(s, part, downloads).db, downloads);
    ReplayConcat(BLANK, before, part, downloads);
    ReplayConcat(BLANK, before + part, part, downloads);
  }

  lemma AlikeSelf(a: seq<string>, downloads: string)
    ensures Alike(a, a, downloads)
  {
    hide Replayed, ReplayedAll;
  }

  lemma AlikeTrans(a: seq<string>, b: seq<string>, c: seq<string>, downloads: string)
    requires Alike(a, b, downloads) && Alike(b, c, downloads)
    ensures Alike(a, c, downloads)
  {
    forall before: seq<string> ensures SameTables(before + a, before + c, downloads) {
      assert SameTables(before + a, before + b, downloads) && SameTables(before + b, before + c, downloads);
    }
  }

  /** The live file always holds the last lines emitted for its day. */
  lemma {:induction false} LiveIsTail(steps: seq<Step>, d: Date)
    ensures Live(SteppedAll(NO_LOGS, steps), d) == Tail(Emitted(steps, d), |Live(SteppedAll(NO_LOGS, steps), d)|)
    ensures |Live(SteppedAll(NO_LOGS, steps), d)| <= |Emitted(steps, d)|
  {
    if steps != [] {
      LiveIsTail(steps[..|steps| - 1], d);
    }
  }

  function Tail(s: seq<string>, n: nat): seq<string>
  {
    if n <= |s| then s[|s| - n..] else s
  }

  lemma TailActionsFirst(s: seq<string>, n: nat)
    requires ActionsFirst(s)
    ensures ActionsFirst(Tail(s, n))
  {
    if n <= |s| {
      var t := s[|s| - n..];
      assert forall i | 0 <= i < |t| :: t[i] == s[|s| - n + i];
    }
  }

  lemma InitActionsFirst(s: seq<string>)
    requires s != [] && ActionsFirst(s)
    ensures ActionsFirst(s[..|s| - 1])
  {
    assert forall i | 0 <= i < |s| - 1 :: s[..|s| - 1][i] == s[i];
  }

  /** With merges that die before they remove their source, at any point and any
      number of times, what a day's two files replay to is what its emitted lines
      replay to. */
  lemma {:induction false} CrashesAreHarmless(steps: seq<Step>, d: Date, downloads: string)
    requires ActionsFirst(Emitted(steps, d))
    ensures Alike(Total(SteppedAll(NO_LOGS, steps), d), Emitted(steps, d), downloads)
  {
    if steps != [] {
      var init, s := steps[..|steps| - 1], steps[|steps| - 1];
      var l := SteppedAll(NO_LOGS, init);
      if s.Emit? && s.d == d {
        assert (Emitted(init, d) + [s.line])[..|Emitted(init, d)|] == Emitted(init, d);
        InitActionsFirst(Emitted(steps, d));
      }
      CrashesAreHarmless(init, d, downloads);
      LiveIsTail(init, d);
      StepIsHarmless(l, s, d, Emitted(init, d), downloads);
    }
  }

  lemma StepIsHarmless(l: Logs, s: Step, d: Date, emitted: seq<string>, downloads: string)
    requires Alike(Total(l, d), emitted, downloads) && ActionsFirst(emitted)
    requires Live(l, d) == Tail(emitted, |Live(l, d)|)
    ensures Alike(Total(Stepped(l, s), d), if s.Emit? && s.d == d then emitted + [s.line] else emitted, downloads)
  {
    hide Alike, ActionsFirst;
    if s.Emit? && s.d == d {
      AlikeSelf([s.line], downloads);
      AlikeConcat(Total(l, d), emitted, [s.line], [s.line], downloads);
      assert Total(Stepped(l, s), d) == Total(l, d) + [s.line];
    } else if s == TornMerge(d) && d in l.live && d in l.archived {
      TailActionsFirst(emitted, |Live(l, d)|);
      OpenHasNoResult(Live(l, d));
      TwiceIsAlike(Archived(l, d), Live(l, d), downloads);
      AlikeTrans(Total(Stepped(l, s), d), Total(l, d), emitted, downloads);
    } else {
      assert Total(Stepped(l, s), d) == Total(l, d);
    }
  }

  // ---------------------------------------------------------------- the order of reading

  /** One file: in the archive, or loose in the live directory. */
  datatype Source = Source(date: Date, loose: bool)

  predicate Sooner(a: Source, b: Source)
  {
    a.date < b.date || (a.date == b.date && !a.loose && b.loose)
  }

  predicate Exists(l: Logs, s: Source)
  {
    s.date in if s.loose then l.live else l.archived
  }

  function SourceLines(l: Logs, s: Source): seq<string>
  {
    if s.loose then Live(l, s.date) else Archived(l, s.date)
  }

  ghost predicate InReadingOrder(s: seq<Source>)
  {
    forall i, j | 0 <= i < j < |s| :: Sooner(s[i], s[j])
  }

  /** The files of the given dates, a date's archived file first. */
  function SourcesOf(l: Logs, ds: seq<Date>): seq<Source>
  {
    if ds == [] then []
    else
      (if ds[0] in l.archived then [Source(ds[0], false)] else []) +
      (if ds[0] in l.live then [Source(ds[0], true)] else []) + SourcesOf(l, ds[1..])
  }

  ghost function Sources(l: Logs): seq<Source>
  {
    SourcesOf(l, Ascending(l.archived.Keys + l.live.Keys))
  }

  lemma {:induction false} SourcesMembers(l: Logs, ds: seq<Date>)
    requires Increasing(ds)
    ensures forall s :: s in SourcesOf(l, ds) <==> s.date in ds && Exists(l, s)
    ensures InReadingOrder(SourcesOf(l, ds))
    decreases |ds|
  {
    if ds != [] {
      assert forall i | 0 <= i < |ds| - 1 :: ds[1..][i] == ds[i + 1] && ds[0] < ds[i + 1];
      SourcesMembers(l, ds[1..]);
      var rest := SourcesOf(l, ds[1..]);
      var here := (if ds[0] in l.archived then [Source(ds[0], false)] else []) +
                  (if ds[0] in l.live then [Source(ds[0], true)] else []);
      forall x, y | x in here && y in rest ensures Sooner(x, y) {
        assert y.date in ds[1..];
      }
      assert forall s :: s in here <==> s.date == ds[0] && Exists(l, s);
      OrderedConcat(here, rest);
    }
  }

  lemma OrderedConcat(a: seq<Source>, b: seq<Source>)
    requires InReadingOrder(a) && InReadingOrder(b) && forall x, y | x in a && y in b :: Sooner(x, y)
    ensures InReadingOrder(a + b)
  {
  }

  lemma {:induction false} OrderIsUnique(a: seq<Source>, b: seq<Source>)
    requires InReadingOrder(a) && InReadingOrder(b) && forall s :: s in a <==> s in b
    ensures a == b
    decreases |a|
  {
    if a == [] {
      EmptyOrNot(b);
    } else {
      assert a[0] in b && b != [] && b[0] in a;
      assert a[0] == b[0];
      forall s ensures s in a[1..] <==> s in b[1..] {
        SourceTail(a, s);
        SourceTail(b, s);
      }
      SourceTailOrder(a);
      SourceTailOrder(b);
      OrderIsUnique(a[1..], b[1..]);
    }
  }

  lemma EmptyOrNot(b: seq<Source>)
    ensures b == [] || exists s :: s in b
  {
    if b != [] {
      assert b[0] in b;
    }
  }

  lemma SourceTail(a: seq<Source>, s: Source)
    requires InReadingOrder(a) && a != []
    ensures s in a[1..] <==> s in a && s != a[0]
  {
    if s in a && s != a[0] {
      var i :| 0 <= i < |a| && a[i] == s;
      assert a[1..][i - 1] == s;
    }
    if s in a[1..] {
      var i :| 0 <= i < |a| - 1 && a[1..][i] == s;
      assert Sooner(a[0], a[i + 1]);
    }
  }

  lemma SourceTailOrder(a: seq<Source>)
    requires InReadingOrder(a) && a != []
    ensures InReadingOrder(a[1..])
  {
    assert forall i | 0 <= i < |a| - 1 :: a[1..][i] == a[i + 1];
  }

  function Read(l: Logs, sources: seq<Source>): seq<string>
  {
    if sources == [] then [] else SourceLines(l, sources[0]) + Read(l, sources[1..])
  }

  function EmittedOn(steps: seq<Step>, ds: seq<Date>): seq<string>
  {
    if ds == [] then [] else Emitted(steps, ds[0]) + EmittedOn(steps, ds[1..])
  }

  lemma {:induction false} ReadConcat(l: Logs, a: seq<Source>, b: seq<Source>)
    ensures Read(l, a + b) == Read(l, a) + Read(l, b)
  {
    if a == [] {
      assert a + b == b;
    } else {
      assert (a + b)[1..] == a[1..] + b;
      ReadConcat(l, a[1..], b);
    }
  }

  lemma ReadDate(l: Logs, ds: seq<Date>)
    requires ds != []
    ensures Read(l, SourcesOf(l, ds)) == Total(l, ds[0]) + Read(l, SourcesOf(l, ds[1..]))
  {
    var a := if ds[0] in l.archived then [Source(ds[0], false)] else [];
    var b := if ds[0] in l.live then [Source(ds[0], true)] else [];
    ReadConcat(l, a + b, SourcesOf(l, ds[1..]));
    ReadConcat(l, a, b);
    assert Read(l, a) == Archived(l, ds[0]) && Read(l, b) == Live(l, ds[0]);
  }

  /** Without crashes the reading order is the order of emission within each day,
      days in order. */
  lemma {:induction false} ReadsWhatWasEmitted(steps: seq<Step>, ds: seq<Date>)
    requires forall s | s in steps :: !s.TornMerge?
    ensures
      var l := SteppedAll(NO_LOGS, steps);
      Read(l, SourcesOf(l, ds)) == EmittedOn(steps, ds)
  {
    if ds != [] {
      LogsAreConserved(steps, ds[0]);
      ReadDate(SteppedAll(NO_LOGS, steps), ds);
      ReadsWhatWasEmitted(steps, ds[1..]);
    }
  }

  lemma {:induction false} ReadsAlike(steps: seq<Step>, ds: seq<Date>, downloads: string)
    requires forall d | d in ds :: ActionsFirst(Emitted(steps, d))
    ensures
      var l := SteppedAll(NO_LOGS, steps);
      Alike(Read(l, SourcesOf(l, ds)), EmittedOn(steps, ds), downloads)
    decreases |ds|
  {
    if ds != [] {
      var l := SteppedAll(NO_LOGS, steps);
      CrashesAreHarmless(steps, ds[0], downloads);
      ReadDate(l, ds);
      ReadsAlike(steps, ds[1..], downloads);
      AlikeConcat(Total(l, ds[0]), Emitted(steps, ds[0]), Read(l, SourcesOf(l, ds[1..])), EmittedOn(steps, ds[1..]),
        downloads);
    }
  }

  /** Whatever merges died, a rebuild from the files gives the database that the
      emitted lines give; without crashes it reads exactly those lines, in order. */
  lemma RebuildSurvivesCrashes(steps: seq<Step>, downloads: string)
    requires forall d :: ActionsFirst(Emitted(steps, d))
    ensures
      var l := SteppedAll(NO_LOGS, steps);
      var read, emitted := Read(l, Sources(l)), EmittedOn(steps, Ascending(l.archived.Keys + l.live.Keys));
      && ReplayedAll(BLANK, read, downloads).db == ReplayedAll(BLANK, emitted, downloads).db
      && ((forall s | s in steps :: !s.TornMerge?) ==> read == emitted)
    ensures forall d :: Emitted(steps, d) != [] ==>
              d in SteppedAll(NO_LOGS, steps).archived.Keys + SteppedAll(NO_LOGS, steps).live.Keys
  {
    var l := SteppedAll(NO_LOGS, steps);
    var ds := Ascending(l.archived.Keys + l.live.Keys);
    ReadsAlike(steps, ds, downloads);
    var read, emitted := Read(l, Sources(l)), EmittedOn(steps, ds);
    assert [] + read == read && [] + emitted == emitted;
    if forall s | s in steps :: !s.TornMerge? {
      ReadsWhatWasEmitted(steps, ds);
    }
    forall d ensures Emitted(steps, d) != [] ==> d in l.archived.Keys + l.live.Keys {
      EmittedHasFile(steps, d);
    }
  }

  lemma {:induction false} EmittedHasFile(steps: seq<Step>, d: Date)
    ensures Emitted(steps, d) != [] ==> d in SteppedAll(NO_LOGS, steps).archived || d in SteppedAll(NO_LOGS, steps).live
  {
    if steps != [] {
      EmittedHasFile(steps[..|steps| - 1], d);
    }
  }
}
