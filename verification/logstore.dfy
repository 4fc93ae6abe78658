/** The server's per-machine log store: appends of pushed batches and the
    streaming scan past a cursor. */
module LogStore {
  import opened Text
  import opened Dates
  import opened DayLogs
  import Listing
  import opened Replay
  import opened Mirror

  // ---------------------------------------------------------------- reading in pieces

  /** An open file.  A read returns some of what is left, possibly together with
      the end of the file. */
  class Reader {
    var rest: string

    constructor (content: string)
      ensures rest == content
    {
      rest := content;
    }

    method Read(max: nat) returns (data: string, eof: bool)
      requires max > 0
      modifies this
      ensures old(rest) == data + rest && |data| <= max
      ensures eof ==> rest == ""
      ensures !eof ==> data != ""
    {
      var n :| 0 <= n <= max && n <= |rest| && (n == 0 ==> rest == "");
      data, rest := rest[..n], rest[n..];
      eof := *;
      eof := rest == "" && (eof || data == "");
    }
  }

  method IndexByte(b: string, c: char) returns (at: int)
    ensures -1 <= at < |b|
    ensures at >= 0 ==> b[at] == c && c !in b[..at]
    ensures at < 0 ==> c !in b
  {
    for i := 0 to |b|
      invariant c !in b[..i]
    {
      if b[i] == c {
        return i;
      }
    }
    return -1;
  }

  method CountLines(content: string) returns (n: nat)
    ensures n == Newlines(content)
  {
    n := 0;
    var f := new Reader(content);
    var eof := false;
    while !eof
      invariant n + Newlines(f.rest) == Newlines(content)
      invariant eof ==> f.rest == ""
      decreases !eof, |f.rest|
    {
      ghost var before, left := n, f.rest;
      var data: string;
      data, eof := f.Read(64 * 1024);
      ghost var rest := f.rest;
      for i := 0 to |data|
        invariant n == before + Newlines(data[..i]) && f.rest == rest
      {
        assert data[..i + 1] == data[..i] + [data[i]];
        NewlinesConcat(data[..i], [data[i]]);
        if data[i] == '\n' {
          n := n + 1;
        }
      }
      assert data[..|data|] == data;
      NewlinesConcat(data, f.rest);
    }
  }

  // ---------------------------------------------------------------- sorting and grouping

  function InsertLine(s: seq<LogLine>, x: LogLine): (r: seq<LogLine>)
    requires InOrder(s)
    ensures InOrder(r) && multiset(r) == multiset(s) + multiset{x}
  {
    if s == [] || Before(x, s[0]) then
      assert forall i | 0 < i < |s| :: !Before(s[i], s[0]);
      assert forall y | y in s :: !Before(y, x);
      InOrderCons(x, s);
      [x] + s
    else
      var rest := InsertLine(s[1..], x);
      assert s == [s[0]] + s[1..];
      assert forall y | y in rest :: y in multiset(rest);
      assert forall y | y in s[1..] :: !Before(y, s[0]);
      InOrderCons(s[0], rest);
      [s[0]] + rest
  }

  lemma InOrderCons(x: LogLine, s: seq<LogLine>)
    requires InOrder(s) && forall y | y in s :: !Before(y, x)
    ensures InOrder([x] + s)
  {
  }

  method SortLines(lines: seq<LogLine>) returns (r: seq<LogLine>)
    ensures InOrder(r) && multiset(r) == multiset(lines)
  {
    r := [];
    for i := 0 to |lines|
      invariant InOrder(r) && multiset(r) == multiset(lines[..i])
    {
      assert lines[..i + 1] == lines[..i] + [lines[i]];
      r := InsertLine(r, lines[i]);
    }
    assert lines[..|lines|] == lines;
  }

  lemma ByDateNext(lines: seq<LogLine>, i: nat)
    requires i < |lines|
    ensures ByDate(lines[..i + 1]) == AddLine(ByDate(lines[..i]), lines[i])
  {
    assert lines[..i + 1][..i] == lines[..i] && lines[..i + 1][i] == lines[i];
  }

  lemma SliceNext(lines: seq<LogLine>, start: nat, i: nat)
    requires start <= i < |lines|
    ensures lines[start..i + 1] == lines[start..i] + [lines[i]]
  {
  }

  lemma SliceOne(lines: seq<LogLine>, i: nat)
    requires i < |lines|
    ensures lines[i..i + 1] == [lines[i]]
  {
  }

  method GroupByDate(lines: seq<LogLine>) returns (groups: seq<seq<LogLine>>)
    ensures groups == ByDate(lines)
  {
    groups := [];
    var start, i := 0, 1;
    if |lines| > 0 {
      ByDateNext(lines, 0);
      assert lines[..0] == [] && lines[0..1] == [lines[0]];
    }
    while i <= |lines|
      invariant 0 <= start < i <= |lines| + 1
      invariant i <= |lines| ==> ByDate(lines[..i]) == groups + [lines[start..i]]
      invariant i == |lines| + 1 ==> groups == ByDate(lines)
    {
      ghost var run := lines[start..i];
      if i < |lines| {
        ByDateNext(lines, i);
        assert (groups + [run])[|groups| := run + [lines[i]]] == groups + [run + [lines[i]]];
        SliceNext(lines, start, i);
        SliceOne(lines, i);
      } else {
        assert lines[..i] == lines;
      }
      if i == |lines| || lines[i].date != lines[start].date {
        groups := groups + [lines[start..i]];
        start := i;
      }
      i := i + 1;
    }
  }

  // ---------------------------------------------------------------- what a scan yields

  /** The lines handed to the caller's function for one file: it is called on each
      pending line in turn until it answers false. */
  ghost function FeedDay(answer: seq<LogLine> -> bool, calls: seq<LogLine>, pending: seq<LogLine>): seq<LogLine>
    decreases |pending|
  {
    if pending == [] then calls
    else
      var next := calls + [pending[0]];
      if answer(next) then FeedDay(answer, next, pending[1..]) else next
  }

  /** A false answer ends only the file it was given for. */
  ghost function FeedDays(answer: seq<LogLine> -> bool, calls: seq<LogLine>, log: DayLog, ds: seq<Date>,
                          c: Cursor): seq<LogLine>
    requires forall d | d in ds :: d in log
    decreases |ds|
  {
    if ds == [] then calls
    else FeedDays(answer, FeedDay(answer, calls, Keep(Numbered(ds[0], log[ds[0]]), c)), log, ds[1..], c)
  }

  ghost function From(log: DayLog, d: Date): set<Date>
  {
    set e | e in log && e >= d
  }

  /** The calls a scan of the log past `c` makes. */
  ghost function Scan(answer: seq<LogLine> -> bool, log: DayLog, c: Cursor): seq<LogLine>
  {
    AscendingMembers(From(log, c.date));
    FeedDays(answer, [], log, Ascending(From(log, c.date)), c)
  }

  lemma {:induction false} FeedDayPrefix(answer: seq<LogLine> -> bool, calls: seq<LogLine>, pending: seq<LogLine>,
                                         n: nat)
    requires n <= |pending| && forall j | 0 < j < n :: answer(calls + pending[..j])
    ensures calls + pending[..n] <= FeedDay(answer, calls, pending) <= calls + pending
    decreases |pending|
  {
    if pending != [] {
      var next, rest := calls + [pending[0]], pending[1..];
      assert next == calls + pending[..1] && next + rest == calls + pending;
      if n > 0 {
        forall j | 0 < j < n - 1 ensures answer(next + rest[..j]) {
          assert next + rest[..j] == calls + pending[..j + 1];
        }
        assert next + rest[..n - 1] == calls + pending[..n];
      }
      FeedDayPrefix(answer, next, rest, if n > 0 && answer(next) then n - 1 else 0);
      assert rest[..0] == [] && next + [] == next;
    }
  }

  lemma {:induction false} FeedDaysExtends(answer: seq<LogLine> -> bool, calls: seq<LogLine>, log: DayLog,
                                           ds: seq<Date>, c: Cursor)
    requires forall d | d in ds :: d in log
    ensures calls <= FeedDays(answer, calls, log, ds, c)
    decreases |ds|
  {
    if ds != [] {
      var today := Keep(Numbered(ds[0], log[ds[0]]), c);
      FeedDayPrefix(answer, calls, today, 0);
      assert calls + today[..0] == calls;
      FeedDaysExtends(answer, FeedDay(answer, calls, today), log, ds[1..], c);
    }
  }

  lemma {:induction false} FeedDaysNothing(answer: seq<LogLine> -> bool, calls: seq<LogLine>, log: DayLog,
                                           ds: seq<Date>, c: Cursor)
    requires forall d | d in ds :: d in log
    requires Keep(FlatDates(log, ds), c) == []
    ensures FeedDays(answer, calls, log, ds, c) == calls
    decreases |ds|
  {
    if ds != [] {
      KeepConcat(Numbered(ds[0], log[ds[0]]), FlatDates(log, ds[1..]), c);
      FeedDaysNothing(answer, calls, log, ds[1..], c);
    }
  }

  lemma {:induction false} FeedDaysPrefix(answer: seq<LogLine> -> bool, calls: seq<LogLine>, log: DayLog, ds: seq<Date>,
                                          c: Cursor, n: nat)
    requires forall d | d in ds :: d in log
    requires var p := Keep(FlatDates(log, ds), c);
      n <= |p| && forall j | 0 < j < n :: answer(calls + p[..j])
    ensures var p, all := Keep(FlatDates(log, ds), c), FeedDays(answer, calls, log, ds, c);
      calls + p[..n] <= all && (n == |p| ==> all == calls + p)
    decreases |ds|, 0
  {
    var p := Keep(FlatDates(log, ds), c);
    assert calls + p[..0] == calls;
    if ds != [] {
      var today, later := Keep(Numbered(ds[0], log[ds[0]]), c), Keep(FlatDates(log, ds[1..]), c);
      KeepConcat(Numbered(ds[0], log[ds[0]]), FlatDates(log, ds[1..]), c);
      assert p == today + later;
      forall j | 0 < j < n && j < |today| ensures answer(calls + today[..j]) {
        assert p[..j] == today[..j];
      }
      if n <= |today| {
        FeedDaysToday(answer, calls, today, log, ds[1..], c, n);
        assert p[..n] == today[..n];
      } else {
        FeedDayWhole(answer, calls, today);
        FeedDaysLater(answer, calls, today, log, ds[1..], c, n);
      }
    }
  }

  lemma FeedDayWhole(answer: seq<LogLine> -> bool, calls: seq<LogLine>, pending: seq<LogLine>)
    requires forall j | 0 < j < |pending| :: answer(calls + pending[..j])
    ensures FeedDay(answer, calls, pending) == calls + pending
  {
    FeedDayPrefix(answer, calls, pending, |pending|);
    assert pending[..|pending|] == pending;
  }

  lemma FeedDaysToday(answer: seq<LogLine> -> bool, calls: seq<LogLine>, today: seq<LogLine>, log: DayLog,
                      ds: seq<Date>,
                      c: Cursor, n: nat)
    requires forall d | d in ds :: d in log
    requires n <= |today| && forall j | 0 < j < n :: answer(calls + today[..j])
    ensures var all, later := FeedDays(answer, FeedDay(answer, calls, today), log, ds, c), Keep(FlatDates(log, ds), c);
      calls + today[..n] <= all && (n == |today + later| ==> all == calls + today + later)
  {
    FeedDayPrefix(answer, calls, today, n);
    FeedDaysExtends(answer, FeedDay(answer, calls, today), log, ds, c);
    if n == |today + Keep(FlatDates(log, ds), c)| {
      FeedDayWhole(answer, calls, today);
      FeedDaysNothing(answer, calls + today, log, ds, c);
    }
  }

  lemma {:induction false} FeedDaysLater(answer: seq<LogLine> -> bool, calls: seq<LogLine>, today: seq<LogLine>,
                                         log: DayLog, ds: seq<Date>, c: Cursor, n: nat)
    requires forall d | d in ds :: d in log
    requires var p := today + Keep(FlatDates(log, ds), c);
      |today| < n <= |p| && forall j | 0 < j < n :: answer(calls + p[..j])
    ensures var p, all := today + Keep(FlatDates(log, ds), c), FeedDays(answer, calls + today, log, ds, c);
      calls + p[..n] <= all && (n == |p| ==> all == calls + p)
    decreases |ds|, 1
  {
    var later := Keep(FlatDates(log, ds), c);
    var p, m := today + later, n - |today|;
    forall j | 0 < j < m ensures answer(calls + today + later[..j]) {
      assert calls + today + later[..j] == calls + p[..j + |today|];
    }
    FeedDaysPrefix(answer, calls + today, log, ds, c, m);
    assert calls + today + later[..m] == calls + p[..n];
    assert calls + today + later == calls + p;
  }

  lemma {:induction false} FlatDatesConcat(log: DayLog, a: seq<Date>, b: seq<Date>)
    requires forall d | d in a + b :: d in log
    ensures forall d | d in a :: d in log
    ensures forall d | d in b :: d in log
    ensures FlatDates(log, a + b) == FlatDates(log, a) + FlatDates(log, b)
  {
    assert forall d | d in a :: d in a + b;
    assert forall d | d in b :: d in a + b;
    if a == [] {
      assert a + b == b;
    } else {
      assert (a + b)[1..] == a[1..] + b;
      FlatDatesConcat(log, a[1..], b);
    }
  }

  ghost function Until(log: DayLog, d: Date): set<Date>
  {
    set e | e in log && e < d
  }

  /** A listing of earlier dates before one of later dates is the listing of both. */
  lemma EarlyThenLate(log: DayLog, d: Date)
    ensures Ascending(log.Keys) == Ascending(Until(log, d)) + Ascending(From(log, d))
  {
    hide Ascending;
    var a, b := Ascending(Until(log, d)), Ascending(From(log, d));
    AscendingMembers(Until(log, d));
    AscendingMembers(From(log, d));
    forall i, j | 0 <= i < j < |a + b| ensures (a + b)[i] < (a + b)[j] {
      if i < |a| <= j {
        assert a[i] in Until(log, d) && b[j - |a|] in From(log, d);
      }
    }
    forall e ensures e in a + b <==> e in log.Keys {
      assert e in a + b <==> e in a || e in b;
    }
    AscendingUnique(a + b, log.Keys);
  }

  lemma EarlyIsNotPast(log: DayLog, ds: seq<Date>, c: Cursor)
    requires forall d | d in ds :: d in log && d < c.date
    ensures Keep(FlatDates(log, ds), c) == []
  {
    hide FlatDates;
    FlatDatesMembers(log, ds);
    KeepNone(FlatDates(log, ds), c);
  }

  /** The files a scan skips hold nothing past the cursor. */
  lemma SkippedFiles(log: DayLog, c: Cursor)
    ensures forall d | d in Ascending(From(log, c.date)) :: d in log
    ensures Keep(FlatDates(log, Ascending(From(log, c.date))), c) == After(log, c)
  {
    hide Ascending, FlatDates, Keep;
    var a, b := Ascending(Until(log, c.date)), Ascending(From(log, c.date));
    AscendingMembers(Until(log, c.date));
    AscendingMembers(From(log, c.date));
    AscendingMembers(log.Keys);
    EarlyThenLate(log, c.date);
    FlatDatesConcat(log, a, b);
    KeepConcat(FlatDates(log, a), FlatDates(log, b), c);
    EarlyIsNotPast(log, a, c);
  }

  /** As long as the caller answers true, it is given the lines past the cursor,
      dates ascending, each with its offset: all of them if it never refuses
      before the last. */
  lemma ScanPrefix(answer: seq<LogLine> -> bool, log: DayLog, c: Cursor, n: nat)
    requires n <= |After(log, c)| && forall j | 0 < j < n :: answer(After(log, c)[..j])
    ensures After(log, c)[..n] <= Scan(answer, log, c)
    ensures n == |After(log, c)| ==> Scan(answer, log, c) == After(log, c)
  {
    SkippedFiles(log, c);
    var p := After(log, c);
    forall j | 0 < j < n ensures answer([] + p[..j]) {
      assert [] + p[..j] == p[..j];
    }
    FeedDaysPrefix(answer, [], log, Ascending(From(log, c.date)), c, n);
    assert [] + p[..n] == p[..n] && [] + p == p;
  }

  /** A caller that always answers true is given exactly the lines past the
      cursor. */
  lemma ScanAll(answer: seq<LogLine> -> bool, log: DayLog, c: Cursor)
    requires forall h :: answer(h)
    ensures Scan(answer, log, c) == After(log, c)
  {
    ScanPrefix(answer, log, c, |After(log, c)|);
  }

  lemma LinesFirst(s: string, i: nat)
    requires i < |s| && s[i] == '\n' && '\n' !in s[..i]
    ensures Lines(s) == [s[..i]] + Lines(s[i + 1..])
  {
    SplitFirst(s, '\n', i);
    OneMorePart(s[..i], Split(s[i + 1..], '\n'));
  }

  lemma OneMorePart(first: string, tail: seq<string>)
    requires tail != []
    ensures ([first] + tail)[|tail|] == tail[|tail| - 1]
    ensures ([first] + tail)[..|tail|] == [first] + tail[..|tail| - 1]
  {
  }

  lemma LinesLast(s: string)
    requires '\n' !in s
    ensures Lines(s) == if s == "" then [] else [s]
  {
    SplitWhole(s, '\n');
  }

  function NumberedFrom(d: Date, k: nat, lines: seq<string>): seq<LogLine>
    decreases |lines|
  {
    if lines == [] then [] else [LogLine(d, k, lines[0])] + NumberedFrom(d, k + 1, lines[1..])
  }

  lemma {:induction false} NumberedFromIs(d: Date, k: nat, lines: seq<string>)
    ensures |NumberedFrom(d, k, lines)| == |lines|
    ensures forall i | 0 <= i < |lines| :: NumberedFrom(d, k, lines)[i] == LogLine(d, k + i, lines[i])
    decreases |lines|
  {
    if lines != [] {
      NumberedFromIs(d, k + 1, lines[1..]);
    }
  }

  // ---------------------------------------------------------------- the store

  /** `IoError` is any failed read or write of a file. */
  datatype WriteError = NoError | Gap | IoError

  class Store {
    /** What lies under the log root: one directory for each machine. */
    var dirs: map<string, Files>

    constructor ()
      ensures dirs == map[]
    {
      dirs := map[];
    }

    function Dir(machine: string): Files
      reads this
    {
      if machine in dirs then dirs[machine] else map[]
    }

    /** The dates not before `from` that a machine's directory has files for. */
    method ListDates(files: Files, from: Date) returns (ds: seq<Date>)
      ensures Increasing(ds)
      ensures forall d :: d in ds <==> d in files && d >= from
    {
      ds := [];
      var left := files.Keys;
      while left != {}
        invariant left <= files.Keys && Increasing(ds)
        invariant forall d :: d in ds <==> d in files.Keys - left && d >= from
        decreases |left|
      {
        var d :| d in left;
        left := left - {d};
        if d >= from {
          ds := InsertDate(ds, d);
        }
      }
    }

    /** Every machine that has ever pushed, in the order of their names. */
    method EnrolledMachines() returns (machines: seq<string>)
      ensures machines == Listing.SortedNames(dirs.Keys)
    {
      machines := Listing.Sort(dirs.Keys);
    }

    method HighWater(machine: string) returns (date: Date, offset: int)
      ensures Dir(machine) == map[] ==> date == NO_DATE && offset == -1
      ensures Dir(machine) != map[] ==>
        && date in Dir(machine) && (forall d | d in Dir(machine) :: d <= date)
        && offset == Count(Dir(machine), date) - 1
    {
      var files := Dir(machine);
      var ds := ListDates(files, NO_DATE);
      if |ds| == 0 {
        assert files.Keys == {};
        return NO_DATE, -1;
      }
      date := ds[|ds| - 1];
      assert date in ds;
      forall d | d in files ensures d <= date {
        assert d in ds;
      }
      var n: int := CountLines(files[date]);
      offset := n - 1;
    }

    /** Extends the machine's files by the lines they lack.  The caller's slice is
        sorted in place; here the sorted lines are returned.  A read or a write may
        fail; then the days before, `written` of them, are complete. */
    method AppendLogLines(machine: string, lines: seq<LogLine>)
      returns (sorted: seq<LogLine>, error: WriteError, date: Date, offset: int, ghost written: nat)
      modifies this
      ensures InOrder(sorted) && multiset(sorted) == multiset(lines)
      ensures lines == [] ==> dirs == old(dirs) && error != Gap
      ensures lines != [] ==> machine in dirs && dirs == old(dirs)[machine := dirs[machine]]
      ensures lines != [] && error != IoError ==>
        Outcome(dirs[machine], error == Gap, date, offset) == Append(old(Dir(machine)), sorted)
      ensures lines != [] && error == IoError ==> DaysWritten(old(Dir(machine)), sorted, written, dirs[machine])
    {
      written := 0;
      if |lines| == 0 {
        date, offset := HighWater(machine);
        if * {
          return [], IoError, date, offset, written;
        }
        return [], NoError, date, offset, written;
      }
      sorted := SortLines(lines);
      assert |sorted| == |multiset(sorted)| == |multiset(lines)| == |lines|;
      error, date, offset, written := WriteSorted(machine, sorted);
    }

    method WriteSorted(machine: string, sorted: seq<LogLine>)
      returns (error: WriteError, date: Date, offset: int, ghost written: nat)
      modifies this
      ensures machine in dirs && dirs == old(dirs)[machine := dirs[machine]]
      ensures error != IoError ==>
                Outcome(dirs[machine], error == Gap, date, offset) == Append(old(Dir(machine)), sorted)
      ensures error == IoError ==> DaysWritten(old(Dir(machine)), sorted, written, dirs[machine])
    {
      date, offset, error, written := NO_DATE, 0, NoError, 0;
      var groups := GroupByDate(sorted);
      ghost var start := Dir(machine);
      dirs := dirs[machine := Dir(machine)];
      var i := 0;
      while i < |groups|
        invariant 0 <= i <= |groups| && machine in dirs && error == NoError
        invariant dirs == old(dirs)[machine := dirs[machine]]
        invariant WrittenUpTo(start, groups, i, dirs[machine], date, offset)
      {
        ghost var before := dirs;
        var high;
        error, high := WriteGroup(machine, groups[i]);
        OnlyTheMachine(old(dirs), before, dirs, machine);
        if error != NoError {
          GroupFails(start, groups, i, before[machine], date, offset);
          date, offset, written := NO_DATE, 0, i;
          return;
        }
        GroupWritten(start, groups, i, before[machine], date, offset, dirs[machine], high);
        date, offset := groups[i][0].date, high;
        i := i + 1;
      }
      assert groups[..i] == groups;
    }

    /** Writes what a group of one date has beyond its file; `high` is the file's
        last offset afterwards. */
    method WriteGroup(machine: string, group: seq<LogLine>) returns (error: WriteError, high: int)
      requires machine in dirs && group != []
      modifies this
      ensures machine in dirs && dirs == old(dirs)[machine := dirs[machine]]
      ensures error == Gap ==> GroupFresh(old(dirs[machine]), group).None?
      ensures error != NoError ==> dirs[machine] == old(dirs[machine])
      ensures error == NoError ==>
        GroupFresh(old(dirs[machine]), group).Some? && GroupNow(old(dirs[machine]), group, dirs[machine], high)
    {
      error, high := IoError, 0;
      var d := group[0].date;
      if * {
        return;
      }
      var count: int := CountLines(Content(dirs[machine], d));
      var toWrite, ok := Select(count, group);
      if !ok {
        return Gap, 0;
      }
      if |toWrite| > 0 {
        if * {
          return;
        }
        var text := AppendText(toWrite);
        dirs := dirs[machine := dirs[machine][d := Content(dirs[machine], d) + text]];
      } else {
        assert dirs[machine := dirs[machine]] == dirs;
      }
      return NoError, count + |toWrite| - 1;
    }

    /** The scan.  `answer` stands for the caller's function: its answer to a call
        depends on the calls so far. */
    method LinesAfter(machine: string, since: Cursor, answer: seq<LogLine> -> bool) returns (calls: seq<LogLine>)
      ensures calls == Scan(answer, LinesOf(Dir(machine)), since)
    {
      calls := [];
      var files := Dir(machine);
      ghost var log := LinesOf(files);
      var ds := ListDates(files, since.date);
      AscendingUnique(ds, From(log, since.date));
      var i := 0;
      while i < |ds|
        invariant 0 <= i <= |ds|
        invariant forall d | d in ds[i..] :: d in log
        invariant FeedDays(answer, calls, log, ds[i..], since) == Scan(answer, log, since)
      {
        assert ds[i..][0] == ds[i] && ds[i..][1..] == ds[i + 1..] && ds[i] in ds;
        calls := ScanFile(ds[i], files[ds[i]], since, answer, calls);
        i := i + 1;
      }
    }
  }

  lemma OnlyTheMachine(a: map<string, Files>, b: map<string, Files>, c: map<string, Files>, m: string)
    requires m in b && b == a[m := b[m]] && m in c && c == b[m := c[m]]
    ensures c == a[m := c[m]]
  {
  }

  /** The group's fresh lines are at the end of its file. */
  predicate GroupNow(files: Files, group: seq<LogLine>, now: Files, high: int)
    requires group != [] && GroupFresh(files, group).Some?
  {
    var d, w := group[0].date, GroupFresh(files, group).value;
    now == Extend(files, d, w) && high == Count(files, d) + |w| - 1
  }

  /** The first i groups are written. */
  predicate WrittenUpTo(start: Files, groups: seq<seq<LogLine>>, i: nat, now: Files, date: Date, offset: int)
  {
    && i <= |groups| && (forall k | 0 <= k < |groups| :: groups[k] != [])
    && WriteGroups(start, groups[..i], NO_DATE, 0) == Outcome(now, false, date, offset)
  }

  /** The first days of a sorted batch are complete and the others untouched. */
  predicate DaysWritten(start: Files, sorted: seq<LogLine>, days: nat, now: Files)
  {
    && days <= |ByDate(sorted)|
    && var o := WriteGroups(start, ByDate(sorted)[..days], NO_DATE, 0);
       !o.gap && o.files == now
  }

  lemma {:induction false} WriteConcat(files: Files, a: seq<seq<LogLine>>, b: seq<seq<LogLine>>, date: Date,
                                       offset: int)
    requires (forall k | 0 <= k < |a| :: a[k] != []) && forall k | 0 <= k < |b| :: b[k] != []
    requires !WriteGroups(files, a, date, offset).gap
    ensures
      var o := WriteGroups(files, a, date, offset);
      WriteGroups(files, a + b, date, offset) == WriteGroups(o.files, b, o.date, o.offset)
    decreases |a|
  {
    if a == [] {
      assert a + b == b;
    } else {
      var d := a[0][0].date;
      var w := GroupFresh(files, a[0]).value;
      assert (a + b)[0] == a[0] && (a + b)[1..] == a[1..] + b;
      WriteConcat(Extend(files, d, w), a[1..], b, d, Count(files, d) + |w| - 1);
    }
  }

  lemma GroupWritten(start: Files, groups: seq<seq<LogLine>>, i: nat, files: Files, date: Date, offset: int,
                     now: Files, high: int)
    requires i < |groups| && WrittenUpTo(start, groups, i, files, date, offset)
    requires GroupFresh(files, groups[i]).Some? && GroupNow(files, groups[i], now, high)
    ensures WrittenUpTo(start, groups, i + 1, now, groups[i][0].date, high)
  {
    WriteConcat(start, groups[..i], [groups[i]], NO_DATE, 0);
    assert groups[..i] + [groups[i]] == groups[..i + 1];
    assert [groups[i]][1..] == [];
  }

  /** A group that cannot be written ends the batch. */
  lemma GroupFails(start: Files, groups: seq<seq<LogLine>>, i: nat, files: Files, date: Date, offset: int)
    requires i < |groups| && WrittenUpTo(start, groups, i, files, date, offset)
    ensures GroupFresh(files, groups[i]).None? ==>
        WriteGroups(start, groups, NO_DATE, 0) == Outcome(files, true, NO_DATE, 0)
  {
    WriteConcat(start, groups[..i], groups[i..], NO_DATE, 0);
    assert groups[..i] + groups[i..] == groups;
  }

  /** The lines of a date's group that go to a file of `count` lines. */
  method Select(count: nat, group: seq<LogLine>) returns (toWrite: seq<LogLine>, ok: bool)
    ensures ok <==> Fresh(count, group).Some?
    ensures ok ==> Fresh(count, group).value == Raws(toWrite)
  {
    toWrite := [];
    var cur := count;
    for i := 0 to |group|
      invariant cur == count + |toWrite|
      invariant Fresh(count, group).Some? <==> Fresh(cur, group[i..]).Some?
      invariant Fresh(count, group).Some? ==>
        Fresh(count, group).value == Raws(toWrite) + Fresh(cur, group[i..]).value
    {
      var l := group[i];
      assert group[i..][0] == l && group[i..][1..] == group[i + 1..];
      if l.offset < cur {
      } else if l.offset == cur {
        assert Raws(toWrite + [l]) == Raws(toWrite) + [l.raw];
        toWrite := toWrite + [l];
        cur := cur + 1;
      } else {
        return toWrite, false;
      }
    }
    assert group[|group|..] == [];
    return toWrite, true;
  }

  /** The text appendFile writes in one go. */
  method AppendText(lines: seq<LogLine>) returns (text: string)
    ensures text == Unlines(Raws(lines))
  {
    text := "";
    for i := 0 to |lines|
      invariant text == Unlines(Raws(lines[..i]))
    {
      assert Raws(lines[..i + 1]) == Raws(lines[..i]) + [lines[i].raw];
      UnlinesConcat(Raws(lines[..i]), [lines[i].raw]);
      assert Unlines([]) == "" && [lines[i].raw][1..] == [];
      text := text + lines[i].raw + "\n";
    }
    assert lines[..|lines|] == lines;
  }

  /** What is left to hand out of a file whose next line has number `offset` and
      whose unread text is `text`. */
  ghost function ToFeed(answer: seq<LogLine> -> bool, calls: seq<LogLine>, d: Date, offset: nat, text: string,
                        c: Cursor): seq<LogLine>
  {
    FeedDay(answer, calls, Keep(NumberedFrom(d, offset, Lines(text)), c))
  }

  /** One line more, by hand. */
  lemma FeedLine(answer: seq<LogLine> -> bool, calls: seq<LogLine>, d: Date, offset: nat, line: string, text: string,
                 rest: string, c: Cursor)
    requires Lines(text) == [line] + Lines(rest)
    ensures
      var l := LogLine(d, offset, line);
      ToFeed(answer, calls, d, offset, text, c) ==
        if !Past(l, c) then ToFeed(answer, calls, d, offset + 1, rest, c)
        else if answer(calls + [l]) then ToFeed(answer, calls + [l], d, offset + 1, rest, c)
        else calls + [l]
  {
    KeepHead(LogLine(d, offset, line), NumberedFrom(d, offset + 1, Lines(rest)), c);
    assert ([line] + Lines(rest))[1..] == Lines(rest);
  }

  /** Hands out the complete lines of the buffer; `rest` is what the file still
      holds. */
  method Drain(d: Date, offset: nat, buf: string, ghost rest: string, since: Cursor, answer: seq<LogLine> -> bool,
               calls: seq<LogLine>)
    returns (offset': nat, buf': string, calls': seq<LogLine>, stopped: bool)
    ensures '\n' !in buf'
    ensures stopped ==> calls' == ToFeed(answer, calls, d, offset, buf + rest, since)
    ensures !stopped ==>
      ToFeed(answer, calls', d, offset', buf' + rest, since) == ToFeed(answer, calls, d, offset, buf + rest, since)
  {
    offset', buf', calls' := offset, buf, calls;
    while true
      invariant ToFeed(answer, calls', d, offset', buf' + rest, since) ==
          ToFeed(answer, calls, d, offset, buf + rest, since)
      decreases |buf'|
    {
      var i := IndexByte(buf', '\n');
      if i < 0 {
        return offset', buf', calls', false;
      }
      var l := LogLine(d, offset', buf'[..i]);
      ghost var text := buf' + rest;
      assert text[..i] == buf'[..i] && text[i + 1..] == buf'[i + 1..] + rest;
      LinesFirst(text, i);
      FeedLine(answer, calls', d, offset', buf'[..i], text, buf'[i + 1..] + rest, since);
      buf' := buf'[i + 1..];
      if Past(l, since) {
        calls' := calls' + [l];
        if !answer(calls') {
          return offset', "", calls', true;
        }
      }
      offset' := offset' + 1;
    }
  }

  /** What is left at the end of the file is its last line, if it is anything. */
  lemma LastLine(answer: seq<LogLine> -> bool, calls: seq<LogLine>, d: Date, offset: nat, buf: string, since: Cursor)
    requires '\n' !in buf
    ensures ToFeed(answer, calls, d, offset, buf, since) ==
      if buf != "" && Past(LogLine(d, offset, buf), since) then calls + [LogLine(d, offset, buf)] else calls
  {
    LinesLast(buf);
    if buf != "" {
      assert Lines("") == [] && [buf] + [] == [buf];
      FeedLine(answer, calls, d, offset, buf, buf, "", since);
    }
  }

  /** Scans one file, whatever pieces the reads return it in. */
  method ScanFile(d: Date, content: string, since: Cursor, answer: seq<LogLine> -> bool, before: seq<LogLine>)
    returns (calls: seq<LogLine>)
    ensures calls == FeedDay(answer, before, Keep(Numbered(d, Lines(content)), since))
  {
    calls := before;
    var f := new Reader(content);
    var offset: nat, buf := 0, "";
    NumberedFromIs(d, 0, Lines(content));
    assert NumberedFrom(d, 0, Lines(content)) == Numbered(d, Lines(content));
    assert "" + content == content;
    while true
      invariant ToFeed(answer, calls, d, offset, buf + f.rest, since) == ToFeed(answer, before, d, 0, content, since)
      decreases |f.rest|
    {
      ghost var text := buf + f.rest;
      var data, eof := f.Read(4096);
      buf := buf + data;
      assert text == buf + f.rest;
      var stopped;
      offset, buf, calls, stopped := Drain(d, offset, buf, f.rest, since, answer, calls);
      if stopped {
        return;
      }
      if eof {
        assert buf + f.rest == buf;
        LastLine(answer, calls, d, offset, buf, since);
        if |buf| > 0 && Past(LogLine(d, offset, buf), since) {
          calls := calls + [LogLine(d, offset, buf)];
        }
        return;
      }
    }
  }

  lemma KeepHead(l: LogLine, rest: seq<LogLine>, c: Cursor)
    ensures Keep([l] + rest, c) == (if Past(l, c) then [l] else []) + Keep(rest, c)
    ensures Past(l, c) ==> Keep([l] + rest, c)[0] == l && Keep([l] + rest, c)[1..] == Keep(rest, c)
    ensures !Past(l, c) ==> Keep([l] + rest, c) == Keep(rest, c)
  {
    assert ([l] + rest)[1..] == rest;
  }
}
