/** One machine's per-day log files, their (date, offset) order and cursors. */
module DayLogs {
  import opened Dates

  datatype LogLine = LogLine(date: Date, offset: int, raw: string)

  datatype Cursor = Cursor(date: Date, offset: int)

  /** The lines of each day's file. */
  type DayLog = map<Date, seq<string>>

  /** The cursor of a machine nothing is known about. */
  const START := Cursor(NO_DATE, -1)

  function At(l: LogLine): Cursor
  {
    Cursor(l.date, l.offset)
  }

  predicate Past(l: LogLine, c: Cursor)
  {
    l.date > c.date || (l.date == c.date && l.offset > c.offset)
  }

  predicate Before(a: LogLine, b: LogLine)
  {
    a.date < b.date || (a.date == b.date && a.offset < b.offset)
  }

  predicate CursorLe(a: Cursor, b: Cursor)
  {
    a.date < b.date || (a.date == b.date && a.offset <= b.offset)
  }

  predicate Has(log: DayLog, l: LogLine)
  {
    l.date in log && 0 <= l.offset < |log[l.date]| && log[l.date][l.offset] == l.raw
  }

  ghost predicate Sorted(s: seq<LogLine>)
  {
    forall i, j | 0 <= i < j < |s| :: Before(s[i], s[j])
  }

  ghost predicate Increasing(ds: seq<Date>)
  {
    forall i, j | 0 <= i < j < |ds| :: ds[i] < ds[j]
  }

  // ---------------------------------------------------------------- the specification

  ghost function Ascending(s: set<Date>): seq<Date>
  {
    if s == {} then [] else
      LeastExists(s);
      var m :| m in s && forall x | x in s :: m <= x;
      [m] + Ascending(s - {m})
  }

  function Numbered(d: Date, lines: seq<string>): seq<LogLine>
  {
    seq(|lines|, i requires 0 <= i < |lines| => LogLine(d, i, lines[i]))
  }

  function FlatDates(log: DayLog, ds: seq<Date>): seq<LogLine>
    requires forall d | d in ds :: d in log
  {
    if ds == [] then [] else Numbered(ds[0], log[ds[0]]) + FlatDates(log, ds[1..])
  }

  /** Every line, dates ascending, numbered from 0 within its date. */
  ghost function Flat(log: DayLog): seq<LogLine>
  {
    AscendingMembers(log.Keys);
    FlatDates(log, Ascending(log.Keys))
  }

  function Keep(s: seq<LogLine>, c: Cursor): seq<LogLine>
  {
    if s == [] then [] else (if Past(s[0], c) then [s[0]] else []) + Keep(s[1..], c)
  }

  /** The lines that come lexicographically after the cursor. */
  ghost function After(log: DayLog, c: Cursor): seq<LogLine>
  {
    Keep(Flat(log), c)
  }

  // ---------------------------------------------------------------- dates in order

  lemma {:induction false} Least(s: set<Date>) returns (m: Date)
    requires s != {}
    ensures m in s && forall x | x in s :: m <= x
  {
    m :| m in s;
    var rest := s - {m};
    assert forall x | x in s :: x == m || x in rest;
    if rest != {} {
      var k := Least(rest);
      m := if k < m then k else m;
    }
  }

  lemma LeastExists(s: set<Date>)
    requires s != {}
    ensures exists m :: m in s && forall x | x in s :: m <= x
  {
    var m := Least(s);
  }

  lemma {:induction false} AscendingMembers(s: set<Date>)
    ensures forall d :: d in Ascending(s) <==> d in s
    ensures Increasing(Ascending(s))
  {
    if s != {} {
      var m, rest := Ascending(s)[0], Ascending(s - {Ascending(s)[0]});
      assert m in s && (forall x | x in s :: m <= x) && Ascending(s) == [m] + rest;
      AscendingMembers(s - {m});
      IncreasingCons(m, rest);
    }
  }

  function InsertDate(ds: seq<Date>, d: Date): (r: seq<Date>)
    requires Increasing(ds) && d !in ds
    ensures Increasing(r)
    ensures forall e :: e in r <==> e == d || e in ds
  {
    if ds == [] || d < ds[0] then
      IncreasingCons(d, ds);
      [d] + ds
    else
      var rest := InsertDate(ds[1..], d);
      assert ds == [ds[0]] + ds[1..];
      IncreasingCons(ds[0], rest);
      [ds[0]] + rest
  }

  lemma IncreasingCons(d: Date, ds: seq<Date>)
    requires Increasing(ds) && (forall e | e in ds :: d < e || d < ds[0])
    ensures Increasing([d] + ds)
  {
    forall i | 0 <= i < |ds| ensures d < ds[i] {
      assert ds[i] in ds && ds[0] <= ds[i];
    }
  }

  /** An increasing listing of the same dates is the same listing. */
  lemma {:induction false} AscendingUnique(ds: seq<Date>, s: set<Date>)
    requires Increasing(ds) && forall d :: d in ds <==> d in s
    ensures ds == Ascending(s)
    decreases |ds|
  {
    AscendingMembers(s);
    if ds != [] {
      assert ds[0] in s;
      var t := Ascending(s);
      assert t[0] in s && t[0] in ds && t[0] == ds[0];
      forall d ensures d in ds[1..] <==> d in s - {ds[0]} {
        if d in s - {ds[0]} {
          var k :| 0 <= k < |ds| && ds[k] == d;
          assert ds[1..][k - 1] == d;
        }
        if d in ds[1..] {
          var k :| 0 <= k < |ds| - 1 && ds[1..][k] == d;
          assert ds[0] < ds[k + 1];
        }
      }
      AscendingUnique(ds[1..], s - {ds[0]});
    }
  }

  // ---------------------------------------------------------------- the flattened log

  lemma {:induction false} FlatDatesMembers(log: DayLog, ds: seq<Date>)
    requires forall d | d in ds :: d in log
    ensures forall l :: l in FlatDates(log, ds) <==> l.date in ds && Has(log, l)
  {
    if ds != [] {
      var head, rest := Numbered(ds[0], log[ds[0]]), FlatDates(log, ds[1..]);
      FlatDatesMembers(log, ds[1..]);
      forall l ensures l in FlatDates(log, ds) <==> l.date in ds && Has(log, l) {
        if l.date == ds[0] && Has(log, l) {
          assert head[l.offset] == l;
        }
      }
    }
  }

  lemma {:induction false} FlatDatesSorted(log: DayLog, ds: seq<Date>)
    requires Increasing(ds) && forall d | d in ds :: d in log
    ensures Sorted(FlatDates(log, ds))
  {
    if ds != [] {
      var head, rest := Numbered(ds[0], log[ds[0]]), FlatDates(log, ds[1..]);
      FlatDatesSorted(log, ds[1..]);
      FlatDatesMembers(log, ds[1..]);
      var all := FlatDates(log, ds);
      forall i, j | 0 <= i < j < |all| ensures Before(all[i], all[j]) {
        if j >= |head| {
          assert all[j] == rest[j - |head|] && all[j] in rest && ds[0] < all[j].date;
          if i >= |head| {
            assert all[i] == rest[i - |head|];
          }
        }
      }
    }
  }

  lemma FlatMembers(log: DayLog)
    ensures forall l :: l in Flat(log) <==> Has(log, l)
    ensures Sorted(Flat(log))
  {
    AscendingMembers(log.Keys);
    FlatDatesMembers(log, Ascending(log.Keys));
    FlatDatesSorted(log, Ascending(log.Keys));
  }

  lemma {:induction false} KeepMembers(s: seq<LogLine>, c: Cursor)
    ensures forall l :: l in Keep(s, c) <==> l in s && Past(l, c)
  {
    if s != [] {
      KeepMembers(s[1..], c);
    }
  }

  lemma {:induction false} KeepConcat(a: seq<LogLine>, b: seq<LogLine>, c: Cursor)
    ensures Keep(a + b, c) == Keep(a, c) + Keep(b, c)
  {
    if a == [] {
      assert a + b == b;
    } else {
      var head := if Past(a[0], c) then [a[0]] else [];
      calc {
        Keep(a + b, c);
        { assert (a + b)[0] == a[0] && (a + b)[1..] == a[1..] + b; }
        head + Keep(a[1..] + b, c);
        { KeepConcat(a[1..], b, c); }
        head + (Keep(a[1..], c) + Keep(b, c));
        (head + Keep(a[1..], c)) + Keep(b, c);
      }
    }
  }

  lemma {:induction false} KeepAll(s: seq<LogLine>, c: Cursor)
    requires forall l | l in s :: Past(l, c)
    ensures Keep(s, c) == s
  {
    if s != [] {
      KeepAll(s[1..], c);
    }
  }

  lemma {:induction false} KeepNone(s: seq<LogLine>, c: Cursor)
    requires forall l | l in s :: !Past(l, c)
    ensures Keep(s, c) == []
  {
    if s != [] {
      KeepNone(s[1..], c);
    }
  }

  /** What a cursor keeps of a sorted listing is a suffix of it. */
  lemma {:induction false} KeepSuffix(s: seq<LogLine>, c: Cursor)
    requires Sorted(s)
    ensures |Keep(s, c)| <= |s| && Keep(s, c) == s[|s| - |Keep(s, c)|..]
  {
    if s != [] {
      if Past(s[0], c) {
        forall l | l in s ensures Past(l, c) {
          var k :| 0 <= k < |s| && s[k] == l;
        }
        KeepAll(s, c);
      } else {
        assert Sorted(s[1..]) by {
          assert forall i | 0 <= i < |s| - 1 :: s[1..][i] == s[i + 1];
        }
        KeepSuffix(s[1..], c);
      }
    }
  }

  lemma AfterMembers(log: DayLog, c: Cursor)
    ensures forall l :: l in After(log, c) <==> Has(log, l) && Past(l, c)
    ensures Sorted(After(log, c))
  {
    FlatMembers(log);
    KeepMembers(Flat(log), c);
    KeepSuffix(Flat(log), c);
  }

  /** In a sorted listing, not being past the n-th line is being among the
      first n. */
  lemma SortedCut(s: seq<LogLine>, n: nat, l: LogLine)
    requires Sorted(s) && 1 <= n <= |s| && l in s
    ensures !Past(l, At(s[n - 1])) <==> l in s[..n]
  {
    var k :| 0 <= k < |s| && s[k] == l;
    if k < n {
      assert s[..n][k] == l;
      assert k < n - 1 ==> Before(s[k], s[n - 1]);
    } else {
      assert Before(s[n - 1], s[k]);
      assert forall j | 0 <= j < n :: Before(s[j], s[k]) && s[..n][j] == s[j];
    }
  }

  /** Moving the cursor to the n-th line after it accounts for exactly those n
      lines and leaves the others. */
  lemma AfterAdvance(log: DayLog, c: Cursor, n: nat)
    requires 1 <= n <= |After(log, c)|
    ensures
      var end := At(After(log, c)[n - 1]);
      && CursorLe(c, end)
      && (forall l | Has(log, l) :: !Past(l, end) <==> !Past(l, c) || l in After(log, c)[..n])
      && After(log, end) == After(log, c)[n..]
  {
    var s := After(log, c);
    var last := s[n - 1];
    AfterMembers(log, c);
    assert last in s;
    forall l | Has(log, l) ensures !Past(l, At(last)) <==> !Past(l, c) || l in s[..n] {
      if Past(l, c) {
        SortedCut(s, n, l);
      }
    }
    SuffixesAgree(log, c, n);
  }

  lemma SuffixesAgree(log: DayLog, c: Cursor, n: nat)
    requires 1 <= n <= |After(log, c)|
    ensures After(log, At(After(log, c)[n - 1])) == After(log, c)[n..]
  {
    var s := After(log, c);
    var end := At(s[n - 1]);
    FlatMembers(log);
    KeepSuffix(Flat(log), c);
    AfterMembers(log, c);
    var skipped := Flat(log)[..|Flat(log)| - |s|] + s[..n];
    assert Flat(log) == skipped + s[n..];
    KeepConcat(skipped, s[n..], end);
    SortedSides(skipped, s[n..]);
    assert skipped[|skipped| - 1] == s[n - 1];
    KeepNone(skipped, end);
    KeepAll(s[n..], end);
  }

  /** In a sorted log the last line of a part separates it from the rest. */
  lemma SortedSides(a: seq<LogLine>, b: seq<LogLine>)
    requires a != [] && Sorted(a + b)
    ensures forall l | l in a :: !Past(l, At(a[|a| - 1]))
    ensures forall l | l in b :: Past(l, At(a[|a| - 1]))
  {
    var all := a + b;
    forall l | l in a ensures !Past(l, At(a[|a| - 1])) {
      var k :| 0 <= k < |a| && a[k] == l;
      assert all[k] == l && all[|a| - 1] == a[|a| - 1];
    }
    forall l | l in b ensures Past(l, At(a[|a| - 1])) {
      var k :| 0 <= k < |b| && b[k] == l;
      assert all[|a| + k] == l && all[|a| - 1] == a[|a| - 1];
    }
  }

  // ---------------------------------------------------------------- prefixes

  /** `m` holds lines of `l` only, and with a line every earlier line of `l`. */
  ghost predicate PrefixOf(m: DayLog, l: DayLog)
  {
    && (forall x :: Has(m, x) ==> Has(l, x))
    && (forall x, y :: Has(l, x) && Has(m, y) && Before(x, y) ==> Has(m, x))
  }

  lemma SortedHead(s: seq<LogLine>, x: LogLine)
    requires Sorted(s) && s != [] && x in s
    ensures x == s[0] || (Before(s[0], x) && x in s[1..])
    ensures s[0] !in s[1..] && Sorted(s[1..])
  {
    var k :| 0 <= k < |s| && s[k] == x;
    if k > 0 {
      assert s[1..][k - 1] == x;
    }
    assert forall i | 0 <= i < |s| - 1 :: s[1..][i] == s[i + 1] && Before(s[0], s[i + 1]);
  }

  lemma {:induction false} SortedPrefix(s: seq<LogLine>, t: seq<LogLine>)
    requires Sorted(s) && Sorted(t)
    requires forall x | x in s :: x in t
    requires forall x, y | x in t && y in s && Before(x, y) :: x in s
    ensures s <= t
    decreases |s|
  {
    if s != [] {
      assert s[0] in s && s[0] in t;
      SortedHead(t, s[0]);
      assert t[0] in t && t[0] in s;
      SortedHead(s, t[0]);
      forall x | x in s[1..] ensures x in t[1..] {
        assert x in s && x in t;
        SortedHead(t, x);
      }
      forall x, y | x in t[1..] && y in s[1..] && Before(x, y) ensures x in s[1..] {
        assert x in t && y in s && x in s;
        SortedHead(s, x);
      }
      SortedPrefix(s[1..], t[1..]);
      assert s == [s[0]] + s[1..] && t == [t[0]] + t[1..];
    }
  }

  /** The pointwise relation is the prefix relation of the flattened logs. */
  lemma PrefixFlat(m: DayLog, l: DayLog)
    requires PrefixOf(m, l)
    ensures Flat(m) <= Flat(l)
  {
    FlatMembers(m);
    FlatMembers(l);
    SortedPrefix(Flat(m), Flat(l));
  }

  // ---------------------------------------------------------------- cursors of date ''

  /** Dated logs: no file carries the empty date. */
  ghost predicate Dated(log: DayLog)
  {
    forall d | d in log :: d > NO_DATE
  }

  /** A cursor with the empty date is before every line, whatever its offset; so
      the row ('', 0) that recording an attempt creates hides no line. */
  lemma EmptyDateCursor(log: DayLog, offset: int)
    requires Dated(log)
    ensures After(log, Cursor(NO_DATE, offset)) == After(log, START) == Flat(log)
  {
    FlatMembers(log);
    KeepAll(Flat(log), Cursor(NO_DATE, offset));
    KeepAll(Flat(log), START);
  }
}
