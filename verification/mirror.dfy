/** How the server extends one machine's mirrored log files with a pushed batch. */
module Mirror {
  import opened Text
  import opened Dates
  import opened DayLogs
  import opened Replay

  /** One machine's directory: the content of each date's file. */
  type Files = map<Date, string>

  function Content(files: Files, d: Date): string
  {
    if d in files then files[d] else ""
  }

  /** The number of lines the server counts in a date's file. */
  function Count(files: Files, d: Date): nat
  {
    Newlines(Content(files, d))
  }

  /** The lines a reader finds in the files. */
  function LinesOf(files: Files): DayLog
  {
    map d | d in files :: Lines(files[d])
  }

  /** Files that were written one whole line at a time. */
  ghost predicate Terminated(files: Files)
  {
    forall d | d in files :: files[d] == Unlines(Lines(files[d]))
  }

  // ---------------------------------------------------------------- the algorithm as a function

  /** The raw lines of one date's sorted lines that extend a file of `n` lines;
      none when an offset is skipped. */
  function Fresh(n: int, group: seq<LogLine>): Option<seq<string>>
    decreases |group|
  {
    if group == [] then Some([])
    else if group[0].offset < n then Fresh(n, group[1..])
    else if group[0].offset == n then
      match Fresh(n + 1, group[1..])
      case Some(w) => Some([group[0].raw] + w)
      case None => None
    else None
  }

  /** Consecutive lines of one date form a group. */
  function ByDate(b: seq<LogLine>): (groups: seq<seq<LogLine>>)
    ensures forall i | 0 <= i < |groups| :: groups[i] != []
    ensures groups == [] <==> b == []
  {
    if b == [] then [] else AddLine(ByDate(b[..|b| - 1]), b[|b| - 1])
  }

  function AddLine(groups: seq<seq<LogLine>>, x: LogLine): (r: seq<seq<LogLine>>)
    requires forall i | 0 <= i < |groups| :: groups[i] != []
    ensures r != [] && forall i | 0 <= i < |r| :: r[i] != []
  {
    var n := |groups|;
    if n == 0 || groups[n - 1][0].date != x.date then groups + [[x]]
    else groups[n - 1 := groups[n - 1] + [x]]
  }

  datatype Outcome = Outcome(files: Files, gap: bool, date: Date, offset: int)

  /** One group after the other; a gap stops with what is written so far. */
  function WriteGroups(files: Files, groups: seq<seq<LogLine>>, date: Date, offset: int): Outcome
    requires forall i | 0 <= i < |groups| :: groups[i] != []
    decreases |groups|
  {
    if groups == [] then Outcome(files, false, date, offset)
    else
      var d := groups[0][0].date;
      match Fresh(Count(files, d), groups[0])
      case None => Outcome(files, true, NO_DATE, 0)
      case Some(w) => WriteGroups(Extend(files, d, w), groups[1..], d, Count(files, d) + |w| - 1)
  }

  function Extend(files: Files, d: Date, w: seq<string>): Files
  {
    if w == [] then files else files[d := Content(files, d) + Unlines(w)]
  }

  /** The server's answer to a sorted, non-empty batch. */
  function Append(files: Files, b: seq<LogLine>): Outcome
  {
    WriteGroups(files, ByDate(b), NO_DATE, 0)
  }

  // ---------------------------------------------------------------- batches

  predicate InOrder(b: seq<LogLine>)
  {
    forall i, j | 0 <= i < j < |b| :: !Before(b[j], b[i])
  }

  /** One text for each (date, offset). */
  ghost predicate OneText(b: seq<LogLine>)
  {
    forall x, y | x in b && y in b && x.date == y.date && x.offset == y.offset :: x.raw == y.raw
  }

  function Raws(b: seq<LogLine>): (r: seq<string>)
    ensures |r| == |b|
    ensures forall i | 0 <= i < |r| :: r[i] == b[i].raw
  {
    seq(|b|, i requires 0 <= i < |b| => b[i].raw)
  }

  ghost predicate Names(b: seq<LogLine>, d: Date, i: int)
  {
    exists x :: x in b && x.date == d && x.offset == i
  }

  /** Some line of date `d` lies beyond an offset that is neither on disk nor in
      the batch. */
  ghost predicate Gapped(n: nat, b: seq<LogLine>, d: Date)
  {
    exists l, i :: l in b && l.date == d && n <= i < l.offset && !Names(b, d, i)
  }

  /** `w` is what is missing of date `d` on a file of `n` lines: contiguous from
      `n`, out of the batch, up to the batch's last offset. */
  ghost predicate Missing(n: nat, b: seq<LogLine>, d: Date, w: seq<string>)
  {
    && (forall i | 0 <= i < |w| :: LogLine(d, n + i, w[i]) in b)
    && (forall l | l in b && l.date == d :: l.offset < n + |w|)
  }

  function OnDate(b: seq<LogLine>, d: Date): seq<LogLine>
  {
    if b == [] then []
    else OnDate(b[..|b| - 1], d) + (if b[|b| - 1].date == d then [b[|b| - 1]] else [])
  }

  lemma {:induction false} OnDateMembers(b: seq<LogLine>, d: Date)
    ensures forall x :: x in OnDate(b, d) <==> x in b && x.date == d
  {
    if b != [] {
      OnDateMembers(b[..|b| - 1], d);
      assert b == b[..|b| - 1] + [b[|b| - 1]];
    }
  }

  lemma {:induction false} OnDateInOrder(b: seq<LogLine>, d: Date)
    requires InOrder(b)
    ensures InOrder(OnDate(b, d))
  {
    if b != [] {
      var p, x := b[..|b| - 1], b[|b| - 1];
      assert InOrder(p);
      OnDateInOrder(p, d);
      OnDateMembers(p, d);
      forall y | y in OnDate(p, d) ensures !Before(x, y) {
        assert y in p;
        var k :| 0 <= k < |p| && p[k] == y;
        assert !Before(b[|b| - 1], b[k]);
      }
      var g := OnDate(b, d);
      forall i, j | 0 <= i < j < |g| ensures !Before(g[j], g[i]) {
        assert g[i] == OnDate(p, d)[i] && g[i] in OnDate(p, d);
      }
    }
  }

  // ---------------------------------------------------------------- one date

  lemma {:induction false} FreshExact(n: nat, g: seq<LogLine>, d: Date)
    requires InOrder(g) && forall l | l in g :: l.date == d
    ensures Fresh(n, g).None? <==> Gapped(n, g, d)
    ensures Fresh(n, g).Some? ==> Missing(n, g, d, Fresh(n, g).value)
    decreases |g|
  {
    if g != [] {
      var l, rest := g[0], g[1..];
      assert InOrder(rest);
      assert l in g && g == [l] + rest;
      if l.offset > n {
        forall x | x in g ensures x.offset != n {
          var k :| 0 <= k < |g| && g[k] == x;
          assert k > 0 ==> !Before(g[k], g[0]);
        }
        assert !Names(g, d, n);
        assert Gapped(n, g, d);
      } else {
        var m := if l.offset == n then n + 1 else n;
        FreshExact(m, rest, d);
        GappedTail(n, m, g, d);
        if Fresh(n, g).Some? {
          MissingTail(n, g, d, Fresh(n, g).value, Fresh(m, rest).value);
        }
      }
    }
  }

  lemma GappedTail(n: nat, m: nat, g: seq<LogLine>, d: Date)
    requires g != [] && g[0].date == d && g[0].offset <= n
    requires m == if g[0].offset == n then n + 1 else n
    ensures Gapped(n, g, d) <==> Gapped(m, g[1..], d)
  {
    assert forall x :: x in g <==> x == g[0] || x in g[1..];
    if Gapped(n, g, d) {
      var l, i :| l in g && l.date == d && n <= i < l.offset && !Names(g, d, i);
      assert g[0] in g && i != g[0].offset && l in g[1..] && !Names(g[1..], d, i);
    }
    if Gapped(m, g[1..], d) {
      var l, i :| l in g[1..] && l.date == d && m <= i < l.offset && !Names(g[1..], d, i);
      assert l in g && !Names(g, d, i);
    }
  }

  lemma MissingTail(n: nat, g: seq<LogLine>, d: Date, w: seq<string>, v: seq<string>)
    requires g != [] && g[0].date == d && g[0].offset <= n
    requires if g[0].offset == n then w == [g[0].raw] + v && Missing(n + 1, g[1..], d, v)
             else w == v && Missing(n, g[1..], d, v)
    ensures Missing(n, g, d, w)
  {
    forall i | 0 <= i < |w| ensures LogLine(d, n + i, w[i]) in g {
      if g[0].offset == n && i > 0 {
        assert w[i] == v[i - 1];
        assert LogLine(d, n + 1 + (i - 1), v[i - 1]) in g[1..];
      } else if g[0].offset == n {
        assert g[0] == LogLine(d, n, w[0]);
      } else {
        assert LogLine(d, n + i, v[i]) in g[1..];
      }
    }
    forall l | l in g && l.date == d ensures l.offset < n + |w| {
      assert l == g[0] || l in g[1..];
    }
  }

  lemma MissingLength(n: nat, a: seq<LogLine>, b: seq<LogLine>, d: Date, v: seq<string>, w: seq<string>)
    requires forall x :: x in a <==> x in b
    requires Missing(n, a, d, v) && Missing(n, b, d, w)
    ensures |w| <= |v|
  {
    assert |w| > 0 ==> LogLine(d, n + (|w| - 1), w[|w| - 1]) in b;
  }

  /** What is missing is determined by the set of lines. */
  lemma MissingUnique(n: nat, a: seq<LogLine>, b: seq<LogLine>, d: Date, v: seq<string>, w: seq<string>)
    requires OneText(a) && forall x :: x in a <==> x in b
    requires Missing(n, a, d, v) && Missing(n, b, d, w)
    ensures v == w
  {
    MissingLength(n, a, b, d, v, w);
    MissingLength(n, b, a, d, w, v);
    forall i | 0 <= i < |v| ensures v[i] == w[i] {
      assert LogLine(d, n + i, v[i]) in a && LogLine(d, n + i, w[i]) in a;
    }
  }

  // ---------------------------------------------------------------- the groups of a sorted batch

  ghost predicate Grouped(groups: seq<seq<LogLine>>)
  {
    && (forall i | 0 <= i < |groups| :: groups[i] != [])
    && (forall i, j | 0 <= i < j < |groups| :: groups[i][0].date < groups[j][0].date)
  }

  function Heads(groups: seq<seq<LogLine>>): seq<Date>
    requires forall i | 0 <= i < |groups| :: groups[i] != []
  {
    seq(|groups|, i requires 0 <= i < |groups| => groups[i][0].date)
  }

  lemma HeadsStep(groups: seq<seq<LogLine>>, x: LogLine)
    requires forall i | 0 <= i < |groups| :: groups[i] != []
    ensures
      var was := Heads(groups);
      Heads(AddLine(groups, x)) == if was == [] || was[|was| - 1] != x.date then was + [x.date] else was
  {
    var was, now := Heads(groups), Heads(AddLine(groups, x));
    assert forall i | 0 <= i < |was| :: now[i] == was[i];
  }

  lemma {:induction false} ByDateIncreasing(b: seq<LogLine>)
    requires InOrder(b)
    ensures Increasing(Heads(ByDate(b)))
    ensures b != [] ==> Heads(ByDate(b))[|ByDate(b)| - 1] == b[|b| - 1].date
  {
    if b != [] {
      var q := b[..|b| - 1];
      ByDateIncreasing(q);
      HeadsStep(ByDate(q), b[|b| - 1]);
      assert q != [] ==> !Before(b[|b| - 1], b[|q| - 1]);
    }
  }

  lemma ByDateGrouped(b: seq<LogLine>)
    requires InOrder(b)
    ensures Grouped(ByDate(b))
  {
    ByDateIncreasing(b);
    var hs := Heads(ByDate(b));
    assert forall i | 0 <= i < |hs| :: hs[i] == ByDate(b)[i][0].date;
  }

  lemma {:induction false} ByDateCovers(b: seq<LogLine>, x: LogLine)
    requires x in b
    ensures exists i :: 0 <= i < |ByDate(b)| && ByDate(b)[i][0].date == x.date
  {
    var q: seq<LogLine>, y: LogLine := b[..|b| - 1], b[|b| - 1];
    var p: seq<seq<LogLine>>, gs: seq<seq<LogLine>> := ByDate(q), ByDate(b);
    if x == y {
      assert gs[|gs| - 1][0].date == y.date;
    } else {
      assert b == q + [y];
      ByDateCovers(q, x);
      var i :| 0 <= i < |p| && p[i][0].date == x.date;
      assert gs[i][0] == p[i][0];
    }
  }

  /** A group of a sorted batch holds all its lines of the group's date. */
  lemma {:induction false} ByDateIsOnDate(b: seq<LogLine>, i: nat)
    requires InOrder(b) && i < |ByDate(b)|
    ensures ByDate(b)[i] == OnDate(b, ByDate(b)[i][0].date)
  {
    var q: seq<LogLine>, x: LogLine := b[..|b| - 1], b[|b| - 1];
    var p: seq<seq<LogLine>>, gs: seq<seq<LogLine>> := ByDate(q), ByDate(b);
    assert InOrder(q);
    ByDateGrouped(b);
    if i < |p| {
      ByDateIsOnDate(q, i);
      assert gs[i][0] == p[i][0];
      if i < |p| - 1 || gs[i] == p[i] {
        assert gs[|gs| - 1][0].date == x.date;
        assert gs[i] == p[i] && i < |gs| - 1;
      } else {
        assert gs[i] == p[i] + [x];
      }
    } else {
      assert gs == p + [[x]] && gs[|p|][0] == x;
      forall k | 0 <= k < |p| ensures p[k][0].date != x.date {
        assert gs[k] == p[k];
      }
      NoneOnDate(q, x.date);
    }
  }

  lemma NoneOnDate(q: seq<LogLine>, d: Date)
    requires forall i | 0 <= i < |ByDate(q)| :: ByDate(q)[i][0].date != d
    ensures OnDate(q, d) == []
  {
    OnDateMembers(q, d);
    if OnDate(q, d) != [] {
      ByDateCovers(q, OnDate(q, d)[0]);
      assert false;
    }
  }

  function GroupFresh(files: Files, g: seq<LogLine>): Option<seq<string>>
    requires g != []
  {
    Fresh(Count(files, g[0].date), g)
  }

  ghost predicate Blocked(files: Files, groups: seq<seq<LogLine>>, i: nat)
    requires Grouped(groups) && i < |groups|
  {
    exists j :: 0 <= j <= i && GroupFresh(files, groups[j]).None?
  }

  lemma {:induction false} WriteElsewhere(files: Files, groups: seq<seq<LogLine>>, date: Date, offset: int, d: Date)
    requires forall i | 0 <= i < |groups| :: groups[i] != []
    requires forall i | 0 <= i < |groups| :: groups[i][0].date != d
    ensures var after := WriteGroups(files, groups, date, offset).files;
      Content(after, d) == Content(files, d) && (d in after <==> d in files)
    decreases |groups|
  {
    if groups != [] && GroupFresh(files, groups[0]).Some? {
      var e, v := groups[0][0].date, GroupFresh(files, groups[0]).value;
      WriteElsewhere(Extend(files, e, v), groups[1..], e, Count(files, e) + |v| - 1, d);
    }
  }

  /** A group's file gets what is fresh, unless an earlier group or this one has
      a gap. */
  /** What the writing loop leaves in the file of group `i`. */
  ghost predicate WrittenAt(files: Files, after: Files, groups: seq<seq<LogLine>>, i: nat)
    requires Grouped(groups) && i < |groups|
  {
    var d := groups[i][0].date;
    if Blocked(files, groups, i) then Content(after, d) == Content(files, d) && (d in after <==> d in files)
    else Content(after, d) == Content(files, d) + Unlines(GroupFresh(files, groups[i]).value)
  }

  lemma {:induction false} WriteByGroup(files: Files, groups: seq<seq<LogLine>>, date: Date, offset: int, i: nat)
    requires Grouped(groups) && i < |groups|
    ensures WrittenAt(files, WriteGroups(files, groups, date, offset).files, groups, i)
    decreases |groups|
  {
    hide Extend, Unlines, Content, Fresh, Blocked, WrittenAt;
    if GroupFresh(files, groups[0]).None? {
      NothingWritten(files, groups, date, offset, i);
    } else {
      var d, v := groups[0][0].date, GroupFresh(files, groups[0]).value;
      var next, offset' := Extend(files, d, v), Count(files, d) + |v| - 1;
      RestGrouped(groups);
      if i == 0 {
        FirstWritten(files, groups, d, offset');
      } else {
        WriteByGroup(next, groups[1..], d, offset', i - 1);
        LaterWritten(files, groups, WriteGroups(next, groups[1..], d, offset').files, i);
      }
    }
  }

  lemma NothingWritten(files: Files, groups: seq<seq<LogLine>>, date: Date, offset: int, i: nat)
    requires Grouped(groups) && i < |groups| && GroupFresh(files, groups[0]).None?
    ensures WrittenAt(files, WriteGroups(files, groups, date, offset).files, groups, i)
  {
    assert Blocked(files, groups, i);
  }

  lemma RestGrouped(groups: seq<seq<LogLine>>)
    requires Grouped(groups) && groups != []
    ensures Grouped(groups[1..])
  {
  }

  lemma FirstWritten(files: Files, groups: seq<seq<LogLine>>, date: Date, offset: int)
    requires Grouped(groups) && groups != [] && GroupFresh(files, groups[0]).Some?
    ensures
      var next := Extend(files, groups[0][0].date, GroupFresh(files, groups[0]).value);
      WrittenAt(files, WriteGroups(next, groups[1..], date, offset).files, groups, 0)
  {
    hide WriteGroups;
    var d, v := groups[0][0].date, GroupFresh(files, groups[0]).value;
    WriteElsewhere(Extend(files, d, v), groups[1..], date, offset, d);
    assert Content(files, d) + Unlines([]) == Content(files, d);
    assert !Blocked(files, groups, 0);
  }

  lemma LaterWritten(files: Files, groups: seq<seq<LogLine>>, after: Files, i: nat)
    requires Grouped(groups) && 1 <= i < |groups| && GroupFresh(files, groups[0]).Some? && Grouped(groups[1..])
    requires
      WrittenAt(Extend(files, groups[0][0].date, GroupFresh(files, groups[0]).value), after, groups[1..], i - 1)
    ensures WrittenAt(files, after, groups, i)
  {
    hide Blocked, Extend, Unlines, Fresh;
    var d, v := groups[0][0].date, GroupFresh(files, groups[0]).value;
    BlockedTail(files, Extend(files, d, v), groups, i);
    ExtendElsewhere(files, d, v, groups[i][0].date);
  }

  lemma ExtendElsewhere(files: Files, d: Date, w: seq<string>, e: Date)
    requires d != e
    ensures Content(Extend(files, d, w), e) == Content(files, e) && (e in Extend(files, d, w) <==> e in files)
  {
  }

  lemma {:induction false} WriteResult(files: Files, groups: seq<seq<LogLine>>, date: Date, offset: int)
    requires Grouped(groups) && groups != []
    ensures var w := WriteGroups(files, groups, date, offset);
      && (w.gap <==> Blocked(files, groups, |groups| - 1))
      && (!w.gap ==>
            var g := groups[|groups| - 1];
            w.date == g[0].date && w.offset == Count(files, g[0].date) + |GroupFresh(files, g).value| - 1)
    decreases |groups|
  {
    if GroupFresh(files, groups[0]).None? {
      assert Blocked(files, groups, |groups| - 1);
    } else if |groups| > 1 {
      var d, v, rest := groups[0][0].date, GroupFresh(files, groups[0]).value, groups[1..];
      var next := Extend(files, d, v);
      assert Grouped(rest);
      WriteResult(next, rest, d, Count(files, d) + |v| - 1);
      BlockedTail(files, next, groups, |groups| - 1);
    }
  }

  lemma BlockedTail(files: Files, next: Files, groups: seq<seq<LogLine>>, i: nat)
    requires Grouped(groups) && 1 <= i < |groups| && GroupFresh(files, groups[0]).Some?
    requires next == Extend(files, groups[0][0].date, GroupFresh(files, groups[0]).value)
    requires Grouped(groups[1..])
    ensures GroupFresh(next, groups[1..][i - 1]) == GroupFresh(files, groups[i])
    ensures Blocked(next, groups[1..], i - 1) <==> Blocked(files, groups, i)
  {
    var rest := groups[1..];
    forall j | 1 <= j < |groups| ensures GroupFresh(next, rest[j - 1]) == GroupFresh(files, groups[j]) {
      assert groups[0][0].date < groups[j][0].date;
    }
    if Blocked(files, groups, i) {
      var j :| 0 <= j <= i && GroupFresh(files, groups[j]).None?;
      assert GroupFresh(next, rest[j - 1]).None?;
    }
    if Blocked(next, rest, i - 1) {
      var j :| 0 <= j <= i - 1 && GroupFresh(next, rest[j]).None?;
      assert GroupFresh(files, groups[j + 1]).None?;
    }
  }

  // ---------------------------------------------------------------- the contract of a batch

  ghost predicate HasDate(b: seq<LogLine>, d: Date)
  {
    exists x :: x in b && x.date == d
  }

  /** The batch has a gap at this date or at an earlier one. */
  ghost predicate Held(files: Files, b: seq<LogLine>, d: Date)
  {
    exists g: Date :: g <= d && HasDate(b, g) && Gapped(Count(files, g), b, g)
  }

  lemma OnDateSame(n: nat, b: seq<LogLine>, d: Date, w: seq<string>)
    ensures Gapped(n, OnDate(b, d), d) <==> Gapped(n, b, d)
    ensures Missing(n, OnDate(b, d), d, w) <==> Missing(n, b, d, w)
  {
    OnDateMembers(b, d);
    assert forall i :: Names(OnDate(b, d), d, i) <==> Names(b, d, i);
  }

  lemma GroupExact(files: Files, b: seq<LogLine>, i: nat)
    requires InOrder(b) && i < |ByDate(b)|
    ensures
      var g := ByDate(b)[i];
      var d := g[0].date;
      && HasDate(b, d)
      && (GroupFresh(files, g).None? <==> Gapped(Count(files, d), b, d))
      && (GroupFresh(files, g).Some? ==> Missing(Count(files, d), b, d, GroupFresh(files, g).value))
  {
    var g := ByDate(b)[i];
    var d := g[0].date;
    ByDateIsOnDate(b, i);
    OnDateMembers(b, d);
    OnDateInOrder(b, d);
    assert g[0] in g;
    FreshExact(Count(files, d), g, d);
    OnDateSame(Count(files, d), b, d, GroupFresh(files, g).GetOr([]));
  }

  lemma BlockedIsHeld(files: Files, b: seq<LogLine>, i: nat)
    requires InOrder(b) && Grouped(ByDate(b)) && i < |ByDate(b)|
    ensures Blocked(files, ByDate(b), i) <==> Held(files, b, ByDate(b)[i][0].date)
  {
    var gs := ByDate(b);
    if Blocked(files, gs, i) {
      var j :| 0 <= j <= i && GroupFresh(files, gs[j]).None?;
      GroupExact(files, b, j);
      assert gs[j][0].date <= gs[i][0].date;
    }
    if Held(files, b, gs[i][0].date) {
      var e: Date :| e <= gs[i][0].date && HasDate(b, e) && Gapped(Count(files, e), b, e);
      var x :| x in b && x.date == e;
      ByDateCovers(b, x);
      var j :| 0 <= j < |gs| && gs[j][0].date == e;
      GroupExact(files, b, j);
    }
  }

  /** What a batch does to the file of date `d`: nothing when the batch has no
      line of that date, or a gap there or earlier; else it gains exactly the
      contiguous lines it lacks. */
  lemma AppendDate(files: Files, b: seq<LogLine>, d: Date)
    requires InOrder(b)
    ensures
      var after := Append(files, b).files;
      if !HasDate(b, d) || Held(files, b, d) then Content(after, d) == Content(files, d) && (d in after <==> d in files)
      else exists w :: Missing(Count(files, d), b, d, w) && Content(after, d) == Content(files, d) + Unlines(w)
  {
    var gs: seq<seq<LogLine>> := ByDate(b);
    ByDateGrouped(b);
    if HasDate(b, d) {
      var x :| x in b && x.date == d;
      ByDateCovers(b, x);
      var i :| 0 <= i < |gs| && gs[i][0].date == d;
      WriteByGroup(files, gs, NO_DATE, 0, i);
      BlockedIsHeld(files, b, i);
      GroupExact(files, b, i);
      if !Held(files, b, d) {
        assert !Blocked(files, gs, i) && GroupFresh(files, gs[i]).Some?;
      }
    } else {
      forall i | 0 <= i < |gs| ensures gs[i][0].date != d {
        GroupExact(files, b, i);
      }
      WriteElsewhere(files, gs, NO_DATE, 0, d);
    }
  }

  /** The batch is refused exactly when some date has a gap; else the answer is
      the last date and its last offset. */
  lemma AppendAnswer(files: Files, b: seq<LogLine>)
    requires InOrder(b) && b != []
    ensures
      var o := Append(files, b);
      && (o.gap <==> exists d :: Held(files, b, d))
      && (!o.gap ==>
            && o.date == b[|b| - 1].date
            && exists w :: Missing(Count(files, o.date), b, o.date, w) && o.offset == Count(files, o.date) + |w| - 1)
  {
    var gs: seq<seq<LogLine>> := ByDate(b);
    ByDateGrouped(b);
    ByDateIncreasing(b);
    var last := |gs| - 1;
    assert Heads(gs)[last] == gs[last][0].date;
    WriteResult(files, gs, NO_DATE, 0);
    BlockedIsHeld(files, b, last);
    GroupExact(files, b, last);
    if d :| Held(files, b, d) {
      var e: Date :| e <= d && HasDate(b, e) && Gapped(Count(files, e), b, e);
      var x :| x in b && x.date == e;
      ByDateCovers(b, x);
      var j :| 0 <= j < |gs| && gs[j][0].date == e;
      assert j < last ==> gs[j][0].date < gs[last][0].date;
      assert Held(files, b, gs[last][0].date);
    }
    if !Blocked(files, gs, last) {
      assert GroupFresh(files, gs[last]).Some?;
    }
  }

  // ---------------------------------------------------------------- order, duplicates, repeats

  lemma FreshSame(n: nat, a: seq<LogLine>, b: seq<LogLine>, d: Date)
    requires InOrder(a) && InOrder(b) && OneText(a)
    requires forall x :: x in a <==> x in b
    ensures Fresh(n, OnDate(a, d)) == Fresh(n, OnDate(b, d))
  {
    OnDateMembers(a, d);
    OnDateMembers(b, d);
    OnDateInOrder(a, d);
    OnDateInOrder(b, d);
    FreshExact(n, OnDate(a, d), d);
    FreshExact(n, OnDate(b, d), d);
    assert forall i :: Names(OnDate(a, d), d, i) <==> Names(OnDate(b, d), d, i);
    if Fresh(n, OnDate(a, d)).Some? && Fresh(n, OnDate(b, d)).Some? {
      MissingUnique(n, OnDate(a, d), OnDate(b, d), d, Fresh(n, OnDate(a, d)).value, Fresh(n, OnDate(b, d)).value);
    }
  }

  lemma {:induction false} WriteSame(files: Files, a: seq<seq<LogLine>>, b: seq<seq<LogLine>>, date: Date, offset: int)
    requires |a| == |b|
    requires forall i | 0 <= i < |a| :: a[i] != [] && b[i] != [] && a[i][0].date == b[i][0].date
    requires forall i, n: nat | 0 <= i < |a| :: Fresh(n, a[i]) == Fresh(n, b[i])
    ensures WriteGroups(files, a, date, offset) == WriteGroups(files, b, date, offset)
    decreases |a|
  {
    if a != [] && GroupFresh(files, a[0]).Some? {
      var d, w := a[0][0].date, GroupFresh(files, a[0]).value;
      WriteSame(Extend(files, d, w), a[1..], b[1..], d, Count(files, d) + |w| - 1);
    }
  }

  /** The order of a batch and its duplicates do not matter. */
  lemma SetDecides(files: Files, a: seq<LogLine>, b: seq<LogLine>)
    requires InOrder(a) && InOrder(b) && OneText(a)
    requires forall x :: x in a <==> x in b
    ensures Append(files, a) == Append(files, b)
  {
    var ga: seq<seq<LogLine>>, gb: seq<seq<LogLine>> := ByDate(a), ByDate(b);
    SameHeads(a, b);
    assert |Heads(ga)| == |ga| && |Heads(gb)| == |gb|;
    forall i | 0 <= i < |ga| ensures ga[i][0].date == gb[i][0].date {
      assert Heads(ga)[i] == ga[i][0].date && Heads(gb)[i] == gb[i][0].date;
    }
    forall i, n: nat | 0 <= i < |ga| ensures Fresh(n, ga[i]) == Fresh(n, gb[i]) {
      ByDateIsOnDate(a, i);
      ByDateIsOnDate(b, i);
      FreshSame(n, a, b, ga[i][0].date);
    }
    WriteSame(files, ga, gb, NO_DATE, 0);
  }

  lemma SameHeads(a: seq<LogLine>, b: seq<LogLine>)
    requires InOrder(a) && InOrder(b)
    requires forall x :: x in a <==> x in b
    ensures Heads(ByDate(a)) == Heads(ByDate(b))
  {
    ByDateIncreasing(a);
    ByDateIncreasing(b);
    HeadsMembers(a);
    HeadsMembers(b);
    assert forall d :: HasDate(a, d) <==> HasDate(b, d);
    var dates := set d | d in Heads(ByDate(a));
    AscendingUnique(Heads(ByDate(a)), dates);
    AscendingUnique(Heads(ByDate(b)), dates);
  }

  lemma HeadsMembers(b: seq<LogLine>)
    requires InOrder(b)
    ensures forall d :: d in Heads(ByDate(b)) <==> HasDate(b, d)
  {
    var gs: seq<seq<LogLine>> := ByDate(b);
    forall d ensures d in Heads(gs) <==> HasDate(b, d) {
      if d in Heads(gs) {
        var i :| 0 <= i < |gs| && Heads(gs)[i] == d;
        GroupExact(map[], b, i);
      }
      if HasDate(b, d) {
        var x :| x in b && x.date == d;
        ByDateCovers(b, x);
        var i :| 0 <= i < |gs| && gs[i][0].date == d;
        assert Heads(gs)[i] == d;
      }
    }
  }

  lemma {:induction false} WriteNothing(files: Files, groups: seq<seq<LogLine>>, date: Date, offset: int)
    requires groups != [] && forall i | 0 <= i < |groups| :: groups[i] != [] && GroupFresh(files, groups[i]) == Some([])
    ensures
      var d := groups[|groups| - 1][0].date;
      WriteGroups(files, groups, date, offset) == Outcome(files, false, d, Count(files, d) - 1)
    decreases |groups|
  {
    if |groups| > 1 {
      var d := groups[0][0].date;
      WriteNothing(files, groups[1..], d, Count(files, d) - 1);
    }
  }

  /** Pushing an accepted batch again writes nothing.  It answers with the last line
      of the last day as the file now counts, which is the same answer exactly if
      no line that was new on that day holds a newline. */
  lemma RepeatIsNoOp(files: Files, b: seq<LogLine>)
    requires InOrder(b) && b != [] && !Append(files, b).gap
    ensures
      var o := Append(files, b);
      var again, d := Append(o.files, b), o.date;
      && again == o.(offset := Count(o.files, d) - 1)
      && (forall w | Missing(Count(files, d), b, d, w) && Content(o.files, d) == Content(files, d) + Unlines(w) ::
            again == o <==> NewlineFree(w))
      && (NewlineFree(Raws(b)) ==> again == o)
  {
    var o, gs := Append(files, b), ByDate(b);
    ByDateGrouped(b);
    AppendAnswer(files, b);
    forall i | 0 <= i < |gs| ensures GroupFresh(o.files, gs[i]) == Some([]) {
      RepeatGroup(files, b, i);
    }
    WriteNothing(o.files, gs, NO_DATE, 0);
    LastGroupDate(files, b);
    var d := o.date;
    forall w | Missing(Count(files, d), b, d, w) && Content(o.files, d) == Content(files, d) + Unlines(w)
      ensures Count(o.files, d) - 1 == o.offset <==> NewlineFree(w)
    {
      NewlinesConcat(Content(files, d), Unlines(w));
      UnlinesCount(w);
      var v :| Missing(Count(files, d), b, d, v) && o.offset == Count(files, d) + |v| - 1;
      SameLength(files, b, d, v, w);
    }
    if NewlineFree(Raws(b)) {
      var w := LastNewLines(files, b);
      MissingNewlineFree(Count(files, d), b, d, w);
    }
  }

  lemma LastGroupDate(files: Files, b: seq<LogLine>)
    requires InOrder(b) && b != [] && !Append(files, b).gap
    ensures ByDate(b)[|ByDate(b)| - 1][0].date == Append(files, b).date
  {
    AppendAnswer(files, b);
    ByDateIncreasing(b);
  }

  lemma SameLength(files: Files, b: seq<LogLine>, d: Date, v: seq<string>, w: seq<string>)
    requires HasDate(b, d)
    requires Missing(Count(files, d), b, d, v) && Missing(Count(files, d), b, d, w)
    ensures |v| == |w|
  {
    MissingLength(Count(files, d), b, b, d, v, w);
    MissingLength(Count(files, d), b, b, d, w, v);
  }

  lemma LastNewLines(files: Files, b: seq<LogLine>) returns (w: seq<string>)
    requires InOrder(b) && b != [] && !Append(files, b).gap
    ensures
      var o := Append(files, b);
      Missing(Count(files, o.date), b, o.date, w) && Content(o.files, o.date) == Content(files, o.date) + Unlines(w)
  {
    var o := Append(files, b);
    AppendAnswer(files, b);
    AppendDate(files, b, o.date);
    assert b[|b| - 1] in b && HasDate(b, o.date);
    w :| Missing(Count(files, o.date), b, o.date, w) && Content(o.files, o.date) == Content(files, o.date) + Unlines(w);
  }

  lemma MissingNewlineFree(n: nat, b: seq<LogLine>, d: Date, w: seq<string>)
    requires Missing(n, b, d, w) && NewlineFree(Raws(b))
    ensures NewlineFree(w)
  {
    forall r | r in w ensures '\n' !in r {
      var k :| 0 <= k < |w| && w[k] == r;
      assert LogLine(d, n + k, w[k]) in b;
      var j :| 0 <= j < |b| && b[j] == LogLine(d, n + k, w[k]);
      assert Raws(b)[j] == r;
    }
  }

  lemma RepeatGroup(files: Files, b: seq<LogLine>, i: nat)
    requires InOrder(b) && i < |ByDate(b)| && !Append(files, b).gap
    ensures GroupFresh(Append(files, b).files, ByDate(b)[i]) == Some([])
  {
    var after, gs := Append(files, b).files, ByDate(b);
    var g := gs[i];
    var d := g[0].date;
    ByDateGrouped(b);
    WriteResult(files, gs, NO_DATE, 0);
    assert !Blocked(files, gs, i);
    WriteByGroup(files, gs, NO_DATE, 0, i);
    GroupExact(files, b, i);
    var w, n := GroupFresh(files, g).value, Count(files, d);
    NewlinesConcat(Content(files, d), Unlines(w));
    UnlinesCount(w);
    ByDateIsOnDate(b, i);
    OnDateMembers(b, d);
    FreshNone(Count(after, d), g);
  }

  lemma {:induction false} FreshNone(n: int, g: seq<LogLine>)
    requires forall l | l in g :: l.offset < n
    ensures Fresh(n, g) == Some([])
  {
    if g != [] {
      assert g[0] in g;
      FreshNone(n, g[1..]);
    }
  }

  // ---------------------------------------------------------------- batches of an honest client

  function LinesAt(log: DayLog, d: Date): seq<string>
  {
    if d in log then log[d] else []
  }

  ghost predicate LogNewlineFree(log: DayLog)
  {
    forall d | d in log :: NewlineFree(log[d])
  }

  lemma CountIsLines(files: Files, d: Date)
    requires Terminated(files)
    ensures NewlineFree(LinesAt(LinesOf(files), d))
    ensures Content(files, d) == Unlines(LinesAt(LinesOf(files), d))
    ensures Count(files, d) == |LinesAt(LinesOf(files), d)|
  {
    var lines := LinesAt(LinesOf(files), d);
    if d in files {
      JoinSplit(files[d], '\n');
      NewlinesUnlines(lines);
    }
  }

  /** Extending a terminated file by whole lines. */
  lemma ExtendedLines(files: Files, after: Files, d: Date, w: seq<string>)
    requires Terminated(files) && NewlineFree(w)
    requires d in after && after[d] == Content(files, d) + Unlines(w)
    ensures Lines(after[d]) == LinesAt(LinesOf(files), d) + w
    ensures after[d] == Unlines(Lines(after[d]))
  {
    var lines := LinesAt(LinesOf(files), d);
    CountIsLines(files, d);
    UnlinesConcat(lines, w);
    LinesUnlines(lines + w);
  }

  /** What reads back of a day: its old lines and then its missing ones, exactly if
      these hold no newline. */
  lemma AppendedLines(files: Files, b: seq<LogLine>, d: Date)
    requires InOrder(b) && Terminated(files)
    ensures
      var was, now := LinesAt(LinesOf(files), d), LinesAt(LinesOf(Append(files, b).files), d);
      if !HasDate(b, d) || Held(files, b, d) then now == was
      else exists w :: Missing(|was|, b, d, w) && (now == was + w <==> NewlineFree(w))
  {
    var after, was := Append(files, b).files, LinesAt(LinesOf(files), d);
    AppendDate(files, b, d);
    CountIsLines(files, d);
    if HasDate(b, d) && !Held(files, b, d) {
      var w :| Missing(Count(files, d), b, d, w) && Content(after, d) == Content(files, d) + Unlines(w);
      UnlinesConcat(was, w);
      ReadBack(was, w);
      if d !in after {
        EmptyUnlines(was + w);
      }
    } else if d in after {
      assert d in files;
    }
  }

  lemma ReadBack(was: seq<string>, w: seq<string>)
    requires NewlineFree(was)
    ensures Lines(Unlines(was + w)) == was + w <==> NewlineFree(w)
  {
    var content := Unlines(was + w);
    if NewlineFree(w) {
      LinesUnlines(was + w);
    }
    if Lines(content) == was + w {
      JoinSplit(content, '\n');
      forall l | l in w ensures '\n' !in l {
        assert l in was + w && l in Split(content, '\n');
      }
    }
  }

  /** A batch of lines without newlines reads back: what is in the files afterwards
      was there before, or the batch brought it as new and no date up to its own
      has a gap; and of every such offset one of the batch's lines is there.  With
      one text for each offset that is the line itself. */
  lemma AppendedReadsBack(files: Files, b: seq<LogLine>, x: LogLine)
    requires InOrder(b) && Terminated(files) && NewlineFree(Raws(b))
    ensures
      var after := LinesOf(Append(files, b).files);
      var brought := x in b && x.offset >= Count(files, x.date) && !Held(files, b, x.date);
      && (Has(after, x) ==> Has(LinesOf(files), x) || brought)
      && (Has(LinesOf(files), x) ==> Has(after, x))
      && (brought ==> exists y :: y in b && y.date == x.date && y.offset == x.offset && Has(after, y))
      && (brought && OneText(b) ==> Has(after, x))
  {
    var was, now := LinesAt(LinesOf(files), x.date), LinesAt(LinesOf(Append(files, b).files), x.date);
    AppendedLines(files, b, x.date);
    CountIsLines(files, x.date);
    HasAt(LinesOf(files), x);
    HasAt(LinesOf(Append(files, b).files), x);
    if HasDate(b, x.date) && !Held(files, b, x.date) {
      var w :| Missing(|was|, b, x.date, w) && (now == was + w <==> NewlineFree(w));
      MissingNewlineFree(|was|, b, x.date, w);
      ReadAt(was, w, b, x);
      if x in b && x.offset >= |was| {
        HasAt(LinesOf(Append(files, b).files), LogLine(x.date, x.offset, now[x.offset]));
      }
    }
  }

  predicate IsAt(lines: seq<string>, x: LogLine)
  {
    0 <= x.offset < |lines| && lines[x.offset] == x.raw
  }

  lemma HasAt(log: DayLog, x: LogLine)
    ensures Has(log, x) <==> IsAt(LinesAt(log, x.date), x)
  {
  }

  lemma ReadAt(was: seq<string>, w: seq<string>, b: seq<LogLine>, x: LogLine)
    requires Missing(|was|, b, x.date, w)
    ensures IsAt(was + w, x) ==> IsAt(was, x) || (x in b && x.offset >= |was|)
    ensures IsAt(was, x) ==> IsAt(was + w, x)
    ensures x in b && x.offset >= |was| ==>
              x.offset < |was + w| && LogLine(x.date, x.offset, (was + w)[x.offset]) in b
  {
    if |was| <= x.offset < |was + w| {
      assert LogLine(x.date, |was| + (x.offset - |was|), w[x.offset - |was|]) in b;
    }
  }

  ghost predicate Covers(files: Files, log: DayLog, c: Cursor)
  {
    forall x | Has(log, x) && !Past(x, c) :: Has(LinesOf(files), x)
  }

  /** The next lines past a cursor whose earlier lines are mirrored leave no gap. */
  lemma NoGap(files: Files, log: DayLog, c: Cursor, n: nat, d: Date)
    requires Terminated(files) && Covers(files, log, c)
    requires 1 <= n <= |After(log, c)|
    ensures !Gapped(Count(files, d), After(log, c)[..n], d)
  {
    var s := After(log, c);
    var b := s[..n];
    AfterMembers(log, c);
    CountIsLines(files, d);
    if l, i :| l in b && l.date == d && Count(files, d) <= i < l.offset && !Names(b, d, i) {
      assert l in s && Has(log, l);
      var x := LogLine(d, i, log[d][i]);
      assert Has(log, x) && !Has(LinesOf(files), x) && x in s;
      SortedCut(s, n, l);
      SortedCut(s, n, x);
      assert false;
    }
  }

  lemma HonestDate(files: Files, log: DayLog, c: Cursor, n: nat, d: Date)
    requires Terminated(files) && LogNewlineFree(log)
    requires PrefixOf(LinesOf(files), log) && Covers(files, log, c)
    requires 1 <= n <= |After(log, c)|
    ensures
      var b := After(log, c)[..n];
      var after := Append(files, b).files;
      && (d in after ==> after[d] == Unlines(Lines(after[d])))
      && (forall i, r :: Has(LinesOf(after), LogLine(d, i, r)) <==>
            Has(LinesOf(files), LogLine(d, i, r)) || LogLine(d, i, r) in b)
  {
    hide After, Append, Unlines, Lines, PrefixOf, Covers, Missing;
    var s := After(log, c);
    var b := s[..n];
    var after, count := Append(files, b).files, Count(files, d);
    AfterMembers(log, c);
    assert forall x | x in b :: x in s;
    CountIsLines(files, d);
    AppendDate(files, b, d);
    forall e ensures !Gapped(Count(files, e), b, e) {
      NoGap(files, log, c, n, e);
    }
    if HasDate(b, d) {
      var w :| Missing(count, b, d, w) && Content(after, d) == Content(files, d) + Unlines(w);
      BatchNewlineFree(log, b);
      MissingNewlineFree(count, b, d, w);
      HonestFile(files, log, b, after, d, w);
    }
  }

  lemma BatchNewlineFree(log: DayLog, b: seq<LogLine>)
    requires LogNewlineFree(log) && forall x | x in b :: Has(log, x)
    ensures NewlineFree(Raws(b))
  {
    forall r | r in Raws(b) ensures '\n' !in r {
      var k :| 0 <= k < |b| && Raws(b)[k] == r;
      assert b[k] in b && log[b[k].date][b[k].offset] in log[b[k].date];
    }
  }

  lemma HonestFile(files: Files, log: DayLog, b: seq<LogLine>, after: Files, d: Date, w: seq<string>)
    requires Terminated(files) && NewlineFree(w) && HasDate(b, d)
    requires PrefixOf(LinesOf(files), log) && forall x | x in b :: Has(log, x)
    requires Missing(Count(files, d), b, d, w) && Content(after, d) == Content(files, d) + Unlines(w)
    ensures d in after ==> after[d] == Unlines(Lines(after[d]))
    ensures forall i, r :: Has(LinesOf(after), LogLine(d, i, r)) <==>
              Has(LinesOf(files), LogLine(d, i, r)) || LogLine(d, i, r) in b
  {
    var lines := LinesAt(LinesOf(files), d);
    CountIsLines(files, d);
    if d in after {
      ExtendedLines(files, after, d, w);
    } else {
      EmptyUnlines(w);
      EmptyUnlines(lines);
    }
    assert LinesAt(LinesOf(after), d) == lines + w;
    OneDateLines(files, after, log, b, d, lines, w);
  }

  lemma OneDateLines(files: Files, after: Files, log: DayLog, b: seq<LogLine>, d: Date, lines: seq<string>,
                     w: seq<string>)
    requires lines == LinesAt(LinesOf(files), d) && LinesAt(LinesOf(after), d) == lines + w
    requires PrefixOf(LinesOf(files), log) && Missing(|lines|, b, d, w) && forall x | x in b :: Has(log, x)
    ensures forall i, r :: Has(LinesOf(after), LogLine(d, i, r)) <==>
              Has(LinesOf(files), LogLine(d, i, r)) || LogLine(d, i, r) in b
  {
    forall k | 0 <= k < |lines| ensures Has(log, LogLine(d, k, lines[k])) {
      HasAt(LinesOf(files), LogLine(d, k, lines[k]));
    }
    forall i, r ensures Has(LinesOf(after), LogLine(d, i, r)) <==>
                          Has(LinesOf(files), LogLine(d, i, r)) || LogLine(d, i, r) in b
    {
      HasAt(LinesOf(files), LogLine(d, i, r));
      HasAt(LinesOf(after), LogLine(d, i, r));
      HonestLine(lines, w, log, b, d, i, r);
    }
  }

  lemma HonestLine(lines: seq<string>, w: seq<string>, log: DayLog, b: seq<LogLine>, d: Date, i: int, r: string)
    requires forall x | x in b :: Has(log, x)
    requires forall k | 0 <= k < |lines| :: Has(log, LogLine(d, k, lines[k]))
    requires Missing(|lines|, b, d, w)
    ensures 0 <= i < |lines + w| && (lines + w)[i] == r <==>
              (0 <= i < |lines| && lines[i] == r) || LogLine(d, i, r) in b
  {
    if LogLine(d, i, r) in b {
      assert Has(log, LogLine(d, i, r));
      if i < |lines| {
        assert Has(log, LogLine(d, i, lines[i]));
      } else {
        assert LogLine(d, |lines| + (i - |lines|), w[i - |lines|]) in b;
      }
    }
    if |lines| <= i < |lines| + |w| {
      assert LogLine(d, |lines| + (i - |lines|), w[i - |lines|]) in b;
    }
  }

  lemma EmptyUnlines(w: seq<string>)
    requires Unlines(w) == ""
    ensures w == []
  {
  }

  /** A batch of the next lines past a mirrored cursor is never refused, and the
      mirror gains exactly those lines and stays a prefix of the laptop's log. */
  lemma HonestBatch(files: Files, log: DayLog, c: Cursor, n: nat)
    requires Terminated(files) && LogNewlineFree(log)
    requires PrefixOf(LinesOf(files), log) && Covers(files, log, c)
    requires 1 <= n <= |After(log, c)|
    ensures
      var b := After(log, c)[..n];
      var o := Append(files, b);
      && InOrder(b) && !o.gap && Terminated(o.files)
      && (forall x :: Has(LinesOf(o.files), x) <==> Has(LinesOf(files), x) || x in b)
      && PrefixOf(LinesOf(o.files), log)
      && PrefixOf(LinesOf(files), LinesOf(o.files))
  {
    var s := After(log, c);
    var b := s[..n];
    var o := Append(files, b);
    AfterMembers(log, c);
    assert InOrder(b);
    forall d ensures d in o.files ==> o.files[d] == Unlines(Lines(o.files[d])) {
      HonestDate(files, log, c, n, d);
    }
    forall x ensures Has(LinesOf(o.files), x) <==> Has(LinesOf(files), x) || x in b {
      HonestDate(files, log, c, n, x.date);
      assert x == LogLine(x.date, x.offset, x.raw);
    }
    AppendAnswer(files, b);
    forall d ensures !Held(files, b, d) {
      if e: Date :| e <= d && HasDate(b, e) && Gapped(Count(files, e), b, e) {
        NoGap(files, log, c, n, e);
      }
    }
    forall x | x in b ensures Has(log, x) {
      assert x in s;
    }
    forall x, y | Has(log, x) && Has(LinesOf(o.files), y) && Before(x, y)
      ensures Has(LinesOf(o.files), x)
    {
      if y in b && Past(x, c) {
        assert x in s && y in s;
        SortedCut(s, n, x);
        SortedCut(s, n, y);
      }
    }
  }
}
