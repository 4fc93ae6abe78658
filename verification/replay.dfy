/** What one log line does to a database: the sync server's reading of it (Go) and
    the sync client's (Python). */
module Replay {
  import Text
  import opened Tables

  datatype Option<+T> = None | Some(value: T) {
    function GetOr(default: T): T
    {
      if Some? then value else default
    }
  }

  /** The tags that own an event table. */
  function EventTag(tag: string): Option<Tag>
  {
    if tag == "read" then Some(Read) else if tag == "skimmed" then Some(Skimmed) else None
  }

  /** Each event table has its tag, and no other tag has one. */
  lemma EventTables(tag: string)
    ensures EventTag(tag) == Some(Read) <==> tag == "read"
    ensures EventTag(tag) == Some(Skimmed) <==> tag == "skimmed"
  {
  }

  /** The statements the server runs for a line.  Event rows get the raw file
      field; the directory column keeps its default. */
  function GoOps(raw: string): seq<Op>
  {
    var f := Text.Split(raw, '\t');
    if |f| == 4 then [InsertVisit(f[2], f[1], f[3])]
    else if |f| == 5 then
      [InsertVisit(f[2], f[1], f[3])] + (if f[4] == "of_interest" then [MarkInterest(f[2])] else [])
    else if |f| == 6 then
      [InsertVisit(f[2], f[1], f[3])] +
      (match EventTag(f[4])
       case Some(t) => [AddEvent(EventKey(t, f[2], f[1]), Event(f[5], ""))]
       case None => [])
    else []
  }

  /** The statements the client runs for a pulled line; `directory` is the column
      default of its tables. */
  function PyOps(raw: string, directory: string): seq<Op>
  {
    var f := Text.Split(raw, '\t');
    if |f| < 4 then []
    else if |f| == 4 then [InsertVisit(f[2], f[1], f[3])]
    else if f[4] == "of_interest" then [InsertVisit(f[2], f[1], f[3]), MarkInterest(f[2])]
    else
      match EventTag(f[4])
      case Some(t) =>
        if |f| >= 6 then
          [InsertVisit(f[2], f[1], f[3]), AddEvent(EventKey(t, f[2], f[1]), Event(f[5], directory))]
        else [InsertVisit(f[2], f[1], f[3])]
      case None => [InsertVisit(f[2], f[1], f[3])]
  }

  // ---------------------------------------------------------------- what the tables hold afterwards

  /** The tables after a visit was written: a new url's row has the timestamp and
      title given, a row that was there keeps its own; interest is only ever added;
      the event's row is there, with the given columns if it is new, and then the
      url's counter of its tag is one more.  Nothing else changed. */
  ghost predicate Records(was: Db, now: Db, url: string, timestamp: string, title: string, interest: bool,
                          event: Option<Tag>, filename: string, directory: string)
  {
    && now.visits.Keys == was.visits.Keys + {url}
    && (forall u | u in was.visits && u != url :: now.visits[u] == was.visits[u])
    && (url !in was.visits ==> now.visits[url].timestamp == timestamp && now.visits[url].title == title)
    && (url in was.visits ==>
          && now.visits[url].timestamp == was.visits[url].timestamp
          && now.visits[url].title == was.visits[url].title)
    && (now.visits[url].ofInterest <==> interest || (url in was.visits && was.visits[url].ofInterest))
    && now.visits[url].read ==
         (if url in was.visits then was.visits[url].read else 0)
         + (if event == Some(Read) && EventKey(Read, url, timestamp) !in was.events then 1 else 0)
    && now.visits[url].skimmed ==
         (if url in was.visits then was.visits[url].skimmed else 0)
         + (if event == Some(Skimmed) && EventKey(Skimmed, url, timestamp) !in was.events then 1 else 0)
    && (forall k | k in was.events :: k in now.events && now.events[k] == was.events[k])
    && (forall k | k in now.events && k !in was.events :: event.Some? && k == EventKey(event.value, url, timestamp))
    && (event.Some? ==>
          var k := EventKey(event.value, url, timestamp);
          && k in now.events
          && (k !in was.events ==> now.events[k].filename == filename && now.events[k].directory == directory))
  }

  /** The statements that write a visit: insert, event, interest. */
  function VisitOps(url: string, timestamp: string, title: string, interest: bool, event: Option<Tag>,
                  filename: string, directory: string): seq<Op>
  {
    [InsertVisit(url, timestamp, title)] +
    (match event
     case Some(t) => [AddEvent(EventKey(t, url, timestamp), Event(filename, directory))]
     case None => []) +
    (if interest then [MarkInterest(url)] else [])
  }

  lemma VisitRecords(db: Db, url: string, timestamp: string, title: string, filename: string, directory: string)
    ensures Records(db, RunOp(db, InsertVisit(url, timestamp, title)), url, timestamp, title, false, None,
                    filename, directory)
  {
  }

  lemma EventRecords(was: Db, now: Db, url: string, timestamp: string, title: string, t: Tag,
                     filename: string, directory: string)
    requires Records(was, now, url, timestamp, title, false, None, filename, directory)
    ensures Records(was, RunOp(now, AddEvent(EventKey(t, url, timestamp), Event(filename, directory))),
                    url, timestamp, title, false, Some(t), filename, directory)
  {
  }

  lemma InterestRecords(was: Db, now: Db, url: string, timestamp: string, title: string, event: Option<Tag>,
                        filename: string, directory: string)
    requires Records(was, now, url, timestamp, title, false, event, filename, directory)
    ensures Records(was, RunOp(now, MarkInterest(url)), url, timestamp, title, true, event, filename, directory)
  {
  }

  lemma WritesRecord(db: Db, url: string, timestamp: string, title: string, interest: bool, event: Option<Tag>,
                     filename: string, directory: string)
    ensures Records(db, RunOps(db, VisitOps(url, timestamp, title, interest, event, filename, directory)),
                    url, timestamp, title, interest, event, filename, directory)
  {
    hide Records, RunOp;
    var visit, mark := InsertVisit(url, timestamp, title), MarkInterest(url);
    var all := VisitOps(url, timestamp, title, interest, event, filename, directory);
    var one := RunOp(db, visit);
    VisitRecords(db, url, timestamp, title, filename, directory);
    var two := one;
    var first := [visit];
    if event.Some? {
      var add := AddEvent(EventKey(event.value, url, timestamp), Event(filename, directory));
      EventRecords(db, one, url, timestamp, title, event.value, filename, directory);
      first, two := [visit, add], RunOp(one, add);
    }
    RunShort(db, first);
    assert first[..|first|] == first && RunOps(db, first) == two;
    if interest {
      InterestRecords(db, two, url, timestamp, title, event, filename, directory);
      RunShort(two, [mark]);
      assert [mark][..1] == [mark];
      RunConcat(db, first, [mark]);
      assert all == first + [mark];
    } else {
      assert all == first;
    }
  }

  /** What the server's replay of a line leaves, in the line's own fields. */
  lemma ServerRecords(db: Db, raw: string)
    requires 4 <= |Text.Split(raw, '\t')| <= 6
    ensures
      var f := Text.Split(raw, '\t');
      Records(db, RunOps(db, GoOps(raw)), f[2], f[1], f[3], |f| == 5 && f[4] == "of_interest",
              if |f| == 6 then EventTag(f[4]) else None, if |f| == 6 then f[5] else "", "")
  {
    hide Records;
    var f := Text.Split(raw, '\t');
    assert GoOps(raw) == VisitOps(f[2], f[1], f[3], |f| == 5 && f[4] == "of_interest",
                                if |f| == 6 then EventTag(f[4]) else None, if |f| == 6 then f[5] else "", "");
    WritesRecord(db, f[2], f[1], f[3], |f| == 5 && f[4] == "of_interest", if |f| == 6 then EventTag(f[4]) else None,
                 if |f| == 6 then f[5] else "", "");
  }

  /** What the client's replay of a line leaves; the event's directory is the
      column default of the client's tables. */
  lemma ClientRecords(db: Db, raw: string, directory: string)
    requires 4 <= |Text.Split(raw, '\t')|
    ensures
      var f := Text.Split(raw, '\t');
      Records(db, RunOps(db, PyOps(raw, directory)), f[2], f[1], f[3], |f| >= 5 && f[4] == "of_interest",
              if |f| >= 6 then EventTag(f[4]) else None, if |f| >= 6 then f[5] else "", directory)
  {
    hide Records;
    var f := Text.Split(raw, '\t');
    assert PyOps(raw, directory) == VisitOps(f[2], f[1], f[3], |f| >= 5 && f[4] == "of_interest",
                                           if |f| >= 6 then EventTag(f[4]) else None, if |f| >= 6 then f[5] else "",
                                           directory);
    WritesRecord(db, f[2], f[1], f[3], |f| >= 5 && f[4] == "of_interest", if |f| >= 6 then EventTag(f[4]) else None,
                 if |f| >= 6 then f[5] else "", directory);
  }

  /** Equal statements, the directory column aside. */
  predicate SameButDirectory(a: seq<Op>, b: seq<Op>)
  {
    && |a| == |b|
    && forall i | 0 <= i < |a| ::
         if a[i].AddEvent? && b[i].AddEvent?
         then a[i].key == b[i].key && a[i].row.filename == b[i].row.filename
         else a[i] == b[i]
  }

  /** Lines with at most six fields, of which the sixth does not follow the tag
      of_interest: all that the host prints. */
  predicate Regular(raw: string)
  {
    var f := Text.Split(raw, '\t');
    |f| < 6 || (|f| == 6 && f[4] != "of_interest")
  }

  /** Server and client read a line alike exactly when it is regular. */
  lemma ReplayersAgree(raw: string, directory: string)
    ensures SameButDirectory(GoOps(raw), PyOps(raw, directory)) <==> Regular(raw)
  {
    var f := Text.Split(raw, '\t');
    var g, p := GoOps(raw), PyOps(raw, directory);
    if |f| >= 7 {
      assert |g| == 0 && |p| >= 1;
    } else if |f| == 6 && f[4] == "of_interest" {
      assert |g| == 1 && |p| == 2;
    }
  }

  lemma SameFacts(a: seq<Op>, b: seq<Op>, f: Fact)
    requires SameButDirectory(a, b)
    ensures InOps(a, f) <==> InOps(b, f)
  {
    if InOps(a, f) {
      var op :| op in a && FactOf(op) == f;
      var i :| 0 <= i < |a| && a[i] == op;
      assert b[i] in b && FactOf(b[i]) == f;
    }
    if InOps(b, f) {
      var op :| op in b && FactOf(op) == f;
      var i :| 0 <= i < |b| && b[i] == op;
      assert a[i] in a && FactOf(a[i]) == f;
    }
  }

  /** Both readings insert the visits row before they touch it. */
  lemma LinesGuarded(raw: string, directory: string, urls: set<string>)
    ensures Guarded(urls, GoOps(raw))
    ensures Guarded(urls, PyOps(raw, directory))
  {
    forall ops: seq<Op> | ops == GoOps(raw) || ops == PyOps(raw, directory)
      ensures Guarded(urls, ops)
    {
      if |ops| == 2 {
        assert ops[1..] == [ops[1]];
        assert Guarded(urls + {ops[0].Target()}, ops[1..]);
      } else if |ops| == 1 {
        assert ops[1..] == [];
      }
    }
  }

  function GoOpsOf(raws: seq<string>): seq<Op>
  {
    if raws == [] then [] else GoOps(raws[0]) + GoOpsOf(raws[1..])
  }

  lemma {:induction false} GoOpsOfGuarded(raws: seq<string>, urls: set<string>)
    ensures Guarded(urls, GoOpsOf(raws))
  {
    if raws != [] {
      LinesGuarded(raws[0], "", urls);
      GoOpsOfGuarded(raws[1..], urls);
      GuardedConcat(urls, GoOps(raws[0]), GoOpsOf(raws[1..]));
    }
  }

  lemma {:induction false} GoOpsOfFacts(raws: seq<string>, f: Fact)
    ensures InOps(GoOpsOf(raws), f) <==> exists r :: r in raws && InOps(GoOps(r), f)
  {
    if raws != [] {
      GoOpsOfFacts(raws[1..], f);
      var here, rest := GoOps(raws[0]), GoOpsOf(raws[1..]);
      assert InOps(here + rest, f) <==> InOps(here, f) || InOps(rest, f) by {
        InOpsConcat(here, rest, f);
      }
      if InOps(here, f) {
        assert raws[0] in raws;
      }
    }
  }

  lemma InOpsConcat(a: seq<Op>, b: seq<Op>, f: Fact)
    ensures InOps(a + b, f) <==> InOps(a, f) || InOps(b, f)
  {
    if InOps(a, f) {
      var op :| op in a && FactOf(op) == f;
      assert op in a + b;
    }
    if InOps(b, f) {
      var op :| op in b && FactOf(op) == f;
      assert op in a + b;
    }
  }

  /** Replaying lines on the server, pushed by any number of concurrent calls that
      interleave statement by statement, ends in a summary that depends only on
      which lines were pushed. */
  lemma ReplayDependsOnTheSetOfLines(db: Db, trace: seq<Op>, calls: seq<seq<string>>, raws: seq<string>)
    requires Consistent(db)
    requires Interleaves(trace, CallOps(calls))
    requires forall r :: r in raws <==> exists c :: c in calls && r in c
    ensures Summarise(RunOps(db, trace)) == Summarise(RunOps(db, GoOpsOf(raws)))
  {
    var urls, lists := db.visits.Keys, CallOps(calls);
    forall i | 0 <= i < |lists| ensures Guarded(urls, lists[i]) {
      GoOpsOfGuarded(calls[i], urls);
    }
    InterleavedRun(urls, trace, lists);
    GoOpsOfGuarded(raws, urls);
    forall f ensures InOps(trace, f) <==> InOps(GoOpsOf(raws), f) {
      GoOpsOfFacts(raws, f);
      if InOps(trace, f) {
        var i :| 0 <= i < |lists| && InOps(lists[i], f);
        GoOpsOfFacts(calls[i], f);
        var r :| r in calls[i] && InOps(GoOps(r), f);
        assert calls[i] in calls && r in raws;
      }
      if InOps(GoOpsOf(raws), f) {
        var r :| r in raws && InOps(GoOps(r), f);
        var c :| c in calls && r in c;
        var i :| 0 <= i < |calls| && calls[i] == c;
        GoOpsOfFacts(c, f);
        assert InOps(lists[i], f);
      }
    }
    OrderFree(db, trace, GoOpsOf(raws));
  }

  function CallOps(calls: seq<seq<string>>): (lists: seq<seq<Op>>)
    ensures |lists| == |calls|
    ensures forall i | 0 <= i < |calls| :: lists[i] == GoOpsOf(calls[i])
  {
    seq(|calls|, i requires 0 <= i < |calls| => GoOpsOf(calls[i]))
  }

  // ---------------------------------------------------------------- the server's database

  /** The canonical database.  Every statement may fail; what it then leaves
      behind is what a later push finds. */
  class Canonical {
    var db: Db

    constructor ()
      ensures db == EMPTY
    {
      db := EMPTY;
    }

    method Exec(op: Op) returns (ok: bool)
      requires !op.AddEvent?
      modifies this
      ensures db == if ok then RunOp(old(db), op) else old(db)
    {
      ok := *;
      if ok {
        db := RunOp(db, op);
      }
    }

    /** The event row and its counter tick, in one transaction. */
    method TagWithFilename(url: string, timestamp: string, tag: string, filename: string) returns (ok: bool)
      modifies this
      ensures
        db == match EventTag(tag)
              case Some(t) =>
                if ok then RunOp(old(db), AddEvent(EventKey(t, url, timestamp), Event(filename, ""))) else old(db)
              case None => old(db)
      ensures EventTag(tag).None? ==> ok
    {
      var table := EventTag(tag);
      if table.None? {
        return true;
      }
      var key := EventKey(table.value, url, timestamp);
      var tx := db;
      ok := *;
      if !ok {
        return false;
      }
      var inserted := key !in tx.events;
      tx := InsertEventRow(tx, key, Event(filename, ""));
      if inserted {
        ok := *;
        if !ok {
          return false;
        }
        tx := BumpCounter(tx, key);
      }
      ok := *;
      if ok {
        db := tx;
      }
    }

    /** Replays one line.  A failure leaves some of the line's statements done;
        `done` counts them. */
    method ReplayLine(raw: string) returns (ok: bool, done: nat)
      modifies this
      ensures done <= |GoOps(raw)| && (ok <==> done == |GoOps(raw)|)
      ensures db == RunOps(old(db), GoOps(raw)[..done])
      ensures
        var f := Text.Split(raw, '\t');
        && (!(4 <= |f| <= 6) ==> db == old(db))
        && (ok && 4 <= |f| <= 6 ==>
              Records(old(db), db, f[2], f[1], f[3], |f| == 5 && f[4] == "of_interest",
                      if |f| == 6 then EventTag(f[4]) else None, if |f| == 6 then f[5] else "", ""))
    {
      hide Records;
      RunShort(db, GoOps(raw));
      if 4 <= |Text.Split(raw, '\t')| <= 6 {
        ServerRecords(db, raw);
      }
      assert GoOps(raw)[..|GoOps(raw)|] == GoOps(raw);
      var f := Text.Split(raw, '\t');
      if !(4 <= |f| <= 6) {
        return true, 0;
      }
      ok := Exec(InsertVisit(f[2], f[1], f[3]));
      if !ok {
        return false, 0;
      }
      done := 1;
      if |f| == 5 && f[4] == "of_interest" {
        ok := Exec(MarkInterest(f[2]));
        done := if ok then 2 else 1;
      } else if |f| == 6 {
        ok := TagWithFilename(f[2], f[1], f[4], f[5]);
        done := if ok && EventTag(f[4]).Some? then 2 else 1;
      }
    }
  }
}
