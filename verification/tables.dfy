/** The visits and event tables, the statements every writer reduces to, and why
    the order in which those statements run does not matter. */
module Tables {

  datatype Tag = Read | Skimmed

  /** A row of `visits`; `read` and `skimmed` are its two counters. */
  datatype Visit = Visit(timestamp: string, title: string, ofInterest: bool, read: nat, skimmed: nat) {
    function Count(t: Tag): nat
    {
      if t == Read then read else skimmed
    }

    function Bump(t: Tag): Visit
    {
      if t == Read then this.(read := read + 1) else this.(skimmed := skimmed + 1)
    }
  }

  /** The two event tables are one map: the tag picks the table, (url, timestamp)
      is the primary key in it. */
  datatype EventKey = EventKey(tag: Tag, url: string, timestamp: string)

  datatype Event = Event(filename: string, directory: string)

  datatype Db = Db(visits: map<string, Visit>, events: map<EventKey, Event>)

  const EMPTY := Db(map[], map[])

  datatype Op =
    | InsertVisit(url: string, timestamp: string, title: string)
    | MarkInterest(url: string)
    | AddEvent(key: EventKey, row: Event)
  {
    function Target(): string
    {
      if AddEvent? then key.url else url
    }
  }

  /** UPDATE visits SET <tag> = <tag> + 1 WHERE url = ? */
  function BumpCounter(db: Db, key: EventKey): Db
  {
    if key.url in db.visits then db.(visits := db.visits[key.url := db.visits[key.url].Bump(key.tag)]) else db
  }

  /** INSERT OR IGNORE INTO <tag>_events */
  function InsertEventRow(db: Db, key: EventKey, row: Event): Db
  {
    if key in db.events then db else db.(events := db.events[key := row])
  }

  /** One committed statement (for an event: one transaction).  Inserts ignore an
      existing key, and the counter moves only with a new event row. */
  function RunOp(db: Db, op: Op): Db
  {
    match op
    case InsertVisit(url, timestamp, title) =>
      if url in db.visits then db else db.(visits := db.visits[url := Visit(timestamp, title, false, 0, 0)])
    case MarkInterest(url) =>
      if url in db.visits then db.(visits := db.visits[url := db.visits[url].(ofInterest := true)]) else db
    case AddEvent(key, row) =>
      if key in db.events then db else BumpCounter(InsertEventRow(db, key, row), key)
  }

  function RunOps(db: Db, ops: seq<Op>): Db
    decreases |ops|
  {
    if ops == [] then db else RunOps(RunOp(db, ops[0]), ops[1..])
  }

  // ---------------------------------------------------------------- facts

  /** What the order-insensitive part of the database says. */
  datatype Fact = Url(url: string) | Interest(url: string) | Happened(key: EventKey)

  predicate InDb(db: Db, f: Fact)
  {
    match f
    case Url(u) => u in db.visits
    case Interest(u) => u in db.visits && db.visits[u].ofInterest
    case Happened(k) => k in db.events
  }

  function FactOf(op: Op): Fact
  {
    match op
    case InsertVisit(url, _, _) => Url(url)
    case MarkInterest(url) => Interest(url)
    case AddEvent(key, _) => Happened(key)
  }

  ghost predicate InOps(ops: seq<Op>, f: Fact)
  {
    exists op :: op in ops && FactOf(op) == f
  }

  /** Every statement about a url comes after an insert of its visits row, or the
      row is there already. */
  predicate Guarded(urls: set<string>, ops: seq<Op>)
    decreases |ops|
  {
    ops == [] ||
    ((ops[0].InsertVisit? || ops[0].Target() in urls) && Guarded(urls + {ops[0].Target()}, ops[1..]))
  }

  ghost function EventsOf(db: Db, url: string, t: Tag): set<EventKey>
  {
    set k | k in db.events && k.url == url && k.tag == t
  }

  /** Every event's url has a visits row, and each counter is the number of event
      rows of its url and tag. */
  ghost predicate Consistent(db: Db)
  {
    && (forall k | k in db.events :: k.url in db.visits)
    && (forall u, t | u in db.visits :: db.visits[u].Count(t) == |EventsOf(db, u, t)|)
  }

  /** Right counters are the sizes of the url's share of the two event tables. */
  lemma CountersMean(db: Db, url: string)
    requires Consistent(db) && url in db.visits
    ensures db.visits[url].read == |set k | k in db.events && k.url == url && k.tag == Read|
    ensures db.visits[url].skimmed == |set k | k in db.events && k.url == url && k.tag == Skimmed|
  {
    assert db.visits[url].Count(Read) == |EventsOf(db, url, Read)|;
    assert db.visits[url].Count(Skimmed) == |EventsOf(db, url, Skimmed)|;
  }

  lemma EmptyIsConsistent()
    ensures Consistent(EMPTY)
    ensures forall f :: !InDb(EMPTY, f)
  {
  }

  // ---------------------------------------------------------------- one statement

  lemma StepFacts(db: Db, op: Op)
    requires Guarded(db.visits.Keys, [op])
    ensures forall f :: InDb(RunOp(db, op), f) <==> InDb(db, f) || f == FactOf(op)
    ensures RunOp(db, op).visits.Keys == db.visits.Keys + {op.Target()}
  {
  }

  /** A statement whose fact the database already states changes nothing at all:
      not the first-written timestamp or title, no counter, no event row. */
  lemma StepIdempotent(db: Db, op: Op)
    requires InDb(db, FactOf(op))
    ensures RunOp(db, op) == db
  {
    if op.MarkInterest? {
      assert db.visits[op.url := db.visits[op.url]] == db.visits;
    }
  }

  lemma StepConsistent(db: Db, op: Op)
    requires Consistent(db) && Guarded(db.visits.Keys, [op])
    ensures Consistent(RunOp(db, op))
  {
    if op.AddEvent? {
      if op.key !in db.events {
        NewEventConsistent(db, op.key, op.row);
      }
    } else {
      var after := RunOp(db, op);
      forall u, t | u in after.visits ensures after.visits[u].Count(t) == |EventsOf(after, u, t)| {
        assert EventsOf(after, u, t) == EventsOf(db, u, t);
        if u !in db.visits {
          assert EventsOf(db, u, t) == {};
        }
      }
    }
  }

  lemma NewEventConsistent(db: Db, key: EventKey, row: Event)
    requires Consistent(db) && key.url in db.visits && key !in db.events
    ensures Consistent(BumpCounter(InsertEventRow(db, key, row), key))
  {
    var after := BumpCounter(InsertEventRow(db, key, row), key);
    forall u, t | u in after.visits ensures after.visits[u].Count(t) == |EventsOf(after, u, t)| {
      NewEventCounted(db, key, row, u, t);
      assert db.visits[u].Count(t) == |EventsOf(db, u, t)|;
    }
  }

  lemma NewEventCounted(db: Db, key: EventKey, row: Event, u: string, t: Tag)
    requires key.url in db.visits && key !in db.events && u in db.visits
    ensures
      var after, one := BumpCounter(InsertEventRow(db, key, row), key), if key.url == u && key.tag == t then 1 else 0;
      && u in after.visits
      && after.visits[u].Count(t) == db.visits[u].Count(t) + one
      && |EventsOf(after, u, t)| == |EventsOf(db, u, t)| + one
  {
    var after := BumpCounter(InsertEventRow(db, key, row), key);
    var was, now := EventsOf(db, u, t), EventsOf(after, u, t);
    if key.url == u && key.tag == t {
      assert now == was + {key} && key !in was;
    } else {
      assert now == was;
    }
  }

  /** What becomes of an event whose insert was kept while its counter update was
      lost: the counters are wrong, and no later delivery of the line repairs
      them, because the row is there. */
  lemma TornEvent(db: Db, key: EventKey, row: Event, again: Event)
    requires Consistent(db) && key.url in db.visits
    ensures Consistent(InsertEventRow(db, key, row)) <==> key in db.events
    ensures
      var torn := InsertEventRow(db, key, row);
      RunOp(torn, AddEvent(key, again)) == torn
  {
    if key !in db.events {
      var torn := InsertEventRow(db, key, row);
      var was, now := EventsOf(db, key.url, key.tag), EventsOf(torn, key.url, key.tag);
      assert now == was + {key} && key !in was;
      assert db.visits[key.url].Count(key.tag) == |was|;
      assert torn.visits[key.url].Count(key.tag) != |now|;
    }
  }

  // ---------------------------------------------------------------- runs

  lemma {:induction false} GuardedMore(urls: set<string>, more: set<string>, ops: seq<Op>)
    requires Guarded(urls, ops) && urls <= more
    ensures Guarded(more, ops)
    decreases |ops|
  {
    if ops != [] {
      GuardedMore(urls + {ops[0].Target()}, more + {ops[0].Target()}, ops[1..]);
    }
  }

  lemma {:induction false} GuardedConcat(urls: set<string>, a: seq<Op>, b: seq<Op>)
    requires Guarded(urls, a) && Guarded(urls, b)
    ensures Guarded(urls, a + b)
    decreases |a|
  {
    if a == [] {
      assert a + b == b;
    } else {
      GuardedMore(urls, urls + {a[0].Target()}, b);
      GuardedConcat(urls + {a[0].Target()}, a[1..], b);
      assert (a + b)[1..] == a[1..] + b;
    }
  }

  lemma {:induction false} GuardedPrefix(urls: set<string>, ops: seq<Op>, n: nat)
    requires Guarded(urls, ops) && n <= |ops|
    ensures Guarded(urls, ops[..n])
    decreases |ops|
  {
    if n > 0 {
      GuardedPrefix(urls + {ops[0].Target()}, ops[1..], n - 1);
      assert ops[..n][1..] == ops[1..][..n - 1];
    }
  }

  lemma {:induction false} RunConcat(db: Db, a: seq<Op>, b: seq<Op>)
    ensures RunOps(db, a + b) == RunOps(RunOps(db, a), b)
    decreases |a|
  {
    if a == [] {
      assert a + b == b;
    } else {
      assert (a + b)[0] == a[0] && (a + b)[1..] == a[1..] + b;
      RunConcat(RunOp(db, a[0]), a[1..], b);
    }
  }

  lemma RunShort(db: Db, ops: seq<Op>)
    ensures RunOps(db, ops[..0]) == db
    ensures |ops| >= 1 ==> RunOps(db, ops[..1]) == RunOp(db, ops[0])
    ensures |ops| >= 2 ==> RunOps(db, ops[..2]) == RunOp(RunOp(db, ops[0]), ops[1])
  {
    if |ops| >= 2 {
      RunConcat(db, ops[..1], [ops[1]]);
      assert ops[..1] + [ops[1]] == ops[..2];
    }
  }

  /** A run adds exactly the facts of its statements and keeps the counters
      right, wherever it is cut off. */
  lemma {:induction false} RunFacts(db: Db, ops: seq<Op>)
    requires Guarded(db.visits.Keys, ops)
    ensures forall f :: InDb(RunOps(db, ops), f) <==> InDb(db, f) || InOps(ops, f)
    ensures Consistent(db) ==> Consistent(RunOps(db, ops))
    decreases |ops|
  {
    if ops != [] {
      StepFacts(db, ops[0]);
      if Consistent(db) {
        StepConsistent(db, ops[0]);
      }
      RunFacts(RunOp(db, ops[0]), ops[1..]);
      forall f ensures InOps(ops, f) <==> f == FactOf(ops[0]) || InOps(ops[1..], f) {
        if f == FactOf(ops[0]) {
          assert ops[0] in ops;
        }
      }
    }
  }

  /** Running again what already holds leaves the very same database. */
  lemma {:induction false} RunIdempotent(db: Db, ops: seq<Op>)
    requires forall op | op in ops :: InDb(db, FactOf(op))
    ensures RunOps(db, ops) == db
  {
    if ops != [] {
      StepIdempotent(db, ops[0]);
      RunIdempotent(db, ops[1..]);
    }
  }

  /** No statement changes the timestamp or title of a row that is there. */
  lemma {:induction false} FirstWordsStay(db: Db, ops: seq<Op>, url: string)
    requires url in db.visits
    ensures url in RunOps(db, ops).visits
    ensures RunOps(db, ops).visits[url].timestamp == db.visits[url].timestamp
    ensures RunOps(db, ops).visits[url].title == db.visits[url].title
    decreases |ops|
  {
    if ops != [] {
      FirstWordsStay(RunOp(db, ops[0]), ops[1..], url);
    }
  }

  /** The first insert of a url writes its timestamp and title, for good. */
  lemma {:induction false} FirstInsertWins(db: Db, ops: seq<Op>, i: nat)
    requires i < |ops| && ops[i].InsertVisit? && ops[i].url !in db.visits
    requires forall j | 0 <= j < i :: ops[j].InsertVisit? ==> ops[j].url != ops[i].url
    ensures
      var now := RunOps(db, ops);
      && ops[i].url in now.visits
      && now.visits[ops[i].url].timestamp == ops[i].timestamp && now.visits[ops[i].url].title == ops[i].title
    decreases |ops|
  {
    if i == 0 {
      FirstWordsStay(RunOp(db, ops[0]), ops[1..], ops[0].url);
    } else {
      assert forall j | 0 <= j < i - 1 :: ops[1..][j] == ops[j + 1];
      FirstInsertWins(RunOp(db, ops[0]), ops[1..], i - 1);
    }
  }

  // ---------------------------------------------------------------- the projection

  /** The part of the database that every replica must agree on. */
  datatype Summary = Summary(urls: set<string>, ofInterest: set<string>, events: set<EventKey>,
                             counters: map<string, (nat, nat)>)

  function Summarise(db: Db): Summary
  {
    Summary(db.visits.Keys,
            (set u | u in db.visits && db.visits[u].ofInterest),
            db.events.Keys,
            map u | u in db.visits :: (db.visits[u].read, db.visits[u].skimmed))
  }

  /** The facts determine the summary, counters included. */
  lemma FactsDecide(a: Db, b: Db)
    requires Consistent(a) && Consistent(b)
    requires forall f :: InDb(a, f) <==> InDb(b, f)
    ensures Summarise(a) == Summarise(b)
  {
    forall u ensures u in a.visits <==> u in b.visits {
      assert InDb(a, Url(u)) <==> InDb(b, Url(u));
    }
    forall u ensures u in Summarise(a).ofInterest <==> u in Summarise(b).ofInterest {
      assert InDb(a, Interest(u)) <==> InDb(b, Interest(u));
    }
    forall k ensures k in a.events <==> k in b.events {
      assert InDb(a, Happened(k)) <==> InDb(b, Happened(k));
    }
    assert a.visits.Keys == b.visits.Keys && a.events.Keys == b.events.Keys;
    assert Summarise(a).ofInterest == Summarise(b).ofInterest;
    forall u | u in a.visits ensures Summarise(a).counters[u] == Summarise(b).counters[u] {
      assert EventsOf(a, u, Read) == EventsOf(b, u, Read);
      assert EventsOf(a, u, Skimmed) == EventsOf(b, u, Skimmed);
      assert a.visits[u].Count(Read) == b.visits[u].Count(Read);
      assert a.visits[u].Count(Skimmed) == b.visits[u].Count(Skimmed);
    }
  }

  /** What replicas that agree have in common. */
  lemma SummaryMeans(a: Db, b: Db)
    ensures Summarise(a) == Summarise(b) <==>
      && a.visits.Keys == b.visits.Keys && a.events.Keys == b.events.Keys
      && forall u | u in a.visits && u in b.visits ::
           && a.visits[u].ofInterest == b.visits[u].ofInterest
           && a.visits[u].read == b.visits[u].read && a.visits[u].skimmed == b.visits[u].skimmed
  {
    var s, t := Summarise(a), Summarise(b);
    if s == t {
      forall u | u in a.visits
        ensures a.visits[u].ofInterest == b.visits[u].ofInterest
        ensures a.visits[u].read == b.visits[u].read && a.visits[u].skimmed == b.visits[u].skimmed
      {
        assert u in s.ofInterest <==> u in t.ofInterest;
        assert s.counters[u] == t.counters[u];
      }
    }
  }

  /** Two runs with the same facts, in any order and with any repetition, end in
      the same summary. */
  lemma OrderFree(db: Db, a: seq<Op>, b: seq<Op>)
    requires Consistent(db) && Guarded(db.visits.Keys, a) && Guarded(db.visits.Keys, b)
    requires forall f :: InOps(a, f) <==> InOps(b, f)
    ensures Summarise(RunOps(db, a)) == Summarise(RunOps(db, b))
  {
    RunFacts(db, a);
    RunFacts(db, b);
    FactsDecide(RunOps(db, a), RunOps(db, b));
  }

  // ---------------------------------------------------------------- interleavings

  /** `trace` runs the statements of all `lists`, each list in its own order. */
  ghost predicate Interleaves(trace: seq<Op>, lists: seq<seq<Op>>)
    decreases |trace|
  {
    if trace == [] then forall i | 0 <= i < |lists| :: lists[i] == []
    else exists i :: 0 <= i < |lists| && Takes(trace, lists, i)
  }

  ghost predicate Takes(trace: seq<Op>, lists: seq<seq<Op>>, i: nat)
    requires trace != [] && i < |lists|
    decreases |trace|, 0
  {
    lists[i] != [] && lists[i][0] == trace[0] && Interleaves(trace[1..], lists[i := lists[i][1..]])
  }

  ghost predicate InLists(lists: seq<seq<Op>>, f: Fact)
  {
    exists i :: 0 <= i < |lists| && InOps(lists[i], f)
  }

  lemma {:induction false} InterleavedRun(urls: set<string>, trace: seq<Op>, lists: seq<seq<Op>>)
    requires Interleaves(trace, lists)
    requires forall i | 0 <= i < |lists| :: Guarded(urls, lists[i])
    ensures Guarded(urls, trace)
    ensures forall f :: InOps(trace, f) <==> InLists(lists, f)
    decreases |trace|
  {
    if trace != [] {
      var i :| 0 <= i < |lists| && Takes(trace, lists, i);
      var op, rest := trace[0], lists[i := lists[i][1..]];
      forall j | 0 <= j < |rest| ensures Guarded(urls + {op.Target()}, rest[j]) {
        if j != i {
          GuardedMore(urls, urls + {op.Target()}, lists[j]);
        }
      }
      InterleavedRun(urls + {op.Target()}, trace[1..], rest);
      forall f ensures InOps(trace, f) <==> InLists(lists, f) {
        InterleavedFact(trace, lists, i, f);
      }
    }
  }

  lemma InterleavedFact(trace: seq<Op>, lists: seq<seq<Op>>, i: nat, f: Fact)
    requires trace != [] && i < |lists| && lists[i] != [] && lists[i][0] == trace[0]
    requires InOps(trace[1..], f) <==> InLists(lists[i := lists[i][1..]], f)
    ensures InOps(trace, f) <==> InLists(lists, f)
  {
    var rest := lists[i := lists[i][1..]];
    InOpsHead(trace, f);
    InOpsHead(lists[i], f);
    if InLists(rest, f) {
      var j :| 0 <= j < |rest| && InOps(rest[j], f);
      assert j != i ==> InOps(lists[j], f);
    }
    if InLists(lists, f) && f != FactOf(trace[0]) {
      var j :| 0 <= j < |lists| && InOps(lists[j], f);
      assert InOps(rest[j], f);
    }
  }

  lemma InOpsHead(ops: seq<Op>, f: Fact)
    requires ops != []
    ensures InOps(ops, f) <==> f == FactOf(ops[0]) || InOps(ops[1..], f)
  {
    assert ops[0] in ops;
  }
}
