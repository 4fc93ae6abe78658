/** Rebuilding the database from the logs: the reader of action and result lines
    and the pairing of the two by record id, across any number of files. */
module Rebuilder {
  import opened Text
  import opened Tables
  import opened Replay
  import opened HostLog

  // ---------------------------------------------------------------- the reader

  predicate IsHexDigit(c: char)
  {
    '0' <= c <= '9' || 'a' <= c <= 'f'
  }

  predicate IsRecordId(s: string)
  {
    |s| == 32 && forall i | 0 <= i < |s| :: IsHexDigit(s[i])
  }

  predicate IsResult(payload: string)
  {
    payload == "success" || "error: " <= payload
  }

  datatype Entry = Blank | Malformed | Action(id: string, m: Message) | Result(id: string, success: bool)

  /** The fields of an action line after the record id. */
  function ParseAction(parts: seq<string>): Option<Message>
  {
    if |parts| == 3 then Some(Message(parts[0], parts[1], parts[2], "", ""))
    else if |parts| == 4 then Some(Message(parts[0], parts[1], parts[2], parts[3], ""))
    else if |parts| == 5 then Some(Message(parts[0], parts[1], parts[2], parts[3], parts[4]))
    else None
  }

  function Parse(line: string): Entry
  {
    var parts := Split(line, '\t');
    if line == "" then Blank
    else if !IsRecordId(parts[0]) then Malformed
    else if |parts| == 2 && IsResult(parts[1]) then Result(parts[0], parts[1] == "success")
    else match ParseAction(parts[1..])
      case Some(m) => Action(parts[0], m)
      case None => Malformed
  }

  /** Which lines are results, actions, blank and malformed. */
  lemma ParseExactly(line: string)
    ensures
      var f := Split(line, '\t');
      && (Parse(line) == Blank <==> line == "")
      && (forall id, ok :: Parse(line) == Result(id, ok) <==>
            IsRecordId(id) && |f| == 2 && f[0] == id && if ok then f[1] == "success" else "error: " <= f[1])
      && (forall id, m :: Parse(line) == Action(id, m) <==>
            && IsRecordId(id) && 4 <= |f| <= 6 && f[0] == id
            && m.timestamp == f[1] && m.url == f[2] && m.title == f[3]
            && m.tag == (if |f| >= 5 then f[4] else "") && m.filename == (if |f| == 6 then f[5] else ""))
  {
    var f := Split(line, '\t');
    if |f| == 2 && "error: " <= f[1] {
      assert f[1][0] == 'e' && "success"[0] == 's';
    }
    forall id, m
      ensures Parse(line) == Action(id, m) <==>
            && IsRecordId(id) && 4 <= |f| <= 6 && f[0] == id
            && m.timestamp == f[1] && m.url == f[2] && m.title == f[3]
            && m.tag == (if |f| >= 5 then f[4] else "") && m.filename == (if |f| == 6 then f[5] else "")
    {
      assert m == Message(m.timestamp, m.url, m.title, m.tag, m.filename);
    }
  }

  // ---------------------------------------------------------------- printer and reader

  /** What a printed message reads back as: sanitised, and without the file name
      that only events print. */
  function Printed(m: Message): Message
  {
    Message(SwiftSanitise(m.timestamp), SwiftSanitise(m.url), SwiftSanitise(m.title), m.tag,
            if EventTag(m.tag).Some? then SwiftSanitise(m.filename) else "")
  }

  lemma RecordIdsAreClean(id: string)
    requires IsRecordId(id)
    ensures Clean(id) && SwiftSanitise(id) == id
  {
    SwiftIsIdentity(id);
  }

  /** Every printed action reads back as that action, never as a result. */
  lemma ActionRoundTrip(id: string, m: Message)
    requires IsRecordId(id) && ValidTag(m.tag)
    ensures Parse(PrintAction(id, m)) == Action(id, Printed(m))
  {
    ActionFields(id, m);
    RecordIdsAreClean(id);
    TagsAreClean();
    var f := SanitiseAll(Fields(id, m));
    assert f[0] == id && f[1] == SwiftSanitise(m.timestamp) && f[2] == SwiftSanitise(m.url)
        && f[3] == SwiftSanitise(m.title);
    assert PrintAction(id, m) != "";
    assert m.tag != "" ==> f[4] == m.tag;
  }

  lemma {:induction false} SanitiseKeepsPrefix(p: string, s: string)
    requires Clean(p)
    ensures SwiftSanitise(p + s) == p + SwiftSanitise(s)
  {
    if p == "" {
      assert p + s == s;
    } else {
      assert (p + s)[0] == p[0] && (p + s)[1..] == p[1..] + s;
      SanitiseKeepsPrefix(p[1..], s);
      assert [p[0]] + (p[1..] + SwiftSanitise(s)) == p + SwiftSanitise(s);
    }
  }

  lemma ResultsStayResults(result: string)
    requires IsResult(result)
    ensures IsResult(SwiftSanitise(result))
    ensures SwiftSanitise(result) == "success" <==> result == "success"
  {
    if "error: " <= result {
      SanitiseKeepsPrefix("error: ", result[7..]);
      assert result == "error: " + result[7..];
      assert SwiftSanitise(result)[0] == 'e' && result[0] == 'e' && "success"[0] == 's';
    } else {
      SwiftIsIdentity(result);
    }
  }

  /** Every printed result reads back as that result, never as an action. */
  lemma ResultRoundTrip(id: string, result: string)
    requires IsRecordId(id) && IsResult(result)
    ensures Parse(PrintResult(id, result)) == Result(id, result == "success")
  {
    hide SwiftSanitise, Split;
    RecordIdsAreClean(id);
    var payload := SwiftSanitise(result);
    ResultsStayResults(result);
    SwiftSanitiseExact(result);
    ResultSplits(id, payload);
    assert PrintResult(id, result) != "";
  }

  lemma ResultSplits(id: string, payload: string)
    requires IsRecordId(id) && '\t' !in payload
    ensures Split(id + "\t" + payload, '\t') == [id, payload]
  {
    hide Split;
    var line := id + "\t" + payload;
    assert line[32] == '\t' && line[..32] == id && line[33..] == payload;
    RecordIdsAreClean(id);
    SplitFirst(line, '\t', 32);
    SplitWhole(payload, '\t');
  }

  // ---------------------------------------------------------------- pairing

  datatype Stats = Stats(visitsInserted: nat, ofInterestSet: nat, readEvents: nat, skimmedEvents: nat,
                         success: nat, errors: nat, orphanActions: nat, orphanResults: nat, malformed: nat)

  const NO_STATS := Stats(0, 0, 0, 0, 0, 0, 0, 0, 0)

  /** `pending` are the actions whose results have not been read yet. */
  datatype State = State(db: Db, pending: map<string, Message>, stats: Stats)

  const BLANK := State(EMPTY, map[], NO_STATS)

  /** The statements that apply an action. */
  function ActionOps(m: Message, downloads: string): seq<Op>
  {
    [InsertVisit(m.url, m.timestamp, m.title)] +
    (if m.tag == "of_interest" then [MarkInterest(m.url)]
     else match EventTag(m.tag)
       case Some(t) => [AddEvent(EventKey(t, m.url, m.timestamp), Event(PyBasename(m.filename), downloads))]
       case None => [])
  }

  /** A replayed action leaves the message's fields in the tables, the file's base
      name and Downloads. */
  lemma ActionRecords(db: Db, m: Message, downloads: string)
    ensures Records(db, RunOps(db, ActionOps(m, downloads)), m.url, m.timestamp, m.title, m.tag == "of_interest",
                    EventTag(m.tag), PyBasename(m.filename), downloads)
  {
    hide Records;
    assert ActionOps(m, downloads) ==
           VisitOps(m.url, m.timestamp, m.title, m.tag == "of_interest", EventTag(m.tag), PyBasename(m.filename),
                    downloads);
    WritesRecord(db, m.url, m.timestamp, m.title, m.tag == "of_interest", EventTag(m.tag), PyBasename(m.filename),
                 downloads);
  }

  function Tally(stats: Stats, m: Message): Stats
  {
    var s := stats.(visitsInserted := stats.visitsInserted + 1);
    if m.tag == "of_interest" then s.(ofInterestSet := s.ofInterestSet + 1)
    else match EventTag(m.tag)
      case Some(Read) => s.(readEvents := s.readEvents + 1)
      case Some(Skimmed) => s.(skimmedEvents := s.skimmedEvents + 1)
      case None => s
  }

  /** One line. */
  function Replayed(s: State, line: string, downloads: string): State
  {
    Taken(s, Parse(line), downloads)
  }

  function Taken(s: State, entry: Entry, downloads: string): State
  {
    match entry
    case Blank => s
    case Malformed => s.(stats := s.stats.(malformed := s.stats.malformed + 1))
    case Action(id, m) =>
      State(s.db, s.pending[id := m],
            if id in s.pending then s.stats.(orphanActions := s.stats.orphanActions + 1) else s.stats)
    case Result(id, success) =>
      if id !in s.pending then s.(stats := s.stats.(orphanResults := s.stats.orphanResults + 1))
      else if success then
        var t := Tally(s.stats, s.pending[id]);
        State(RunOps(s.db, ActionOps(s.pending[id], downloads)), s.pending - {id}, t.(success := t.success + 1))
      else State(s.db, s.pending - {id}, s.stats.(errors := s.stats.errors + 1))
  }

  function ReplayedAll(s: State, lines: seq<string>, downloads: string): State
  {
    if lines == [] then s
    else Replayed(ReplayedAll(s, lines[..|lines| - 1], downloads), lines[|lines| - 1], downloads)
  }

  /** The statistics as reported: what is still pending is orphaned. */
  function Report(s: State): Stats
  {
    s.stats.(orphanActions := s.stats.orphanActions + |s.pending|)
  }

  function Concat(files: seq<seq<string>>): seq<string>
  {
    if files == [] then [] else Concat(files[..|files| - 1]) + files[|files| - 1]
  }

  lemma {:induction false} ReplayConcat(s: State, a: seq<string>, b: seq<string>, downloads: string)
    ensures ReplayedAll(s, a + b, downloads) == ReplayedAll(ReplayedAll(s, a, downloads), b, downloads)
    decreases |b|
  {
    if b == [] {
      assert a + b == a;
    } else {
      assert (a + b)[..|a + b| - 1] == a + b[..|b| - 1];
      ReplayConcat(s, a, b[..|b| - 1], downloads);
    }
  }

  /** The files one after the other. */
  function ReplayedFiles(s: State, files: seq<seq<string>>, downloads: string): State
  {
    if files == [] then s
    else ReplayedAll(ReplayedFiles(s, files[..|files| - 1], downloads), files[|files| - 1], downloads)
  }

  /** Where the files are cut does not matter: not for the database, not for what
      is pending, not for any total. */
  lemma {:induction false} CutsDoNotMatter(s: State, files: seq<seq<string>>, downloads: string)
    ensures ReplayedFiles(s, files, downloads) == ReplayedAll(s, Concat(files), downloads)
    decreases |files|
  {
    if files != [] {
      var init := files[..|files| - 1];
      CutsDoNotMatter(s, init, downloads);
      ReplayConcat(s, Concat(init), files[|files| - 1], downloads);
    }
  }

  // ---------------------------------------------------------------- accounting

  function NonBlank(lines: seq<string>): nat
  {
    if lines == [] then 0
    else NonBlank(lines[..|lines| - 1]) + if lines[|lines| - 1] == "" then 0 else 1
  }

  /** Every line that was read is in one total, a pair in two lines. */
  function Accounted(t: Stats): nat
  {
    t.malformed + t.orphanResults + t.orphanActions + 2 * (t.success + t.errors)
  }

  lemma PendingSizes(p: map<string, Message>, id: string, m: Message)
    ensures |p[id := m]| == |p| + if id in p then 0 else 1
    ensures |p - {id}| == |p| - if id in p then 1 else 0
  {
    assert p[id := m].Keys == p.Keys + {id};
    assert (p - {id}).Keys == p.Keys - {id};
  }

  lemma TakenCounts(s: State, entry: Entry, downloads: string)
    ensures Accounted(Report(Taken(s, entry, downloads))) == Accounted(Report(s)) + if entry.Blank? then 0 else 1
  {
    match entry
    case Action(id, m) => PendingSizes(s.pending, id, m);
    case Result(id, _) =>
      if id in s.pending {
        PendingSizes(s.pending, id, s.pending[id]);
      }
    case _ =>
  }

  /** Each success is one visit and at most one tag. */
  predicate Tallied(t: Stats)
  {
    t.visitsInserted == t.success && t.ofInterestSet + t.readEvents + t.skimmedEvents <= t.success
  }

  lemma TakenTallies(s: State, entry: Entry, downloads: string)
    requires Tallied(s.stats)
    ensures Tallied(Taken(s, entry, downloads).stats)
  {
  }

  /** Over any lines, well-formed or not. */
  lemma {:induction false} EveryLineIsAccountedFor(lines: seq<string>, downloads: string)
    ensures
      var t := Report(ReplayedAll(BLANK, lines, downloads));
      && NonBlank(lines) == t.malformed + t.orphanResults + t.orphanActions + 2 * (t.success + t.errors)
      && t.visitsInserted == t.success
      && t.ofInterestSet + t.readEvents + t.skimmedEvents <= t.success
  {
    if lines != [] {
      var s, line := ReplayedAll(BLANK, lines[..|lines| - 1], downloads), lines[|lines| - 1];
      EveryLineIsAccountedFor(lines[..|lines| - 1], downloads);
      TakenCounts(s, Parse(line), downloads);
      TakenTallies(s, Parse(line), downloads);
    }
  }

  datatype Kind = MalformedLine | ActionLine | SuccessLine | ErrorLine

  function KindOf(line: string): set<Kind>
  {
    match Parse(line)
    case Blank => {}
    case Malformed => {MalformedLine}
    case Action(_, _) => {ActionLine}
    case Result(_, success) => {if success then SuccessLine else ErrorLine}
  }

  function Number(lines: seq<string>, kind: Kind): nat
  {
    if lines == [] then 0
    else Number(lines[..|lines| - 1], kind) + if kind in KindOf(lines[|lines| - 1]) then 1 else 0
  }

  /** What one entry does to the totals: its own kind's go up. */
  lemma TakenKinds(s: State, entry: Entry, downloads: string)
    ensures
      var was, t := Report(s), Report(Taken(s, entry, downloads));
      && t.malformed == was.malformed + (if entry.Malformed? then 1 else 0)
      && t.success + t.errors + t.orphanActions
         == was.success + was.errors + was.orphanActions + (if entry.Action? then 1 else 0)
      && t.success + t.errors + t.orphanResults
         == was.success + was.errors + was.orphanResults + (if entry.Result? then 1 else 0)
  {
    hide RunOps, ActionOps;
    match entry
    case Action(id, m) => PendingSizes(s.pending, id, m);
    case Result(id, _) =>
      if id in s.pending {
        PendingSizes(s.pending, id, s.pending[id]);
      }
    case _ =>
  }

  lemma TakenResults(s: State, entry: Entry, downloads: string)
    ensures
      var was, t := s.stats, Taken(s, entry, downloads).stats;
      && t.success <= was.success + (if entry.Result? && entry.success then 1 else 0)
      && t.errors <= was.errors + (if entry.Result? && !entry.success then 1 else 0)
  {
    hide RunOps, ActionOps;
  }

  /** Each total, by the kind of line: an action is paired or orphaned, a result is
      paired or orphaned, and a pair counts as what its result says. */
  lemma {:induction false} KindsAreCounted(lines: seq<string>, downloads: string)
    ensures
      var t := Report(ReplayedAll(BLANK, lines, downloads));
      && t.malformed == Number(lines, MalformedLine)
      && t.success + t.errors + t.orphanActions == Number(lines, ActionLine)
      && t.success + t.errors + t.orphanResults == Number(lines, SuccessLine) + Number(lines, ErrorLine)
      && t.success <= Number(lines, SuccessLine) && t.errors <= Number(lines, ErrorLine)
  {
    hide Taken, Parse;
    if lines != [] {
      var init, last := lines[..|lines| - 1], lines[|lines| - 1];
      var s := ReplayedAll(BLANK, init, downloads);
      KindsAreCounted(init, downloads);
      TakenKinds(s, Parse(last), downloads);
      TakenResults(s, Parse(last), downloads);
    }
  }

  // ---------------------------------------------------------------- the rebuilt tables are sound

  lemma ActionOpsGuarded(m: Message, downloads: string, urls: set<string>)
    ensures Guarded(urls, ActionOps(m, downloads))
  {
    var ops := ActionOps(m, downloads);
    if |ops| == 2 {
      assert ops[1..] == [ops[1]];
      assert Guarded(urls + {ops[0].Target()}, ops[1..]);
    } else {
      assert ops[1..] == [];
    }
  }

  /** Whatever the files hold, the counters come out right. */
  lemma {:induction false} RebuiltIsConsistent(s: State, lines: seq<string>, downloads: string)
    requires Consistent(s.db)
    ensures Consistent(ReplayedAll(s, lines, downloads).db)
    decreases |lines|
  {
    if lines != [] {
      RebuiltIsConsistent(s, lines[..|lines| - 1], downloads);
      var t := ReplayedAll(s, lines[..|lines| - 1], downloads);
      match Parse(lines[|lines| - 1])
      case Result(id, _) =>
        if id in t.pending {
          ActionOpsGuarded(t.pending[id], downloads, t.db.visits.Keys);
          RunFacts(t.db, ActionOps(t.pending[id], downloads));
        }
      case _ =>
    }
  }

  // ---------------------------------------------------------------- a part that is replayed twice

  /** The actions that `lines` alone leave pending. */
  function Open(lines: seq<string>): map<string, Message>
  {
    if lines == [] then map[] else PendingNext(Open(lines[..|lines| - 1]), Parse(lines[|lines| - 1]))
  }

  ghost predicate HasResult(lines: seq<string>, id: string)
  {
    exists i :: 0 <= i < |lines| && Parse(lines[i]).Result? && Parse(lines[i]).id == id
  }

  /** No record both has a result in `lines` and is left pending by them; it holds
      when every record id is used once and actions come before their results. */
  ghost predicate Settled(lines: seq<string>)
  {
    forall id | id in Open(lines) :: !HasResult(lines, id)
  }

  ghost predicate ActionsFirst(lines: seq<string>)
  {
    forall i, j | 0 <= i < j < |lines| && Parse(lines[i]).Result? && Parse(lines[j]).Action? ::
      Parse(lines[i]).id != Parse(lines[j]).id
  }

  lemma {:induction false} OpenHasNoResult(lines: seq<string>)
    requires ActionsFirst(lines)
    ensures Settled(lines)
  {
    if lines != [] {
      var init := lines[..|lines| - 1];
      OpenHasNoResult(init);
      forall id | id in Open(lines) ensures !HasResult(lines, id) {
        if HasResult(lines, id) {
          var i :| 0 <= i < |lines| && Parse(lines[i]).Result? && Parse(lines[i]).id == id;
          assert i < |init| ==> Parse(init[i]).Result? && HasResult(init, id);
        }
      }
    }
  }

  predicate About(entry: Entry, id: string)
  {
    (entry.Action? || entry.Result?) && entry.id == id
  }

  ghost predicate Touched(lines: seq<string>, id: string)
  {
    exists i :: 0 <= i < |lines| && About(Parse(lines[i]), id)
  }

  lemma TouchedNext(lines: seq<string>, id: string)
    requires lines != []
    ensures Touched(lines, id) <==> Touched(lines[..|lines| - 1], id) || About(Parse(lines[|lines| - 1]), id)
  {
    var init := lines[..|lines| - 1];
    if Touched(init, id) {
      var i :| 0 <= i < |init| && About(Parse(init[i]), id);
      assert lines[i] == init[i];
    }
    if Touched(lines, id) {
      var i :| 0 <= i < |lines| && About(Parse(lines[i]), id);
      assert i < |init| ==> init[i] == lines[i];
    }
  }

  /** Of the records that some lines mention it is those lines alone that decide
      what is pending afterwards; the others stay as they were. */
  ghost predicate PendingIs(before: map<string, Message>, lines: seq<string>, after: map<string, Message>)
  {
    forall id :: PendingOf(before, lines, after, id)
  }

  predicate SameAt(p: map<string, Message>, q: map<string, Message>, id: string)
  {
    (id in p <==> id in q) && (id in p ==> p[id] == q[id])
  }

  ghost predicate PendingOf(before: map<string, Message>, lines: seq<string>, after: map<string, Message>, id: string)
  {
    && (id in Open(lines) ==> Touched(lines, id))
    && SameAt(after, if Touched(lines, id) then Open(lines) else before, id)
  }

  function PendingNext(p: map<string, Message>, entry: Entry): map<string, Message>
  {
    match entry
    case Action(id, m) => p[id := m]
    case Result(id, _) => p - {id}
    case _ => p
  }

  lemma PendingStep(before: map<string, Message>, lines: seq<string>, p: map<string, Message>)
    requires lines != [] && PendingIs(before, lines[..|lines| - 1], p)
    ensures PendingIs(before, lines, PendingNext(p, Parse(lines[|lines| - 1])))
  {
    var init, e := lines[..|lines| - 1], Parse(lines[|lines| - 1]);
    forall id ensures PendingOf(before, lines, PendingNext(p, e), id) {
      assert PendingOf(before, init, p, id);
      TouchedNext(lines, id);
    }
  }

  lemma {:induction false} PendingAfter(s: State, lines: seq<string>, downloads: string)
    ensures PendingIs(s.pending, lines, ReplayedAll(s, lines, downloads).pending)
    decreases |lines|
  {
    if lines != [] {
      PendingAfter(s, lines[..|lines| - 1], downloads);
      var was := ReplayedAll(s, lines[..|lines| - 1], downloads);
      PendingStep(s.pending, lines, was.pending);
      TakenPending(was, Parse(lines[|lines| - 1]), downloads);
    }
  }

  lemma TakenPending(s: State, entry: Entry, downloads: string)
    ensures Taken(s, entry, downloads).pending == PendingNext(s.pending, entry)
  {
    if entry.Result? && entry.id !in s.pending {
      assert s.pending - {entry.id} == s.pending;
    }
  }

  /** The i-th line is a success whose record the part mentions here for the first
      time, although it leaves it open: the result came before its action. */
  ghost predicate TooEarly(part: seq<string>, i: nat)
    requires i < |part|
  {
    var e := Parse(part[i]);
    e.Result? && e.success && !Touched(part[..i], e.id) && e.id in Open(part)
  }

  /** What such a success applies in the second pass the database says already. */
  ghost predicate Repeats(part: seq<string>, db: Db, downloads: string)
  {
    forall i, op | 0 <= i < |part| && TooEarly(part, i) && op in ActionOps(Open(part)[Parse(part[i]).id], downloads) ::
      InDb(db, FactOf(op))
  }

  /** What a success line of the second pass applies. */
  lemma SecondResult(s: State, t: State, lines: seq<string>, n: nat, downloads: string)
    requires n < |lines| && t.pending == ReplayedAll(s, lines, downloads).pending
    requires Parse(lines[n]).Result?
    ensures
      var id, u := Parse(lines[n]).id, ReplayedAll(t, lines[..n], downloads);
      if Touched(lines[..n], id) then
        (id in u.pending <==> id in Open(lines[..n])) && (id in u.pending ==> u.pending[id] == Open(lines[..n])[id])
      else (id in u.pending <==> id in Open(lines)) && (id in u.pending ==> u.pending[id] == Open(lines)[id])
  {
    var id := Parse(lines[n]).id;
    PendingAfter(t, lines[..n], downloads);
    PendingAfter(s, lines, downloads);
    assert PendingOf(t.pending, lines[..n], ReplayedAll(t, lines[..n], downloads).pending, id);
    assert PendingOf(s.pending, lines, t.pending, id);
    assert Touched(lines, id) by {
      assert About(Parse(lines[n]), id);
    }
  }

  /** The second pass over the first n lines changes nothing in the database. */
  lemma {:induction false} SecondPass(s: State, t: State, lines: seq<string>, n: nat, downloads: string)
    requires Consistent(s.db) && n <= |lines| && Repeats(lines, t.db, downloads)
    requires t.db == ReplayedAll(s, lines, downloads).db && t.pending == ReplayedAll(s, lines, downloads).pending
    ensures ReplayedAll(t, lines[..n], downloads).db == t.db
  {
    if n > 0 {
      SecondPass(s, t, lines, n - 1, downloads);
      var u := ReplayedAll(t, lines[..n - 1], downloads);
      assert lines[..n][..n - 1] == lines[..n - 1] && lines[..n][n - 1] == lines[n - 1];
      match Parse(lines[n - 1])
      case Result(id, success) =>
        SecondResult(s, t, lines, n - 1, downloads);
        if id in u.pending && success {
          if Touched(lines[..n - 1], id) {
            AppliedBefore(s, lines, n - 1, downloads);
          } else {
            assert TooEarly(lines, n - 1);
          }
          RunIdempotent(u.db, ActionOps(u.pending[id], downloads));
        }
      case _ =>
    }
  }

  /** A success that comes too early applies its record's action in the second pass. */
  lemma AppliedLate(s: State, t: State, lines: seq<string>, i: nat, op: Op, downloads: string)
    requires i < |lines| && TooEarly(lines, i) && op in ActionOps(Open(lines)[Parse(lines[i]).id], downloads)
    requires t.pending == ReplayedAll(s, lines, downloads).pending
    ensures InDb(ReplayedAll(t, lines, downloads).db, FactOf(op))
  {
    var id, u := Parse(lines[i]).id, ReplayedAll(t, lines[..i], downloads);
    SecondResult(s, t, lines, i, downloads);
    ActionOpsGuarded(u.pending[id], downloads, u.db.visits.Keys);
    RunFacts(u.db, ActionOps(u.pending[id], downloads));
    assert InOps(ActionOps(u.pending[id], downloads), FactOf(op));
    assert lines[..i + 1][..i] == lines[..i];
    FactsStayToTheEnd(t, lines, i + 1, downloads, FactOf(op));
  }

  /** A success that pairs inside `lines` has been applied by the end of them. */
  lemma AppliedBefore(s: State, lines: seq<string>, i: nat, downloads: string)
    requires Consistent(s.db) && i < |lines| && Parse(lines[i]).Result? && Parse(lines[i]).success
    requires Parse(lines[i]).id in Open(lines[..i])
    ensures
      var m := Open(lines[..i])[Parse(lines[i]).id];
      forall op | op in ActionOps(m, downloads) :: InDb(ReplayedAll(s, lines, downloads).db, FactOf(op))
  {
    var id := Parse(lines[i]).id;
    var m := Open(lines[..i])[id];
    var t := ReplayedAll(s, lines[..i], downloads);
    PendingAfter(s, lines[..i], downloads);
    assert PendingOf(s.pending, lines[..i], t.pending, id);
    ActionOpsGuarded(m, downloads, t.db.visits.Keys);
    RunFacts(t.db, ActionOps(m, downloads));
    var after := ReplayedAll(s, lines[..i + 1], downloads);
    assert lines[..i + 1][..i] == lines[..i];
    assert after.db == RunOps(t.db, ActionOps(m, downloads));
    forall op | op in ActionOps(m, downloads) ensures InDb(ReplayedAll(s, lines, downloads).db, FactOf(op)) {
      assert InOps(ActionOps(m, downloads), FactOf(op));
      FactsStayToTheEnd(s, lines, i + 1, downloads, FactOf(op));
    }
  }

  lemma FactsStayToTheEnd(s: State, lines: seq<string>, n: nat, downloads: string, f: Fact)
    requires n <= |lines| && InDb(ReplayedAll(s, lines[..n], downloads).db, f)
    ensures InDb(ReplayedAll(s, lines, downloads).db, f)
  {
    ReplayConcat(s, lines[..n], lines[n..], downloads);
    assert lines[..n] + lines[n..] == lines;
    FactsStay(ReplayedAll(s, lines[..n], downloads), lines[n..], downloads, f);
  }

  lemma {:induction false} FactsStay(s: State, lines: seq<string>, downloads: string, f: Fact)
    requires InDb(s.db, f)
    ensures InDb(ReplayedAll(s, lines, downloads).db, f)
    decreases |lines|
  {
    if lines != [] {
      FactsStay(s, lines[..|lines| - 1], downloads, f);
      var t := ReplayedAll(s, lines[..|lines| - 1], downloads);
      match Parse(lines[|lines| - 1])
      case Result(id, _) =>
        if id in t.pending {
          ActionOpsGuarded(t.pending[id], downloads, t.db.visits.Keys);
          RunFacts(t.db, ActionOps(t.pending[id], downloads));
        }
      case _ =>
    }
  }

  lemma SameMaps(p: map<string, Message>, q: map<string, Message>)
    requires forall id :: SameAt(p, q, id)
    ensures p == q
  {
    forall id ensures id in p <==> id in q {
      assert SameAt(p, q, id);
    }
    forall id | id in p ensures p[id] == q[id] {
      assert SameAt(p, q, id);
    }
  }

  /** The part once and twice, from any state on. */
  lemma TwiceExactly(s: State, part: seq<string>, downloads: string)
    requires Consistent(s.db)
    ensures
      var t := ReplayedAll(s, part, downloads);
      var u := ReplayedAll(t, part, downloads);
      u.pending == t.pending && (u.db == t.db <==> Repeats(part, t.db, downloads))
  {
    var t := ReplayedAll(s, part, downloads);
    var u := ReplayedAll(t, part, downloads);
    PendingAfter(s, part, downloads);
    PendingAfter(t, part, downloads);
    forall id ensures SameAt(u.pending, t.pending, id) {
      assert PendingOf(s.pending, part, t.pending, id) && PendingOf(t.pending, part, u.pending, id);
    }
    SameMaps(u.pending, t.pending);
    if Repeats(part, t.db, downloads) {
      SecondPass(s, t, part, |part|, downloads);
      assert part[..|part|] == part;
    }
    if u.db == t.db {
      forall i, op | 0 <= i < |part| && TooEarly(part, i) && op in ActionOps(Open(part)[Parse(part[i]).id], downloads)
        ensures InDb(t.db, FactOf(op))
      {
        AppliedLate(s, t, part, i, op, downloads);
      }
    }
  }

  /** A part of the log that was appended twice because a merge died before it
      removed its source.  What is pending comes out the same in any case; the
      database comes out the same, whatever follows, exactly if the only records
      whose success the part holds before their action say nothing new. */
  lemma DuplicateIsHarmless(before: seq<string>, part: seq<string>, downloads: string)
    ensures (forall rest :: SameTables(before + part + rest, before + part + part + rest, downloads))
       <==> Repeats(part, ReplayedAll(BLANK, before + part, downloads).db, downloads)
  {
    var s := ReplayedAll(BLANK, before, downloads);
    var t := ReplayedAll(s, part, downloads);
    var u := ReplayedAll(t, part, downloads);
    EmptyIsConsistent();
    RebuiltIsConsistent(BLANK, before, downloads);
    TwiceExactly(s, part, downloads);
    ReplayConcat(BLANK, before, part, downloads);
    ReplayConcat(BLANK, before + part, part, downloads);
    if u.db == t.db {
      forall rest ensures SameTables(before + part + rest, before + part + part + rest, downloads) {
        ReplayConcat(BLANK, before + part, rest, downloads);
        ReplayConcat(BLANK, before + part + part, rest, downloads);
        SameButStats(t, u, rest, downloads);
      }
    } else {
      assert before + part + [] == before + part && before + part + part + [] == before + part + part;
      assert !SameTables(before + part + [], before + part + part + [], downloads);
    }
  }

  /** Two logs that replay to the same database and the same pending actions. */
  ghost predicate SameTables(a: seq<string>, b: seq<string>, downloads: string)
  {
    var x, y := ReplayedAll(BLANK, a, downloads), ReplayedAll(BLANK, b, downloads);
    x.db == y.db && x.pending == y.pending
  }

  /** No success comes too early in a part in which no record is both closed and
      left open; in particular if actions come before their results. */
  lemma SettledRepeats(part: seq<string>, db: Db, downloads: string)
    requires Settled(part)
    ensures Repeats(part, db, downloads)
  {
    forall i | 0 <= i < |part| ensures !TooEarly(part, i) {
      if Parse(part[i]).Result? {
        assert HasResult(part, Parse(part[i]).id);
      }
    }
  }

  lemma {:induction false} SameButStats(s: State, t: State, lines: seq<string>, downloads: string)
    requires s.db == t.db && s.pending == t.pending
    ensures
      var a, b := ReplayedAll(s, lines, downloads), ReplayedAll(t, lines, downloads);
      a.db == b.db && a.pending == b.pending
    decreases |lines|
  {
    if lines != [] {
      SameButStats(s, t, lines[..|lines| - 1], downloads);
    }
  }

  /** An instance, which no host prints: a part that starts with a record's success
      and goes on with its action applies nothing once, and the action twice. */
  lemma DuplicateCanHarm(id: string, m: Message, downloads: string)
    requires IsRecordId(id) && ValidTag(m.tag)
    ensures
      var part := [PrintResult(id, "success"), PrintAction(id, m)];
      && !Settled(part)
      && ReplayedAll(BLANK, part, downloads).db == EMPTY
      && ReplayedAll(BLANK, part + part, downloads).db != EMPTY
  {
    var part, now := [PrintResult(id, "success"), PrintAction(id, m)], Printed(m);
    ResultBeforeAction(BLANK, id, m, downloads);
    var s := ReplayedAll(BLANK, part, downloads);
    ResultBeforeAction(s, id, m, downloads);
    ReplayConcat(BLANK, part, part, downloads);
    ResultFirst(id, m);
    var ops := ActionOps(now, downloads);
    ActionOpsGuarded(now, downloads, {});
    RunFacts(EMPTY, ops);
    assert ops[0] in ops && InOps(ops, Url(now.url)) && InDb(RunOps(EMPTY, ops), Url(now.url));
  }

  lemma ResultFirst(id: string, m: Message)
    requires IsRecordId(id) && ValidTag(m.tag)
    ensures !Settled([PrintResult(id, "success"), PrintAction(id, m)])
  {
    var part := [PrintResult(id, "success"), PrintAction(id, m)];
    ResultRoundTrip(id, "success");
    ActionRoundTrip(id, m);
    assert part[..1] == [part[0]];
    assert HasResult(part, id) by {
      assert Parse(part[0]).Result?;
    }
    TwoLines(BLANK, part[0], part[1], "");
    assert id in ReplayedAll(BLANK, part, "").pending;
  }

  /** A success line applies what is open; the action after it opens the record. */
  lemma ResultBeforeAction(s: State, id: string, m: Message, downloads: string)
    requires IsRecordId(id) && ValidTag(m.tag)
    ensures
      var now := ReplayedAll(s, [PrintResult(id, "success"), PrintAction(id, m)], downloads);
      && now.pending == s.pending[id := Printed(m)]
      && now.db == if id in s.pending then RunOps(s.db, ActionOps(s.pending[id], downloads)) else s.db
  {
    ResultRoundTrip(id, "success");
    ActionRoundTrip(id, m);
    TwoLines(s, PrintResult(id, "success"), PrintAction(id, m), downloads);
  }

  lemma TwoLines(s: State, x: string, y: string, downloads: string)
    ensures ReplayedAll(s, [x, y], downloads) == Replayed(Replayed(s, x, downloads), y, downloads)
  {
    assert [x, y][..1] == [x] && [x][..0] == [];
    assert ReplayedAll(s, [x], downloads) == Replayed(ReplayedAll(s, [], downloads), x, downloads);
  }
}
