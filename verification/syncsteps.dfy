/** What a sync does to a laptop's tables, mirrors and requests, as functions and
    predicates: batches, marks and cursors, chunks applied whole or given up. */
module SyncSteps {
  import Text
  import opened Dates
  import opened DayLogs
  import opened Tables
  import opened Replay
  import opened Mirror
  import opened LogStore
  import opened SyncServer

  const PUSH_BATCH: nat := 500

  // ---------------------------------------------------------------- batches

  /** Lines collected one by one: the batches that became full and the batch
      being filled. */
  datatype Packed = Packed(full: seq<seq<LogLine>>, rest: seq<LogLine>)

  function PackLine(p: Packed, l: LogLine): Packed
  {
    var rest := p.rest + [l];
    if |rest| >= PUSH_BATCH then Packed(p.full + [rest], []) else Packed(p.full, rest)
  }

  function Pack(s: seq<LogLine>): Packed
  {
    if s == [] then Packed([], []) else PackLine(Pack(s[..|s| - 1]), s[|s| - 1])
  }

  /** The requests that carry `s`. */
  function Requests(s: seq<LogLine>): seq<seq<LogLine>>
  {
    Pack(s).full + (if Pack(s).rest == [] then [] else [Pack(s).rest])
  }

  function Flatten(parts: seq<seq<LogLine>>): seq<LogLine>
  {
    if parts == [] then [] else Flatten(parts[..|parts| - 1]) + parts[|parts| - 1]
  }

  lemma FlattenSnoc(parts: seq<seq<LogLine>>, last: seq<LogLine>)
    ensures Flatten(parts + [last]) == Flatten(parts) + last
  {
    assert (parts + [last])[..|parts|] == parts;
  }

  ghost predicate FullBatches(p: Packed)
  {
    |p.rest| < PUSH_BATCH && forall i | 0 <= i < |p.full| :: |p.full[i]| == PUSH_BATCH
  }

  lemma PackLineKeeps(p: Packed, l: LogLine)
    requires FullBatches(p)
    ensures FullBatches(PackLine(p, l))
    ensures Flatten(PackLine(p, l).full) + PackLine(p, l).rest == Flatten(p.full) + p.rest + [l]
  {
    var rest := p.rest + [l];
    FlattenSnoc(p.full, rest);
    assert Flatten(p.full) + p.rest + [l] == Flatten(p.full) + rest;
    assert Flatten(p.full) + rest + [] == Flatten(p.full) + rest;
  }

  lemma {:induction false} PackKeeps(s: seq<LogLine>)
    ensures FullBatches(Pack(s))
    ensures Flatten(Pack(s).full) + Pack(s).rest == s
  {
    if s != [] {
      PackKeeps(s[..|s| - 1]);
      PackLineKeeps(Pack(s[..|s| - 1]), s[|s| - 1]);
      assert s[..|s| - 1] + [s[|s| - 1]] == s;
    }
  }

  /** The requests carry the pending lines, all of them once and in order, at most
      PUSH_BATCH in each and none empty. */
  lemma RequestsCarry(s: seq<LogLine>)
    ensures Flatten(Requests(s)) == s
    ensures forall i | 0 <= i < |Requests(s)| :: 1 <= |Requests(s)[i]| <= PUSH_BATCH
  {
    PackKeeps(s);
    var p := Pack(s);
    FlattenSnoc(p.full, p.rest);
    assert p.full + [] == p.full;
  }

  lemma {:induction false} PackGrows(s: seq<LogLine>, n: nat)
    requires n <= |s|
    ensures Pack(s[..n]).full <= Pack(s).full
  {
    if n == |s| {
      assert s[..n] == s;
    } else {
      PackGrows(s[..|s| - 1], n);
      assert s[..|s| - 1][..n] == s[..n];
    }
  }

  // ---------------------------------------------------------------- the laptop's tables

  /** The laptop's database file as far as syncing uses it.  `errors` holds the
      attempts of each recorded failure. */
  datatype LaptopTables = LaptopTables(db: Db, sync: map<string, Cursor>, errors: map<string, nat>)

  function GetCursor(t: LaptopTables, machine: string): Cursor
  {
    if machine in t.sync then t.sync[machine] else START
  }

  function SetCursor(t: LaptopTables, machine: string, c: Cursor): LaptopTables
  {
    t.(sync := t.sync[machine := c])
  }

  /** Recording an attempt creates the machine's row with the column defaults. */
  function MarkAttempt(t: LaptopTables, machine: string): LaptopTables
  {
    if machine in t.sync then t else t.(sync := t.sync[machine := Cursor(NO_DATE, 0)])
  }

  function RecordError(t: LaptopTables, key: string): LaptopTables
  {
    t.(errors := t.errors[key := (if key in t.errors then t.errors[key] else 0) + 1])
  }

  function ClearError(t: LaptopTables, key: string): LaptopTables
  {
    t.(errors := t.errors - {key})
  }

  /** Recording an attempt before the first push changes no line that is
      pending, and no row that is there. */
  lemma MarkAttemptIsHarmless(t: LaptopTables, machine: string, log: DayLog)
    requires Dated(log)
    ensures After(log, GetCursor(MarkAttempt(t, machine), machine)) == After(log, GetCursor(t, machine))
    ensures MarkAttempt(t, machine).sync.Keys == t.sync.Keys + {machine}
    ensures forall p | p in t.sync :: MarkAttempt(t, machine).sync[p] == t.sync[p]
    ensures MarkAttempt(t, machine).db == t.db && MarkAttempt(t, machine).errors == t.errors
  {
    EmptyDateCursor(log, 0);
  }

  /** When a day's file is moved away (its seal), the next push still sends every
      pending line exactly if the cursor already covers that file. */
  lemma SealBeforePush(log: DayLog, c: Cursor, d: Date)
    ensures After(log - {d}, c) == After(log, c)
       <==> forall l | Has(log, l) && l.date == d :: !Past(l, c)
  {
    var rest := log - {d};
    AfterMembers(log, c);
    AfterMembers(rest, c);
    if After(rest, c) == After(log, c) {
      forall l | Has(log, l) && l.date == d ensures !Past(l, c) {
        assert !Has(rest, l) && l !in After(rest, c);
      }
    }
    if forall l | Has(log, l) && l.date == d :: !Past(l, c) {
      var a, b := After(log, c), After(rest, c);
      forall l ensures l in a <==> l in b {
        assert l.date != d ==> (Has(log, l) <==> Has(rest, l));
      }
      SortedPrefix(a, b);
      SortedPrefix(b, a);
    }
  }

  // ---------------------------------------------------------------- pulled lines

  function AppendPeerLine(peers: map<string, Files>, peer: string, l: LogLine): map<string, Files>
  {
    var files := if peer in peers then peers[peer] else map[];
    peers[peer := files[l.date := Content(files, l.date) + l.raw + "\n"]]
  }

  function AppendPeerLines(peers: map<string, Files>, peer: string, lines: seq<LogLine>): map<string, Files>
  {
    if lines == [] then peers
    else AppendPeerLine(AppendPeerLines(peers, peer, lines[..|lines| - 1]), peer, lines[|lines| - 1])
  }

  function LineOps(lines: seq<LogLine>, directory: string): seq<Op>
  {
    if lines == [] then [] else LineOps(lines[..|lines| - 1], directory) + PyOps(lines[|lines| - 1].raw, directory)
  }

  /** The laptop's own log files as Python reads them. */
  function LocalLog(files: Files): DayLog
  {
    map d | d in files :: Text.FileLines(files[d])
  }

  /** What a laptop holds after pulling. */
  datatype Pull = Pull(tables: LaptopTables, peers: map<string, Files>)

  /** One chunk applied to the end: lines mirrored, replayed, cursor moved. */
  function PullChunk(s: Pull, c: Chunk, directory: string): Pull
  {
    var t := s.tables.(db := RunOps(s.tables.db, LineOps(c.lines, directory)));
    Pull(SetCursor(t, c.peer, if c.lines == [] then GetCursor(t, c.peer) else At(c.lines[|c.lines| - 1])),
         AppendPeerLines(s.peers, c.peer, c.lines))
  }

  function PullChunks(s: Pull, chunks: seq<Chunk>, directory: string): Pull
  {
    if chunks == [] then s else PullChunk(PullChunks(s, chunks[..|chunks| - 1], directory), chunks[|chunks| - 1],
      directory)
  }

  /** The statements of all lines but the last, and `done` of the last one's. */
  function PartOps(lines: seq<LogLine>, done: nat, directory: string): seq<Op>
    requires lines != [] ==> done <= |PyOps(lines[|lines| - 1].raw, directory)|
  {
    if lines == [] then []
    else LineOps(lines[..|lines| - 1], directory) + PyOps(lines[|lines| - 1].raw, directory)[..done]
  }

  /** How far a chunk got: `lines` were mirrored, all but the last of them replayed,
      and of the last one `done` statements ran; `torn` says that its event row was
      inserted and its counter was not moved. */
  datatype Part = Part(lines: nat, done: nat, torn: bool)

  /** A chunk given up in the middle, the cursor where it was. */
  ghost predicate GivenUp(was: Pull, now: Pull, c: Chunk, p: Part, directory: string)
  {
    && p.lines <= |c.lines| && now.tables == was.tables.(db := now.tables.db)
    && now.peers == AppendPeerLines(was.peers, c.peer, c.lines[..p.lines])
    && PartlyRun(was.tables.db, now.tables.db, c.lines[..p.lines], p, directory)
  }

  ghost predicate PartlyRun(was: Db, now: Db, lines: seq<LogLine>, p: Part, directory: string)
  {
    if lines == [] then now == was
    else
      var last := PyOps(lines[|lines| - 1].raw, directory);
      if p.torn then TornLine(RunOps(was, LineOps(lines[..|lines| - 1], directory)), last, now)
      else p.done <= |last| && now == RunOps(was, PartOps(lines, p.done, directory))
  }

  lemma GivesUp(was: Pull, now: Pull, c: Chunk, p: Part, directory: string)
    requires p.lines <= |c.lines| && now.tables == was.tables.(db := now.tables.db)
    requires now.peers == AppendPeerLines(was.peers, c.peer, c.lines[..p.lines])
    requires PartlyRun(was.tables.db, now.tables.db, c.lines[..p.lines], p, directory)
    ensures GivenUp(was, now, c, p, directory)
  {
  }

  /** How a pull ended: after `chunks` whole chunks, with a part of one more. */
  datatype Ending = Ending(chunks: nat, part: Part)

  const NO_PART := Part(0, 0, false)

  ghost predicate EndsAt(was: Pull, now: Pull, chunks: seq<Chunk>, e: Ending, directory: string)
  {
    && e.chunks <= |chunks|
    && if e.chunks == |chunks| then e.part == NO_PART && now == PullChunks(was, chunks, directory)
       else GivenUp(PullChunks(was, chunks[..e.chunks], directory), now, chunks[e.chunks], e.part, directory)
  }

  /** The line's event row was inserted and its counter was not moved. */
  predicate TornLine(was: Db, ops: seq<Op>, now: Db)
  {
    && |ops| == 2 && ops[1].AddEvent? && ops[1].key !in was.events
    && now == InsertEventRow(RunOp(was, ops[0]), ops[1].key, ops[1].row)
  }

  /** Committing such a state, as the program does after an error, breaks the
      counters for good: no redelivery of the line changes anything any more. */
  lemma TornLineStays(was: Db, raw: string, directory: string, now: Db)
    requires Consistent(was) && TornLine(was, PyOps(raw, directory), now)
    ensures !Consistent(now)
    ensures RunOps(now, PyOps(raw, directory)) == now
  {
    var ops := PyOps(raw, directory);
    LinesGuarded(raw, directory, was.visits.Keys);
    assert Guarded(was.visits.Keys, [ops[0]]);
    StepConsistent(was, ops[0]);
    StepFacts(was, ops[0]);
    TornEvent(RunOp(was, ops[0]), ops[1].key, ops[1].row, ops[1].row);
    assert ops[0].url == ops[1].key.url;
    StepIdempotent(now, ops[0]);
    RunShort(now, ops);
    assert ops[..2] == ops;
  }

  // ---------------------------------------------------------------- a push

  /** The cursors after a push that went through. */
  ghost function AfterPush(t: LaptopTables, machine: string, log: DayLog): map<string, Cursor>
  {
    var pending := After(log, GetCursor(t, machine));
    if pending == [] then t.sync else t.sync[machine := At(pending[|pending| - 1])]
  }

  /** The tables after a push that went through, but for the errors it recorded. */
  ghost function Pushed(start: LaptopTables, machine: string, log: DayLog): LaptopTables
  {
    var marked := MarkAttempt(start, machine);
    marked.(sync := AfterPush(marked, machine, log))
  }

  lemma PushedKnows(start: LaptopTables, machine: string, log: DayLog)
    ensures machine in Pushed(start, machine, log).sync && Pushed(start, machine, log).db == start.db
  {
  }

  lemma SyncEnds(machine: string, mid: LaptopTables, end: LaptopTables, pushed: LaptopTables,
                 was: map<string, Files>, now: map<string, Files>, chunks: seq<Chunk>, e: Ending, directory: string)
    requires mid.db == pushed.db && mid.sync == pushed.sync && machine in mid.sync
    requires EndsAt(Pull(mid, was), Pull(end.(errors := mid.errors), now), chunks, e, directory)
    ensures MarkAttempt(end, machine).db == end.db && MarkAttempt(end, machine).sync == end.sync
    ensures EndsAt(Pull(pushed, was), Pull(end.(errors := pushed.errors), now), chunks, e, directory)
  {
    assert mid.(errors := pushed.errors) == pushed;
    EndsAtErrors(Pull(mid, was), Pull(end.(errors := mid.errors), now), chunks, e, directory, pushed.errors);
    EndsAtKeepsRows(Pull(mid, was), Pull(end.(errors := mid.errors), now), chunks, e, directory, machine);
  }

  function LastOf(s: seq<LogLine>, c: Cursor): Cursor
  {
    if s == [] then c else At(s[|s| - 1])
  }

  /** The last batch that became full was refused. */
  ghost predicate Refused(now: seq<seq<LogLine>>, was: seq<seq<LogLine>>, seen: seq<LogLine>)
  {
    var full := Pack(seen).full;
    full != [] && now == was + full[..|full| - 1]
  }

  lemma KeepNext(sent: seq<LogLine>, numbered: seq<LogLine>, i: nat, c: Cursor)
    requires i < |numbered|
    ensures sent + Keep(numbered[..i + 1], c)
         == sent + Keep(numbered[..i], c) + (if Past(numbered[i], c) then [numbered[i]] else [])
    ensures sent + Keep(numbered[..i + 1], c) <= sent + Keep(numbered, c)
  {
    assert numbered[..i + 1] == numbered[..i] + [numbered[i]];
    KeepConcat(numbered[..i], [numbered[i]], c);
    KeepHead(numbered[i], [], c);
    assert [numbered[i]] + [] == [numbered[i]];
    KeepConcat(numbered[..i + 1], numbered[i + 1..], c);
    assert numbered[..i + 1] + numbered[i + 1..] == numbered;
  }

  lemma NextFile(log: DayLog, ds: seq<Date>, i: nat, c: Cursor, seen: seq<LogLine>)
    requires i < |ds| && forall d | d in ds[i..] :: d in log && d >= c.date
    ensures ds[i] in log && ds[i] >= c.date
    ensures forall d | d in ds[i + 1..] :: d in log && d >= c.date
    ensures seen + Keep(FlatDates(log, ds[i..]), c)
         == seen + Keep(Numbered(ds[i], log[ds[i]]), c) + Keep(FlatDates(log, ds[i + 1..]), c)
  {
    assert ds[i..][0] == ds[i] && ds[i..][1..] == ds[i + 1..];
    assert forall d | d in ds[i + 1..] :: d in ds[i..];
    KeepConcat(Numbered(ds[i], log[ds[i]]), FlatDates(log, ds[i + 1..]), c);
  }

  lemma LastRequest(acked: seq<seq<LogLine>>, pending: seq<LogLine>)
    requires Pack(pending).rest != []
    ensures acked + Pack(pending).full + [Pack(pending).rest] == acked + Requests(pending)
    ensures |Pack(pending).full| < |Requests(pending)|
    ensures Requests(pending)[..|Pack(pending).full|] == Pack(pending).full
  {
  }

  /** The cursor changes exactly when something was pending. */
  lemma LastMoves(log: DayLog, c: Cursor)
    ensures LastOf(After(log, c), c) != c <==> After(log, c) != []
  {
    AfterMembers(log, c);
    var s := After(log, c);
    if s != [] {
      assert s[|s| - 1] in s;
    }
  }

  lemma PackPrefix(seen: seq<LogLine>, pending: seq<LogLine>)
    requires seen <= pending && Pack(seen).full != []
    ensures
      var full := Pack(seen).full;
      |full| <= |Requests(pending)| && full[..|full| - 1] == Requests(pending)[..|full| - 1]
  {
    PackGrows(pending, |seen|);
    assert pending[..|seen|] == seen;
  }

  lemma PeerLinesNext(peers: map<string, Files>, peer: string, lines: seq<LogLine>, i: nat)
    requires i < |lines|
    ensures AppendPeerLines(peers, peer, lines[..i + 1]) ==
        AppendPeerLine(AppendPeerLines(peers, peer, lines[..i]), peer, lines[i])
  {
    assert lines[..i + 1][..i] == lines[..i];
  }

  /** A chunk given up between two lines. */
  lemma WholeLines(was: Pull, db: Db, lines: seq<LogLine>, i: nat, directory: string) returns (p: Part)
    requires i <= |lines| && db == RunOps(was.tables.db, LineOps(lines[..i], directory))
    ensures p.lines == i && PartlyRun(was.tables.db, db, lines[..i], p, directory)
  {
    if i == 0 {
      return NO_PART;
    }
    var last := PyOps(lines[i - 1].raw, directory);
    assert lines[..i][..i - 1] == lines[..i - 1] && last[..|last|] == last;
    return Part(i, |last|, false);
  }

  /** Where replaying line `i` has got to. */
  lemma LineDone(db: Db, before: Db, now: Db, lines: seq<LogLine>, i: nat, done: nat, torn: bool, directory: string)
    requires i < |lines| && done <= |PyOps(lines[i].raw, directory)|
    requires before == RunOps(db, LineOps(lines[..i], directory))
    requires if torn then TornLine(before, PyOps(lines[i].raw, directory), now)
             else now == RunOps(before, PyOps(lines[i].raw, directory)[..done])
    ensures PartlyRun(db, now, lines[..i + 1], Part(i + 1, done, torn), directory)
    ensures !torn && done == |PyOps(lines[i].raw, directory)| ==> now == RunOps(db, LineOps(lines[..i + 1], directory))
  {
    var ops := PyOps(lines[i].raw, directory);
    assert lines[..i + 1][..i] == lines[..i];
    RunConcat(db, LineOps(lines[..i], directory), ops[..done]);
    if done == |ops| {
      assert ops[..done] == ops;
    }
  }

  lemma {:induction false} PullChunksErrors(s: Pull, chunks: seq<Chunk>, directory: string)
    ensures PullChunks(s, chunks, directory).tables.errors == s.tables.errors
  {
    if chunks != [] {
      PullChunksErrors(s, chunks[..|chunks| - 1], directory);
    }
  }

  function WithErrors(s: Pull, errors: map<string, nat>): Pull
  {
    s.(tables := s.tables.(errors := errors))
  }

  lemma {:induction false} PullChunksAnyErrors(s: Pull, chunks: seq<Chunk>, directory: string, errors: map<string, nat>)
    ensures PullChunks(WithErrors(s, errors), chunks, directory) == WithErrors(PullChunks(s, chunks, directory), errors)
  {
    if chunks != [] {
      PullChunksAnyErrors(s, chunks[..|chunks| - 1], directory, errors);
    }
  }

  /** Pulling neither reads nor writes the recorded failures. */
  lemma EndsAtErrors(was: Pull, now: Pull, chunks: seq<Chunk>, e: Ending, directory: string, errors: map<string, nat>)
    requires EndsAt(was, now, chunks, e, directory)
    ensures EndsAt(WithErrors(was, errors), WithErrors(now, errors), chunks, e, directory)
  {
    PullChunksAnyErrors(was, chunks, directory, errors);
    PullChunksAnyErrors(was, chunks[..e.chunks], directory, errors);
  }

  lemma {:induction false} PullChunksKeepRows(s: Pull, chunks: seq<Chunk>, directory: string, machine: string)
    requires machine in s.tables.sync
    ensures machine in PullChunks(s, chunks, directory).tables.sync
  {
    if chunks != [] {
      PullChunksKeepRows(s, chunks[..|chunks| - 1], directory, machine);
    }
  }

  lemma EndsAtKeepsRows(was: Pull, now: Pull, chunks: seq<Chunk>, e: Ending, directory: string, machine: string)
    requires EndsAt(was, now, chunks, e, directory) && machine in was.tables.sync
    ensures machine in now.tables.sync
  {
    PullChunksKeepRows(was, chunks, directory, machine);
    PullChunksKeepRows(was, chunks[..e.chunks], directory, machine);
  }
}
