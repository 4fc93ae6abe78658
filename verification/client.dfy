/** The laptop's sync client: one push of its own log, one pull of the peers'. */
module SyncClient {
  import Text
  import opened Dates
  import opened DayLogs
  import opened Tables
  import opened Replay
  import opened Mirror
  import opened LogStore
  import opened SyncServer
  import opened Seqs
  import opened SyncSteps

  /** The push side of the connection: requests are acknowledged until one
      fails. */
  class Stub {
    var acked: seq<seq<LogLine>>

    constructor ()
      ensures acked == []
    {
      acked := [];
    }

    method PushLogs(lines: seq<LogLine>) returns (ok: bool)
      modifies this
      ensures acked == if ok then old(acked) + [lines] else old(acked)
    {
      ok := *;
      if ok {
        acked := acked + [lines];
      }
    }
  }

  datatype SyncOutcome = Unreachable | PushFailed | PullFailed | Done

  class Client {
    const machine: string
    const endpoint: string
    /** The directory column's default in this laptop's event tables. */
    const directory: string
    /** The laptop's own log files. */
    var files: Files
    /** The mirrors of the peers' files. */
    var peers: map<string, Files>
    /** The tables as the open transaction sees them, and as last committed. */
    var tables: LaptopTables
    var committed: LaptopTables

    constructor (machine: string, endpoint: string, directory: string)
      ensures this.machine == machine && this.endpoint == endpoint && this.directory == directory
      ensures files == map[] && peers == map[]
      ensures tables == committed == LaptopTables(EMPTY, map[], map[])
    {
      this.machine, this.endpoint, this.directory := machine, endpoint, directory;
      files, peers := map[], map[];
      tables, committed := LaptopTables(EMPTY, map[], map[]), LaptopTables(EMPTY, map[], map[]);
    }

    function PushKey(): string
    {
      "sync_push|" + endpoint
    }

    function PullKey(): string
    {
      "sync_pull|" + endpoint
    }

    method SendPush(stub: Stub, lines: seq<LogLine>) returns (ok: bool)
      modifies this`tables, stub
      ensures stub.acked == if ok then old(stub.acked) + [lines] else old(stub.acked)
      ensures tables == if ok then ClearError(old(tables), PushKey()) else RecordError(old(tables), PushKey())
    {
      ok := stub.PushLogs(lines);
      tables := if ok then ClearError(tables, PushKey()) else RecordError(tables, PushKey());
    }

    /** The dates of the local files that may hold pending lines. */
    method LocalDates(from: Date) returns (ds: seq<Date>)
      ensures Increasing(ds)
      ensures forall d :: d in ds <==> d in files && (from != NO_DATE ==> d >= from)
    {
      ds := [];
      var left := files.Keys;
      while left != {}
        invariant left <= files.Keys && Increasing(ds)
        invariant forall d :: d in ds <==> d in files.Keys - left && (from != NO_DATE ==> d >= from)
        decreases |left|
      {
        var d :| d in left;
        left := left - {d};
        if from == NO_DATE || d >= from {
          ds := InsertDate(ds, d);
        }
      }
    }

    /** One line more in the batch, sent when it is full.  `seen` are the lines
        before it, `acked` the requests acknowledged before all of them. */
    method PushLine(stub: Stub, l: LogLine, batch: seq<LogLine>, ghost acked: seq<seq<LogLine>>,
                    ghost seen: seq<LogLine>)
      returns (ok: bool, batch': seq<LogLine>)
      requires batch == Pack(seen).rest && stub.acked == acked + Pack(seen).full
      modifies this`tables, stub
      ensures tables == old(tables).(errors := tables.errors)
      ensures ok ==> batch' == Pack(seen + [l]).rest && stub.acked == acked + Pack(seen + [l]).full
      ensures !ok ==> Refused(stub.acked, acked, seen + [l]) && PushKey() in tables.errors
    {
      assert (seen + [l])[..|seen|] == seen;
      batch', ok := batch + [l], true;
      if |batch'| >= PUSH_BATCH {
        ok := SendPush(stub, batch');
        assert acked + Pack(seen).full + [batch'] == acked + (Pack(seen).full + [batch']);
        assert Pack(seen + [l]).full[..|Pack(seen).full|] == Pack(seen).full;
        batch' := [];
      }
    }

    /** Reads one file past the cursor and sends every batch that becomes full.
        `sent` is what was read before, `seen` what was read in the end. */
    method PushFile(stub: Stub, d: Date, lines: seq<string>, c: Cursor, batch: seq<LogLine>, last: Cursor,
                    ghost acked: seq<seq<LogLine>>, ghost sent: seq<LogLine>)
      returns (ok: bool, batch': seq<LogLine>, last': Cursor, ghost seen: seq<LogLine>)
      requires d >= c.date && batch == Pack(sent).rest && stub.acked == acked + Pack(sent).full
      requires last == LastOf(sent, c)
      modifies this`tables, stub
      ensures tables == old(tables).(errors := tables.errors)
      ensures seen <= sent + Keep(Numbered(d, lines), c)
      ensures ok ==>
        && seen == sent + Keep(Numbered(d, lines), c)
        && batch' == Pack(seen).rest && stub.acked == acked + Pack(seen).full && last' == LastOf(seen, c)
      ensures !ok ==> Refused(stub.acked, acked, seen) && PushKey() in tables.errors
    {
      var start := if d == c.date then c.offset else -1;
      batch', last', seen := batch, last, sent;
      ghost var numbered := Numbered(d, lines);
      assert Keep(numbered[..0], c) == [];
      var i := 0;
      while i < |lines|
        invariant 0 <= i <= |lines|
        invariant seen == sent + Keep(numbered[..i], c)
        invariant batch' == Pack(seen).rest && stub.acked == acked + Pack(seen).full && last' == LastOf(seen, c)
        invariant tables == old(tables).(errors := tables.errors)
      {
        var l := LogLine(d, i, lines[i]);
        KeepNext(sent, numbered, i, c);
        if i > start {
          ok, batch' := PushLine(stub, l, batch', acked, seen);
          seen, last' := seen + [l], At(l);
          if !ok {
            return false, batch', last', seen;
          }
        }
        i := i + 1;
      }
      assert numbered[..i] == numbered;
      return true, batch', last', seen;
    }

    /** Sends every line past the machine's own cursor and then moves the cursor to
        the last one.  A failed request leaves the cursor where it was. */
    method DoPush(stub: Stub) returns (ok: bool, ghost k: nat)
      modifies this`tables, stub
      ensures tables.db == old(tables).db
      ensures var pending := After(LocalLog(files), GetCursor(old(tables), machine));
        if ok then
          && stub.acked == old(stub.acked) + Requests(pending)
          && tables.sync == AfterPush(old(tables), machine, LocalLog(files))
        else
          && k < |Requests(pending)| && stub.acked == old(stub.acked) + Requests(pending)[..k]
          && tables.sync == old(tables).sync && PushKey() in tables.errors
    {
      ghost var log, acked := LocalLog(files), stub.acked;
      var c := GetCursor(tables, machine);
      ghost var pending := After(log, c);
      var batch, last;
      ghost var seen;
      ok, batch, last, seen := PushDates(stub, c);
      if !ok {
        PackPrefix(seen, pending);
        k := |Pack(seen).full| - 1;
        return false, k;
      }
      k := |Pack(pending).full|;
      if |batch| > 0 {
        ok := SendPush(stub, batch);
        LastRequest(acked, pending);
        if !ok {
          return false, k;
        }
      } else {
        assert Requests(pending) == Pack(pending).full;
      }
      LastMoves(log, c);
      if last != c {
        tables := SetCursor(tables, machine, last);
      }
    }

    /** The loop over the files: every full batch is sent, the rest is returned. */
    method PushDates(stub: Stub, c: Cursor)
      returns (ok: bool, batch: seq<LogLine>, last: Cursor, ghost seen: seq<LogLine>)
      modifies this`tables, stub
      ensures tables == old(tables).(errors := tables.errors)
      ensures seen <= After(LocalLog(files), c)
      ensures ok ==>
        && seen == After(LocalLog(files), c)
        && batch == Pack(seen).rest && stub.acked == old(stub.acked) + Pack(seen).full && last == LastOf(seen, c)
      ensures !ok ==> Refused(stub.acked, old(stub.acked), seen) && PushKey() in tables.errors
    {
      ghost var log, acked := LocalLog(files), stub.acked;
      var ds := LocalDates(c.date);
      AscendingUnique(ds, From(log, c.date));
      SkippedFiles(log, c);
      seen := [];
      batch, last := [], c;
      ghost var todo := After(log, c);
      var i := 0;
      assert ds[0..] == ds;
      assert forall d | d in ds :: d in log && d >= c.date;
      while i < |ds|
        invariant 0 <= i <= |ds| && forall d | d in ds[i..] :: d in log && d >= c.date
        invariant todo == Keep(FlatDates(log, ds[i..]), c)
        invariant seen + todo == After(log, c)
        invariant batch == Pack(seen).rest && stub.acked == acked + Pack(seen).full && last == LastOf(seen, c)
        invariant tables == old(tables).(errors := tables.errors)
      {
        NextFile(log, ds, i, c, seen);
        ghost var here := Keep(Numbered(ds[i], log[ds[i]]), c);
        todo := Keep(FlatDates(log, ds[i + 1..]), c);
        assert seen + here + todo == After(log, c);
        ok, batch, last, seen := PushFile(stub, ds[i], Text.FileLines(files[ds[i]]), c, batch, last, acked, seen);
        if !ok {
          return;
        }
        i := i + 1;
      }
      assert ds[i..] == [] && todo == [];
      ok := true;
    }

    /** One pulled line against the local tables.  Insert and counter update of an
        event are two statements here; `torn` says that only the first ran. */
    method ReplayIntoDb(raw: string) returns (ok: bool, done: nat, torn: bool)
      modifies this`tables
      ensures tables == old(tables).(db := tables.db)
      ensures done <= |PyOps(raw, directory)| && (ok <==> done == |PyOps(raw, directory)|)
      ensures !torn ==> tables.db == RunOps(old(tables).db, PyOps(raw, directory)[..done])
      ensures torn ==> !ok && TornLine(old(tables.db), PyOps(raw, directory), tables.db)
      ensures
        var f := Text.Split(raw, '\t');
        && (|f| < 4 ==> tables == old(tables))
        && (ok && |f| >= 4 ==>
              Records(old(tables).db, tables.db, f[2], f[1], f[3], |f| >= 5 && f[4] == "of_interest",
                      if |f| >= 6 then EventTag(f[4]) else None, if |f| >= 6 then f[5] else "", directory))
    {
      hide Records;
      RunShort(tables.db, PyOps(raw, directory));
      if |Text.Split(raw, '\t')| >= 4 {
        ClientRecords(tables.db, raw, directory);
      }
      assert PyOps(raw, directory)[..|PyOps(raw, directory)|] == PyOps(raw, directory);
      torn := false;
      var f := Text.Split(raw, '\t');
      if |f| < 4 {
        return true, 0, false;
      }
      ok := *;
      if !ok {
        return false, 0, false;
      }
      tables := tables.(db := RunOp(tables.db, InsertVisit(f[2], f[1], f[3])));
      done := 1;
      if |f| == 4 {
        return true, 1, false;
      }
      if f[4] == "of_interest" {
        ok := *;
        if ok {
          tables := tables.(db := RunOp(tables.db, MarkInterest(f[2])));
          done := 2;
        }
        return;
      }
      var tag := EventTag(f[4]);
      if tag.Some? && |f| >= 6 {
        var key := EventKey(tag.value, f[2], f[1]);
        ok := *;
        if !ok {
          return;
        }
        var inserted := key !in tables.db.events;
        tables := tables.(db := InsertEventRow(tables.db, key, Event(f[5], directory)));
        if inserted {
          ok := *;
          if !ok {
            return false, 1, true;
          }
          tables := tables.(db := BumpCounter(tables.db, key));
        }
        done := 2;
      }
    }

    /** One chunk: every line goes to the peer's mirror and then to the tables; the
        cursor moves after the last. */
    method ApplyChunk(c: Chunk) returns (ok: bool, ghost p: Part)
      modifies this`tables, this`peers
      ensures ok ==> Pull(tables, peers) == PullChunk(Pull(old(tables), old(peers)), c, directory)
      ensures !ok ==> GivenUp(Pull(old(tables), old(peers)), Pull(tables, peers), c, p, directory)
    {
      var last := GetCursor(tables, c.peer);
      ok, p, last := ApplyLines(c, last);
      if ok {
        tables := SetCursor(tables, c.peer, last);
      }
    }

    method ApplyLines(c: Chunk, start: Cursor) returns (ok: bool, ghost p: Part, last: Cursor)
      modifies this`tables, this`peers
      ensures ok ==>
        && tables == old(tables).(db := RunOps(old(tables.db), LineOps(c.lines, directory)))
        && peers == AppendPeerLines(old(peers), c.peer, c.lines) && last == LastOf(c.lines, start)
      ensures !ok ==> GivenUp(Pull(old(tables), old(peers)), Pull(tables, peers), c, p, directory)
    {
      ghost var was := Pull(tables, peers);
      last, p, ok := start, NO_PART, true;
      var i := 0;
      while i < |c.lines|
        invariant 0 <= i <= |c.lines| && ok
        invariant tables == was.tables.(db := RunOps(was.tables.db, LineOps(c.lines[..i], directory)))
        invariant peers == AppendPeerLines(was.peers, c.peer, c.lines[..i])
        invariant last == LastOf(c.lines[..i], start)
      {
        ok, p := ApplyLine(was, c, i);
        if !ok {
          return;
        }
        last := At(c.lines[i]);
        i := i + 1;
      }
      assert c.lines[..i] == c.lines;
    }

    /** Line `i` of a chunk whose earlier lines are applied. */
    method ApplyLine(ghost was: Pull, c: Chunk, i: nat) returns (ok: bool, ghost p: Part)
      requires i < |c.lines|
      requires tables == was.tables.(db := RunOps(was.tables.db, LineOps(c.lines[..i], directory)))
      requires peers == AppendPeerLines(was.peers, c.peer, c.lines[..i])
      modifies this`tables, this`peers
      ensures ok ==>
        && tables == was.tables.(db := RunOps(was.tables.db, LineOps(c.lines[..i + 1], directory)))
        && peers == AppendPeerLines(was.peers, c.peer, c.lines[..i + 1])
      ensures !ok ==> GivenUp(was, Pull(tables, peers), c, p, directory)
    {
      hide *;
      ok := *;
      if !ok {
        p := WholeLines(was, tables.db, c.lines, i, directory);
        GivesUp(was, Pull(tables, peers), c, p, directory);
        return;
      }
      PeerLinesNext(was.peers, c.peer, c.lines, i);
      peers := AppendPeerLine(peers, c.peer, c.lines[i]);
      ok, p := ReplayLine(was, c, i);
      GivesUp(was, Pull(tables, peers), c, p, directory);
    }

    method ReplayLine(ghost was: Pull, c: Chunk, i: nat) returns (ok: bool, ghost p: Part)
      requires i < |c.lines|
      requires tables == was.tables.(db := RunOps(was.tables.db, LineOps(c.lines[..i], directory)))
      modifies this`tables
      ensures tables == was.tables.(db := tables.db)
      ensures p.lines == i + 1 && PartlyRun(was.tables.db, tables.db, c.lines[..i + 1], p, directory)
      ensures ok ==> tables.db == RunOps(was.tables.db, LineOps(c.lines[..i + 1], directory))
    {
      ghost var before := tables.db;
      var done, torn;
      ok, done, torn := ReplayIntoDb(c.lines[i].raw);
      p := Part(i + 1, done, torn);
      LineDone(was.tables.db, before, tables.db, c.lines, i, done, torn, directory);
    }

    /** The chunks that arrive, up to the first one that is given up. */
    method ApplyChunks(chunks: seq<Chunk>) returns (ok: bool, ghost e: Ending)
      modifies this`tables, this`peers
      ensures EndsAt(Pull(old(tables), old(peers)), Pull(tables, peers), chunks, e, directory)
      ensures (ok <==> e.chunks == |chunks|) && tables.errors == old(tables).errors
    {
      ghost var was := Pull(tables, peers);
      ok, e := true, Ending(|chunks|, NO_PART);
      var i := 0;
      while i < |chunks|
        invariant 0 <= i <= |chunks|
        invariant Pull(tables, peers) == PullChunks(was, chunks[..i], directory)
      {
        Longer(chunks, i);
        PullChunksErrors(was, chunks[..i], directory);
        ghost var p;
        ok, p := ApplyChunk(chunks[i]);
        if !ok {
          e := Ending(i, p);
          return;
        }
        i := i + 1;
      }
      assert chunks[..i] == chunks;
      PullChunksErrors(was, chunks, directory);
      return true, Ending(|chunks|, NO_PART);
    }

    /** The request of a pull: a cursor for each row of the sync table, in any order. */
    method PullRequest() returns (cursors: seq<(string, Cursor)>)
      ensures OncePerPeer(cursors) && Says(cursors, tables.sync)
    {
      cursors := [];
      var left := tables.sync.Keys;
      while left != {}
        invariant left <= tables.sync.Keys && OncePerPeer(cursors)
        invariant forall p, c :: (p, c) in cursors <==> p in tables.sync.Keys - left && tables.sync[p] == c
        decreases |left|
      {
        var p :| p in left;
        left := left - {p};
        RequestOneMore(cursors, p, tables.sync[p]);
        cursors := cursors + [(p, tables.sync[p])];
      }
      OnceSays(cursors, tables.sync);
    }

    /** `request` is what is sent, `chunks` what comes back. */
    method DoPull(chunks: seq<Chunk>, broken: bool)
      returns (ok: bool, ghost e: Ending, request: seq<(string, Cursor)>)
      modifies this`tables, this`peers
      ensures OncePerPeer(request) && Says(request, old(tables).sync)
      ensures
        EndsAt(Pull(old(tables), old(peers)), Pull(tables.(errors := old(tables).errors), peers), chunks, e, directory)
      ensures ok ==> !broken && e.chunks == |chunks| && tables.errors == old(tables).errors - {PullKey()}
      ensures !ok ==>
        tables.errors == old(tables).errors[PullKey() := old(
          if PullKey() in tables.errors then tables.errors[PullKey()] + 1 else 1)]
    {
      hide Says;
      ghost var errors := tables.errors;
      request := PullRequest();
      ok, e := ApplyChunks(chunks);
      ok := ok && !broken;
      assert tables.(errors := errors) == tables;
      tables := if ok then ClearError(tables, PullKey()) else RecordError(tables, PullKey());
    }

    method Sync(stub: Stub, chunks: seq<Chunk>, broken: bool)
      returns (outcome: SyncOutcome, ghost k: nat, ghost e: Ending, request: seq<(string, Cursor)>)
      requires tables == committed
      modifies this`tables, this`committed, this`peers, stub
      ensures tables == committed
      ensures outcome == Unreachable || outcome == PushFailed ==>
        && committed.db == old(committed).db && committed.sync == MarkAttempt(old(committed), machine).sync
        && peers == old(peers)
      ensures outcome == Unreachable ==> stub.acked == old(stub.acked)
      ensures outcome == PushFailed ==>
        var requests := FirstRequests(old(committed));
        k < |requests| && stub.acked == old(stub.acked) + requests[..k]
      ensures outcome == PullFailed || outcome == Done ==>
        var pushed := Pushed(old(committed), machine, LocalLog(files));
        && stub.acked == old(stub.acked) + FirstRequests(old(committed))
        && OncePerPeer(request) && Says(request, pushed.sync)
        && EndsAt(Pull(pushed, old(peers)), Pull(committed.(errors := pushed.errors), peers), chunks, e, directory)
      ensures outcome == Done ==> !broken && e.chunks == |chunks|
    {
      hide Says, EndsAt, AfterPush, Requests, LocalLog, After;
      k, e, request := 0, Ending(0, NO_PART), [];
      ghost var pushed := Pushed(committed, machine, LocalLog(files));
      PushedKnows(committed, machine, LocalLog(files));
      tables := MarkAttempt(tables, machine);
      committed := tables;
      var reachable: bool := *;
      if !reachable {
        tables := RecordError(tables, "sync_handshake|" + endpoint);
        committed := tables;
        return Unreachable, k, e, request;
      }
      var ok;
      ok, k := DoPush(stub);
      if !ok {
        tables := MarkAttempt(tables, machine);
        committed := tables;
        return PushFailed, k, e, request;
      }
      committed := tables;
      ghost var was := peers;
      ok, e, request := PullAndMark(pushed, chunks, broken);
      ghost var end := Pull(tables.(errors := pushed.errors), peers);
      assert EndsAt(Pull(pushed, was), end, chunks, e, directory);
      committed := tables;
      assert Pull(committed.(errors := pushed.errors), peers) == end;
      outcome := if ok then Done else PullFailed;
    }

    /** The requests of a push that starts from these tables. */
    ghost function FirstRequests(start: LaptopTables): seq<seq<LogLine>>
      reads this`files
    {
      Requests(After(LocalLog(files), GetCursor(MarkAttempt(start, machine), machine)))
    }

    method PullAndMark(ghost pushed: LaptopTables, chunks: seq<Chunk>, broken: bool)
      returns (ok: bool, ghost e: Ending, request: seq<(string, Cursor)>)
      requires tables.db == pushed.db && tables.sync == pushed.sync && machine in tables.sync
      modifies this`tables, this`peers
      ensures EndsAt(Pull(pushed, old(peers)), Pull(tables.(errors := pushed.errors), peers), chunks, e, directory)
      ensures OncePerPeer(request) && Says(request, pushed.sync)
      ensures ok ==> !broken && e.chunks == |chunks|
    {
      hide Says;
      ghost var mid, was := tables, peers;
      ok, e, request := DoPull(chunks, broken);
      SyncEnds(machine, mid, tables, pushed, was, peers, chunks, e, directory);
      tables := MarkAttempt(tables, machine);
    }
  }

  lemma RequestOneMore(cursors: seq<(string, Cursor)>, p: string, c: Cursor)
    requires OncePerPeer(cursors) && forall d :: (p, d) !in cursors
    ensures OncePerPeer(cursors + [(p, c)])
  {
    forall i | 0 <= i < |cursors| ensures cursors[i].0 != p {
      assert cursors[i] == (cursors[i].0, cursors[i].1) && cursors[i] in cursors;
    }
  }
}
