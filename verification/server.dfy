/** The sync server's two calls: pushing log lines and pulling the peers' lines. */
module SyncServer {
  import opened Dates
  import opened DayLogs
  import Listing
  import opened Tables
  import opened Replay
  import opened Mirror
  import opened LogStore

  const CHUNK: nat := 128

  datatype Status = Ok | InvalidArgument | Internal

  /** Lines of one peer, as one message of a pull stream. */
  datatype Chunk = Chunk(peer: string, lines: seq<LogLine>)

  // ---------------------------------------------------------------- what a pull sends

  /** The lines cut into messages of at most CHUNK lines. */
  function Cut(s: seq<LogLine>): seq<seq<LogLine>>
    decreases |s|
  {
    if s == [] then [] else if |s| <= CHUNK then [s] else [s[..CHUNK]] + Cut(s[CHUNK..])
  }

  /** The state of the function PullLogs hands to the scan: the batch being
      filled, the batches sent, and whether a send has failed. */
  datatype Sending = Sending(batch: seq<LogLine>, sent: seq<seq<LogLine>>, broken: bool)

  const START_SENDING := Sending([], [], false)

  /** One call of that function; the stream takes `room` messages and then fails
      for good. */
  function OnLine(s: Sending, l: LogLine, room: nat): Sending
  {
    var b := s.batch + [l];
    if |b| < CHUNK then s.(batch := b)
    else if !s.broken && |s.sent| < room then Sending([], s.sent + [b], false)
    else Sending(b, s.sent, true)
  }

  function OnLines(h: seq<LogLine>, room: nat): Sending
  {
    if h == [] then START_SENDING else OnLine(OnLines(h[..|h| - 1], room), h[|h| - 1], room)
  }

  /** The answer to the last call of the history. */
  function Answer(room: nat): seq<LogLine> -> bool
  {
    h => |OnLines(h, room).batch| < CHUNK
  }

  /** The send of what is left in the batch after the scan. */
  function Flush(s: Sending, room: nat): Sending
  {
    if |s.batch| == 0 then s
    else if !s.broken && |s.sent| < room then Sending([], s.sent + [s.batch], false)
    else s.(broken := true)
  }

  lemma {:induction false} CutWhole(s: seq<LogLine>, q: nat)
    requires q * CHUNK <= |s|
    ensures |Cut(s[..q * CHUNK])| == q
    ensures Cut(s[..q * CHUNK]) <= Cut(s)
    decreases |s|
  {
    if q == 0 {
      assert s[..0] == [];
    } else if |s| == CHUNK {
      assert s[..CHUNK] == s;
    } else {
      CutWhole(s[CHUNK..], q - 1);
      var p := s[..q * CHUNK];
      assert p[..CHUNK] == s[..CHUNK] && p[CHUNK..] == s[CHUNK..][..(q - 1) * CHUNK];
      if |p| == CHUNK {
        assert Cut(p) == [s[..CHUNK]];
      }
    }
  }

  /** A history whose first `q` full batches all found room. */
  lemma {:induction false} OnLinesFits(h: seq<LogLine>, q: nat, r: nat, room: nat)
    requires |h| == q * CHUNK + r && r < CHUNK && q <= room
    ensures OnLines(h, room) == Sending(h[q * CHUNK..], Cut(h[..q * CHUNK]), false)
    decreases |h|
  {
    if h != [] {
      var p := h[..|h| - 1];
      if r > 0 {
        OnLinesFits(p, q, r - 1, room);
        assert p[q * CHUNK..] + [h[|h| - 1]] == h[q * CHUNK..];
        assert p[..q * CHUNK] == h[..q * CHUNK];
      } else {
        OnLinesFits(p, q - 1, CHUNK - 1, room);
        BatchFull(h, q);
      }
    }
  }

  lemma BatchFull(h: seq<LogLine>, q: nat)
    requires q > 0 && |h| == q * CHUNK
    ensures
      var p, m := h[..|h| - 1], (q - 1) * CHUNK;
      && p[m..] + [h[|h| - 1]] == h[m..]
      && |Cut(p[..m])| == q - 1
      && Cut(p[..m]) + [h[m..]] == Cut(h[..q * CHUNK])
      && h[q * CHUNK..] == []
  {
    var p, m := h[..|h| - 1], (q - 1) * CHUNK;
    assert p[..m] == h[..m] && h[..q * CHUNK] == h;
    CutWhole(h, q - 1);
    CutAppend(h[..m], h[m..]);
    assert h[..m] + h[m..] == h;
  }

  lemma {:induction false} CutAppend(a: seq<LogLine>, b: seq<LogLine>)
    requires |a| % CHUNK == 0 && 0 < |b| <= CHUNK
    ensures Cut(a + b) == Cut(a) + [b]
    decreases |a|
  {
    if a == [] {
      assert a + b == b;
    } else {
      assert |a| >= CHUNK;
      CutAppend(a[CHUNK..], b);
      assert (a + b)[..CHUNK] == a[..CHUNK] && (a + b)[CHUNK..] == a[CHUNK..] + b;
      if |a| == CHUNK {
        assert a[..CHUNK] == a && Cut(a[CHUNK..]) == [];
        assert a[CHUNK..] + b == b;
      }
    }
  }

  /** Once a send has failed nothing more is sent. */
  lemma {:induction false} BrokenStays(h: seq<LogLine>, n: nat, room: nat)
    requires n <= |h| && OnLines(h[..n], room).broken
    ensures OnLines(h, room).broken && OnLines(h, room).sent == OnLines(h[..n], room).sent
    ensures |OnLines(h, room).batch| > 0
    decreases |h|
  {
    if n == |h| {
      assert h[..n] == h;
      BrokenBatch(h, room);
    } else {
      assert h[..|h| - 1][..n] == h[..n];
      BrokenStays(h[..|h| - 1], n, room);
    }
  }

  lemma {:induction false} BrokenBatch(h: seq<LogLine>, room: nat)
    requires OnLines(h, room).broken
    ensures |OnLines(h, room).batch| > 0
  {
  }

  ghost predicate Delivered(a: seq<LogLine>, end: Sending, room: nat)
  {
    if |Cut(a)| <= room then end.sent == Cut(a) && !end.broken
    else end.sent == Cut(a)[..room] && end.broken
  }

  /** What reaches the caller of one peer's lines, and whether the call goes on:
      the first `room` messages of the lines past the cursor. */
  lemma PeerDelivery(log: DayLog, c: Cursor, room: nat)
    ensures Delivered(After(log, c), Flush(OnLines(Scan(Answer(room), log, c), room), room), room)
  {
    var a := After(log, c);
    var limit := (room + 1) * CHUNK;
    var n := if |a| < limit then |a| else limit;
    forall j | 0 < j < n ensures Answer(room)(a[..j]) {
      OnLinesFits(a[..j], j / CHUNK, j % CHUNK, room);
    }
    ScanPrefix(Answer(room), log, c, n);
    if |a| < limit {
      DeliveredWhole(a, |a| / CHUNK, |a| % CHUNK, room);
    } else {
      DeliveredPart(a, Scan(Answer(room), log, c), room);
    }
  }

  lemma DeliveredPart(a: seq<LogLine>, calls: seq<LogLine>, room: nat)
    requires var limit := (room + 1) * CHUNK; limit <= |a| && a[..limit] <= calls
    ensures Delivered(a, Flush(OnLines(calls, room), room), room)
  {
    var limit := (room + 1) * CHUNK;
    assert calls[..limit] == a[..limit];
    Overflow(a[..limit], room);
    BrokenStays(calls, limit, room);
    CutWhole(a, room);
    CutWhole(a, room + 1);
    assert a[..limit][..room * CHUNK] == a[..room * CHUNK];
  }

  lemma DeliveredWhole(a: seq<LogLine>, q: nat, r: nat, room: nat)
    requires |a| == q * CHUNK + r && r < CHUNK && q <= room
    ensures Delivered(a, Flush(OnLines(a, room), room), room)
  {
    var m := q * CHUNK;
    var head, tail := a[..m], a[m..];
    OnLinesFits(a, q, r, room);
    CutWhole(a, q);
    assert head + tail == a;
    if r > 0 {
      CutAppend(head, tail);
      assert q == room ==> Cut(a)[..room] == Cut(head);
    } else {
      assert head == a;
    }
  }

  /** The line that completes one batch too many breaks the stream. */
  lemma Overflow(h: seq<LogLine>, room: nat)
    requires |h| == (room + 1) * CHUNK
    ensures OnLines(h, room).broken && OnLines(h, room).sent == Cut(h[..room * CHUNK])
  {
    var p := h[..|h| - 1];
    OnLinesFits(p, room, CHUNK - 1, room);
    assert p[..room * CHUNK] == h[..room * CHUNK];
    CutWhole(p, room);
  }

  // ---------------------------------------------------------------- the calls

  function CursorMap(cursors: seq<(string, Cursor)>): map<string, Cursor>
  {
    if cursors == [] then map[]
    else
      var last := cursors[|cursors| - 1];
      CursorMap(cursors[..|cursors| - 1])[last.0 := last.1]
  }

  /** What a request's list of cursors says, peer by peer: nothing of a peer that is
      not in it, and the last word of one that is in it more than once. */
  ghost predicate Says(cursors: seq<(string, Cursor)>, m: map<string, Cursor>)
  {
    && (forall i | 0 <= i < |cursors| && IsLast(cursors, i) :: cursors[i].0 in m && m[cursors[i].0] == cursors[i].1)
    && (forall p | p in m :: exists i :: 0 <= i < |cursors| && IsLast(cursors, i) && cursors[i].0 == p)
  }

  predicate IsLast(cursors: seq<(string, Cursor)>, i: nat)
    requires i < |cursors|
  {
    forall j | i < j < |cursors| :: cursors[j].0 != cursors[i].0
  }

  predicate OncePerPeer(cursors: seq<(string, Cursor)>)
  {
    forall i, j | 0 <= i < j < |cursors| :: cursors[i].0 != cursors[j].0
  }

  /** A list in which each peer occurs once says just what is in it. */
  lemma OnceSays(cursors: seq<(string, Cursor)>, m: map<string, Cursor>)
    requires OncePerPeer(cursors)
    ensures Says(cursors, m) <==> forall p, c :: (p in m && m[p] == c) <==> (p, c) in cursors
  {
    assert forall i | 0 <= i < |cursors| :: IsLast(cursors, i);
    if Says(cursors, m) {
      forall p, c ensures (p in m && m[p] == c) <==> (p, c) in cursors {
        if p in m {
          var i :| 0 <= i < |cursors| && IsLast(cursors, i) && cursors[i].0 == p;
          assert cursors[i] == (p, m[p]);
        }
        if (p, c) in cursors {
          var i :| 0 <= i < |cursors| && cursors[i] == (p, c);
          assert IsLast(cursors, i);
        }
      }
    }
    if forall p, c :: (p in m && m[p] == c) <==> (p, c) in cursors {
      forall i | 0 <= i < |cursors| ensures cursors[i].0 in m && m[cursors[i].0] == cursors[i].1 {
        assert (cursors[i].0, cursors[i].1) in cursors;
      }
      forall p | p in m ensures exists i :: 0 <= i < |cursors| && IsLast(cursors, i) && cursors[i].0 == p {
        var i :| 0 <= i < |cursors| && cursors[i] == (p, m[p]);
        assert IsLast(cursors, i);
      }
    }
  }

  lemma SaysOne(cursors: seq<(string, Cursor)>, a: map<string, Cursor>, b: map<string, Cursor>)
    requires Says(cursors, a) && Says(cursors, b)
    ensures a == b
  {
    forall p | p in a ensures p in b && a[p] == b[p] {
      var i :| 0 <= i < |cursors| && IsLast(cursors, i) && cursors[i].0 == p;
    }
    forall p | p in b ensures p in a {
      var i :| 0 <= i < |cursors| && IsLast(cursors, i) && cursors[i].0 == p;
    }
  }

  lemma LastOfLonger(cursors: seq<(string, Cursor)>, i: nat)
    requires i < |cursors|
    ensures
      var n := |cursors| - 1;
      IsLast(cursors, i) <==> i == n || (IsLast(cursors[..n], i) && cursors[n].0 != cursors[i].0)
  {
    var n := |cursors| - 1;
    if i < n {
      assert forall j | 0 <= j < n :: cursors[..n][j] == cursors[j];
      if IsLast(cursors[..n], i) && cursors[n].0 != cursors[i].0 {
        forall j | i < j < |cursors| ensures cursors[j].0 != cursors[i].0 {
          assert j < n ==> cursors[..n][j].0 != cursors[..n][i].0;
        }
      }
    }
  }

  lemma {:induction false} CursorMapSays(cursors: seq<(string, Cursor)>)
    ensures Says(cursors, CursorMap(cursors))
  {
    if cursors != [] {
      var n := |cursors| - 1;
      var init, m := cursors[..n], CursorMap(cursors);
      CursorMapSays(init);
      forall i | 0 <= i < |cursors| && IsLast(cursors, i)
        ensures cursors[i].0 in m && m[cursors[i].0] == cursors[i].1
      {
        LastOfLonger(cursors, i);
        assert i < n ==> init[i] == cursors[i];
      }
      forall p | p in m ensures exists i :: 0 <= i < |cursors| && IsLast(cursors, i) && cursors[i].0 == p {
        if p == cursors[n].0 {
          LastOfLonger(cursors, n);
        } else {
          var i :| 0 <= i < n && IsLast(init, i) && init[i].0 == p;
          LastOfLonger(cursors, i);
        }
      }
    }
  }

  function CursorOf(cursors: map<string, Cursor>, peer: string): Cursor
  {
    if peer in cursors then cursors[peer] else START
  }

  function Messages(peer: string, batches: seq<seq<LogLine>>): (r: seq<Chunk>)
    ensures |r| == |batches|
  {
    seq(|batches|, i requires 0 <= i < |batches| => Chunk(peer, batches[i]))
  }

  /** Everything a caller lacks of one peer. */
  ghost function OwedBy(dirs: map<string, Files>, cursors: map<string, Cursor>, peer: string): seq<Chunk>
    requires peer in dirs
  {
    Messages(peer, Cut(After(LinesOf(dirs[peer]), CursorOf(cursors, peer))))
  }

  /** Everything a caller lacks, peer by peer, its own lines excluded. */
  ghost function Owed(dirs: map<string, Files>, caller: string, cursors: map<string, Cursor>,
                      peers: seq<string>): seq<Chunk>
    requires forall i | 0 <= i < |peers| :: peers[i] in dirs
  {
    if peers == [] then []
    else Owed(dirs, caller, cursors, peers[..|peers| - 1]) + OwedFrom(dirs, caller, cursors, peers[|peers| - 1])
  }

  /** Nobody is sent his own lines. */
  ghost function OwedFrom(dirs: map<string, Files>, caller: string, cursors: map<string, Cursor>,
                          peer: string): seq<Chunk>
    requires peer in dirs
  {
    if peer == caller then [] else OwedBy(dirs, cursors, peer)
  }

  class Server {
    const store: Store
    const canonical: Canonical

    constructor ()
      ensures fresh(store) && fresh(canonical)
      ensures store.dirs == map[] && canonical.db == EMPTY
    {
      store := new Store();
      canonical := new Canonical();
    }

    /** Mirrors the lines, then replays every one of them, the ones already
        mirrored included.  `done` counts the replayed statements. */
    method PushLogs(machine: string, lines: seq<LogLine>)
      returns (status: Status, date: Date, offset: int, sorted: seq<LogLine>, error: WriteError,
               ghost done: nat, ghost written: nat)
      modifies store, canonical
      ensures status == InvalidArgument <==> machine == "" || exists l :: l in lines && l.date == NO_DATE
      ensures status == InvalidArgument ==> store.dirs == old(store.dirs) && canonical.db == old(canonical.db)
      ensures status != InvalidArgument ==>
        && InOrder(sorted) && multiset(sorted) == multiset(lines)
        && done <= |GoOpsOf(Raws(sorted))| && (error != NoError ==> status == Internal && done == 0)
        && canonical.db == RunOps(old(canonical.db), GoOpsOf(Raws(sorted))[..done])
      ensures status == Ok ==> error == NoError && done == |GoOpsOf(Raws(sorted))|
      ensures lines == [] && status != InvalidArgument ==> store.dirs == old(store.dirs)
      ensures lines != [] && status != InvalidArgument ==>
        var o := Append(old(store.Dir(machine)), sorted);
        && machine in store.dirs && store.dirs == old(store.dirs)[machine := store.dirs[machine]]
        && (if error == IoError then DaysWritten(old(store.Dir(machine)), sorted, written, store.dirs[machine])
            else store.dirs[machine] == o.files && (o.gap <==> error == Gap))
        && (status == Ok ==> date == o.date && offset == o.offset)
    {
      date, offset, sorted, done, written, error := NO_DATE, 0, [], 0, 0, NoError;
      if machine == "" {
        return InvalidArgument, date, offset, sorted, error, done, written;
      }
      for i := 0 to |lines|
        invariant forall j | 0 <= j < i :: lines[j].date != NO_DATE
      {
        if lines[i].date == NO_DATE {
          return InvalidArgument, date, offset, sorted, error, done, written;
        }
      }
      sorted, error, date, offset, written := store.AppendLogLines(machine, lines);
      if error != NoError {
        assert GoOpsOf(Raws(sorted))[..0] == [];
        return Internal, date, offset, sorted, error, 0, written;
      }
      var ok;
      ok, done := ReplayAll(Raws(sorted));
      status := if ok then Ok else Internal;
    }

    method ReplayAll(raws: seq<string>) returns (ok: bool, ghost done: nat)
      modifies canonical
      ensures done <= |GoOpsOf(raws)| && (ok ==> done == |GoOpsOf(raws)|)
      ensures canonical.db == RunOps(old(canonical.db), GoOpsOf(raws)[..done])
    {
      hide Records, RunOp, GoOps;
      done, ok := 0, true;
      ghost var db := canonical.db;
      var i := 0;
      assert GoOpsOf(raws[..0]) == [];
      while i < |raws|
        invariant 0 <= i <= |raws| && done == |GoOpsOf(raws[..i])|
        invariant canonical.db == RunOps(db, GoOpsOf(raws[..i]))
      {
        var some;
        ok, some := canonical.ReplayLine(raws[i]);
        GoOpsNext(raws, i, some);
        RunConcat(db, GoOpsOf(raws[..i]), GoOps(raws[i])[..some]);
        done := done + some;
        if !ok {
          assert GoOpsOf(raws)[..done] == GoOpsOf(raws[..i]) + GoOps(raws[i])[..some];
          return false, done;
        }
        assert GoOps(raws[i])[..some] == GoOps(raws[i]);
        i := i + 1;
      }
      assert raws[..i] == raws && GoOpsOf(raws)[..done] == GoOpsOf(raws);
    }

    /** Streams what the caller lacks.  The stream takes `room` messages: the
        caller receives the first `room` of what it is owed. */
    method PullLogs(caller: string, cursors: seq<(string, Cursor)>, room: nat)
      returns (chunks: seq<Chunk>, ok: bool, peers: seq<string>)
      ensures peers == Listing.SortedNames(store.dirs.Keys) && forall i | 0 <= i < |peers| :: peers[i] in store.dirs
      ensures exists m :: Says(cursors, m)
      ensures forall m | Says(cursors, m) ::
                var owed := Owed(store.dirs, caller, m, peers);
                && (ok <==> |owed| <= room)
                && chunks == if ok then owed else owed[..room]
      ensures forall m, p | Says(cursors, m) && ok ::
                LinesFrom(chunks, p) ==
                  if p == caller || p !in store.dirs then []
                  else After(LinesOf(store.dirs[p]), if p in m then m[p] else Cursor(NO_DATE, -1))
    {
      hide After, LinesOf, Says, OncePerPeer;
      var known := Collect(cursors);
      peers := store.EnrolledMachines();
      assert forall i | 0 <= i < |peers| :: peers[i] in peers;
      chunks, ok := SendAll(caller, known, peers, room);
      forall p
        ensures LinesFrom(Owed(store.dirs, caller, known, peers), p) ==
                  if p == caller || p !in store.dirs then []
                  else After(LinesOf(store.dirs[p]), if p in known then known[p] else Cursor(NO_DATE, -1))
      {
        Listing.OrderedOnce(peers);
        OwedCarries(store.dirs, caller, known, peers, p);
      }
      forall m | Says(cursors, m) ensures m == known {
        SaysOne(cursors, m, known);
      }
    }

    method SendAll(caller: string, known: map<string, Cursor>, peers: seq<string>, room: nat)
      returns (chunks: seq<Chunk>, ok: bool)
      requires forall i | 0 <= i < |peers| :: peers[i] in store.dirs
      ensures
        var owed := Owed(store.dirs, caller, known, peers);
        && (ok <==> |owed| <= room)
        && chunks == if ok then owed else owed[..room]
    {
      chunks := [];
      ghost var dirs := store.dirs;
      var k := 0;
      while k < |peers|
        invariant 0 <= k <= |peers| && |chunks| <= room
        invariant chunks == Owed(dirs, caller, known, peers[..k])
      {
        ghost var mine := OwedFrom(dirs, caller, known, peers[k]);
        var sent, broken := [], false;
        if peers[k] != caller {
          sent, broken := PullPeer(peers[k], known, room - |chunks|);
        }
        PeerSent(dirs, caller, known, peers, k, room, mine, sent, broken);
        chunks := chunks + sent;
        if broken {
          return chunks, false;
        }
        k := k + 1;
      }
      assert peers[..k] == peers;
      return chunks, true;
    }

    method Collect(cursors: seq<(string, Cursor)>) returns (known: map<string, Cursor>)
      ensures Says(cursors, known)
    {
      known := map[];
      for i := 0 to |cursors|
        invariant known == CursorMap(cursors[..i])
      {
        assert cursors[..i + 1][..i] == cursors[..i];
        known := known[cursors[i].0 := cursors[i].1];
      }
      assert cursors[..|cursors|] == cursors;
      CursorMapSays(cursors);
    }

    /** One peer's lines, while the stream has room for `left` messages. */
    method PullPeer(peer: string, known: map<string, Cursor>, left: nat) returns (sent: seq<Chunk>, broken: bool)
      requires peer in store.dirs
      ensures
        var all := OwedBy(store.dirs, known, peer);
        && (broken <==> |all| > left)
        && sent == if broken then all[..left] else all
    {
      var since := CursorOf(known, peer);
      var calls := store.LinesAfter(peer, since, Answer(left));
      var end := Flush(OnLines(calls, left), left);
      PeerDelivery(LinesOf(store.dirs[peer]), since, left);
      DeliveredMessages(peer, After(LinesOf(store.dirs[peer]), since), end, left);
      return Messages(peer, end.sent), end.broken;
    }
  }

  lemma DeliveredMessages(peer: string, a: seq<LogLine>, end: Sending, left: nat)
    requires Delivered(a, end, left)
    ensures
      var all := Messages(peer, Cut(a));
      && (end.broken <==> |all| > left)
      && Messages(peer, end.sent) == if end.broken then all[..left] else all
  {
  }

  lemma OwedNext(dirs: map<string, Files>, caller: string, cursors: map<string, Cursor>, peers: seq<string>, k: nat)
    requires k < |peers| && forall i | 0 <= i < |peers| :: peers[i] in dirs
    ensures Owed(dirs, caller, cursors, peers[..k + 1])
         == Owed(dirs, caller, cursors, peers[..k]) + OwedFrom(dirs, caller, cursors, peers[k])
    ensures Owed(dirs, caller, cursors, peers[..k + 1]) <= Owed(dirs, caller, cursors, peers)
    decreases |peers| - k
  {
    assert peers[..k + 1][..k] == peers[..k];
    if k + 1 == |peers| {
      assert peers[..k + 1] == peers;
    } else {
      OwedNext(dirs, caller, cursors, peers, k + 1);
    }
  }

  /** What has been sent after the k-th peer, or to where the stream broke. */
  lemma PeerSent(dirs: map<string, Files>, caller: string, cursors: map<string, Cursor>, peers: seq<string>, k: nat,
                 room: nat, mine: seq<Chunk>, sent: seq<Chunk>, broken: bool)
    requires k < |peers| && forall i | 0 <= i < |peers| :: peers[i] in dirs
    requires mine == OwedFrom(dirs, caller, cursors, peers[k])
    requires |Owed(dirs, caller, cursors, peers[..k])| <= room
    requires broken <==> |mine| > room - |Owed(dirs, caller, cursors, peers[..k])|
    requires sent == if broken then mine[..room - |Owed(dirs, caller, cursors, peers[..k])|] else mine
    ensures
      var all, chunks := Owed(dirs, caller, cursors, peers), Owed(dirs, caller, cursors, peers[..k]) + sent;
      if broken then |all| > room && chunks == all[..room]
      else |chunks| <= room && chunks == Owed(dirs, caller, cursors, peers[..k + 1])
  {
    OwedNext(dirs, caller, cursors, peers, k);
    Cutoff(Owed(dirs, caller, cursors, peers[..k]), mine, Owed(dirs, caller, cursors, peers), room, sent, broken);
  }

  lemma Cutoff(before: seq<Chunk>, mine: seq<Chunk>, all: seq<Chunk>, room: nat, sent: seq<Chunk>, broken: bool)
    requires |before| <= room && before + mine <= all && (broken <==> |mine| > room - |before|)
    requires sent == if broken then mine[..room - |before|] else mine
    ensures
      if broken then |all| > room && before + sent == all[..room]
      else |before + sent| <= room && before + sent == before + mine
  {
  }

  lemma GoOpsNext(raws: seq<string>, i: nat, some: nat)
    requires i < |raws| && some <= |GoOps(raws[i])|
    ensures GoOpsOf(raws[..i + 1]) == GoOpsOf(raws[..i]) + GoOps(raws[i])
    ensures GoOpsOf(raws[..i]) + GoOps(raws[i])[..some] <= GoOpsOf(raws)
  {
    hide GoOpsOf, GoOps;
    GoOpsSnoc(raws[..i], raws[i]);
    assert raws[..i] + [raws[i]] == raws[..i + 1];
    GoOpsOfConcat(raws[..i + 1], raws[i + 1..]);
    assert raws[..i + 1] + raws[i + 1..] == raws;
    PrefixOfWhole(GoOpsOf(raws[..i]), GoOps(raws[i]), GoOpsOf(raws[i + 1..]), some);
  }

  lemma GoOpsSnoc(raws: seq<string>, raw: string)
    ensures GoOpsOf(raws + [raw]) == GoOpsOf(raws) + GoOps(raw)
  {
    GoOpsOfConcat(raws, [raw]);
    assert [raw][0] == raw && [raw][1..] == [];
    assert GoOps(raw) + [] == GoOps(raw);
  }

  lemma PrefixOfWhole(a: seq<Op>, b: seq<Op>, c: seq<Op>, n: nat)
    requires n <= |b|
    ensures a + b[..n] <= a + b + c
  {
  }

  lemma {:induction false} GoOpsOfConcat(a: seq<string>, b: seq<string>)
    ensures GoOpsOf(a + b) == GoOpsOf(a) + GoOpsOf(b)
  {
    if a == [] {
      assert a + b == b;
    } else {
      assert (a + b)[1..] == a[1..] + b;
      GoOpsOfConcat(a[1..], b);
    }
  }

  // ---------------------------------------------------------------- what an answered pull brings

  /** The lines of one peer in a list of chunks, in order. */
  function LinesFrom(chunks: seq<Chunk>, peer: string): seq<LogLine>
  {
    if chunks == [] then []
    else (if chunks[0].peer == peer then chunks[0].lines else []) + LinesFrom(chunks[1..], peer)
  }

  lemma {:induction false} LinesFromConcat(a: seq<Chunk>, b: seq<Chunk>, peer: string)
    ensures LinesFrom(a + b, peer) == LinesFrom(a, peer) + LinesFrom(b, peer)
  {
    if a == [] {
      assert a + b == b;
    } else {
      assert (a + b)[1..] == a[1..] + b;
      LinesFromConcat(a[1..], b, peer);
    }
  }

  /** No chunk is empty, and none has more than CHUNK lines. */
  ghost predicate Sized(chunks: seq<Chunk>)
  {
    forall i | 0 <= i < |chunks| :: 1 <= |chunks[i].lines| <= 128
  }

  lemma {:induction false} BatchesCarry(peer: string, s: seq<LogLine>, p: string)
    ensures LinesFrom(Messages(peer, Cut(s)), p) == if p == peer then s else []
    ensures Sized(Messages(peer, Cut(s)))
    decreases |s|
  {
    if |s| > CHUNK {
      BatchesCarry(peer, s[CHUNK..], p);
      var rest := Messages(peer, Cut(s[CHUNK..]));
      assert Messages(peer, Cut(s)) == [Chunk(peer, s[..CHUNK])] + rest;
      assert s[..CHUNK] + s[CHUNK..] == s;
    } else if s != [] {
      assert Messages(peer, Cut(s)) == [Chunk(peer, s)] && LinesFrom([Chunk(peer, s)][1..], p) == [];
    }
  }

  /** The chunks owed bring of every other peer what lies past its cursor, whole, in
      order and once, and nothing of the caller's own. */
  lemma {:induction false} OwedCarries(dirs: map<string, Files>, caller: string, cursors: map<string, Cursor>,
                                       peers: seq<string>, p: string)
    requires forall i | 0 <= i < |peers| :: peers[i] in dirs
    requires forall i, j | 0 <= i < j < |peers| :: peers[i] != peers[j]
    ensures
      LinesFrom(Owed(dirs, caller, cursors, peers), p) ==
        if p == caller || p !in peers then []
        else After(LinesOf(dirs[p]), if p in cursors then cursors[p] else Cursor(NO_DATE, -1))
    ensures Sized(Owed(dirs, caller, cursors, peers))
  {
    hide After, LinesOf, Cut, Messages, Sized, LinesFrom;
    if peers == [] {
      NothingOwed(dirs, caller, cursors, p);
    } else {
      var init, last := peers[..|peers| - 1], peers[|peers| - 1];
      OwedCarries(dirs, caller, cursors, init, p);
      PeerCarries(dirs, caller, cursors, last, p);
      LinesFromConcat(Owed(dirs, caller, cursors, init), OwedFrom(dirs, caller, cursors, last), p);
      SizedConcat(Owed(dirs, caller, cursors, init), OwedFrom(dirs, caller, cursors, last));
      LastIsNew(peers, p);
    }
  }

  lemma NothingOwed(dirs: map<string, Files>, caller: string, cursors: map<string, Cursor>, p: string)
    ensures LinesFrom(Owed(dirs, caller, cursors, []), p) == [] && Sized(Owed(dirs, caller, cursors, []))
  {
  }

  lemma PeerCarries(dirs: map<string, Files>, caller: string, cursors: map<string, Cursor>, peer: string, p: string)
    requires peer in dirs
    ensures
      LinesFrom(OwedFrom(dirs, caller, cursors, peer), p) ==
        if p == caller || p != peer then []
        else After(LinesOf(dirs[p]), if p in cursors then cursors[p] else Cursor(NO_DATE, -1))
    ensures Sized(OwedFrom(dirs, caller, cursors, peer))
  {
    hide After, LinesOf, Cut;
    BatchesCarry(peer, After(LinesOf(dirs[peer]), CursorOf(cursors, peer)), p);
  }

  lemma SizedConcat(a: seq<Chunk>, b: seq<Chunk>)
    requires Sized(a) && Sized(b)
    ensures Sized(a + b)
  {
  }

  lemma LastIsNew(s: seq<string>, p: string)
    requires s != [] && forall i, j | 0 <= i < j < |s| :: s[i] != s[j]
    ensures
      var init, last := s[..|s| - 1], s[|s| - 1];
      (p in s <==> p in init || p == last) && last !in init
  {
    var init, last := s[..|s| - 1], s[|s| - 1];
    assert s == init + [last];
  }
}
