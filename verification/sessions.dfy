/** The programs inside the protocol: what one push request, one whole push and one
    whole pull do according to the server's and the client's contracts is what a
    run of the protocol reaches. */
module Sessions {
  import opened DayLogs
  import Tables
  import opened Replay
  import opened Mirror
  import opened SyncServer
  import opened SyncSteps
  import opened Protocol
  import opened Seqs
  import opened ProtocolProof
  import Convergence

  // ---------------------------------------------------------------- runs from a state

  ghost predicate CanRun(s: System, steps: seq<Step>)
    decreases |steps|
  {
    steps == [] || (Enabled(s, steps[0]) && CanRun(Apply(s, steps[0]), steps[1..]))
  }

  ghost function RunFrom(s: System, steps: seq<Step>): System
    requires CanRun(s, steps)
    decreases |steps|
  {
    if steps == [] then s else RunFrom(Apply(s, steps[0]), steps[1..])
  }

  ghost predicate Leads(s: System, steps: seq<Step>, t: System)
  {
    CanRun(s, steps) && RunFrom(s, steps) == t
  }

  lemma {:induction false} LeadsOn(s: System, a: seq<Step>, t: System, b: seq<Step>, u: System)
    requires Leads(s, a, t) && Leads(t, b, u)
    ensures Leads(s, a + b, u)
    decreases |a|
  {
    if a == [] {
      assert a + b == b;
    } else {
      ConcatTail(a, b);
      LeadsOn(Apply(s, a[0]), a[1..], t, b, u);
    }
  }

  lemma LeadsStep(s: System, step: Step)
    requires Enabled(s, step)
    ensures Leads(s, [step], Apply(s, step))
  {
    assert [step][1..] == [];
  }

  lemma {:induction false} RunKeepsInv(s: System, steps: seq<Step>)
    requires Inv(s) && CanRun(s, steps)
    ensures Inv(RunFrom(s, steps))
    decreases |steps|
  {
    if steps != [] {
      Convergence.StepKeeps(s, steps[0]);
      RunKeepsInv(Apply(s, steps[0]), steps[1..]);
    }
  }

  // ---------------------------------------------------------------- one push request

  /** The call with its statements all executed. */
  ghost function WorkedOff(s: System, id: nat): System
    requires id in s.server.calls
  {
    System(s.laptops, s.server.(db := Tables.RunOps(s.server.db, s.server.calls[id]),
        calls := s.server.calls[id := []]))
  }

  lemma {:induction false} CallRuns(s: System, id: nat) returns (steps: seq<Step>)
    requires id in s.server.calls
    ensures Leads(s, steps, WorkedOff(s, id))
    decreases |s.server.calls[id]|
  {
    if s.server.calls[id] == [] {
      steps := [];
      assert s.server.calls[id := []] == s.server.calls;
    } else {
      var next := Apply(s, CallStep(id));
      var more := CallRuns(next, id);
      LeadsStep(s, CallStep(id));
      assert next.server.calls[id := []] == s.server.calls[id := []];
      LeadsOn(s, [CallStep(id)], next, more, WorkedOff(s, id));
      steps := [CallStep(id)] + more;
    }
  }

  /** The server after a call of PushLogs that reports success. */
  ghost function PushedOnce(v: ServerState, m: string, b: seq<LogLine>): ServerState
  {
    ServerState(v.dirs[m := Append(FilesOf(v, m), b).files], Tables.RunOps(v.db, GoOpsOf(Raws(b))), v.calls, v.next + 1)
  }

  /** A request on its way, and answered. */
  ghost function Called(s: System, m: string, n: nat): System
    requires m in s.laptops && s.laptops[m].phase.Pushing?
    requires 1 <= n <= |After(s.laptops[m].log, s.laptops[m].phase.upTo)|
  {
    var l, v, b := s.laptops[m], s.server, Batch(s.laptops[m], n);
    System(s.laptops[m := l.(phase := Waiting(l.phase.upTo, At(b[n - 1]), v.next))],
           AfterCall(v, m, Append(FilesOf(v, m), b).files, b))
  }

  ghost function Answered(s: System, m: string, n: nat): System
    requires m in s.laptops && s.laptops[m].phase.Pushing?
    requires 1 <= n <= |After(s.laptops[m].log, s.laptops[m].phase.upTo)|
  {
    var b := Batch(s.laptops[m], n);
    System(s.laptops[m := s.laptops[m].(phase := Pushing(At(b[n - 1])))], PushedOnce(s.server, m, b))
  }

  lemma CallLeads(s: System, m: string, n: nat)
    requires Inv(s) && Enabled(s, PushCall(m, n))
    ensures Leads(s, [PushCall(m, n)], Called(s, m, n))
  {
    PushIsNeverRefused(s, m, n);
    PushCallMoves(s, m, n);
    LeadsStep(s, PushCall(m, n));
  }

  lemma AckLeads(s: System, m: string, id: nat, upTo: Cursor, end: Cursor)
    requires m in s.laptops && s.laptops[m].phase == Waiting(upTo, end, id)
    requires id in s.server.calls && s.server.calls[id] == []
    ensures Leads(s, [PushAck(m)],
                  System(s.laptops[m := s.laptops[m].(phase := Pushing(end))],
                    s.server.(calls := s.server.calls - {id})))
  {
    PushAckMoves(s, m);
    LeadsStep(s, PushAck(m));
  }

  lemma CallGone(s: System, id: nat, ops: seq<Tables.Op>)
    requires Inv(s) && id == s.server.next
    ensures s.server.calls[id := ops][id := []] - {id} == s.server.calls
  {
    forall k | k in s.server.calls ensures k < s.server.next {
      assert CallOk(s.server, k);
    }
  }

  lemma AnsweredIs(s: System, m: string, n: nat)
    requires Inv(s) && m in s.laptops && s.laptops[m].phase.Pushing?
    requires 1 <= n <= |After(s.laptops[m].log, s.laptops[m].phase.upTo)|
    ensures
      var done, end := WorkedOff(Called(s, m, n), s.server.next), At(Batch(s.laptops[m], n)[n - 1]);
      System(done.laptops[m := done.laptops[m].(phase := Pushing(end))],
        done.server.(calls := done.server.calls - {s.server.next}))
        == Answered(s, m, n)
  {
    var l, v, b := s.laptops[m], s.server, Batch(s.laptops[m], n);
    var end := At(b[n - 1]);
    CallGone(s, v.next, GoOpsOf(Raws(b)));
    LaptopTwice(s.laptops, m, l.(phase := Waiting(l.phase.upTo, end, v.next)), l.(phase := Pushing(end)));
  }

  lemma LaptopTwice(laptops: map<string, Laptop>, m: string, a: Laptop, b: Laptop)
    ensures laptops[m := a][m := b] == laptops[m := b]
  {
  }

  /** A request that is answered, with nothing else happening meanwhile. */
  lemma RequestRuns(s: System, m: string, n: nat) returns (steps: seq<Step>)
    requires Inv(s) && m in s.laptops && s.laptops[m].phase.Pushing?
    requires 1 <= n <= PUSH_BATCH && n <= |After(s.laptops[m].log, s.laptops[m].phase.upTo)|
    ensures Leads(s, steps, Answered(s, m, n))
  {
    CallLeads(s, m, n);
    var called := Called(s, m, n);
    var id := s.server.next;
    var work := CallRuns(called, id);
    var done := WorkedOff(called, id);
    LeadsOn(s, [PushCall(m, n)], called, work, done);
    AckLeads(done, m, id, s.laptops[m].phase.upTo, At(Batch(s.laptops[m], n)[n - 1]));
    AnsweredIs(s, m, n);
    LeadsOn(s, [PushCall(m, n)] + work, done, [PushAck(m)], Answered(s, m, n));
    steps := [PushCall(m, n)] + work + [PushAck(m)];
  }

  // ---------------------------------------------------------------- a whole push

  ghost function PushedAll(v: ServerState, m: string, requests: seq<seq<LogLine>>): ServerState
    decreases |requests|
  {
    if requests == [] then v else PushedAll(PushedOnce(v, m, requests[0]), m, requests[1..])
  }

  lemma {:induction false} FlattenHead(parts: seq<seq<LogLine>>)
    requires parts != []
    ensures Flatten(parts) == parts[0] + Flatten(parts[1..])
  {
    if |parts| > 1 {
      var init := parts[..|parts| - 1];
      FlattenHead(init);
      assert init[1..] == parts[1..][..|parts| - 2];
    } else {
      assert parts[..0] == [] && parts[1..] == [];
    }
  }

  ghost function AllAnswered(s: System, m: string, requests: seq<seq<LogLine>>): System
    requires m in s.laptops && s.laptops[m].phase.Pushing?
  {
    var l := s.laptops[m];
    System(s.laptops[m := l.(phase := Pushing(LastOf(Flatten(requests), l.phase.upTo)))],
      PushedAll(s.server, m, requests))
  }

  lemma FirstAnswered(s: System, m: string, requests: seq<seq<LogLine>>)
    requires m in s.laptops && s.laptops[m].phase.Pushing? && requests != [] && requests[0] != []
    requires Flatten(requests) == After(s.laptops[m].log, s.laptops[m].phase.upTo)
    ensures
      var n := |requests[0]|;
      && n <= |After(s.laptops[m].log, s.laptops[m].phase.upTo)|
      && m in Answered(s, m, n).laptops && Answered(s, m, n).laptops[m].phase.Pushing?
      && Answered(s, m, n).laptops[m].log == s.laptops[m].log
      && Flatten(requests[1..]) == After(s.laptops[m].log, Answered(s, m, n).laptops[m].phase.upTo)
      && AllAnswered(Answered(s, m, n), m, requests[1..]) == AllAnswered(s, m, requests)
  {
    hide After, Requests, PushedAll, PushedOnce;
    var l, n := s.laptops[m], |requests[0]|;
    var pending := After(l.log, l.phase.upTo);
    FlattenHead(requests);
    assert pending[..n] == requests[0] && pending[n..] == Flatten(requests[1..]);
    AfterAdvance(l.log, l.phase.upTo, n);
    SameEnd(pending, n, l.phase.upTo);
    assert Batch(l, n) == requests[0];
    AnsweredOn(s, m, requests, At(pending[n - 1]));
  }

  lemma AnsweredOn(s: System, m: string, requests: seq<seq<LogLine>>, end: Cursor)
    requires m in s.laptops && s.laptops[m].phase.Pushing? && requests != []
    requires LastOf(Flatten(requests[1..]), end) == LastOf(Flatten(requests), s.laptops[m].phase.upTo)
    ensures
      var next := System(s.laptops[m := s.laptops[m].(phase := Pushing(end))], PushedOnce(s.server, m, requests[0]));
      AllAnswered(next, m, requests[1..]) == AllAnswered(s, m, requests)
  {
    var l := s.laptops[m];
    LaptopTwice(s.laptops, m, l.(phase := Pushing(end)), l.(phase := Pushing(LastOf(Flatten(requests), l.phase.upTo))));
  }

  lemma FirstRequest(s: System, m: string, n: nat) returns (steps: seq<Step>)
    requires Inv(s) && m in s.laptops && s.laptops[m].phase.Pushing?
    requires 1 <= n <= PUSH_BATCH && n <= |After(s.laptops[m].log, s.laptops[m].phase.upTo)|
    ensures Leads(s, steps, Answered(s, m, n)) && Inv(Answered(s, m, n))
  {
    steps := RequestRuns(s, m, n);
    RunKeepsInv(s, steps);
  }

  /** The requests carry what the laptop has pending. */
  ghost predicate Carries(s: System, m: string, requests: seq<seq<LogLine>>)
  {
    && m in s.laptops && s.laptops[m].phase.Pushing?
    && Flatten(requests) == After(s.laptops[m].log, s.laptops[m].phase.upTo)
    && forall i | 0 <= i < |requests| :: 1 <= |requests[i]| <= PUSH_BATCH
  }

  lemma NextCarries(s: System, m: string, requests: seq<seq<LogLine>>)
    requires Carries(s, m, requests) && requests != []
    ensures 1 <= |requests[0]| <= PUSH_BATCH && |requests[0]| <= |After(s.laptops[m].log, s.laptops[m].phase.upTo)|
    ensures Carries(Answered(s, m, |requests[0]|), m, requests[1..])
    ensures AllAnswered(Answered(s, m, |requests[0]|), m, requests[1..]) == AllAnswered(s, m, requests)
  {
    TailSizes(requests);
    FirstAnswered(s, m, requests);
  }

  lemma TailSizes(requests: seq<seq<LogLine>>)
    requires requests != [] && forall i | 0 <= i < |requests| :: 1 <= |requests[i]| <= PUSH_BATCH
    ensures 1 <= |requests[0]| <= PUSH_BATCH
    ensures forall i | 0 <= i < |requests[1..]| :: 1 <= |requests[1..][i]| <= PUSH_BATCH
  {
  }

  lemma NextRequest(s: System, m: string, requests: seq<seq<LogLine>>) returns (steps: seq<Step>, next: System)
    requires Inv(s) && Carries(s, m, requests) && requests != []
    ensures Leads(s, steps, next) && Inv(next) && Carries(next, m, requests[1..])
    ensures AllAnswered(next, m, requests[1..]) == AllAnswered(s, m, requests)
  {
    NextCarries(s, m, requests);
    next := Answered(s, m, |requests[0]|);
    steps := FirstRequest(s, m, |requests[0]|);
  }

  /** All requests, one after the other. */
  lemma {:induction false} PushRuns(s: System, m: string, requests: seq<seq<LogLine>>) returns (steps: seq<Step>)
    requires Inv(s) && Carries(s, m, requests)
    ensures Leads(s, steps, AllAnswered(s, m, requests))
    decreases |requests|
  {
    if requests == [] {
      steps := [];
      NothingToPush(s, m);
    } else {
      var first, next := NextRequest(s, m, requests);
      var rest := PushRuns(next, m, requests[1..]);
      LeadsOn(s, first, next, rest, AllAnswered(next, m, requests[1..]));
      steps := first + rest;
    }
  }

  lemma NothingToPush(s: System, m: string)
    requires m in s.laptops && s.laptops[m].phase.Pushing?
    ensures Leads(s, [], AllAnswered(s, m, []))
  {
    assert AllAnswered(s, m, []) == s;
  }

  lemma SameEnd(pending: seq<LogLine>, n: nat, c: Cursor)
    requires 1 <= n <= |pending|
    ensures LastOf(pending[n..], At(pending[n - 1])) == LastOf(pending, c)
  {
  }

  // ---------------------------------------------------------------- pulling chunks

  function Pulling1(t: LaptopTables, c: Chunk, directory: string): LaptopTables
  {
    SyncSteps.PullChunk(Pull(t, map[]), c, directory).tables
  }

  function PulledAll(t: LaptopTables, chunks: seq<Chunk>, directory: string): LaptopTables
    decreases |chunks|
  {
    if chunks == [] then t else PulledAll(Pulling1(t, chunks[0], directory), chunks[1..], directory)
  }

  /** The tables the client's contract gives for whole chunks. */
  lemma {:induction false} PulledAllIs(t: LaptopTables, peers: map<string, Files>, chunks: seq<Chunk>,
                                       directory: string)
    ensures PullChunks(Pull(t, peers), chunks, directory).tables == PulledAll(t, chunks, directory)
    decreases |chunks|
  {
    if chunks != [] {
      var init, c := chunks[..|chunks| - 1], chunks[|chunks| - 1];
      PulledAllIs(t, peers, init, directory);
      PulledAllSnoc(t, init, c, directory);
      assert chunks == init + [c];
    }
  }

  lemma {:induction false} PulledAllSnoc(t: LaptopTables, chunks: seq<Chunk>, c: Chunk, directory: string)
    ensures PulledAll(t, chunks + [c], directory) == Pulling1(PulledAll(t, chunks, directory), c, directory)
    decreases |chunks|
  {
    if chunks == [] {
      assert chunks + [c] == [c] && [c][1..] == [];
    } else {
      assert (chunks + [c])[0] == chunks[0] && (chunks + [c])[1..] == chunks[1..] + [c];
      PulledAllSnoc(Pulling1(t, chunks[0], directory), chunks[1..], c, directory);
    }
  }

  /** The chunk holds the next lines of its peer past the cursor. */
  ghost predicate FitsNext(v: ServerState, m: string, t: LaptopTables, c: Chunk)
  {
    var pending := After(MirrorOf(v, c.peer), GetCursor(t, c.peer));
    && c.peer in v.dirs && c.peer != m
    && 1 <= |c.lines| <= CHUNK && |c.lines| <= |pending| && c.lines == pending[..|c.lines|]
  }

  ghost predicate Fits(v: ServerState, m: string, t: LaptopTables, chunks: seq<Chunk>, directory: string)
    decreases |chunks|
  {
    chunks == [] || (FitsNext(v, m, t, chunks[0]) && Fits(v, m, Pulling1(t, chunks[0], directory), chunks[1..],
      directory))
  }

  lemma {:induction false} FitsConcat(v: ServerState, m: string, t: LaptopTables, a: seq<Chunk>, b: seq<Chunk>,
                                      directory: string)
    requires Fits(v, m, t, a, directory) && Fits(v, m, PulledAll(t, a, directory), b, directory)
    ensures Fits(v, m, t, a + b, directory)
    decreases |a|
  {
    if a == [] {
      assert a + b == b;
    } else {
      ConcatTail(a, b);
      FitsConcat(v, m, Pulling1(t, a[0], directory), a[1..], b, directory);
    }
  }

  lemma {:induction false} FitsUpTo(v: ServerState, m: string, t: LaptopTables, chunks: seq<Chunk>, k: nat,
                                    directory: string)
    requires Fits(v, m, t, chunks, directory) && k <= |chunks|
    ensures Fits(v, m, t, chunks[..k], directory)
    ensures k < |chunks| ==> FitsNext(v, m, PulledAll(t, chunks[..k], directory), chunks[k])
    decreases |chunks|
  {
    if k == 0 {
      assert chunks[..0] == [];
    } else {
      var next := Pulling1(t, chunks[0], directory);
      FitsUpTo(v, m, next, chunks[1..], k - 1, directory);
      TakeTail(chunks, k);
    }
  }

  /** Two states that differ in one laptop's tables and copies only. */
  ghost predicate OnlyPulled(s: System, t: System, m: string, work: LaptopTables)
  {
    && m in s.laptops && m in t.laptops && t.server == s.server
    && t.laptops == s.laptops[m := s.laptops[m].(work := work, received := t.laptops[m].received)]
  }

  lemma OnlyPulledTrans(s: System, t: System, u: System, m: string, a: LaptopTables, b: LaptopTables)
    requires OnlyPulled(s, t, m, a) && OnlyPulled(t, u, m, b)
    ensures OnlyPulled(s, u, m, b)
  {
    assert u.laptops[m] == s.laptops[m].(work := b, received := u.laptops[m].received);
    assert t.laptops[m := u.laptops[m]] == s.laptops[m := u.laptops[m]];
  }

  ghost function PulledOne(s: System, m: string, c: Chunk): System
    requires m in s.laptops
  {
    var l := s.laptops[m];
    System(s.laptops[m := l.(work := Pulling1(l.work, c, l.directory), received := Receive(l, c.peer, c.lines))],
      s.server)
  }

  lemma ChunkLeads(s: System, m: string, c: Chunk)
    requires m in s.laptops && s.laptops[m].phase == Pulling && FitsNext(s.server, m, s.laptops[m].work, c)
    ensures Leads(s, [Step.PullChunk(m, c.peer, |c.lines|)], PulledOne(s, m, c))
    ensures OnlyPulled(s, PulledOne(s, m, c), m, Pulling1(s.laptops[m].work, c, s.laptops[m].directory))
  {
    LeadsStep(s, Step.PullChunk(m, c.peer, |c.lines|));
    PullChunkMoves(s, m, c.peer, |c.lines|);
    Pulling1Is(s.laptops[m].work, c, s.laptops[m].directory);
  }

  lemma Pulling1Is(t: LaptopTables, c: Chunk, directory: string)
    requires c.lines != []
    ensures Pulling1(t, c, directory) == Pulled(t, c.peer, c.lines, directory)
  {
  }

  /** Chunks that fit are pulled one after the other. */
  lemma {:induction false} ChunksRun(s: System, m: string, chunks: seq<Chunk>) returns (steps: seq<Step>)
    requires m in s.laptops && s.laptops[m].phase == Pulling
    requires Fits(s.server, m, s.laptops[m].work, chunks, s.laptops[m].directory)
    ensures CanRun(s, steps)
    ensures OnlyPulled(s, RunFrom(s, steps), m, PulledAll(s.laptops[m].work, chunks, s.laptops[m].directory))
    decreases |chunks|
  {
    var l := s.laptops[m];
    if chunks == [] {
      steps := [];
      assert s.laptops[m := l.(work := l.work, received := l.received)] == s.laptops;
    } else {
      var c, next := chunks[0], PulledOne(s, m, chunks[0]);
      ChunkLeads(s, m, c);
      var rest := ChunksRun(next, m, chunks[1..]);
      LeadsOn(s, [Step.PullChunk(m, c.peer, |c.lines|)], next, rest, RunFrom(next, rest));
      steps := [Step.PullChunk(m, c.peer, |c.lines|)] + rest;
      OnlyPulledTrans(s, next, RunFrom(s, steps), m, next.laptops[m].work, PulledAll(l.work, chunks, l.directory));
    }
  }

  // ---------------------------------------------------------------- what the server owes

  lemma CutHead(p: string, pending: seq<LogLine>, n: nat)
    requires pending != [] && n == if |pending| <= CHUNK then |pending| else CHUNK
    ensures Messages(p, Cut(pending)) == [Chunk(p, pending[..n])] + Messages(p, Cut(pending[n..]))
  {
    if |pending| <= CHUNK {
      assert pending[..n] == pending && pending[n..] == [];
      assert Cut(pending) == [pending] && Cut(pending[n..]) == [];
    } else {
      assert Cut(pending) == [pending[..n]] + Cut(pending[n..]);
    }
    MessagesHead(p, pending[..n], Cut(pending[n..]));
  }

  lemma MessagesHead(p: string, first: seq<LogLine>, rest: seq<seq<LogLine>>)
    ensures Messages(p, [first] + rest) == [Chunk(p, first)] + Messages(p, rest)
    ensures [first] + [] == [first]
  {
  }

  /** The chunks of one peer, as the server cuts them. */
  lemma {:induction false} PeerFits(v: ServerState, m: string, t: LaptopTables, p: string, directory: string)
    requires p in v.dirs && p != m
    ensures Fits(v, m, t, Messages(p, Cut(After(MirrorOf(v, p), GetCursor(t, p)))), directory)
    decreases |After(MirrorOf(v, p), GetCursor(t, p))|
  {
    var pending := After(MirrorOf(v, p), GetCursor(t, p));
    if pending == [] {
      assert Messages(p, Cut(pending)) == [];
    } else {
      var n := if |pending| <= CHUNK then |pending| else CHUNK;
      var c := Chunk(p, pending[..n]);
      var next := Pulling1(t, c, directory);
      CutHead(p, pending, n);
      AfterAdvance(MirrorOf(v, p), GetCursor(t, p), n);
      CursorSet(t.(db := Tables.RunOps(t.db, LineOps(c.lines, directory))), p, At(pending[n - 1]), p);
      PeerFits(v, m, next, p, directory);
      assert ([c] + Messages(p, Cut(pending[n..])))[1..] == Messages(p, Cut(pending[n..]));
    }
  }

  lemma {:induction false} OthersCursors(t: LaptopTables, chunks: seq<Chunk>, q: string, directory: string)
    requires forall i | 0 <= i < |chunks| :: chunks[i].peer != q
    ensures GetCursor(PulledAll(t, chunks, directory), q) == GetCursor(t, q)
    decreases |chunks|
  {
    if chunks != [] {
      OthersCursors(Pulling1(t, chunks[0], directory), chunks[1..], q, directory);
    }
  }

  lemma {:induction false} OwedPeers(dirs: map<string, Files>, caller: string, cursors: map<string, Cursor>,
                                     peers: seq<string>, q: string)
    requires forall i | 0 <= i < |peers| :: peers[i] in dirs && peers[i] != q
    ensures forall i | 0 <= i < |Owed(dirs, caller, cursors, peers)| :: Owed(dirs, caller, cursors, peers)[i].peer != q
  {
    if peers != [] {
      OwedPeers(dirs, caller, cursors, peers[..|peers| - 1], q);
    }
  }

  /** All that the server owes a caller fits, one chunk after the other. */
  lemma {:induction false} OwedFits(v: ServerState, m: string, t: LaptopTables, peers: seq<string>, directory: string)
    requires forall i | 0 <= i < |peers| :: peers[i] in v.dirs
    requires forall i, j | 0 <= i < j < |peers| :: peers[i] != peers[j]
    ensures Fits(v, m, t, Owed(v.dirs, m, t.sync, peers), directory)
  {
    if peers != [] {
      var init, p := peers[..|peers| - 1], peers[|peers| - 1];
      var owed := Owed(v.dirs, m, t.sync, init);
      OwedFits(v, m, t, init, directory);
      if p == m {
        assert Owed(v.dirs, m, t.sync, peers) == owed;
      } else {
        OwedPeers(v.dirs, m, t.sync, init, p);
        OthersCursors(t, owed, p, directory);
        PeerFits(v, m, PulledAll(t, owed, directory), p, directory);
        FitsConcat(v, m, t, owed, OwedBy(v.dirs, t.sync, p), directory);
      }
    }
  }

  /** Pulling all that the server owes for the client's request, in whatever order it lists the peers. */
  lemma PullRuns(s: System, m: string, peers: seq<string>, request: seq<(string, Cursor)>) returns (steps: seq<Step>)
    requires m in s.laptops && s.laptops[m].phase == Pulling && Says(request, s.laptops[m].work.sync)
    requires forall i | 0 <= i < |peers| :: peers[i] in s.server.dirs
    requires forall i, j | 0 <= i < j < |peers| :: peers[i] != peers[j]
    ensures CanRun(s, steps)
    ensures
      var l := s.laptops[m];
      forall said | Says(request, said) ::
        OnlyPulled(s, RunFrom(s, steps), m, PulledAll(l.work, Owed(s.server.dirs, m, said, peers), l.directory))
  {
    var l := s.laptops[m];
    OwedFits(s.server, m, l.work, peers, l.directory);
    steps := ChunksRun(s, m, Owed(s.server.dirs, m, l.work.sync, peers));
    forall said | Says(request, said) ensures said == l.work.sync {
      SaysOne(request, said, l.work.sync);
    }
  }

  // ---------------------------------------------------------------- a whole synchronisation

  /** The tables after the attempt was recorded and everything was pushed. */
  ghost function AfterOwnPush(l: Laptop, m: string): LaptopTables
  {
    Pushed(l.work, m, l.log)
  }

  lemma PushedCursor(t: LaptopTables, m: string, log: DayLog)
    requires m in t.sync
    ensures
      var end := LastOf(After(log, GetCursor(t, m)), GetCursor(t, m));
      (if end == GetCursor(t, m) then t else SetCursor(t, m, end)) == t.(sync := AfterPush(t, m, log))
  {
    LastMoves(log, GetCursor(t, m));
  }

  ghost function Started(s: System, m: string): System
    requires m in s.laptops
  {
    var t := MarkAttempt(s.laptops[m].work, m);
    System(s.laptops[m := s.laptops[m].(disk := t, work := t, phase := Pushing(GetCursor(t, m)))], s.server)
  }

  lemma StartLeads(s: System, m: string)
    requires Inv(s) && m in s.laptops && s.laptops[m].phase == Idle
    ensures Leads(s, [StartSync(m)], Started(s, m)) && Inv(Started(s, m))
  {
    LeadsStep(s, StartSync(m));
    Convergence.StepKeeps(s, StartSync(m));
  }

  lemma DoneLeads(s: System, m: string, t: LaptopTables, upTo: Cursor)
    requires m in s.laptops && s.laptops[m].phase == Pushing(upTo)
    requires t == if upTo == GetCursor(s.laptops[m].work, m) then s.laptops[m].work
        else SetCursor(s.laptops[m].work, m, upTo)
    ensures Leads(s, [PushDone(m)], System(s.laptops[m := s.laptops[m].(disk := t, work := t, phase := Pulling)],
        s.server))
  {
    LeadsStep(s, PushDone(m));
  }

  /** All of a laptop's own lines pushed and its cursor committed. */
  ghost function AllPushed(s: System, m: string): System
    requires m in s.laptops
  {
    var l, t := s.laptops[m], AfterOwnPush(s.laptops[m], m);
    System(s.laptops[m := l.(disk := t, work := t, phase := Pulling)],
           PushedAll(s.server, m, Requests(After(l.log, GetCursor(MarkAttempt(l.work, m), m)))))
  }

  /** The push half: attempt, all requests, cursor, commit. */
  lemma PushHalf(s: System, m: string) returns (steps: seq<Step>)
    requires Inv(s) && m in s.laptops && s.laptops[m].phase == Idle
    ensures Leads(s, steps, AllPushed(s, m))
  {
    var l, marked := s.laptops[m], MarkAttempt(s.laptops[m].work, m);
    var c := GetCursor(marked, m);
    var requests, started := Requests(After(l.log, c)), Started(s, m);
    StartLeads(s, m);
    RequestsCarry(After(l.log, c));
    var push := PushRuns(started, m, requests);
    var pushed := AllAnswered(started, m, requests);
    LeadsOn(s, [StartSync(m)], started, push, pushed);
    PushedCursor(marked, m, l.log);
    DoneLeads(pushed, m, AfterOwnPush(l, m), LastOf(After(l.log, c), c));
    PushedIs(s, m);
    LeadsOn(s, [StartSync(m)] + push, pushed, [PushDone(m)], AllPushed(s, m));
    steps := [StartSync(m)] + push + [PushDone(m)];
  }

  lemma PushedIs(s: System, m: string)
    requires m in s.laptops
    ensures
      var l, t := s.laptops[m], AfterOwnPush(s.laptops[m], m);
      var pushed := AllAnswered(Started(s, m), m, Requests(After(l.log, GetCursor(MarkAttempt(l.work, m), m))));
      System(pushed.laptops[m := pushed.laptops[m].(disk := t, work := t, phase := Pulling)], pushed.server) ==
        AllPushed(s, m)
  {
    var l, t := s.laptops[m], AfterOwnPush(s.laptops[m], m);
    var requests := Requests(After(l.log, GetCursor(MarkAttempt(l.work, m), m)));
    AnsweredThenPulling(Started(s, m), m, requests, t);
    LaptopTwice(s.laptops, m, Started(s, m).laptops[m], l.(disk := t, work := t, phase := Pulling));
  }

  lemma AnsweredThenPulling(s: System, m: string, requests: seq<seq<LogLine>>, t: LaptopTables)
    requires m in s.laptops && s.laptops[m].phase.Pushing?
    ensures
      var done := AllAnswered(s, m, requests);
      System(done.laptops[m := done.laptops[m].(disk := t, work := t, phase := Pulling)], done.server) ==
        System(s.laptops[m := s.laptops[m].(disk := t, work := t, phase := Pulling)], PushedAll(s.server, m, requests))
  {
    LaptopTwice(s.laptops, m, AllAnswered(s, m, requests).laptops[m],
      s.laptops[m].(disk := t, work := t, phase := Pulling));
  }

  ghost predicate PeersOf(v: ServerState, peers: seq<string>)
  {
    && (forall i | 0 <= i < |peers| :: peers[i] in v.dirs)
    && (forall i, j | 0 <= i < j < |peers| :: peers[i] != peers[j])
  }

  /** What the server owes the laptop after it has pushed. */
  /** What the server answers, after the push, to a request that says these cursors. */
  ghost function AnswerTo(s: System, m: string, said: map<string, Cursor>, peers: seq<string>): seq<Chunk>
    requires m in s.laptops && PeersOf(s.server, peers)
  {
    var v := AllPushed(s, m).server;
    DirsStay(s.server, m, Requests(After(s.laptops[m].log, GetCursor(MarkAttempt(s.laptops[m].work, m), m))));
    Owed(v.dirs, m, said, peers)
  }

  ghost function OwedAfterPush(s: System, m: string, peers: seq<string>): seq<Chunk>
    requires m in s.laptops && PeersOf(s.server, peers)
  {
    AnswerTo(s, m, AfterOwnPush(s.laptops[m], m).sync, peers)
  }

  lemma OwedAllFit(s: System, m: string, peers: seq<string>)
    requires m in s.laptops && PeersOf(s.server, peers)
    ensures Fits(AllPushed(s, m).server, m, AfterOwnPush(s.laptops[m], m), OwedAfterPush(s, m, peers),
        s.laptops[m].directory)
  {
    DirsStay(s.server, m, Requests(After(s.laptops[m].log, GetCursor(MarkAttempt(s.laptops[m].work, m), m))));
    OwedFits(AllPushed(s, m).server, m, AfterOwnPush(s.laptops[m], m), peers, s.laptops[m].directory);
  }

  /** A laptop that is pulling, after some chunks. */
  ghost predicate PullingAt(s: System, m: string, end: System, work: LaptopTables)
  {
    && m in s.laptops && m in end.laptops && end.server == s.server && end.laptops[m].phase == Pulling
    && end.laptops[m].directory == s.laptops[m].directory && end.laptops[m].disk == s.laptops[m].disk
    && end.laptops[m].work == work
  }

  lemma FirstChunks(s: System, m: string, chunks: seq<Chunk>, k: nat) returns (steps: seq<Step>, end: System)
    requires m in s.laptops && s.laptops[m].phase == Pulling && k <= |chunks|
    requires Fits(s.server, m, s.laptops[m].work, chunks, s.laptops[m].directory)
    ensures Leads(s, steps, end)
    ensures PullingAt(s, m, end, PulledAll(s.laptops[m].work, chunks[..k], s.laptops[m].directory))
    ensures k < |chunks| ==> FitsNext(end.server, m, end.laptops[m].work, chunks[k])
  {
    var l := s.laptops[m];
    FitsUpTo(s.server, m, l.work, chunks, k, l.directory);
    steps := ChunksRun(s, m, chunks[..k]);
    end := RunFrom(s, steps);
  }

  /** Everything pushed and the first k owed chunks pulled. */
  lemma PulledSoFar(s: System, m: string, peers: seq<string>, k: nat) returns (steps: seq<Step>, end: System)
    requires Inv(s) && m in s.laptops && s.laptops[m].phase == Idle && PeersOf(s.server, peers)
    requires k <= |OwedAfterPush(s, m, peers)|
    ensures Leads(s, steps, end)
    ensures
      var l, owed := s.laptops[m], OwedAfterPush(s, m, peers);
      && PullingAt(AllPushed(s, m), m, end, PulledAll(AfterOwnPush(l, m), owed[..k], l.directory))
      && (k < |owed| ==> FitsNext(end.server, m, end.laptops[m].work, owed[k]))
  {
    OwedAllFit(s, m, peers);
    var push := PushHalf(s, m);
    var pull;
    pull, end := FirstChunks(AllPushed(s, m), m, OwedAfterPush(s, m, peers), k);
    LeadsOn(s, push, AllPushed(s, m), pull, end);
    steps := push + pull;
  }

  /** How far a pull of the chunks can get. */
  ghost predicate CanEndAt(chunks: seq<Chunk>, e: Ending, directory: string)
  {
    && e.chunks <= |chunks| && !e.part.torn
    && if e.chunks == |chunks| then e.part == NO_PART
       else
         && e.part.lines <= |chunks[e.chunks].lines|
         && e.part.done <= if e.part.lines == 0 then 0
                           else |PyOps(chunks[e.chunks].lines[e.part.lines - 1].raw, directory)|
  }

  /** From the laptop after some whole chunks to the end of the pull. */
  lemma PullEnds(s: System, m: string, t: LaptopTables, chunks: seq<Chunk>, e: Ending, files: map<string, Files>)
    returns (steps: seq<Step>, end: System, now: Pull)
    requires m in s.laptops && s.laptops[m].phase == Pulling && CanEndAt(chunks, e, s.laptops[m].directory)
    requires s.laptops[m].work == PulledAll(t, chunks[..e.chunks], s.laptops[m].directory)
    requires e.chunks < |chunks| ==> FitsNext(s.server, m, s.laptops[m].work, chunks[e.chunks])
    ensures Leads(s, steps, end) && end.server == s.server
    ensures m in end.laptops && end.laptops[m].phase == Idle && now.tables == end.laptops[m].disk
    ensures EndsAt(Pull(t, files), now, chunks, e, s.laptops[m].directory)
  {
    if e.part.lines == 0 {
      steps, end, now := PullEndsWhole(s, m, t, chunks, e, files);
    } else {
      steps, end, now := PullEndsInside(s, m, t, chunks, e, files);
    }
  }

  lemma PullEndsWhole(s: System, m: string, t: LaptopTables, chunks: seq<Chunk>, e: Ending, files: map<string, Files>)
    returns (steps: seq<Step>, end: System, now: Pull)
    requires m in s.laptops && s.laptops[m].phase == Pulling && CanEndAt(chunks, e, s.laptops[m].directory)
    requires s.laptops[m].work == PulledAll(t, chunks[..e.chunks], s.laptops[m].directory) && e.part.lines == 0
    ensures Leads(s, steps, end) && end.server == s.server
    ensures m in end.laptops && end.laptops[m].phase == Idle && now.tables == end.laptops[m].disk
    ensures EndsAt(Pull(t, files), now, chunks, e, s.laptops[m].directory)
  {
    EndLeads(s, m);
    steps, end := [PullDone(m)], Ended(s, m);
    now := WholeEnd(s.laptops[m].work, t, chunks, e, files, s.laptops[m].directory);
  }

  lemma PullEndsInside(s: System, m: string, t: LaptopTables, chunks: seq<Chunk>, e: Ending, files: map<string, Files>)
    returns (steps: seq<Step>, end: System, now: Pull)
    requires m in s.laptops && s.laptops[m].phase == Pulling && CanEndAt(chunks, e, s.laptops[m].directory)
    requires s.laptops[m].work == PulledAll(t, chunks[..e.chunks], s.laptops[m].directory) && e.part.lines > 0
    requires e.chunks < |chunks| && FitsNext(s.server, m, s.laptops[m].work, chunks[e.chunks])
    ensures Leads(s, steps, end) && end.server == s.server
    ensures m in end.laptops && end.laptops[m].phase == Idle && now.tables == end.laptops[m].disk
    ensures EndsAt(Pull(t, files), now, chunks, e, s.laptops[m].directory)
  {
    var c := chunks[e.chunks];
    FailLeads(s, m, c, e.part.lines, e.part.done);
    steps, end := [PullFail(m, c.peer, e.part.lines, e.part.done)], Failed(s, m, c, e.part.lines, e.part.done);
    now := PartEnd(s.laptops[m].work, t, chunks, e, files, s.laptops[m].directory);
  }

  lemma WholeEnd(work: LaptopTables, t: LaptopTables, chunks: seq<Chunk>, e: Ending, files: map<string, Files>,
                 directory: string)
    returns (now: Pull)
    requires CanEndAt(chunks, e, directory) && e.part.lines == 0 && work == PulledAll(t, chunks[..e.chunks], directory)
    ensures now.tables == work && EndsAt(Pull(t, files), now, chunks, e, directory)
  {
    PulledAllIs(t, files, chunks[..e.chunks], directory);
    now := PullChunks(Pull(t, files), chunks[..e.chunks], directory);
    if e.chunks == |chunks| {
      assert chunks[..e.chunks] == chunks;
    } else {
      NothingGivenUp(now, chunks[e.chunks], e.part, directory);
    }
  }

  lemma PartEnd(work: LaptopTables, t: LaptopTables, chunks: seq<Chunk>, e: Ending, files: map<string, Files>,
                directory: string)
    returns (now: Pull)
    requires CanEndAt(chunks, e, directory) && e.part.lines > 0 && work == PulledAll(t, chunks[..e.chunks], directory)
    ensures
      var part := chunks[e.chunks].lines[..e.part.lines];
      now.tables == work.(db := Tables.RunOps(work.db, PartOps(part, e.part.done, directory)))
    ensures EndsAt(Pull(t, files), now, chunks, e, directory)
  {
    PulledAllIs(t, files, chunks[..e.chunks], directory);
    now := PartGivenUp(PullChunks(Pull(t, files), chunks[..e.chunks], directory), chunks[e.chunks], e.part, directory);
  }

  lemma PartGivenUp(was: Pull, c: Chunk, p: Part, directory: string) returns (now: Pull)
    requires 1 <= p.lines <= |c.lines| && !p.torn && p.done <= |PyOps(c.lines[p.lines - 1].raw, directory)|
    ensures now.tables == was.tables.(db := Tables.RunOps(was.tables.db,
        PartOps(c.lines[..p.lines], p.done, directory)))
    ensures GivenUp(was, now, c, p, directory)
  {
    var part := c.lines[..p.lines];
    now := Pull(was.tables.(db := Tables.RunOps(was.tables.db, PartOps(part, p.done, directory))),
                AppendPeerLines(was.peers, c.peer, part));
  }

  lemma NothingGivenUp(was: Pull, c: Chunk, p: Part, directory: string)
    requires p.lines == 0
    ensures GivenUp(was, was, c, p, directory)
  {
    assert c.lines[..0] == [];
  }

  /** A run of the client in which the push succeeds and the pull ends anywhere: what
      the contracts of DoPush, PushLogs, PullLogs and DoPull say of it is reached by
      the protocol.  The requests are those DoPush sends, the server has handled
      them as PushLogs does, and the committed tables are those that DoPull leaves
      of what PullLogs owes for its request, whole, or up to a part of a chunk. */
  lemma SyncRuns(s: System, m: string, peers: seq<string>, request: seq<(string, Cursor)>, e: Ending,
                 files: map<string, Files>)
    returns (steps: seq<Step>, now: Pull)
    requires Inv(s) && m in s.laptops && s.laptops[m].phase == Idle && PeersOf(s.server, peers)
    requires Says(request, AfterOwnPush(s.laptops[m], m).sync)
    requires CanEndAt(OwedAfterPush(s, m, peers), e, s.laptops[m].directory)
    ensures CanRun(s, steps)
    ensures
      var l, t := s.laptops[m], AfterOwnPush(s.laptops[m], m);
      && RunFrom(s, steps).server == AllPushed(s, m).server
      && m in RunFrom(s, steps).laptops && RunFrom(s, steps).laptops[m].phase == Idle
      && now.tables == RunFrom(s, steps).laptops[m].disk
      && forall said | Says(request, said) :: EndsAt(Pull(t, files), now, AnswerTo(s, m, said, peers), e, l.directory)
  {
    forall said | Says(request, said) ensures said == AfterOwnPush(s.laptops[m], m).sync {
      SaysOne(request, said, AfterOwnPush(s.laptops[m], m).sync);
    }
    var t, owed := AfterOwnPush(s.laptops[m], m), OwedAfterPush(s, m, peers);
    var first, mid := PulledSoFar(s, m, peers, e.chunks);
    var last, end;
    last, end, now := PullEnds(mid, m, t, owed, e, files);
    LeadsOn(s, first, mid, last, end);
    steps := first + last;
  }

  ghost function Failed(s: System, m: string, c: Chunk, lines: nat, done: nat): System
    requires m in s.laptops && 1 <= lines <= |c.lines|
    requires done <= |PyOps(c.lines[lines - 1].raw, s.laptops[m].directory)|
  {
    var l, part := s.laptops[m], c.lines[..lines];
    var t := l.work.(db := Tables.RunOps(l.work.db, PartOps(part, done, l.directory)));
    System(s.laptops[m := l.(disk := t, work := t, phase := Idle, received := Receive(l, c.peer, part), torn := true)],
      s.server)
  }

  lemma FailLeads(s: System, m: string, c: Chunk, lines: nat, done: nat)
    requires m in s.laptops && s.laptops[m].phase == Pulling && FitsNext(s.server, m, s.laptops[m].work, c)
    requires 1 <= lines <= |c.lines| && done <= |PyOps(c.lines[lines - 1].raw, s.laptops[m].directory)|
    ensures Leads(s, [PullFail(m, c.peer, lines, done)], Failed(s, m, c, lines, done))
  {
    assert Next(s, m, c.peer)[..lines] == c.lines[..lines];
    LeadsStep(s, PullFail(m, c.peer, lines, done));
  }

  ghost function Ended(s: System, m: string): System
    requires m in s.laptops
  {
    System(s.laptops[m := s.laptops[m].(disk := s.laptops[m].work, phase := Idle)], s.server)
  }

  lemma EndLeads(s: System, m: string)
    requires m in s.laptops && s.laptops[m].phase == Pulling
    ensures Leads(s, [PullDone(m)], Ended(s, m))
  {
    LeadsStep(s, PullDone(m));
  }

  /** A client killed while pulling leaves what was committed after the push. */
  lemma KilledSync(s: System, m: string, peers: seq<string>, k: nat, lines: nat) returns (steps: seq<Step>)
    requires Inv(s) && m in s.laptops && s.laptops[m].phase == Idle && PeersOf(s.server, peers)
    requires k < |OwedAfterPush(s, m, peers)| && lines <= |OwedAfterPush(s, m, peers)[k].lines|
    ensures CanRun(s, steps)
    ensures
      var end := RunFrom(s, steps);
      && m in end.laptops && end.server == AllPushed(s, m).server
      && end.laptops[m].disk == end.laptops[m].work == AfterOwnPush(s.laptops[m], m)
  {
    var c := OwedAfterPush(s, m, peers)[k];
    var first, mid := PulledSoFar(s, m, peers, k);
    var step := Crash(m, c.peer, lines, lines);
    LeadsStep(mid, step);
    LeadsOn(s, first, mid, [step], Apply(mid, step));
    steps := first + [step];
  }

  // ---------------------------------------------------------------- a push that fails

  /** How far the failing request got at the server, if it got there: it was
      appended, and so many of its statements ran. */
  ghost function PushedPart(v: ServerState, m: string, b: seq<LogLine>, reached: Option<nat>): ServerState
  {
    match reached
    case None => v
    case Some(done) =>
      var ops := GoOpsOf(Raws(b));
      ServerState(v.dirs[m := Append(FilesOf(v, m), b).files],
                  Tables.RunOps(v.db, if done <= |ops| then ops[..done] else ops), v.calls, v.next + 1)
  }

  lemma {:induction false} CallRunsPartly(s: System, id: nat, done: nat) returns (steps: seq<Step>)
    requires id in s.server.calls && done <= |s.server.calls[id]|
    ensures
      var ops := s.server.calls[id];
      Leads(s, steps, System(s.laptops, s.server.(db := Tables.RunOps(s.server.db, ops[..done]),
          calls := s.server.calls[id := ops[done..]])))
    decreases done
  {
    var ops := s.server.calls[id];
    if done == 0 {
      steps := [];
      assert s.server.calls[id := ops[0..]] == s.server.calls && ops[..0] == [];
    } else {
      var next := Apply(s, CallStep(id));
      var more := CallRunsPartly(next, id, done - 1);
      LeadsStep(s, CallStep(id));
      assert ops[..done][0] == ops[0] && ops[..done][1..] == ops[1..][..done - 1];
      assert ops[1..][done - 1..] == ops[done..];
      assert next.server.calls[id := ops[done..]] == s.server.calls[id := ops[done..]];
      LeadsOn(s, [CallStep(id)], next, more,
              System(s.laptops, s.server.(db := Tables.RunOps(s.server.db, ops[..done]),
                  calls := s.server.calls[id := ops[done..]])));
      steps := [CallStep(id)] + more;
    }
  }

  ghost function GaveUp(s: System, m: string, v: ServerState): System
    requires m in s.laptops
  {
    System(s.laptops[m := s.laptops[m].(disk := s.laptops[m].work, phase := Idle)], v)
  }

  lemma GiveUpLeads(s: System, m: string)
    requires m in s.laptops && (s.laptops[m].phase.Pushing? || s.laptops[m].phase.Waiting?)
    ensures Leads(s, [PushFail(m)], GaveUp(s, m, s.server))
  {
    LeadsStep(s, PushFail(m));
  }

  lemma DieLeads(s: System, id: nat)
    requires id in s.server.calls
    ensures Leads(s, [CallDie(id)], System(s.laptops, s.server.(calls := s.server.calls - {id})))
  {
    LeadsStep(s, CallDie(id));
  }

  /** A request that is never answered. */
  lemma LostRequest(s: System, m: string, n: nat, done: nat) returns (steps: seq<Step>)
    requires Inv(s) && m in s.laptops && s.laptops[m].phase.Pushing?
    requires 1 <= n <= PUSH_BATCH && n <= |After(s.laptops[m].log, s.laptops[m].phase.upTo)|
    requires done <= |GoOpsOf(Raws(Batch(s.laptops[m], n)))|
    ensures Leads(s, steps, GaveUp(s, m, PushedPart(s.server, m, Batch(s.laptops[m], n), Some(done))))
  {
    var called, id, ops := Called(s, m, n), s.server.next, GoOpsOf(Raws(Batch(s.laptops[m], n)));
    CallLeads(s, m, n);
    var work := CallRunsPartly(called, id, done);
    var worked := System(called.laptops,
                         called.server.(db := Tables.RunOps(called.server.db, ops[..done]),
                             calls := called.server.calls[id := ops[done..]]));
    LeadsOn(s, [PushCall(m, n)], called, work, worked);
    DieLeads(worked, id);
    var dead := System(worked.laptops, worked.server.(calls := worked.server.calls - {id}));
    LeadsOn(s, [PushCall(m, n)] + work, worked, [CallDie(id)], dead);
    GiveUpLeads(dead, m);
    LostIs(s, m, n, done);
    LeadsOn(s, [PushCall(m, n)] + work + [CallDie(id)], dead, [PushFail(m)],
            GaveUp(s, m, PushedPart(s.server, m, Batch(s.laptops[m], n), Some(done))));
    steps := [PushCall(m, n)] + work + [CallDie(id)] + [PushFail(m)];
  }

  lemma LostIs(s: System, m: string, n: nat, done: nat)
    requires Inv(s) && m in s.laptops && s.laptops[m].phase.Pushing?
    requires 1 <= n <= |After(s.laptops[m].log, s.laptops[m].phase.upTo)|
    requires done <= |GoOpsOf(Raws(Batch(s.laptops[m], n)))|
    ensures
      var called, id, ops := Called(s, m, n), s.server.next, GoOpsOf(Raws(Batch(s.laptops[m], n)));
      var dead := System(called.laptops,
        called.server.(db := Tables.RunOps(called.server.db, ops[..done]),
            calls := called.server.calls[id := ops[done..]] - {id}));
      GaveUp(dead, m, dead.server) == GaveUp(s, m, PushedPart(s.server, m, Batch(s.laptops[m], n), Some(done)))
  {
    LostServer(s, m, n, done);
    LostLaptop(s, m, n);
  }

  lemma LostServer(s: System, m: string, n: nat, done: nat)
    requires Inv(s) && m in s.laptops && s.laptops[m].phase.Pushing?
    requires 1 <= n <= |After(s.laptops[m].log, s.laptops[m].phase.upTo)|
    requires done <= |GoOpsOf(Raws(Batch(s.laptops[m], n)))|
    ensures
      var called, id, ops := Called(s, m, n), s.server.next, GoOpsOf(Raws(Batch(s.laptops[m], n)));
      called.server.(db := Tables.RunOps(called.server.db, ops[..done]),
                     calls := called.server.calls[id := ops[done..]] - {id}) ==
        PushedPart(s.server, m, Batch(s.laptops[m], n), Some(done))
  {
    var ops := GoOpsOf(Raws(Batch(s.laptops[m], n)));
    CallGoneAnyway(s, s.server.next, ops, ops[done..]);
  }

  lemma LostLaptop(s: System, m: string, n: nat)
    requires m in s.laptops && s.laptops[m].phase.Pushing?
    requires 1 <= n <= |After(s.laptops[m].log, s.laptops[m].phase.upTo)|
    ensures
      var called, l := Called(s, m, n), s.laptops[m];
      called.laptops[m := called.laptops[m].(disk := called.laptops[m].work, phase := Idle)] ==
        s.laptops[m := l.(disk := l.work, phase := Idle)]
  {
    var l := s.laptops[m];
    LaptopTwice(s.laptops, m, Called(s, m, n).laptops[m], l.(disk := l.work, phase := Idle));
  }

  lemma CallGoneAnyway(s: System, id: nat, ops: seq<Tables.Op>, rest: seq<Tables.Op>)
    requires Inv(s) && id == s.server.next
    ensures s.server.calls[id := ops][id := rest] - {id} == s.server.calls
  {
    forall k | k in s.server.calls ensures k < s.server.next {
      assert CallOk(s.server, k);
    }
  }

  /** Two states that differ in one laptop's phase and the server only. */
  ghost predicate OnlyPhase(s: System, t: System, m: string)
  {
    m in s.laptops && m in t.laptops && t.laptops == s.laptops[m := s.laptops[m].(phase := t.laptops[m].phase)]
  }

  lemma OnlyPhaseTrans(s: System, t: System, u: System, m: string)
    requires OnlyPhase(s, t, m) && OnlyPhase(t, u, m)
    ensures OnlyPhase(s, u, m)
  {
    assert u.laptops[m] == s.laptops[m].(phase := u.laptops[m].phase);
    LaptopTwice(s.laptops, m, t.laptops[m], u.laptops[m]);
  }

  lemma {:induction false} SomeRequests(s: System, m: string, requests: seq<seq<LogLine>>, k: nat)
    returns (steps: seq<Step>, next: System)
    requires Inv(s) && Carries(s, m, requests) && k <= |requests|
    ensures Leads(s, steps, next) && Inv(next) && Carries(next, m, requests[k..])
    ensures next.server == PushedAll(s.server, m, requests[..k]) && OnlyPhase(s, next, m)
    decreases k
  {
    hide *;
    if k == 0 {
      steps, next := [], s;
      NoRequests(s, m, requests);
    } else {
      var first, mid := FirstOf(s, m, requests);
      var rest;
      rest, next := SomeRequests(mid, m, requests[1..], k - 1);
      PushedFirst(s.server, m, requests, k);
      LeadsOn(s, first, mid, rest, next);
      OnlyPhaseTrans(s, mid, next, m);
      steps := first + rest;
    }
  }

  lemma NoRequests(s: System, m: string, requests: seq<seq<LogLine>>)
    requires Carries(s, m, requests)
    ensures requests[0..] == requests && Leads(s, [], s)
    ensures PushedAll(s.server, m, requests[..0]) == s.server && OnlyPhase(s, s, m)
  {
    assert s.laptops[m := s.laptops[m].(phase := s.laptops[m].phase)] == s.laptops;
  }

  lemma PushedFirst(v: ServerState, m: string, requests: seq<seq<LogLine>>, k: nat)
    requires 0 < k <= |requests|
    ensures PushedAll(v, m, requests[..k]) == PushedAll(PushedOnce(v, m, requests[0]), m, requests[1..][..k - 1])
    ensures requests[1..][k - 1..] == requests[k..]
  {
    TakeTail(requests, k);
    DropTail(requests, k);
  }

  lemma FirstOf(s: System, m: string, requests: seq<seq<LogLine>>) returns (steps: seq<Step>, next: System)
    requires Inv(s) && Carries(s, m, requests) && requests != []
    ensures Leads(s, steps, next) && Inv(next) && Carries(next, m, requests[1..])
    ensures next.server == PushedOnce(s.server, m, requests[0]) && OnlyPhase(s, next, m)
  {
    NextCarries(s, m, requests);
    FirstIsBatch(s, m, requests);
    next := Answered(s, m, |requests[0]|);
    steps := FirstRequest(s, m, |requests[0]|);
  }

  lemma FirstIsBatch(s: System, m: string, requests: seq<seq<LogLine>>)
    requires Carries(s, m, requests) && requests != []
    ensures |requests[0]| <= |After(s.laptops[m].log, s.laptops[m].phase.upTo)|
        && Batch(s.laptops[m], |requests[0]|) == requests[0]
  {
    FlattenHead(requests);
  }

  /** A run of the client whose push fails at the k-th request: the requests before
      it are handled, the failing one in part or not at all, and of the tables only
      the recorded attempt is committed; the cursor stays. */
  lemma FailedPush(s: System, m: string, k: nat, reached: Option<nat>) returns (steps: seq<Step>)
    requires Inv(s) && m in s.laptops && s.laptops[m].phase == Idle
    requires
      var l := s.laptops[m];
      var requests := Requests(After(l.log, GetCursor(MarkAttempt(l.work, m), m)));
      k < |requests| && (reached.Some? ==> reached.value <= |GoOpsOf(Raws(requests[k]))|)
    ensures CanRun(s, steps)
    ensures
      var l, t := s.laptops[m], MarkAttempt(s.laptops[m].work, m);
      var requests, end := Requests(After(l.log, GetCursor(t, m))), RunFrom(s, steps);
      && m in end.laptops && end.laptops[m] == l.(disk := t, work := t)
      && end.server == PushedPart(PushedAll(s.server, m, requests[..k]), m, requests[k], reached)
  {
    var l, t, started := s.laptops[m], MarkAttempt(s.laptops[m].work, m), Started(s, m);
    var requests := Requests(After(l.log, GetCursor(t, m)));
    StartLeads(s, m);
    RequestsCarry(After(l.log, GetCursor(t, m)));
    var some, mid := SomeRequests(started, m, requests, k);
    LeadsOn(s, [StartSync(m)], started, some, mid);
    assert requests[k..][0] == requests[k];
    var last, end := RequestFails(mid, m, requests[k..], reached);
    LeadsOn(s, [StartSync(m)] + some, mid, last, end);
    steps := [StartSync(m)] + some + last;
  }

  lemma RequestFails(s: System, m: string, requests: seq<seq<LogLine>>, reached: Option<nat>)
    returns (last: seq<Step>, end: System)
    requires Inv(s) && Carries(s, m, requests) && requests != []
    requires reached.Some? ==> reached.value <= |GoOpsOf(Raws(requests[0]))|
    ensures Leads(s, last, end) && end == GaveUp(s, m, PushedPart(s.server, m, requests[0], reached))
  {
    NextCarries(s, m, requests);
    FirstIsBatch(s, m, requests);
    match reached {
      case None =>
        last, end := [PushFail(m)], GaveUp(s, m, s.server);
        GiveUpLeads(s, m);
      case Some(done) =>
        last := LostRequest(s, m, |requests[0]|, done);
        end := GaveUp(s, m, PushedPart(s.server, m, requests[0], reached));
    }
  }

  lemma {:induction false} DirsStay(v: ServerState, m: string, requests: seq<seq<LogLine>>)
    ensures forall p | p in v.dirs :: p in PushedAll(v, m, requests).dirs
    decreases |requests|
  {
    if requests != [] {
      DirsStay(PushedOnce(v, m, requests[0]), m, requests[1..]);
    }
  }
}
