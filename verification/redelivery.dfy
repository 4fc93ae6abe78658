/** The copies of their peers' logs that laptops keep, across pulls cut off at or
    inside chunks, crashes and redelivery. */
module Redelivery {
  import Dates
  import opened DayLogs
  import Mirror
  import opened SyncSteps
  import opened Protocol
  import opened ProtocolProof
  import Convergence

  /** Before each line stands every earlier line of the peer's log. */
  ghost predicate NoneSkipped(received: seq<LogLine>, mirror: DayLog)
  {
    forall i, x | 0 <= i < |received| && Has(mirror, x) && Before(x, received[i]) :: x in received[..i]
  }

  ghost predicate CopyOk(received: seq<LogLine>, mirror: DayLog, c: Cursor, torn: bool)
  {
    && (forall x | x in received :: Has(mirror, x))
    && (forall x | Has(mirror, x) && !Past(x, c) :: x in received)
    && NoneSkipped(received, mirror)
    && (!torn ==> received + After(mirror, c) == Flat(mirror))
  }

  ghost predicate CopiesOk(m: string, l: Laptop, v: ServerState)
  {
    forall p | p != m :: CopyOk(ReceivedFrom(l, p), MirrorOf(v, p), GetCursor(l.work, p), l.torn)
  }

  ghost predicate AllCopiesOk(s: System)
  {
    forall m | m in s.laptops :: CopiesOk(m, s.laptops[m], s.server)
  }

  // ---------------------------------------------------------------- a copy, by itself

  lemma {:induction false} KeepPrefix(s: seq<LogLine>, t: seq<LogLine>, c: Cursor)
    requires s <= t && forall x | x in t[|s|..] :: Past(x, c)
    ensures Keep(t, c) == Keep(s, c) + t[|s|..]
  {
    assert t == s + t[|s|..];
    KeepConcat(s, t[|s|..], c);
    KeepAll(t[|s|..], c);
  }

  /** The lines a mirror gains are past every cursor into it. */
  lemma GainedIsPast(m: DayLog, w: DayLog, c: Cursor)
    requires PrefixOf(m, w) && LinesDated(w) && Points(c, m)
    ensures Flat(m) <= Flat(w)
    ensures forall x | x in Flat(w)[|Flat(m)|..] :: Past(x, c)
  {
    PrefixFlat(m, w);
    FlatMembers(m);
    FlatMembers(w);
    forall x | x in Flat(w)[|Flat(m)|..] ensures Past(x, c) {
      assert x in Flat(w);
      if c.date != Dates.NO_DATE {
        var y := LogLine(c.date, c.offset, m[c.date][c.offset]);
        assert y in Flat(m);
        var i :| 0 <= i < |Flat(m)| && Flat(m)[i] == y;
        var j :| 0 <= j < |Flat(w)[|Flat(m)|..]| && Flat(w)[|Flat(m)|..][j] == x;
        assert Before(Flat(w)[i], Flat(w)[|Flat(m)| + j]);
      }
    }
  }

  lemma UpToCursor(m: DayLog, w: DayLog, c: Cursor, x: LogLine)
    requires PrefixOf(m, w) && LinesDated(w) && Points(c, m) && Has(w, x) && !Past(x, c)
    ensures Has(m, x)
  {
    if c.date != Dates.NO_DATE {
      var y := LogLine(c.date, c.offset, m[c.date][c.offset]);
      assert Has(m, y) && Has(w, y);
      assert x == y || Before(x, y);
    }
  }

  lemma NoneSkippedMono(received: seq<LogLine>, m: DayLog, w: DayLog)
    requires NoneSkipped(received, m) && PrefixOf(m, w) && forall x | x in received :: Has(m, x)
    ensures NoneSkipped(received, w)
  {
    forall i, x | 0 <= i < |received| && Has(w, x) && Before(x, received[i]) ensures x in received[..i] {
      assert received[i] in received && Has(m, received[i]);
      assert Has(m, x);
    }
  }

  lemma CopyMono(received: seq<LogLine>, m: DayLog, w: DayLog, c: Cursor, torn: bool)
    requires CopyOk(received, m, c, torn) && PrefixOf(m, w) && LinesDated(w) && Points(c, m)
    ensures CopyOk(received, w, c, torn)
  {
    forall x | Has(w, x) && !Past(x, c) ensures x in received {
      UpToCursor(m, w, c, x);
    }
    NoneSkippedMono(received, m, w);
    if !torn {
      UntornMono(received, m, w, c);
    }
  }

  lemma UntornMono(received: seq<LogLine>, m: DayLog, w: DayLog, c: Cursor)
    requires received + After(m, c) == Flat(m) && PrefixOf(m, w) && LinesDated(w) && Points(c, m)
    ensures received + After(w, c) == Flat(w)
  {
    GainedIsPast(m, w, c);
    KeepPrefix(Flat(m), Flat(w), c);
    assert Flat(w) == Flat(m) + Flat(w)[|Flat(m)|..];
  }

  /** The first lines of an answer are appended; the cursor may stay behind. */
  lemma CopyGrows(received: seq<LogLine>, mirror: DayLog, c: Cursor, torn: bool, k: nat)
    requires CopyOk(received, mirror, c, torn) && k <= |After(mirror, c)|
    ensures CopyOk(received + After(mirror, c)[..k], mirror, c, torn || k > 0)
    ensures k >= 1 ==> CopyOk(received + After(mirror, c)[..k], mirror, At(After(mirror, c)[k - 1]), torn)
  {
    var s := After(mirror, c);
    var now := received + s[..k];
    AfterMembers(mirror, c);
    StillNoneSkipped(received, mirror, c, k);
    forall x | x in now ensures Has(mirror, x) {
      assert x in received || x in s;
    }
    if k == 0 {
      assert now == received;
    } else {
      ReachesFurther(received, mirror, c, k);
      assert s == s[..k] + s[k..];
    }
  }

  lemma ReachesFurther(received: seq<LogLine>, mirror: DayLog, c: Cursor, k: nat)
    requires 1 <= k <= |After(mirror, c)|
    requires forall x | Has(mirror, x) && !Past(x, c) :: x in received
    ensures
      var now, end := received + After(mirror, c)[..k], At(After(mirror, c)[k - 1]);
      && (forall x | Has(mirror, x) && !Past(x, end) :: x in now)
      && now + After(mirror, end) == received + After(mirror, c)
  {
    var s := After(mirror, c);
    AfterAdvance(mirror, c, k);
    assert s == s[..k] + s[k..];
  }

  lemma StillNoneSkipped(received: seq<LogLine>, mirror: DayLog, c: Cursor, k: nat)
    requires NoneSkipped(received, mirror) && k <= |After(mirror, c)|
    requires forall y | Has(mirror, y) && !Past(y, c) :: y in received
    ensures NoneSkipped(received + After(mirror, c)[..k], mirror)
  {
    var s := After(mirror, c);
    var now := received + s[..k];
    forall i, x | 0 <= i < |now| && Has(mirror, x) && Before(x, now[i]) ensures x in now[..i] {
      if i < |received| {
        assert now[..i] == received[..i];
      } else {
        NextInOrder(received, mirror, c, i - |received|, x);
        assert now[..i] == received + s[..i - |received|];
      }
    }
  }

  lemma NextInOrder(received: seq<LogLine>, mirror: DayLog, c: Cursor, j: nat, x: LogLine)
    requires forall y | Has(mirror, y) && !Past(y, c) :: y in received
    requires j < |After(mirror, c)| && Has(mirror, x) && Before(x, After(mirror, c)[j])
    ensures x in received + After(mirror, c)[..j]
  {
    var s := After(mirror, c);
    AfterMembers(mirror, c);
    if Past(x, c) {
      var i :| 0 <= i < |s| && s[i] == x;
      assert i > j ==> Before(s[j], s[i]);
      assert s[..j][i] == x;
    }
  }

  /** A lost commit: the cursor falls back. */
  lemma CopyFallsBack(received: seq<LogLine>, mirror: DayLog, c: Cursor, back: Cursor, torn: bool, lost: bool)
    requires CopyOk(received, mirror, c, torn) && CursorLe(back, c)
    requires !lost ==> back == c
    ensures CopyOk(received, mirror, back, torn || lost)
  {
  }

  // ---------------------------------------------------------------- steps

  lemma CopiesStep(s: System, m: string, l: Laptop, v: ServerState)
    requires AllCopiesOk(s) && m in s.laptops && CopiesOk(m, l, v)
    requires v.dirs == s.server.dirs
    ensures AllCopiesOk(System(s.laptops[m := l], v))
  {
    forall k | k in s.laptops && k != m ensures CopiesOk(k, s.laptops[k], v) {
      assert CopiesOk(k, s.laptops[k], s.server);
      forall p ensures MirrorOf(v, p) == MirrorOf(s.server, p) {}
    }
  }

  lemma CopiesMono(m: string, l: Laptop, v: ServerState, w: ServerState)
    requires CopiesOk(m, l, v) && LaptopOk(m, l, v) && MirrorsGrow(v, w)
    ensures CopiesOk(m, l, w)
  {
    CopiesGrow(m, l, l, v, w);
  }

  /** Steps that touch neither the copies nor the peers' cursors. */
  lemma CopiesUntouched(m: string, l: Laptop, next: Laptop, v: ServerState)
    requires CopiesOk(m, l, v) && next.received == l.received && next.torn == l.torn
    requires forall p | p != m :: GetCursor(next.work, p) == GetCursor(l.work, p)
    ensures CopiesOk(m, next, v)
  {
    forall p | p != m ensures CopyOk(ReceivedFrom(next, p), MirrorOf(v, p), GetCursor(next.work, p), next.torn) {
      assert ReceivedFrom(next, p) == ReceivedFrom(l, p);
    }
  }

  lemma TornAnyway(received: seq<LogLine>, mirror: DayLog, c: Cursor, torn: bool, now: bool)
    requires CopyOk(received, mirror, c, torn) && (torn ==> now)
    ensures CopyOk(received, mirror, c, now)
  {
  }

  lemma ReceivedNow(l: Laptop, p: string, lines: seq<LogLine>, next: Laptop, q: string)
    requires next.received == Receive(l, p, lines)
    ensures ReceivedFrom(next, q) == if q == p then ReceivedFrom(l, p) + lines else ReceivedFrom(l, q)
  {
  }

  lemma PullChunkCopies(m: string, l: Laptop, v: ServerState, p: string, n: nat, next: Laptop)
    requires CopiesOk(m, l, v) && p != m && 1 <= n <= |After(MirrorOf(v, p), GetCursor(l.work, p))|
    requires next.received == Receive(l, p, After(MirrorOf(v, p), GetCursor(l.work, p))[..n]) && next.torn == l.torn
    requires GetCursor(next.work, p) == At(After(MirrorOf(v, p), GetCursor(l.work, p))[n - 1])
    requires forall q | q != p :: GetCursor(next.work, q) == GetCursor(l.work, q)
    ensures CopiesOk(m, next, v)
  {
    var lines := After(MirrorOf(v, p), GetCursor(l.work, p))[..n];
    forall q | q != m ensures CopyOk(ReceivedFrom(next, q), MirrorOf(v, q), GetCursor(next.work, q), next.torn) {
      ReceivedNow(l, p, lines, next, q);
      if q == p {
        CopyGrows(ReceivedFrom(l, p), MirrorOf(v, p), GetCursor(l.work, p), l.torn, n);
      }
    }
  }

  /** A pull that ends inside a chunk, committed as it is or rolled back. */
  lemma CutOffCopies(m: string, l: Laptop, v: ServerState, p: string, k: nat, next: Laptop, lost: bool)
    requires CopiesOk(m, l, v) && (k > 0 ==> p != m && k <= |After(MirrorOf(v, p), GetCursor(l.work, p))|)
    requires next.received == if k == 0 then l.received
        else Receive(l, p, After(MirrorOf(v, p), GetCursor(l.work, p))[..k])
    requires next.torn == (l.torn || k > 0 || lost)
    requires forall q :: CursorLe(GetCursor(next.work, q), GetCursor(l.work, q))
    requires !lost ==> forall q :: GetCursor(next.work, q) == GetCursor(l.work, q)
    ensures CopiesOk(m, next, v)
  {
    forall q | q != m ensures CopyOk(ReceivedFrom(next, q), MirrorOf(v, q), GetCursor(next.work, q), next.torn) {
      var mirror, c := MirrorOf(v, q), GetCursor(l.work, q);
      var torn := l.torn || k > 0;
      if k > 0 {
        ReceivedNow(l, p, After(MirrorOf(v, p), GetCursor(l.work, p))[..k], next, q);
      }
      if k > 0 && q == p {
        CopyGrows(ReceivedFrom(l, p), mirror, c, l.torn, k);
      } else {
        assert ReceivedFrom(next, q) == ReceivedFrom(l, q);
        TornAnyway(ReceivedFrom(l, q), mirror, c, l.torn, torn);
      }
      CopyFallsBack(ReceivedFrom(next, q), mirror, c, GetCursor(next.work, q), torn, lost);
    }
  }

  lemma StartSyncStep(s: System, m: string)
    requires Enabled(s, StartSync(m)) && CopiesOk(m, s.laptops[m], s.server)
    ensures CopiesOk(m, Moved(s, StartSync(m)), s.server)
  {
    forall p {
      AttemptCursors(s.laptops[m].work, m, p);
    }
    CopiesUntouched(m, s.laptops[m], Moved(s, StartSync(m)), s.server);
  }

  lemma PushDoneStep(s: System, m: string)
    requires Enabled(s, PushDone(m)) && CopiesOk(m, s.laptops[m], s.server)
    ensures CopiesOk(m, Moved(s, PushDone(m)), s.server)
  {
    forall p {
      CursorSet(s.laptops[m].work, m, s.laptops[m].phase.upTo, p);
    }
    CopiesUntouched(m, s.laptops[m], Moved(s, PushDone(m)), s.server);
  }

  predicate Untouching(step: Step)
  {
    step.HostAppend? || step.HostApply? || step.PushCall? || step.PushAck? || step.PushFail? || step.PullDone?
  }

  lemma UntouchingStep(s: System, step: Step)
    requires Enabled(s, step) && Untouching(step) && CopiesOk(step.m, s.laptops[step.m], s.server)
    ensures CopiesOk(step.m, Moved(s, step), s.server)
  {
    SameSyncRows(s, step);
    CopiesUntouched(step.m, s.laptops[step.m], Moved(s, step), s.server);
  }

  lemma SameSyncRows(s: System, step: Step)
    requires Enabled(s, step) && Untouching(step)
    ensures
      var l, next := s.laptops[step.m], Moved(s, step);
      next.work.sync == l.work.sync && next.received == l.received && next.torn == l.torn
  {
  }

  lemma OwnStepCopies(s: System, step: Step)
    requires Enabled(s, step) && !step.CallStep? && !step.CallDie?
    requires CopiesOk(step.m, s.laptops[step.m], s.server) && LaptopOk(step.m, s.laptops[step.m], s.server)
    ensures CopiesOk(step.m, Moved(s, step), s.server)
  {
    if Untouching(step) {
      UntouchingStep(s, step);
    } else {
      match step
      case PullChunk(m, p, n) => PullChunkStep(s, m, p, n);
      case PullFail(m, p, lines, done) => PullFailStep(s, m, p, lines, done);
      case Crash(m, p, n, lines) => CrashStep(s, m, p, n, lines);
      case StartSync(m) => StartSyncStep(s, m);
      case PushDone(m) => PushDoneStep(s, m);
    }
  }

  lemma PullChunkStep(s: System, m: string, p: string, n: nat)
    requires Enabled(s, PullChunk(m, p, n)) && CopiesOk(m, s.laptops[m], s.server)
    ensures CopiesOk(m, Moved(s, PullChunk(m, p, n)), s.server)
  {
    var l, lines := s.laptops[m], Next(s, m, p)[..n];
    PullChunkMoves(s, m, p, n);
    var next := Moved(s, PullChunk(m, p, n));
    forall q ensures GetCursor(next.work, q) == if q == p then At(lines[n - 1]) else GetCursor(l.work, q) {
      PulledCursor(l.work, p, lines, l.directory, q);
    }
    PullChunkCopies(m, l, s.server, p, n, next);
  }

  lemma PullFailStep(s: System, m: string, p: string, lines: nat, done: nat)
    requires Enabled(s, PullFail(m, p, lines, done)) && CopiesOk(m, s.laptops[m], s.server)
    ensures CopiesOk(m, Moved(s, PullFail(m, p, lines, done)), s.server)
  {
    CutOffCopies(m, s.laptops[m], s.server, p, lines, Moved(s, PullFail(m, p, lines, done)), false);
  }

  lemma CrashStep(s: System, m: string, p: string, n: nat, lines: nat)
    requires Enabled(s, Crash(m, p, n, lines)) && CopiesOk(m, s.laptops[m], s.server)
    requires LaptopOk(m, s.laptops[m], s.server)
    ensures CopiesOk(m, Moved(s, Crash(m, p, n, lines)), s.server)
  {
    var l := s.laptops[m];
    CutOffCopies(m, l, s.server, p, lines, Moved(s, Crash(m, p, n, lines)), l.work != l.disk);
  }

  lemma ServerStepCopies(s: System, w: ServerState)
    requires Inv(s) && AllCopiesOk(s) && MirrorsGrow(s.server, w)
    ensures AllCopiesOk(System(s.laptops, w))
  {
    forall m | m in s.laptops ensures CopiesOk(m, s.laptops[m], w) {
      assert LaptopOk(m, s.laptops[m], s.server);
      CopiesMono(m, s.laptops[m], s.server, w);
    }
  }

  lemma PushCallMirrors(s: System, m: string, n: nat)
    requires Inv(s) && Enabled(s, PushCall(m, n))
    ensures MirrorsGrow(s.server, Served(s, PushCall(m, n)))
  {
    var b := Batch(s.laptops[m], n);
    PushIsNeverRefused(s, m, n);
    PushCallMoves(s, m, n);
    CallGrows(s, m, Mirror.Append(FilesOf(s.server, m), b).files, b);
  }

  lemma SameDirs(s: System, step: Step)
    requires Enabled(s, step) && !step.PushCall?
    ensures Served(s, step).dirs == s.server.dirs
  {
  }

  lemma ServerMirrorsGrow(s: System, step: Step)
    requires Inv(s) && Enabled(s, step)
    ensures MirrorsGrow(s.server, Served(s, step))
  {
    if step.PushCall? {
      PushCallMirrors(s, step.m, step.n);
    } else {
      MirrorsDated(s);
      SameDirs(s, step);
      SameMirrors(s.server, Served(s, step));
    }
  }

  lemma StepKeepsCopies(s: System, step: Step)
    requires Inv(s) && AllCopiesOk(s) && Enabled(s, step)
    ensures AllCopiesOk(Apply(s, step))
  {
    if step.CallStep? || step.CallDie? {
      ServerMirrorsGrow(s, step);
      ServerStepCopies(s, Served(s, step));
    } else {
      ServerMirrorsGrow(s, step);
      assert CopiesOk(step.m, s.laptops[step.m], s.server) && LaptopOk(step.m, s.laptops[step.m], s.server);
      OwnStepCopies(s, step);
      ServerStepCopies(s, Served(s, step));
      MovedSees(s, step);
      CopiesStep(System(s.laptops, Served(s, step)), step.m, Moved(s, step), Served(s, step));
    }
  }

  lemma MovedSees(s: System, step: Step)
    requires Inv(s) && Enabled(s, step) && !step.CallStep? && !step.CallDie?
    requires CopiesOk(step.m, Moved(s, step), s.server) && MirrorsGrow(s.server, Served(s, step))
    ensures CopiesOk(step.m, Moved(s, step), Served(s, step))
  {
    var next, v, w := Moved(s, step), s.server, Served(s, step);
    if Untouching(step) {
      SameSyncRows(s, step);
      assert LaptopOk(step.m, s.laptops[step.m], v);
      CopiesGrow(step.m, s.laptops[step.m], next, v, w);
    } else {
      SameDirs(s, step);
      CopiesSameDirs(step.m, next, v, w);
    }
  }

  lemma CopiesSameDirs(m: string, l: Laptop, v: ServerState, w: ServerState)
    requires CopiesOk(m, l, v) && v.dirs == w.dirs
    ensures CopiesOk(m, l, w)
  {
    forall p ensures MirrorOf(w, p) == MirrorOf(v, p) {}
  }

  lemma CopiesGrow(m: string, l: Laptop, next: Laptop, v: ServerState, w: ServerState)
    requires CopiesOk(m, next, v) && MirrorsGrow(v, w)
    requires TablesOk(m, l.log, l.work, v) && next.work.sync == l.work.sync
    ensures CopiesOk(m, next, w)
  {
    forall p | p != m ensures CopyOk(ReceivedFrom(next, p), MirrorOf(w, p), GetCursor(next.work, p), next.torn) {
      assert GetCursor(next.work, p) == GetCursor(l.work, p);
      CopyMono(ReceivedFrom(next, p), MirrorOf(v, p), MirrorOf(w, p), GetCursor(next.work, p), next.torn);
    }
  }

  lemma {:induction false} RunKeepsCopies(run: seq<System>, steps: seq<Step>, i: nat)
    requires Convergence.IsRun(run, steps) && i < |run|
    ensures AllCopiesOk(run[i])
  {
    if i == 0 {
      InitCopies(run[0]);
    } else {
      RunKeepsCopies(run, steps, i - 1);
      Convergence.RunKeeps(run, steps, i - 1);
      StepKeepsCopies(run[i - 1], steps[i - 1]);
    }
  }

  lemma InitCopies(s: System)
    requires Init(s)
    ensures AllCopiesOk(s)
  {
    FlatMembers(map[]);
    assert Flat(map[]) == [];
    forall m | m in s.laptops ensures CopiesOk(m, s.laptops[m], s.server) {
      forall p | p != m
        ensures CopyOk(ReceivedFrom(s.laptops[m], p), MirrorOf(s.server, p), GetCursor(s.laptops[m].work, p),
            s.laptops[m].torn)
      {
        assert MirrorOf(s.server, p) == map[] && ReceivedFrom(s.laptops[m], p) == [];
      }
    }
  }

  // ---------------------------------------------------------------- what a copy holds

  /** The lines at their first delivery. */
  function Firsts(s: seq<LogLine>): seq<LogLine>
  {
    if s == [] then []
    else
      var q, x := s[..|s| - 1], s[|s| - 1];
      if x in q then Firsts(q) else Firsts(q) + [x]
  }

  lemma {:induction false} FirstsInOrder(s: seq<LogLine>, mirror: DayLog)
    requires NoneSkipped(s, mirror) && forall x | x in s :: Has(mirror, x)
    ensures forall x :: x in Firsts(s) <==> x in s
    ensures Sorted(Firsts(s))
  {
    if s != [] {
      var q, x := s[..|s| - 1], s[|s| - 1];
      assert s == q + [x];
      forall i, y | 0 <= i < |q| && Has(mirror, y) && Before(y, q[i]) ensures y in q[..i] {
        assert s[i] == q[i] && s[..i] == q[..i];
      }
      FirstsInOrder(q, mirror);
      if x !in q {
        forall y | y in Firsts(q) ensures Before(y, x) {
          var i :| 0 <= i < |q| && q[i] == y;
          assert s[i] == y && s[..i] <= q && y in s;
          assert x in s && Has(mirror, x) && Has(mirror, y);
          assert !Before(x, y);
        }
      }
    }
  }

  /** Repeats aside, a laptop's copy of a peer's log is a prefix of the mirror:
      every line once, in order, none skipped; and it reaches at least to the
      committed cursor.  If no pull was ever cut inside a chunk and no commit lost,
      there are no repeats and it reaches exactly to the cursor. */
  lemma CopiesAreComplete(run: seq<System>, steps: seq<Step>, i: nat, m: string, p: string)
    requires Convergence.IsRun(run, steps) && i < |run| && m in run[i].laptops && p != m
    ensures
      var l, mirror := run[i].laptops[m], MirrorOf(run[i].server, p);
      && Firsts(ReceivedFrom(l, p)) <= Flat(mirror)
      && (forall x | Has(mirror, x) && !Past(x, GetCursor(l.disk, p)) :: x in ReceivedFrom(l, p))
      && (!l.torn ==> ReceivedFrom(l, p) + After(mirror, GetCursor(l.work, p)) == Flat(mirror))
  {
    RunKeepsCopies(run, steps, i);
    Convergence.RunKeeps(run, steps, i);
    var l, v := run[i].laptops[m], run[i].server;
    assert CopiesOk(m, l, v) && LaptopOk(m, l, v);
    CopyIsPrefix(ReceivedFrom(l, p), MirrorOf(v, p), GetCursor(l.work, p), GetCursor(l.disk, p), l.torn);
  }

  lemma CopyIsPrefix(received: seq<LogLine>, mirror: DayLog, c: Cursor, committed: Cursor, torn: bool)
    requires CopyOk(received, mirror, c, torn) && CursorLe(committed, c)
    ensures Firsts(received) <= Flat(mirror)
    ensures forall x | Has(mirror, x) && !Past(x, committed) :: x in received
  {
    FirstsInOrder(received, mirror);
    FlatMembers(mirror);
    forall x, y | x in Flat(mirror) && y in Firsts(received) && Before(x, y) ensures x in Firsts(received) {
      var k :| 0 <= k < |received| && received[k] == y;
      assert x in received[..k];
    }
    SortedPrefix(Firsts(received), Flat(mirror));
  }
}
