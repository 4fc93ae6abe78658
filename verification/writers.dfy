/** All programs that write visits and events, on one database. */
module Writers {
  import opened Tables
  import opened Replay
  import opened HostLog
  import Rebuilder

  datatype Writer =
    | ServerLine(raw: string)
    | ClientLine(raw: string, directory: string)
    | HostRequest(m: Message, alsoOfInterest: bool, downloads: string)
    | RebuiltAction(m: Message, downloads: string)
  {
    function Ops(): seq<Op>
    {
      match this
      case ServerLine(raw) => GoOps(raw)
      case ClientLine(raw, directory) => PyOps(raw, directory)
      case HostRequest(m, also, downloads) => HostOps(m, also, downloads)
      case RebuiltAction(m, downloads) => Rebuilder.ActionOps(m, downloads)
    }
  }

  /** A write that was cut off after `done` of its statements. */
  datatype Write = Write(writer: Writer, done: nat)
  {
    function Ops(): seq<Op>
    {
      if done <= |writer.Ops()| then writer.Ops()[..done] else writer.Ops()
    }
  }

  function AllOps(writes: seq<Write>): seq<Op>
  {
    if writes == [] then [] else AllOps(writes[..|writes| - 1]) + writes[|writes| - 1].Ops()
  }

  lemma WriterGuarded(w: Writer, urls: set<string>)
    ensures Guarded(urls, w.Ops())
  {
    match w
    case ServerLine(raw) => LinesGuarded(raw, "", urls);
    case ClientLine(raw, directory) => LinesGuarded(raw, directory, urls);
    case HostRequest(m, also, downloads) => HostOpsGuarded(m, also, downloads, urls);
    case RebuiltAction(m, downloads) => Rebuilder.ActionOpsGuarded(m, downloads, urls);
  }

  lemma {:induction false} WritesGuarded(writes: seq<Write>, urls: set<string>)
    ensures Guarded(urls, AllOps(writes))
  {
    if writes != [] {
      var w := writes[|writes| - 1];
      WritesGuarded(writes[..|writes| - 1], urls);
      WriterGuarded(w.writer, urls);
      if w.done <= |w.writer.Ops()| {
        GuardedPrefix(urls, w.writer.Ops(), w.done);
      }
      GuardedConcat(urls, AllOps(writes[..|writes| - 1]), w.Ops());
    }
  }

  /** Through any mix of host requests, server replay, client replay and rebuild,
      each cut off anywhere between its statements, the counters are right; and
      what it leaves of the order-insensitive part depends on the facts alone. */
  lemma AnyMixKeepsCounters(db: Db, writes: seq<Write>, others: seq<Write>)
    requires Consistent(db)
    ensures Consistent(RunOps(db, AllOps(writes)))
    ensures (forall f :: InOps(AllOps(writes), f) <==> InOps(AllOps(others), f)) ==>
              Summarise(RunOps(db, AllOps(writes))) == Summarise(RunOps(db, AllOps(others)))
  {
    WritesGuarded(writes, db.visits.Keys);
    WritesGuarded(others, db.visits.Keys);
    RunFacts(db, AllOps(writes));
    if forall f :: InOps(AllOps(writes), f) <==> InOps(AllOps(others), f) {
      OrderFree(db, AllOps(writes), AllOps(others));
    }
  }
}
