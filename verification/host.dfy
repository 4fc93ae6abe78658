/** One run of the native host's write path, from the request to the result line. */
module LiveHost {
  import Text
  import Names
  import opened Tables
  import opened Replay
  import opened HostLog
  import opened Archive
  import opened Archiver

  /** The visits row must be there; whether the event row is new decides the counter. */
  method InsertEvent(tx: Db, t: Tag, url: string, timestamp: string, filename: string, downloads: string)
    returns (after: Db, found: bool)
    ensures found <==> url in tx.visits
    ensures after ==
        if found then RunOp(tx, AddEvent(EventKey(t, url, timestamp), Event(Text.SwiftBasename(filename), downloads)))
        else tx
  {
    after, found := tx, url in tx.visits;
    if !found {
      return;
    }
    var key := EventKey(t, url, timestamp);
    after := InsertEventRow(tx, key, Event(Text.SwiftBasename(filename), downloads));
    if key !in tx.events {
      after := BumpCounter(after, key);
    }
  }

  class Host {
    const archive: ArchiveRoot

    constructor (archive: ArchiveRoot)
      ensures this.archive == archive
    {
      this.archive := archive;
    }

    /** The request's transaction: all of its statements or none. */
    method Write(m: Message, alsoOfInterest: bool) returns (ok: bool)
      requires Accepted(m)
      modifies archive`db
      ensures archive.db ==
        if ok then RunOps(old(archive.db), HostOps(m, alsoOfInterest, archive.downloads)) else old(archive.db)
      ensures ok ==>
        Records(old(archive.db), archive.db, m.url, m.timestamp, m.title,
                m.tag == "of_interest" || (EventTag(m.tag).Some? && alsoOfInterest), EventTag(m.tag),
                Text.SwiftBasename(m.filename), archive.downloads)
    {
      hide Records;
      RequestRecords(archive.db, m, alsoOfInterest, archive.downloads);
      var db, downloads := archive.db, archive.downloads;
      ghost var ops := HostOps(m, alsoOfInterest, downloads);
      RunShort(db, ops);
      var tx := RunOp(db, InsertVisit(m.url, m.timestamp, m.title));
      if m.tag == "of_interest" {
        tx := RunOp(tx, MarkInterest(m.url));
        assert ops[..2] == ops;
      } else if EventTag(m.tag).Some? {
        var found;
        tx, found := InsertEvent(tx, EventTag(m.tag).value, m.url, m.timestamp, m.filename, downloads);
        if alsoOfInterest {
          assert ops == ops[..2] + [MarkInterest(m.url)];
          RunConcat(db, ops[..2], [MarkInterest(m.url)]);
          tx := RunOp(tx, MarkInterest(m.url));
        } else {
          assert ops[..2] == ops;
        }
      } else {
        assert ops[..1] == ops;
      }
      ok := *;
      if ok {
        archive.db := tx;
      }
    }

    /** Day row, transaction, and for an event with a file its archiving, which never
        fails the request. */
    method Store(today: string, m: Message, alsoOfInterest: bool, partial: string, now: string)
      returns (noted: bool, written: bool, done: nat)
      requires Accepted(m)
      modifies archive, archive.errors
      ensures written ==> noted
      ensures
        archive.Now() == Stored(old(archive.Now()), today, m, alsoOfInterest, archive.root, archive.downloads, partial,
                                noted, written, done)
      ensures
        DaysKept(old(archive.days), archive.days, today, noted, ArchivedDay(old(archive.sources), m, written, done))
      ensures archive.logs == old(archive.logs)
    {
      hide MoveShows;
      ghost var start := archive.days;
      noted, written, done := false, false, 0;
      noted := archive.NoteDay(today);
      if !noted {
        return;
      }
      written := Write(m, alsoOfInterest);
      if !written {
        return;
      }
      if EventTag(m.tag).Some? && m.filename != "" {
        var recorded;
        ghost var w := archive.Now();
        done, recorded := archive.ForTag(m.filename, partial, now);
        ArchivingKeepsDays(start, w, archive.Now(), today, m, archive.root, archive.downloads, partial, done);
      }
    }

    /** Action line, day row, transaction, archiving, result line.  The result is a
        success exactly when the action line and the database both went through. */
    method Handle(recordId: string, today: string, m: Message, alsoOfInterest: bool, partial: string, now: string)
      returns (accepted: bool, logged: bool, noted: bool, written: bool, done: nat, closed: bool, result: string)
      modifies archive, archive.errors
      ensures accepted <==>
        && m.url != "" && m.timestamp != ""
        && (m.tag == "" || m.tag == "of_interest" || m.tag == "read" || m.tag == "skimmed")
      ensures !accepted ==> archive.Now() == old(archive.Now()) && !logged && !written && !closed
      ensures accepted ==>
        var w := old(archive.Now());
        var begun := if logged then Appended(w, today, PrintAction(recordId, m)) else w;
        var stored := Stored(begun, today, m, alsoOfInterest, archive.root, archive.downloads, partial, noted, written,
          done);
        && archive.Now() == (if closed then Appended(stored, today, PrintResult(recordId, result)) else stored)
        && (result == "success" <==> logged && written)
        && (result != "success" ==> "error: " <= result)
      ensures accepted ==>
        DaysKept(old(archive.days), archive.days, today, noted, ArchivedDay(old(archive.sources), m, written, done))
      ensures accepted ==>
        && LogText(archive.logs, today) == LogText(old(archive.logs), today)
             + (if logged then PrintAction(recordId, m) + "\n" else "")
             + (if closed then PrintResult(recordId, result) + "\n" else "")
        && forall d | d != today :: LogText(archive.logs, d) == LogText(old(archive.logs), d)
    {
      accepted := Accepted(m);
      logged, noted, written, done, closed, result := false, false, false, 0, false, "error: ";
      if !accepted {
        return;
      }
      logged := archive.AppendLine(today, PrintAction(recordId, m));
      noted, written, done := Store(today, m, alsoOfInterest, partial, now);
      var errors: string := *;
      result := if logged && written then "success" else "error: " + errors;
      assert "success"[0] == 's' && "error: "[0] == 'e';
      closed := archive.AppendLine(today, PrintResult(recordId, result));
    }
  }

  /** The day of the file that a request's archiving got far enough with to note it. */
  function ArchivedDay(sources: map<string, string>, m: Message, written: bool, done: nat): Option<string>
  {
    var base := Text.SwiftBasename(m.filename);
    if && written && (m.tag == "read" || m.tag == "skimmed") && m.filename != "" && Names.IsSnapshotName(base)
       && base in sources && done >= 8
    then Some(base[..10]) else None
  }

  /** Every day that had a row keeps it and its flag; today's and the file's are new
      if they had none, and not sealed; no other day gets one. */
  ghost predicate DaysKept(was: map<string, bool>, now: map<string, bool>, today: string, noted: bool,
                           fileDay: Option<string>)
  {
    && (forall d :: d in now <==> d in was || (noted && d == today) || (fileDay.Some? && d == fileDay.value))
    && (forall d | d in was :: d in now && now[d] == was[d])
    && (forall d | d in now && d !in was :: !now[d])
  }

  lemma ArchivingKeepsDays(start: map<string, bool>, w: World, now: World, today: string, m: Message, root: string,
                           downloads: string, partial: string, done: nat)
    requires DayShows(start, w.days, today, true) && EventTag(m.tag).Some? && m.filename != ""
    requires
      var base := Text.SwiftBasename(m.filename);
      if Names.IsSnapshotName(base) && base in w.sources
      then MoveShows(w, now, Move(base, root, downloads, partial), done) else now == w
    ensures DaysKept(start, now.days, today, true, ArchivedDay(w.sources, m, true, done))
    ensures now.logs == w.logs
  {
    var base := Text.SwiftBasename(m.filename);
    if Names.IsSnapshotName(base) && base in w.sources {
      DayOfSnapshot(root, base);
    }
  }

  /** What a request leaves, by the parts that succeeded. */
  ghost function Stored(w: World, today: string, m: Message, alsoOfInterest: bool, root: string, downloads: string,
                        partial: string, noted: bool, written: bool, done: nat): World
  {
    var begun := if noted then DayNoted(w, today) else w;
    if !written then begun
    else
      var stored := begun.(db := RunOps(begun.db, HostOps(m, alsoOfInterest, downloads)));
      var base := Text.SwiftBasename(m.filename);
      if EventTag(m.tag).Some? && m.filename != "" && Names.IsSnapshotName(base) && base in stored.sources
      then Moving(stored, Move(base, root, downloads, partial), done)
      else stored
  }
}
