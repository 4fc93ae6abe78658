/** The native host: what it prints into the day's log and what it writes to the
    live database. */
module HostLog {
  import opened Text
  import opened Tables
  import opened Replay

  /** A request after trimming. */
  datatype Message = Message(timestamp: string, url: string, title: string, tag: string, filename: string)

  predicate ValidTag(tag: string)
  {
    tag == "" || tag == "of_interest" || tag == "read" || tag == "skimmed"
  }

  predicate Accepted(m: Message)
  {
    m.url != "" && m.timestamp != "" && ValidTag(m.tag)
  }

  // ---------------------------------------------------------------- the printer

  /** The fields that go into the action line, before sanitising. */
  function Fields(recordId: string, m: Message): (fields: seq<string>)
    ensures fields != []
  {
    [recordId, m.timestamp, m.url, m.title] +
    (if m.tag == "" then []
     else [m.tag] + (if m.tag == "read" || m.tag == "skimmed" then [m.filename] else []))
  }

  function SanitiseAll(fields: seq<string>): (r: seq<string>)
    ensures |r| == |fields|
    ensures forall i | 0 <= i < |r| :: r[i] == SwiftSanitise(fields[i])
  {
    seq(|fields|, i requires 0 <= i < |fields| => SwiftSanitise(fields[i]))
  }

  function PrintAction(recordId: string, m: Message): string
  {
    Join(SanitiseAll(Fields(recordId, m)), '\t')
  }

  function PrintResult(recordId: string, result: string): string
  {
    SwiftSanitise(recordId) + "\t" + SwiftSanitise(result)
  }

  ghost predicate NoCrLf(fields: seq<string>)
  {
    forall p | p in fields :: !HasCrLf(p)
  }

  /** Splitting an action line gives back its sanitised fields. */
  lemma ActionFields(recordId: string, m: Message)
    ensures Split(PrintAction(recordId, m), '\t') == SanitiseAll(Fields(recordId, m))
  {
    var fields := Fields(recordId, m);
    var clean := SanitiseAll(fields);
    forall p | p in clean ensures '\t' !in p {
      var i :| 0 <= i < |clean| && clean[i] == p;
      SwiftSanitiseExact(fields[i]);
    }
    SplitJoin(clean, '\t');
  }

  lemma {:induction false} JoinNewline(parts: seq<string>)
    requires parts != []
    ensures '\n' in Join(parts, '\t') <==> exists p :: p in parts && '\n' in p
  {
    if |parts| == 1 {
      assert parts[0] in parts;
    } else {
      JoinNewline(parts[1..]);
      assert Join(parts, '\t') == parts[0] + (['\t'] + Join(parts[1..], '\t'));
      assert parts[0] in parts;
      assert forall p :: p in parts <==> p == parts[0] || p in parts[1..];
    }
  }

  /** An action is one line of the log exactly when none of its fields has a
      CR LF pair; with one, the line is cut in two. */
  lemma ActionIsOneLine(recordId: string, m: Message)
    ensures '\n' !in PrintAction(recordId, m) <==> NoCrLf(Fields(recordId, m))
  {
    var fields := Fields(recordId, m);
    var clean := SanitiseAll(fields);
    JoinNewline(clean);
    forall i | 0 <= i < |fields| ensures '\n' in clean[i] <==> HasCrLf(fields[i]) {
      SwiftSanitiseExact(fields[i]);
    }
    if !NoCrLf(fields) {
      var p :| p in fields && HasCrLf(p);
      var i :| 0 <= i < |fields| && fields[i] == p;
      assert clean[i] in clean;
    }
  }

  lemma SwiftKeepsCrLf(a: string, b: string)
    requires Clean(a) && Clean(b)
    ensures SwiftSanitise(a + "\r\n" + b) == a + "\r\n" + b
  {
    SwiftKeepsPair(a, b);
    SwiftIsIdentity(a);
    SwiftIsIdentity(b);
  }

  lemma SwiftIsIdentity(s: string)
    requires Clean(s)
    ensures SwiftSanitise(s) == s
  {
    SwiftSanitiseExact(s);
    SanitiseIsClean(s);
  }

  /** Joining may be cut inside any part. */
  lemma {:induction false} JoinCut(p: seq<string>, x: string, y: string, q: seq<string>)
    ensures Join(p + [x + y] + q, '\t') == Join(p + [x], '\t') + Join([y] + q, '\t')
  {
    if p == [] {
      assert [x + y] + q == [] + [x + y] + q && [x] == [] + [x];
      if q != [] {
        assert ([x + y] + q)[1..] == q && ([y] + q)[1..] == q;
      }
    } else {
      JoinCut(p[1..], x, y, q);
      assert (p + [x + y] + q)[1..] == p[1..] + [x + y] + q;
      assert (p + [x])[1..] == p[1..] + [x];
    }
  }

  /** A title with a CR LF in it cuts a snapshot's action line into one that
      still records the visit and one that says nothing: the event is lost.
      (Python, which reads the log, drops the CR.) */
  lemma CrLfLosesTheEvent(recordId: string, m: Message, a: string, b: string)
    requires m.tag == "read" || m.tag == "skimmed"
    requires m.title == a + "\r\n" + b
    requires Clean(recordId) && Clean(m.timestamp) && Clean(m.url) && Clean(a) && Clean(b) && Clean(m.filename)
    ensures
      var lines := FileLines(PrintAction(recordId, m) + "\n");
      && |lines| == 2
      && GoOps(lines[0]) == [InsertVisit(m.url, m.timestamp, a)]
      && GoOps(lines[1]) == []
  {
    var first, second := [recordId, m.timestamp, m.url, a], [b, m.tag, m.filename];
    var x, y := Join(first, '\t'), Join(second, '\t');
    CrLfPrinted(recordId, m, a, b);
    TagsAreClean();
    CleanJoin(first);
    CleanJoin(second);
    UniversalCrLf(x, y);
    LinesUnlines([x, y]);
    SplitJoin(first, '\t');
    SplitJoin(second, '\t');
  }

  lemma {:induction false} CleanJoin(parts: seq<string>)
    requires parts != [] && forall i | 0 <= i < |parts| :: Clean(parts[i])
    ensures '\n' !in Join(parts, '\t') && '\r' !in Join(parts, '\t')
    ensures forall p | p in parts :: '\t' !in p
  {
    if |parts| > 1 {
      CleanJoin(parts[1..]);
      assert Join(parts, '\t') == parts[0] + (['\t'] + Join(parts[1..], '\t'));
    }
  }

  lemma {:induction false} UniversalPrefix(p: string, s: string)
    requires '\r' !in p
    ensures Universal(p + s) == p + Universal(s)
  {
    if p == "" {
      assert p + s == s;
    } else {
      assert (p + s)[0] == p[0] && (p + s)[1..] == p[1..] + s;
      UniversalPrefix(p[1..], s);
      assert [p[0]] + (p[1..] + Universal(s)) == p + Universal(s);
    }
  }

  lemma UniversalCrLf(x: string, y: string)
    requires '\r' !in x && '\r' !in y
    ensures Universal(x + "\r\n" + y + "\n") == Unlines([x, y])
  {
    hide Universal, Unlines;
    var tail := y + "\n";
    assert x + "\r\n" + y + "\n" == x + ("\r\n" + tail);
    UniversalPrefix(x, "\r\n" + tail);
    UniversalPair(tail);
    UniversalIsIdentity(tail);
    CutLines(x, y);
    assert x + ("\n" + tail) == x + ("\n" + y) + "\n";
  }

  lemma UniversalPair(t: string)
    ensures Universal("\r\n" + t) == "\n" + Universal(t)
  {
    var s := "\r\n" + t;
    assert s[0] == '\r' && s[1] == '\n' && s[2..] == t;
  }

  lemma CrLfPrinted(recordId: string, m: Message, a: string, b: string)
    requires m.tag == "read" || m.tag == "skimmed"
    requires m.title == a + "\r\n" + b
    requires Clean(recordId) && Clean(m.timestamp) && Clean(m.url) && Clean(a) && Clean(b) && Clean(m.filename)
    ensures PrintAction(recordId, m) ==
      Join([recordId, m.timestamp, m.url, a], '\t') + "\r\n" + Join([b, m.tag, m.filename], '\t')
  {
    var p, q := [recordId, m.timestamp, m.url], [m.tag, m.filename];
    CrLfFields(recordId, m, a, b);
    assert a + ("\r\n" + b) == (a + "\r") + ("\n" + b);
    JoinCut(p, a, "\r\n" + b, q);
    JoinCut([], "\r\n", b, q);
    assert [] + ["\r\n" + b] + q == ["\r\n" + b] + q && [] + ["\r\n"] == ["\r\n"];
    assert p + [a] == [recordId, m.timestamp, m.url, a] && [b] + q == [b, m.tag, m.filename];
  }

  lemma CrLfFields(recordId: string, m: Message, a: string, b: string)
    requires m.tag == "read" || m.tag == "skimmed"
    requires m.title == a + "\r\n" + b
    requires Clean(recordId) && Clean(m.timestamp) && Clean(m.url) && Clean(a) && Clean(b) && Clean(m.filename)
    ensures SanitiseAll(Fields(recordId, m))
         == [recordId, m.timestamp, m.url] + [(a + "\r") + ("\n" + b)] + [m.tag, m.filename]
  {
    EventFields(recordId, m);
    SwiftIsIdentity(recordId);
    SwiftIsIdentity(m.timestamp);
    SwiftIsIdentity(m.url);
    SwiftIsIdentity(m.filename);
    SwiftKeepsCrLf(a, b);
    TagsAreClean();
    CrLfCut(a, b);
    SixFields(recordId, m.timestamp, m.url, (a + "\r") + ("\n" + b), m.tag, m.filename);
  }

  lemma CrLfCut(a: string, b: string)
    ensures a + "\r\n" + b == (a + "\r") + ("\n" + b)
  {
  }

  lemma SixFields(a: string, b: string, c: string, d: string, e: string, f: string)
    ensures [a, b, c] + [d] + [e, f] == [a, b, c, d, e, f]
  {
  }

  lemma EventFields(recordId: string, m: Message)
    requires m.tag == "read" || m.tag == "skimmed"
    ensures SanitiseAll(Fields(recordId, m)) ==
      [SwiftSanitise(recordId), SwiftSanitise(m.timestamp), SwiftSanitise(m.url), SwiftSanitise(m.title),
       SwiftSanitise(m.tag), SwiftSanitise(m.filename)]
  {
  }

  lemma CutLines(first: string, second: string)
    ensures first + ("\n" + second) + "\n" == Unlines([first, second])
  {
    assert Unlines([]) == "" && Unlines([second]) == second + "\n" + "";
    assert [first, second][1..] == [second];
  }

  // ---------------------------------------------------------------- the live database

  /** The statements of one accepted request. */
  function HostOps(m: Message, alsoOfInterest: bool, downloads: string): seq<Op>
  {
    [InsertVisit(m.url, m.timestamp, m.title)] +
    (if m.tag == "of_interest" then [MarkInterest(m.url)]
     else match EventTag(m.tag)
       case Some(t) =>
         [AddEvent(EventKey(t, m.url, m.timestamp), Event(SwiftBasename(m.filename), downloads))] +
         (if alsoOfInterest then [MarkInterest(m.url)] else [])
       case None => [])
  }

  /** A request leaves its own fields in the tables, the file's base name and the
      given directory. */
  lemma RequestRecords(db: Db, m: Message, alsoOfInterest: bool, downloads: string)
    ensures Records(db, RunOps(db, HostOps(m, alsoOfInterest, downloads)), m.url, m.timestamp, m.title,
                    m.tag == "of_interest" || (EventTag(m.tag).Some? && alsoOfInterest), EventTag(m.tag),
                    SwiftBasename(m.filename), downloads)
  {
    hide Records;
    var interest := m.tag == "of_interest" || (EventTag(m.tag).Some? && alsoOfInterest);
    assert HostOps(m, alsoOfInterest, downloads) ==
           VisitOps(m.url, m.timestamp, m.title, interest, EventTag(m.tag), SwiftBasename(m.filename), downloads);
    WritesRecord(db, m.url, m.timestamp, m.title, interest, EventTag(m.tag), SwiftBasename(m.filename), downloads);
  }

  /** A printed line leaves the message's own fields, sanitised, on the server and
      on every laptop that pulls it, there with the laptop's default directory. */
  lemma PrintedLineRecords(db: Db, recordId: string, m: Message, directory: string)
    requires ValidTag(m.tag)
    ensures
      var raw, file := PrintAction(recordId, m), if EventTag(m.tag).Some? then SwiftSanitise(m.filename) else "";
      && Records(db, RunOps(db, GoOps(raw)), SwiftSanitise(m.url), SwiftSanitise(m.timestamp), SwiftSanitise(m.title),
                 m.tag == "of_interest", EventTag(m.tag), file, "")
      && Records(db, RunOps(db, PyOps(raw, directory)), SwiftSanitise(m.url), SwiftSanitise(m.timestamp),
                 SwiftSanitise(m.title), m.tag == "of_interest", EventTag(m.tag), file, directory)
  {
    hide Records, GoOps, PyOps;
    var raw, f := PrintAction(recordId, m), SanitiseAll(Fields(recordId, m));
    ActionFields(recordId, m);
    TagsAreClean();
    assert f[1] == SwiftSanitise(m.timestamp) && f[2] == SwiftSanitise(m.url) && f[3] == SwiftSanitise(m.title);
    assert m.tag != "" ==> f[4] == m.tag;
    ServerRecords(db, raw);
    ClientRecords(db, raw, directory);
  }

  lemma {:induction false} SameTargetGuarded(urls: set<string>, ops: seq<Op>)
    requires forall i | 0 <= i < |ops| :: ops[i].Target() in urls
    ensures Guarded(urls, ops)
    decreases |ops|
  {
    if ops != [] {
      assert urls + {ops[0].Target()} == urls;
      SameTargetGuarded(urls, ops[1..]);
    }
  }

  lemma HostOpsGuarded(m: Message, also: bool, downloads: string, urls: set<string>)
    ensures Guarded(urls, HostOps(m, also, downloads))
  {
    var ops := HostOps(m, also, downloads);
    assert forall i | 0 <= i < |ops| :: ops[i].Target() == m.url;
    SameTargetGuarded(urls + {m.url}, ops[1..]);
  }

  /** The statements the server finds in a printed action line. */
  lemma PrintedOps(recordId: string, m: Message)
    requires ValidTag(m.tag)
    ensures GoOps(PrintAction(recordId, m)) ==
      var url, ts := SwiftSanitise(m.url), SwiftSanitise(m.timestamp);
      [InsertVisit(url, ts, SwiftSanitise(m.title))] +
      (if m.tag == "of_interest" then [MarkInterest(url)]
       else match EventTag(m.tag)
         case Some(t) => [AddEvent(EventKey(t, url, ts), Event(SwiftSanitise(m.filename), ""))]
         case None => [])
    ensures Regular(PrintAction(recordId, m))
  {
    ActionFields(recordId, m);
    TagsAreClean();
    var f := SanitiseAll(Fields(recordId, m));
    assert f[1] == SwiftSanitise(m.timestamp) && f[2] == SwiftSanitise(m.url) && f[3] == SwiftSanitise(m.title);
    assert m.tag != "" ==> f[4] == m.tag;
  }

  /** When the log line says what the host did to the database: the key fields
      survive sanitising, and the unlogged of-interest flag was not used. */
  lemma LineSaysWhatTheHostDid(recordId: string, m: Message, alsoOfInterest: bool, downloads: string)
    requires Accepted(m) && NoCrLf(Fields(recordId, m))
    ensures (forall f :: InOps(HostOps(m, alsoOfInterest, downloads), f) <==> InOps(GoOps(PrintAction(recordId, m)), f))
       <==> Clean(m.url) && (EventTag(m.tag).Some? ==> Clean(m.timestamp) && !alsoOfInterest)
  {
    PrintedOps(recordId, m);
    var fields := Fields(recordId, m);
    assert fields[1] == m.timestamp && fields[2] == m.url;
    forall s | s in [m.url, m.timestamp] ensures SwiftSanitise(s) == s <==> Clean(s) {
      assert s in fields;
      SwiftSanitiseExact(s);
      SanitiseIsClean(s);
    }
    assert m.url in [m.url, m.timestamp] && m.timestamp in [m.url, m.timestamp];
    FactsDiffer(HostOps(m, alsoOfInterest, downloads), GoOps(PrintAction(recordId, m)), m,
                SwiftSanitise(m.url), SwiftSanitise(m.timestamp), alsoOfInterest);
  }

  lemma FactsDiffer(host: seq<Op>, line: seq<Op>, m: Message, url: string, ts: string, also: bool)
    requires ValidTag(m.tag)
    requires 1 <= |host| <= 3 && 1 <= |line| <= 2
    requires FactOf(host[0]) == Url(m.url) && FactOf(line[0]) == Url(url)
    requires m.tag == "" ==> |host| == |line| == 1
    requires m.tag == "of_interest" ==>
      |host| == |line| == 2 && FactOf(host[1]) == Interest(m.url) && FactOf(line[1]) == Interest(url)
    requires EventTag(m.tag).Some? ==>
      && |line| == 2 && |host| == (if also then 3 else 2)
      && FactOf(host[1]) == Happened(EventKey(EventTag(m.tag).value, m.url, m.timestamp))
      && FactOf(line[1]) == Happened(EventKey(EventTag(m.tag).value, url, ts))
      && (also ==> FactOf(host[2]) == Interest(m.url))
    ensures (forall f :: InOps(host, f) <==> InOps(line, f))
       <==> url == m.url && (EventTag(m.tag).Some? ==> ts == m.timestamp && !also)
  {
    OpsFacts(host);
    OpsFacts(line);
    assert InOps(host, Url(m.url));
    if EventTag(m.tag).Some? {
      assert InOps(host, FactOf(host[1]));
      assert InOps(host, Interest(m.url)) <==> also;
      assert !InOps(line, Interest(m.url));
    }
  }

  lemma TagsAreClean()
    ensures forall tag | ValidTag(tag) :: Clean(tag) && SwiftSanitise(tag) == tag
  {
    forall tag | ValidTag(tag) ensures SwiftSanitise(tag) == tag {
      SwiftIsIdentity(tag);
    }
  }

  lemma OpsFacts(ops: seq<Op>)
    requires |ops| <= 3
    ensures forall f :: InOps(ops, f) <==>
      (|ops| > 0 && f == FactOf(ops[0])) || (|ops| > 1 && f == FactOf(ops[1])) || (|ops| > 2 && f == FactOf(ops[2]))
  {
    assert forall op :: op in ops <==>
      (|ops| > 0 && op == ops[0]) || (|ops| > 1 && op == ops[1]) || (|ops| > 2 && op == ops[2]);
    assert forall i | 0 <= i < |ops| :: ops[i] in ops;
  }
}
