# Verified model of the multi-laptop visit log

Several laptops each write an append-only log of browser visits, one file per
day.  A sync client pushes a laptop's lines to a server, which mirrors them,
replays them into a canonical database, and streams every laptop the lines of
the others.  Days that are over are sealed: a manifest is written into the
day's archive directory and the day's log moves there.  The whole database can
be rebuilt from the logs and the archive.

This project models these parts and proves what they promise:

* **Text, dates, order** (`text`, `dates`, `daylogs`, `listing`, `names`, `seqs`): splitting,
  joining, the two sanitisers, Python's universal newlines, the `(date, offset)` order
  and cursors.
* **Tables and replay** (`tables`, `replay`, `hostlog`, `host`): every writer reduces to
  three kinds of statement (`writers` puts them side by side), and a host's run from the
  request to its result line.  A database's order-insensitive
  part is decided by the *facts* its statements stated; this is why replay may be reordered,
  repeated and interleaved.
* **The server** (`mirror`, `logstore`, `server`) and **the client** (`syncsteps`,
  `client`): imperative classes proved against functions: `Append` for a pushed batch, `After` for
  what lies past a cursor, `Owed` for a pull, `Requests` for a push, `PullChunks` for
  applied chunks.
* **The protocol** (`protocol`, `protocolproof`, `convergence`, `redelivery`, `delivery`,
  `sessions`): any number of laptops and the server as one transition system over those same
  functions, its inductive invariant, the properties of every run, what pulls that broke off
  and were repeated leave in tables and files, and that the runs of the client against the
  server, as their contracts describe them and however they end, are runs of the protocol.
* **Rebuild** (`rebuilder`, `rebuild`, `rebuildcorrect`, `lifecycle`, `orphanlog`,
  `recovery`): the
  pairing of action and result lines, rehydration, the life of a day's log through
  seals, merges and crashes, and the end-to-end statement.
* **Seal and verify** (`manifest`, `sealed`, `manifestrows`, `movererrors`, `archive`,
  `archiver`, `stragglers`): the manifest and what its rows say of the tables, the
  independent checker with each of its findings characterised, stragglers, crash points of a move and of chains of moves, and the table of
  unresolved errors.

The main results, in a reader's order: `Convergence.ReplicasConverge`,
`Convergence.MirrorsArePrefixes`, `Convergence.NoPushIsRefused`,
`Convergence.AcknowledgedIsDurableAndApplied`, `Convergence.CursorsNeverGoBack`,
`Redelivery.CopiesAreComplete`, `Delivery.TablesAreOneDelivery`, `Sessions.SyncRuns`,
`Recovery.RecoversTheLiveDatabase`, `Recovery.RecoversOverlappingRuns`,
`Lifecycle.CrashesAreHarmless`, `Rebuilder.DuplicateIsHarmless`, `Sealed.SealedForGood`,
`Stragglers.NoSilentMismatch`, `Archive.RerunFinishes`, `MoverErrors.ErrorsAreTheStrays`.

Check everything with `dafny verify dfyconfig.toml`.

## Where the code and what is said of it differ

Each of these is a lemma; the model follows the code.

* The Swift sanitiser is documented to strip line breaks, and to match the Python one.
  Swift iterates over grapheme clusters, so a CR LF pair matches neither case and stays
  (`Text.SwiftSanitiseExact`); such a title cuts the log line in two and the event is lost
  to every replay (`HostLog.ActionIsOneLine`, `HostLog.CrLfLosesTheEvent`).
* The server's and the client's replay are meant to mirror each other.  They differ exactly
  on lines with seven or more fields, and on six fields with the tag of_interest
  (`Replay.ReplayersAgree`); the host prints neither.
* The client inserts a pulled event and moves its counter in two statements.  If the second
  fails, the exception handler commits the first, and no redelivery repairs the counter
  (`SyncSteps.TornLineStays`).
* NSString's lastPathComponent and os.path.basename differ exactly on a trailing slash
  (`Text.BasenamesAgree`).
* Sealing a day before it was pushed takes its pending lines out of the client's sight: the
  next push is complete exactly if the cursor already covers that day
  (`SyncSteps.SealBeforePush`).
* The seal's move as Python makes it keeps the day's lines exactly if there is no archived
  log to replace (`Lifecycle.PythonMoveKeeps`); Swift's move refuses.
* The rebuild puts a row where its file is, also when the live row still says Downloads; so
  it equals the live database exactly if no such row was left (`RebuildCorrect.RebuildIsExact`).
* The manifest checker accepts a manifest that lists a file that never existed, exactly if
  its row has five columns and its name is new there and not a snapshot's
  (`Sealed.ForeignRowIsAccepted`).
* A push of the same batch again is meant to be a no-op.  No file changes; the answer is the
  same exactly if no line that was new on the last day holds a newline
  (`Mirror.RepeatIsNoOp`), which the handler accepts and no client sends.
* The host's of-interest flag on a read or skimmed request changes the database and is not
  logged (`HostLog.LineSaysWhatTheHostDid`); cross-machine and rebuild results are for
  requests without it.

## Model

| member | source | states |
|---|---|---|
| Text.SwiftSanitiseExact | browser-visit-logger/swift/Sources/BVLCore/Logging.swift:100-117 | the Swift sanitiser equals the Python one, and removes every line break, exactly on texts without a CR LF pair; it always removes tabs |
| Text.SanitiseIsClean | browser-visit-snapshot-lib/snapshot_mover.py:281-283 | the Python sanitiser's result has no tab, LF or CR, and clean texts are its only fixed points |
| Text.SanitiseSpells | browser-visit-snapshot-lib/snapshot_mover.py:281-283 | at every place of a text tab and newline become a space, a carriage return goes, any other character stays |
| Text.SwiftSanitiseSpells | browser-visit-logger/swift/Sources/BVLCore/Logging.swift:100-117 | at every CR LF pair Swift leaves the pair and goes on after it; a text without one it treats as Python does |
| Text.BasenamesAgree | browser-visit-logger/swift/Sources/BVLCore/EventsTable.swift:95 | Swift's and Python's base names agree exactly on paths without a trailing slash |
| Text.PyBasenameIs | browser-visit-logger/native-host/host.py:100 | the last stretch of the path without a slash, empty after a trailing one |
| Text.SwiftBasenameIs | browser-visit-logger/swift/Sources/BVLCore/EventsTable.swift:95 | for a path that is more than slashes, the last stretch without a slash before the trailing ones |
| Text.FileRoundTrip | browser-visit-logger/native-host/sync_client.py:216-224 | a log of lines without line breaks reads back, through Python's universal newlines, as those lines |
| Dates.OrdinalOrder | browser-visit-logger/native-host/sync_client.py:312-317 | comparing date texts, with '' below all of them, is comparing ordinals, and nothing is identified |
| DayLogs.AfterAdvance | browser-visit-sync-server/internal/store/store.go:171-186 | a cursor moved to the n-th pending line accounts for exactly those n lines; what is pending then is the rest |
| DayLogs.EmptyDateCursor | browser-visit-logger/native-host/sync_client.py:134-162 | a cursor with the empty date has every line of every log after it, whatever its offset |
| Tables.StepIdempotent | browser-visit-sync-server/internal/store/replay.go:54-103 | a statement whose fact holds already changes nothing: no first-written value, no counter, no row |
| Tables.RunFacts | browser-visit-sync-server/internal/store/replay.go:17-103 | a run of guarded statements adds exactly their facts and keeps the counters equal to the number of event rows |
| Tables.FactsDecide | browser-visit-sync-server/internal/store/replay.go:54-103 | two consistent databases with the same facts have the same urls, of-interest urls, event keys and counters |
| Tables.OrderFree | browser-visit-sync-server/internal/store/replay.go:17-103 | two runs with the same facts, in any order and with any repetition, end alike |
| Tables.TornEvent | browser-visit-logger/native-host/sync_client.py:250-266 | an event row without its counter tick breaks the counters exactly if the row is new, and redelivery does not repair them |
| Tables.FirstWordsStay | browser-visit-sync-server/internal/store/replay.go:42-52 | no statement changes the timestamp or title of a url that has a row |
| Tables.FirstInsertWins | browser-visit-sync-server/internal/store/replay.go:42-47 | the first insert of a url writes its own timestamp and title, and they stand after any run |
| Tables.SummaryMeans | browser-visit-sync-server/internal/store/replay.go:42-103 | the order-insensitive parts agree exactly if urls, event keys, of-interest flags and both counters do |
| Tables.CountersMean | browser-visit-sync-server/internal/store/replay.go:54-103 | right counters are the numbers of the url's read rows and of its skimmed rows |
| Replay.ReplayersAgree | browser-visit-logger/native-host/sync_client.py:237-266 | server and client run the same statements for a line, the directory aside, exactly if the line is regular |
| Replay.ServerRecords | browser-visit-sync-server/internal/store/replay.go:17-103 | for any line of four to six fields: a new visits row has the line's own timestamp and title, the of-interest flag and the one counter move by the line's tag, a new event row is in that tag's table with the line's file name, and nothing else changes |
| Replay.ClientRecords | browser-visit-logger/native-host/sync_client.py:237-266 | the same for a pulled line of any four or more fields, the new event row with the directory default of the laptop's tables |
| Replay.ReplayDependsOnTheSetOfLines | browser-visit-sync-server/internal/server/server.go:45-53 | any statement-level interleaving of concurrent pushes ends as one replay of the set of their lines |
| Replay.Canonical.ReplayLine | browser-visit-sync-server/internal/store/replay.go:9-40 | runs a prefix of the line's statements, all of them exactly when it reports no error, and then leaves the line's own fields in their columns |
| Replay.Canonical.TagWithFilename | browser-visit-sync-server/internal/store/replay.go:54-103 | event row and counter tick together or neither; an unknown tag does nothing |
| HostLog.ActionFields | browser-visit-logger/swift/Sources/BVLHost/Log.swift:17-33 | a printed action splits into its sanitised fields |
| HostLog.ActionIsOneLine | browser-visit-logger/swift/Sources/BVLHost/Log.swift:17-33 | a printed action is one line exactly if no field holds a CR LF pair |
| HostLog.CrLfLosesTheEvent | browser-visit-logger/swift/Sources/BVLHost/Log.swift:17-33 | with a CR LF in the title a snapshot's line reads back as two, of which none states the event |
| HostLog.LineSaysWhatTheHostDid | browser-visit-logger/swift/Sources/BVLHost/main.swift:221-259 | the printed line states exactly what the host did iff url (and an event's timestamp) are clean and the unlogged flag was not used |
| HostLog.RequestRecords | browser-visit-logger/swift/Sources/BVLHost/main.swift:241-259 | the host's transaction writes the request's own fields into their columns, the file by its base name and in Downloads |
| HostLog.PrintedLineRecords | browser-visit-logger/swift/Sources/BVLHost/Log.swift:17-33 | replayed on the server or pulled by a laptop, a printed line writes the request's own fields, sanitised, the event row on a laptop with its default directory |
| LiveHost.Host.Write | browser-visit-logger/swift/Sources/BVLHost/main.swift:241-259 | all statements of the request or none; after a success the request's own fields stand in their columns |
| LiveHost.InsertEvent | browser-visit-logger/swift/Sources/BVLCore/EventsTable.swift:87-108 | the event row with its counter tick, gated on the row being new; without a visits row nothing happens and it says so |
| LiveHost.Host.Handle | browser-visit-logger/swift/Sources/BVLHost/main.swift:200-278 | a request without url or timestamp, or with another tag, changes nothing; otherwise logs, database and archive change by the parts that succeeded, the day's log gains the printed lines, a new day's row is unsealed while every other row keeps its flag, and the result is a success exactly if the action was logged and written |
| LiveHost.Host.Store | browser-visit-logger/swift/Sources/BVLHost/main.swift:233-267 | days after a stored request: those there before with their flags, and unsealed today's and, once its move got that far, the file's; no log changes |
| Mirror.AppendDate | browser-visit-sync-server/internal/store/store.go:66-116 | whatever the order and duplicates, a date's file grows by exactly its missing contiguous suffix, unless that date or an earlier one has a gap; then it is untouched |
| Mirror.AppendAnswer | browser-visit-sync-server/internal/store/store.go:66-116 | the gap error comes exactly if some date is held up; otherwise the answer is the last date and its last offset |
| Mirror.SetDecides | browser-visit-sync-server/internal/store/store.go:66-116 | batches with the same set of lines and one text per offset have the same outcome |
| Mirror.RepeatIsNoOp | browser-visit-sync-server/internal/store/store.go:66-116 | the same batch again changes no file, and gives the same answer exactly if no line that was new on the last day holds a newline |
| Mirror.AppendedLines | browser-visit-sync-server/internal/store/store.go:66-191 | a day reads back as its old lines and then its missing ones exactly if these hold no newline; a day that is held up as before |
| Mirror.AppendedReadsBack | browser-visit-sync-server/internal/store/store.go:66-191 | from a batch of single lines, what reads back was there or was brought new without a gap up to its date, and at every such offset one of the lines brought for it stands; with one text per offset that line itself |
| Mirror.HonestBatch | browser-visit-sync-server/internal/store/store.go:66-116 | the next lines past a mirrored cursor are never refused, the mirror gains exactly them and stays a prefix of the log |
| LogStore.SortLines | browser-visit-sync-server/internal/store/store.go:71-77 | the same lines in cursor order |
| LogStore.GroupByDate | browser-visit-sync-server/internal/store/store.go:228-238 | maximal runs of one date |
| LogStore.CountLines | browser-visit-sync-server/internal/store/store.go:248-273 | the number of newlines, however the reads cut the file |
| LogStore.Store.AppendLogLines | browser-visit-sync-server/internal/store/store.go:66-116 | files and answer are those of the specification on the sorted batch, or after a failed write the first days whole and at most one more day as before; nothing else changes |
| LogStore.Store.HighWater | browser-visit-sync-server/internal/store/store.go:290-315 | the latest date and its last offset, or nothing |
| LogStore.Store.EnrolledMachines | browser-visit-sync-server/internal/store/store.go:193-210 | every machine once, sorted |
| LogStore.Store.LinesAfter | browser-visit-sync-server/internal/store/store.go:118-191 | the calls made are those of the scan specification for any caller's answers |
| LogStore.ScanFile | browser-visit-sync-server/internal/store/store.go:140-189 | splitting, numbering and filtering do not depend on how reads cut the file |
| LogStore.ScanAll | browser-visit-sync-server/internal/store/store.go:118-191 | a caller that always says yes sees exactly the lines past the cursor, in order |
| LogStore.ScanPrefix | browser-visit-sync-server/internal/store/store.go:118-191 | a caller that says yes n-1 times has seen the first n of them, although a no ends only one file |
| SyncServer.PeerDelivery | browser-visit-sync-server/internal/server/server.go:72-104 | a stream with room for n messages delivers exactly the first n batches of 128 of what lies past the cursor, and fails exactly if there are more |
| SyncServer.OnceSays | browser-visit-sync-server/internal/server/server.go:64-67 | a cursor list in which each machine occurs once says exactly its entries; of a repeated machine the last counts |
| SyncServer.Server.PushLogs | browser-visit-sync-server/internal/server/server.go:29-58 | rejects exactly bad arguments, appends, then replays all lines of the request, mirrored ones included; a gap or a failed write replays nothing |
| SyncServer.Server.PullLogs | browser-visit-sync-server/internal/server/server.go:60-106 | whatever the request's cursors say is the caller's place for each machine: it receives what lies past them of every other machine, machines sorted, or the first messages that found room; after a whole answer, of each other machine every line past its cursor, once and in order, and none of its own |
| SyncServer.OwedCarries | browser-visit-sync-server/internal/server/server.go:60-106 | what is owed holds of each other machine the lines past its cursor, whole, in order and once, in messages of 1 to 128 lines |
| SyncServer.Server.SendAll | browser-visit-sync-server/internal/server/server.go:72-104 | peer by peer, the caller excluded |
| SyncSteps.RequestsCarry | browser-visit-logger/native-host/sync_client.py:312-330 | the requests carry the pending lines once and in order, at most 500 each |
| SyncSteps.MarkAttemptIsHarmless | browser-visit-logger/native-host/sync_client.py:155-162 | the row ('', 0) that recording an attempt creates hides no line, and every row that is there stays |
| SyncSteps.SealBeforePush | browser-visit-logger/native-host/sync_client.py:204-224 | after a day's file was moved away the next push is complete exactly if the cursor covers that day |
| SyncSteps.TornLineStays | browser-visit-logger/native-host/sync_client.py:250-266 | a half applied event, once committed, breaks the counters and no redelivery changes that |
| SyncClient.Client.DoPush | browser-visit-logger/native-host/sync_client.py:312-330 | all pending lines are acknowledged and the cursor moves to the last, or a prefix of the requests was acknowledged and it stays |
| SyncClient.Client.ReplayIntoDb | browser-visit-logger/native-host/sync_client.py:237-266 | a prefix of the line's statements, or the half applied event; a line that went through left its own fields in their columns, its event row with the default directory |
| SyncClient.Client.ApplyChunk | browser-visit-logger/native-host/sync_client.py:344-366 | a whole chunk with its cursor, or given up after some lines and statements, a half applied event included, with the cursor where it was |
| SyncClient.Client.PullRequest | browser-visit-logger/native-host/sync_client.py:344-351 | the request has each machine of the sync table once, with its cursor there |
| SyncClient.Client.DoPull | browser-visit-logger/native-host/sync_client.py:344-366 | asks with the sync table's cursors; some whole chunks and at most a part of one more, a half applied event included; one failure more is counted, success clears it |
| SyncClient.Client.Sync | browser-visit-logger/native-host/sync_client.py:428-465 | what is committed, acknowledged and mirrored after each way a run can end |
| ProtocolProof.PushIsNeverRefused | browser-visit-sync-server/internal/store/store.go:66-116 | under the invariant a push extends the mirror by its lines and is never refused |
| ProtocolProof.AckedLaptop | browser-visit-logger/native-host/sync_client.py:318-330 | an answered push makes every line up to its last one durable and applied |
| ProtocolProof.TablesMono | browser-visit-sync-server/internal/server/server.go:29-58 | what holds of a laptop's tables survives whatever the server does |
| ProtocolProof.ChunkTables | browser-visit-logger/native-host/sync_client.py:344-366 | after a chunk the tables reflect every line of the peer up to the new cursor |
| Convergence.StepKeeps | browser-visit-logger/native-host/sync_client.py:312-366 | every step of hosts, clients and server keeps the invariant |
| Convergence.MirrorsArePrefixes | browser-visit-sync-server/internal/store/store.go:66-116 | in every run each mirror is a prefix of its machine's log and no cursor passes a mirror's end |
| Convergence.NoPushIsRefused | browser-visit-sync-server/internal/store/store.go:88-104 | in every run the gap error never occurs |
| Convergence.AcknowledgedIsDurableAndApplied | browser-visit-sync-server/internal/server/server.go:45-53 | in every run each line up to a committed cursor is mirrored at its offset and reflected in the canonical database |
| Convergence.CountersAreRight | browser-visit-sync-server/internal/store/replay.go:54-103 | in every run every database's counters are right |
| Convergence.CursorsNeverGoBack | browser-visit-logger/native-host/sync_client.py:144-162 | in every run committed cursors only advance |
| Convergence.ReplicasConverge | browser-visit-logger/native-host/sync_client.py:312-366 | in every run, once all cursors are at the end, all databases agree exactly if each laptop applied its own lines, and the canonical one says what the logs say |
| Redelivery.CopiesAreComplete | browser-visit-logger/native-host/sync_client.py:344-366 | in every run a laptop's copy of a peer's log, repeats aside, is a prefix of the mirror reaching the committed cursor, and without cut chunks or lost commits there are no repeats |
| Delivery.RedeliveredIsDelivered | browser-visit-logger/native-host/sync_client.py:237-266 | a chunk delivered in any number of tries, each cut off after any statement, and then once whole leaves the database that one delivery leaves |
| Delivery.TablesAreOneDelivery | browser-visit-logger/native-host/sync_client.py:344-366 | in every run a laptop's database says only what its own lines and the received ones say, and once nothing received is outstanding its order-insensitive part is that of one delivery of each line |
| Delivery.PeerFilesAreMirrors | browser-visit-logger/native-host/sync_client.py:352-358 | in every run a peer's files hold what arrived, day by day in order; without cut chunks or lost commits they read back as exactly the mirror's lines up to the cursor |
| Sessions.RequestRuns | browser-visit-sync-server/internal/server/server.go:29-58 | a push request that is answered takes the protocol to what PushLogs promises on success |
| Sessions.PullRuns | browser-visit-sync-server/internal/server/server.go:60-106 | for a request that says what the sync table does, as the client builds it, pulling all chunks that PullLogs owes for it, in any order of the peers and with any directory default, takes the protocol to the tables DoPull promises |
| Sessions.SyncRuns | browser-visit-logger/native-host/sync_client.py:428-465 | a run of the client whose push succeeds and whose pull, asked for by the client's own request, ends anywhere, by the contracts of client and server, is a run of the protocol |
| Sessions.FailedPush | browser-visit-logger/native-host/sync_client.py:312-330 | so is one whose push fails at any request, handled by the server up to any statement or not at all |
| Sessions.KilledSync | browser-visit-logger/native-host/sync_client.py:344-366 | so is one killed inside any chunk of its pull, which leaves what was committed after the push |
| Writers.AnyMixKeepsCounters | browser-visit-logger/swift/Sources/BVLCore/EventsTable.swift:49-108 | through any mix of host requests, server replay, client replay and rebuild, each cut off at any statement, the counters are right, and the facts alone decide the order-insensitive part |
| Rebuilder.ActionRoundTrip | browser-visit-logger/native-host/visits_rebuilder.py:101-119 | every printed action parses as that action |
| Rebuilder.ResultRoundTrip | browser-visit-logger/native-host/visits_rebuilder.py:122-123 | every printed result parses as that result |
| Rebuilder.ParseExactly | browser-visit-logger/native-host/visits_rebuilder.py:199-237 | exactly which lines are blank, results and actions, and which field of the line each part of an action is |
| Rebuilder.ActionRecords | browser-visit-logger/native-host/visits_rebuilder.py:284-308 | a replayed action writes its own fields into their columns, the file by its base name and in Downloads |
| Rebuilder.CutsDoNotMatter | browser-visit-logger/native-host/visits_rebuilder.py:248-281 | database, pending actions and totals do not depend on how lines are cut into files |
| Rebuilder.EveryLineIsAccountedFor | browser-visit-logger/native-host/visits_rebuilder.py:188-308 | over any lines, non-blank lines = malformed + orphan results + orphan actions + 2 * (success + error), and visits inserted = successes |
| Rebuilder.KindsAreCounted | browser-visit-logger/native-host/visits_rebuilder.py:188-308 | each total by the kind of line: malformed lines are the malformed ones, each action and each result is in a pair or orphaned, and a pair counts as what its result says |
| Rebuilder.RebuiltIsConsistent | browser-visit-logger/native-host/host.py:81-121 | whatever the logs hold, the rebuilt counters are right |
| Rebuilder.OpenHasNoResult | browser-visit-logger/native-host/visits_rebuilder.py:188-245 | a part in which no result precedes its action leaves no record open that it also closed |
| Rebuilder.DuplicateIsHarmless | browser-visit-snapshot-lib/snapshot_mover.py:391-401 | a part of the log that was appended twice changes neither database nor pending actions, whatever follows, exactly if the records whose success it holds before their action say nothing new |
| Rebuilder.SettledRepeats | browser-visit-logger/native-host/visits_rebuilder.py:188-245 | a part in which no record is both closed and left open meets that condition |
| Rebuilder.DuplicateCanHarm | browser-visit-logger/native-host/visits_rebuilder.py:210-245 | a part that starts with a success and goes on with its action, as no host prints it, does not |
| Rebuild.RebuildRun.ApplyAction | browser-visit-logger/native-host/visits_rebuilder.py:284-308 | runs the action's statements, which leaves its own fields in their columns, and counts it: one visit more, and one of-interest, read or skimmed by its tag |
| Rebuild.RebuildRun.ReplayOneFile | browser-visit-logger/native-host/visits_rebuilder.py:188-245 | database, pending actions and statistics are those of the specification on the file's lines |
| Rebuild.RebuildRun.ReplayLogs | browser-visit-logger/native-host/visits_rebuilder.py:248-281 | one pending table over all files; leftovers are orphans; every file's date has a row |
| Rebuild.EveryDayIsNoted | browser-visit-logger/native-host/visits_rebuilder.py:262-272 | exactly the files' dates get new rows, unsealed; existing rows keep their flag |
| Rebuild.RebuildRun.Rehydrate | browser-visit-logger/native-host/visits_rebuilder.py:315-381 | each row at Downloads moves to the first directory that holds its file, no other row changes, each directory's day has a row, and the counts are the numbers of directories, of those with a manifest, of rows that moved and of files without a row that moved |
| Rebuild.RowsGoHome | browser-visit-logger/native-host/visits_rebuilder.py:356-368 | where each row is afterwards: where it was if that was not Downloads, else in the first directory that has its file, else still at Downloads; visits are untouched |
| Rebuild.FlagsAreTheManifests | browser-visit-logger/native-host/visits_rebuilder.py:339-351 | a directory's day is sealed iff it has a manifest, and no other day's flag changes |
| Rebuild.RebuildRun.Run | browser-visit-logger/native-host/visits_rebuilder.py:398-413 | tables, days' rows and report are what replay and rehydration make of the old tables, or of empty ones after truncation |
| RebuildCorrect.SameStatements | browser-visit-logger/native-host/host.py:81-147 | host and rebuild run the same statements for plain messages |
| RebuildCorrect.RebuildIsExact | browser-visit-logger/native-host/visits_rebuilder.py:188-413 | after any sequential history the rebuild equals the live database, visits, rows and counters, iff no live row was left at Downloads while its file is archived |
| RebuildCorrect.InterleavedRebuild | browser-visit-logger/native-host/visits_rebuilder.py:188-308 | from any interleaving of host runs, killed ones included, nothing is invented, and with all commits reported the order-insensitive part is that of the live database |
| Lifecycle.LogsAreConserved | browser-visit-logger/swift/Sources/BVLCore/OrphanLog.swift:57-97 | without crashes archived log then live log of a day are the emitted lines in order |
| Lifecycle.PythonMoveKeeps | browser-visit-snapshot-lib/snapshot_mover.py:348-360 | Python's move keeps every line exactly if there is nothing to replace |
| Lifecycle.CrashesAreHarmless | browser-visit-logger/swift/Sources/BVLCore/OrphanLog.swift:66-81 | with any number of merges that died before the unlink the day's files replay like the emitted lines |
| Lifecycle.RebuildSurvivesCrashes | browser-visit-logger/native-host/visits_rebuilder.py:130-185 | the files in the order they are collected replay like the emitted lines, and without crashes are them |
| OrphanLog.LogFiles.MergePass | browser-visit-logger/swift/Sources/BVLCore/OrphanLog.swift:34-98 | every live log of a past day is merged, or left as its failure leaves it, whatever becomes of the others; days without an archived log get their row, each failure its error row, each merge clears it; today's log stays |
| OrphanLog.LogFiles.MoveLogIntoSealedDir | browser-visit-logger/swift/Sources/BVLCore/Seal.swift:266-276 | moves the log whole or changes nothing, and never replaces one that is archived already |
| OrphanLog.LogFiles.CollectLogPaths | browser-visit-logger/native-host/visits_rebuilder.py:130-185 | all files, dates ascending, a date's archived file before its live one |
| Recovery.DaysInOrder | browser-visit-logger/native-host/visits_rebuilder.py:130-185 | if days only advance, day by day is the order of printing |
| Recovery.RecoversTheLiveDatabase | browser-visit-logger/native-host/visits_rebuilder.py:398-413 | from the files after any seals, merges and crashed merges the rebuild gives the live database iff no live row was left behind |
| Recovery.RecoversOverlappingRuns | browser-visit-logger/native-host/visits_rebuilder.py:130-281 | the same for host runs that overlap, over midnight too, and may be killed: nothing is invented, and with all commits reported the order-insensitive part is that of the live database |
| Manifest.LookupEvent | browser-visit-logger/swift/Sources/BVLCore/Seal.swift:244-261 | the first row of the file by primary key, the read table first |
| Manifest.LookedUpIsARow | browser-visit-logger/swift/Sources/BVLCore/Seal.swift:244-261 | a lookup fails only if no table has a row of the file; otherwise tag, timestamp and url are those of such a row, of the read table if that has one, and the title is that of the url's visits row |
| Manifest.Verify | browser-visit-logger/swift/Sources/BVLCore/Verify.swift:15-209 | each issue is reported exactly if it is so, and valid means none |
| Manifest.ParseRows | browser-visit-logger/swift/Sources/BVLCore/Verify.swift:63-85 | the entries are the first rows of their names with five columns; each other row is an issue |
| Manifest.ListConforming | browser-visit-logger/swift/Sources/BVLCore/Verify.swift:92-120 | the snapshots on disk, and an issue for each other file |
| Manifest.CheckRows | browser-visit-logger/swift/Sources/BVLCore/Verify.swift:135-181 | an issue for each listed file whose row is missing or differs and for each unlisted file without row |
| Sealed.RowsReadBack | browser-visit-logger/swift/Sources/BVLCore/Seal.swift:141-162 | written rows read back as the entries of their files, with no issue |
| Sealed.SealedIsValidExactly | browser-visit-logger/swift/Sources/BVLCore/Verify.swift:15-209 | a directory with its own manifest is valid iff it has no stray, no orphan, no name with a tab, and its log read-only in place |
| Sealed.SealedForGood | browser-visit-logger/swift/Sources/BVLCore/Seal.swift:278-301 | this equivalence holds after every later host write, other day's move, merge into the log and straggler |
| Sealed.ForeignRowIsAccepted | browser-visit-logger/swift/Sources/BVLCore/Verify.swift:122-133 | one more line in an accepted manifest is accepted exactly if it has five columns and a new name that is no snapshot's |
| ManifestRows.LookupFinds | browser-visit-logger/swift/Sources/BVLCore/Seal.swift:244-261 | a lookup gives the columns of the first row of the file, the read table first, and fails exactly if there is none |
| ManifestRows.SealedIsTruthful | browser-visit-logger/swift/Sources/BVLCore/Seal.swift:141-233 | below the header filename tag timestamp url title each line of a sealed directory's manifest splits into the name of a snapshot there, the tag of its event row's table, and that row's sanitised timestamp, url and title, and each snapshot with an event row has a line |
| ManifestRows.MismatchExactly | browser-visit-logger/swift/Sources/BVLCore/Verify.swift:135-165 | the check reports a mismatch exactly for a snapshot whose first row differs from its event row in tag, timestamp, url or title |
| MoverErrors.ErrorTable.Reconcile | browser-visit-snapshot-lib/snapshot_mover.py:206-235 | removes exactly the operation's rows under the directory that are not current, or, on a failure, some of them; every other row stays as it is |
| MoverErrors.ErrorTable.TryRecord | browser-visit-snapshot-lib/snapshot_mover.py:146-186 | one failure more: a new row, or the old one counted once more with its first time, notification and immediacy kept, its message the first 500 characters of the text; no other row changes |
| MoverErrors.StreakIsOneRow | browser-visit-snapshot-lib/snapshot_mover.py:146-186 | a streak of failures is one row with their number, the first one's time, the last one's time and text, immediate iff one of them was |
| MoverErrors.KeysDiffer | browser-visit-snapshot-lib/snapshot_mover.py:155 | the text key determines operation and target |
| MoverErrors.PathOfFile | browser-visit-snapshot-lib/snapshot_mover.py:464-511 | a target's path begins with the directory and its base name is the file's name |
| MoverErrors.BuildManifestRows | browser-visit-snapshot-lib/snapshot_mover.py:438-519 | the rows of the listed files in order and, without database failures, the error table of the specification |
| MoverErrors.ErrorsAreTheStrays | browser-visit-snapshot-lib/snapshot_mover.py:206-235 | afterwards the two operations' rows under the directory are exactly the current strays, each counted once more, and no other row changed |
| MoverErrors.RowsArePartOfAPartition | browser-visit-snapshot-lib/snapshot_mover.py:464-511 | every listed file is in exactly one of rows, invalid names and orphans, and the rows are those of their files, strictly sorted |
| MoverErrors.RowsAreSorted | browser-visit-snapshot-lib/snapshot_mover.py:464-511 | without tabs in the names the rows themselves are strictly sorted by name |
| Archive.SnapshotSurvives | browser-visit-logger/swift/Sources/BVLCore/Archive.swift:51-127 | at every crash point the snapshot is whole at its source or its destination |
| Archive.RerunFinishes | browser-visit-logger/swift/Sources/BVLCore/Archive.swift:51-127 | from every point before the unlink a second run ends where an uninterrupted one does |
| Archive.MovingShows | browser-visit-logger/swift/Sources/BVLCore/Archive.swift:51-127 | at every crash point, file by file and row by row: the source until it is removed, the copy as far as it got, other files and logs as they were, only rows of that file at Downloads in its directory, and the day's row new and unsealed or as it was |
| Archive.DayOfSnapshot | browser-visit-logger/swift/Sources/BVLCore/Archive.swift:24-46 | the day is the date the name begins with, and it names the directory and the log that belongs there |
| Stragglers.NoSilentMismatch | browser-visit-logger/swift/Sources/BVLCore/Archive.swift:55-127 | through any chain of moves of a straggler that died before the unlink, and at every step of the next one, the manifest is right or the check flags the directory; a finished one leaves it right; for a new name it is flagged exactly while a copy is there |
| Stragglers.RightOrFlagged | browser-visit-logger/swift/Sources/BVLCore/Verify.swift:15-209 | whatever became of one file and its rows, the manifest is right for what is there or the check flags the directory |
| Stragglers.WholeMove | browser-visit-logger/swift/Sources/BVLCore/Archive.swift:55-127 | the steps of a straggler's move make up the arrival under which sealed directories stay sealed |
| Archiver.ArchiveRoot.MoveOne | browser-visit-logger/swift/Sources/BVLCore/Archive.swift:51-127 | whatever step fails, the world is that of the steps done so far in the order of the source, each of which is a crash point of the lemmas above; a finished straggler leaves a manifest that shows the event rows; a failed move has its error row, a failed rewriting its own, a finished one neither |
| Archiver.ArchiveRoot.ForTag | browser-visit-logger/swift/Sources/BVLCore/Archive.swift:24-46 | nothing for an empty name, an error row for another name, nothing for a missing file, else a move with its error row if it failed |
| Archiver.ArchiveRoot.WriteManifestFile | browser-visit-logger/swift/Sources/BVLCore/Seal.swift:141-162 | touches only the manifest; success means it is right, each line showing its file's event row under the header's columns |
| Archiver.ArchiveRoot.MoveLogIntoSealedDir | browser-visit-logger/swift/Sources/BVLCore/Seal.swift:266-276 | moves the day's log read-only, or is refused and changes nothing; only the mode may be missing after a failure |
| Archiver.LogMoveIsAStep | browser-visit-logger/swift/Sources/BVLCore/Seal.swift:266-276 | a finished or refused move is the step under which the day's lines are conserved |
| Archiver.ArchiveRoot.SealDirectory | browser-visit-logger/swift/Sources/BVLCore/Seal.swift:101-133 | a failure leaves the day unsealed and has its error row; after success, which clears it, the manifest shows the event rows and the check accepts the directory exactly if its files are in order |

## Left out

- gRPC, TLS, certificates, enrolment, authentication checks and the VACUUM export: the caller's machine name is taken as given.
- In the protocol a push request is appended whole or not at all; what a failed write leaves is LogStore.Store.AppendLogLines.
- I/O errors while a pull scans the mirrors: the chunks sent before are a first part of what is owed, as with a broken stream.
- SyncServer.Server.PushLogs: a non-empty date that is not of the form YYYY-MM-DD, which the handler accepts and stores in a file that no scan and no high-water reads again; dates are those that the form admits.
- SQLite: tables are maps by primary key, statements and transactions are atomic; a host's write waits for the client's transaction, so in the protocol it happens when nothing is uncommitted.
- Protocol steps are atomic: one append of a batch, one statement of a running push, one host line, one client chunk or the part of it that was done.
- In the protocol a host applies the statements of its own line; that these state what the host's request does is HostLog.LineSaysWhatTheHostDid.
- In the protocol an event's insert and counter update on a laptop are one statement; what the other case does is SyncSteps.TornLineStays.
- The bound on sync attempts, the configuration, the texts of recorded sync errors and the log messages of the client.
- LogStore.SortLines: the program's sort is the library's; the model inserts, and only order and contents are promised.
- LogStore.Store.LinesAfter: the caller's function is a function of the calls made so far; files appear and are read in one step.
- Machines other than those of the run, and a laptop that lies about its log, are not in the protocol.
- Convergence.ReplicasConverge: of the columns whose first value wins (timestamp, title) and of file names and directories nothing is said across machines; they do depend on the order.
- RebuildCorrect.RebuildIsExact: messages are plain (clean fields, no trailing slash, record ids of 32 hex digits) and log writes succeed; killed hosts are in RebuildCorrect.InterleavedRebuild.
- OrphanLog.LogFiles.MergePass: an append reaches the file whole or not at all; a write cut inside a line is not modelled, nor is one by a host.
- OrphanLog.LogFiles.CollectLogPaths: files with other names, and logs filed under another day's directory, which the program skips with a warning, are not in the model's directories.
- Manifest.LookupEvent: of several rows of one file in a table the model takes the first by primary key; the program takes the first that SQLite returns.
- File names with line breaks, digits other than ASCII, and file modes other than "read-only or not".
- Swift's reconciliation of error rows, which compares with a prefix that lost its leading slash; the error table is Python's.
- Archiver.ArchiveRoot.MoveOne: of the error rows for a directory's strays, which a rewriting also updates, it says nothing.
- The sealing pass over all days and the verifier's sweep, which call what is modelled for one directory; the VM sealer's lookup by file name alone.
- Chrome extension, popup, native messaging, notifications, reading list, MCP server, cloud tooling, installers and migration scripts: interface code, or foreign calls only.
