# Verified models of the JYY-Code runtime

This project models the parts of JYY-Code that are state machines, schedulers, folds and searches, and
proves what they promise over every input, every run and every interleaving. One Dafny file models one
component; `dafny verify dfyconfig.toml` checks them all.

- **Output retention** (`Utf8`, `OutputRetention`, `ChunkQueue`, `SpillPipeline`). A byte stream of any
  length is kept as a head and a tail window and shown as UTF-8 (RFC 3629, sections 3 and 4), while a
  bounded queue feeds the whole stream to a blob writer. The window is a function of the concatenated
  stream; the preview shows whole code points only; and in every interleaving of appends, pushes,
  reads, failures and flush the writer sees a prefix of the stream, a blob reference stands for all of
  it, and flush completes.
- **Tool runtime** (`ToolEvents`, `ToolAccumulate`, `ToolDispatch`, `ToolLoop`). A model round is
  accumulated into a message without loss, duplication or reordering; its tool calls are cut into
  batches in the only possible way and executed under every schedule; and rounds follow each other as
  one growing conversation that ends with one finish event.
- **Session projection** (`SessionProjection`, `SessionInvariants`, `SessionDeltas`). Session events are
  folded into a message list. Safety holds in every reachable state, and a streaming delta is redundant
  exactly when it is dead or a later event overwrites it.
- **Process supervision** (`ProcessTree`, `ProcessTermination`). The tree search over a possibly cyclic
  parent table, and the TERM / wait / KILL / wait protocol in a world that changes between any two
  operations.
- **Migrations** (`SchemaMigration`, `DataMigration`). Schema steps run exactly once over any number of
  crashes, restarts and upgrades; the usage backfills converge.
- **Session lists** (`SessionCache`), **request matching** (`JsonMatching`), **model catalog**
  (`Catalog`) and **cache hints** (`CachePolicy`): incremental or clever forms that agree with plain ones.

What the source updates in place is a class here whose methods are proved against a function of the old
state; the properties are lemmas about those functions. `Wrappers` holds what several files share. The surroundings are arbitrary parameters: the
model, the tool handlers and the blob writer may answer anything, the process world is any sequence of
snapshots, and a crash may stop a migration between any two commits.

Where the code does not do what one would expect, the code is modelled and the exact condition proved:

- `requestDiff` can be empty for a pair that the matcher rejects, because reading a missing
  `__proto__` key finds the shared prototype object (`JsonMatching.PhantomRequestIsUnexplained`,
  `JsonMatching.RejectedUnexplainedIff`).
- A settled tool that is called again is running and still has its old completion time
  (`SessionInvariants.SettledToolRunsAgain`).
- Two spellings of one migration in the same list both run (`SchemaMigration.AliasesBothRun`,
  `SchemaMigration.RunsOnceIff`).
- After a page that ends with an empty session id the message backfill stops and the part backfill
  starts over for ever (`DataMigration.VisitsOnlyTheFirst`,
  `DataMigration.UninterruptedStartFinishesIff`); session ids start with `ses`
  (packages/core/src/session.ts:8), and with any other id the loops visit everything once.
- The backfills are right from the beginning, but from a database that records only some of them as
  done they are right exactly under `DataMigration.BackfillsConvergeIff`.
- A list of sessions is fetched newest first and patched by id, so a patched list is in id order only
  once some event has let a session in (`SessionCache.PatchedAllSortedIff`,
  `SessionCache.UpdateKeepsPlace`).
- A catalog hook that throws while its plugin is added ends the listener for added plugins. The records
  then miss the plugins added since the last load or close: exactly when they are those of a full
  rebuild is `Catalog.StaysFreshIff` for one action and `Catalog.RunIsFreshIff` for a run, and
  `Catalog.DeadListenerMisses` is a run after which they are not.
- Reading the process table and probing liveness are two operations: a process that forks in between is
  missed by an observation that sees nothing (`ProcessTermination.ForkIsMissed`,
  `ProcessTermination.QuietMeansGoneIff`).
- The cache policy picks the last part of a message without text, and when that part is a tool call,
  media or reasoning no hint comes of it, since only text and tool results have a place for one
  (packages/llm/src/schema/messages.ts:24-31, `CachePolicy.PlacementReaches`).
- A catalog callback that renames its provider breaks the agreement of the draft's two copies
  (`Catalog.ApplyAgreesIff`).

## Model

| member | source | states |
|---|---|---|
| `Utf8.DecodeUtf8` | packages/core/src/output-retention.ts:45-54 | the head decoder returns the decoding of the longest decodable prefix of any bytes |
| `Utf8.DecodeTailUtf8` | packages/core/src/output-retention.ts:56-65 | the tail decoder returns the decoding of the longest decodable suffix of any bytes |
| `Utf8.DecodeOfEncode` | packages/core/src/output-retention.ts:38 | the fatal decoder undoes UTF-8 encoding for every text |
| `Utf8.EncodeOfDecode` | packages/core/src/output-retention.ts:38 | the fatal decoder accepts only encodings of the text it returns |
| `Utf8.CutSynchronises` | packages/core/src/output-retention.ts:45-65 | a cut of a valid stream decodes on either side exactly when it falls between two code points |
| `Utf8.HeadPreviewIsWholeText` | packages/core/src/output-retention.ts:45-54 | of a window that starts a valid stream exactly the whole code points that fit are shown, at most three bytes dropped |
| `Utf8.TailPreviewIsWholeText` | packages/core/src/output-retention.ts:56-65 | of a window that ends a valid stream exactly the whole code points inside it are shown, at most three bytes dropped |
| `OutputRetention.Retention.constructor` | packages/core/src/output-retention.ts:138-150 | a new retention has seen nothing and has started its spill only if it always spills |
| `OutputRetention.Retention.Append` | packages/core/src/output-retention.ts:172-195 | an accepted append extends the stream by the chunk, keeps windows, digest and counters those of the whole stream, and enqueues what `Sends` says; a closed one changes nothing |
| `OutputRetention.Retention.Keep` | packages/core/src/output-retention.ts:178-192 | the chunks are kept whole as long as they fit and then as their windows; a lazy spill starts exactly at the chunk that overflows and replays what came before |
| `OutputRetention.Retention.Capture` | packages/core/src/output-retention.ts:197-204 | one capture turns the windows of what was captured into those of what is captured then |
| `OutputRetention.Retention.CaptureAll` | packages/core/src/output-retention.ts:189 | moving the chunks kept so far leaves the windows of their concatenation |
| `OutputRetention.Retention.SendAll` | packages/core/src/output-retention.ts:186-188 | the lazy spill replays the chunks kept so far, in order |
| `OutputRetention.AppendHeadKeepsPrefix` | packages/core/src/output-retention.ts:197-202 | one head step keeps the first bytes of everything seen, whatever the chunk sizes |
| `OutputRetention.AppendTailKeepsSuffix` | packages/core/src/output-retention.ts:73-78 | one tail step keeps the last bytes of everything seen, whatever the chunk sizes |
| `OutputRetention.Retention.RetainedBytesAreTheWindow` | packages/core/src/output-retention.ts:206-211 | what is retained is the whole stream if it fits and otherwise its head and tail windows, independent of chunking |
| `OutputRetention.RetainedLength` | packages/core/src/output-retention.ts:227-231 | the retained length is the smaller of stream length and limit |
| `OutputRetention.AllSendsIsTheLog` | packages/core/src/output-retention.ts:178-194 | a started spill has been sent every chunk of the run in order, replayed ones included; an unstarted one nothing |
| `OutputRetention.PreviewOfValidStream` | packages/core/src/output-retention.ts:213-225 | the preview of a valid stream is all of its text, or its longest leading and trailing runs of whole code points that the windows hold, which never overlap |
| `OutputRetention.Retention.MakeResult` | packages/core/src/output-retention.ts:213-238 | every result describes the stream so far, and a final one is returned ever after |
| `OutputRetention.Retention.Snapshot` | packages/core/src/output-retention.ts:240-242 | a snapshot describes the stream so far and fixes nothing |
| `OutputRetention.Retention.BeginFlush` | packages/core/src/output-retention.ts:244-247 | from the first part of flush on the retention is closed |
| `OutputRetention.Retention.SettleBlob` | packages/core/src/output-retention.ts:155-163 | the spill settles with a reference or with an error |
| `OutputRetention.Retention.FinishFlush` | packages/core/src/output-retention.ts:249-252 | the last part of flush fixes a result that describes the stream and carries the settled spill |
| `OutputRetention.Retention.Flush` | packages/core/src/output-retention.ts:244-253 | flush describes the whole stream, with the reference or the error that a started spill settled with |
| `OutputRetention.CreateOutputRetention` | packages/core/src/output-retention.ts:40-43 | exactly the limits that are not safe non-negative integers are refused; the default strategy keeps both ends |
| `OutputRetention.RetainOutput` | packages/core/src/output-retention.ts:263-275 | for every configuration the result describes the concatenation of the source, and a spill was sent every chunk in order and gives the result its reference or error |
| `ChunkQueue.ChunkQueue.Push` | packages/core/src/output-retention.ts:88-96 | one pass of push: park when full, drop when closed, hand to the first reader, else buffer |
| `ChunkQueue.ChunkQueue.Next` | packages/core/src/output-retention.ts:105-112 | one read: wake the first writer, deliver the first chunk, else end or park |
| `ChunkQueue.ChunkQueue.Close` | packages/core/src/output-retention.ts:98-103 | closing wakes every writer and reader once and keeps what is buffered |
| `SpillPipeline.RunInvariant` | packages/core/src/output-retention.ts:80-117 | in every schedule parking, the place of every chunk, and progress are as the invariant says |
| `SpillPipeline.EveryScheduleIsSafe` | packages/core/src/output-retention.ts:80-117 | in every schedule the delivered bytes are a prefix of those appended, at most sixteen chunks are buffered, and a reader and a writer are never both parked |
| `SpillPipeline.BlobIsTheWholeInput` | packages/core/src/output-retention.ts:152-195 | a writer that drained or committed has the whole input in order |
| `SpillPipeline.ResultOfRun` | packages/core/src/output-retention.ts:213-252 | once flush has finished, in every state that any schedule reaches (`RunInvariant`), a blob reference in the result stands for exactly the bytes the result describes, and a started spill without one reports an error |
| `SpillPipeline.EnqueuedIsSent` | packages/core/src/output-retention.ts:166-170 | while the queue is open, in every state that any schedule reaches, delivered, buffered, in-flight and pending chunks are together what appending enqueued |
| `SpillPipeline.ApplyUsesWork` | packages/core/src/output-retention.ts:244-252 | every action but an append uses up work, so runs are finite between appends |
| `SpillPipeline.SomethingCanHappen` | packages/core/src/output-retention.ts:244-252 | until flush has finished some action other than an append or a failure is possible |
| `SpillPipeline.FlushCompletes` | packages/core/src/output-retention.ts:244-252 | from every reachable state flush can finish within the work left, with the whole input in the blob or a reported failure |
| `ToolEvents.MergeAssociative` | packages/llm/src/tool-runtime.ts:247-256 | merging provider metadata is associative |
| `ToolEvents.AddUsageAssociative` | packages/llm/src/tool-runtime.ts:218-242 | adding usage is associative and an absent usage is neutral |
| `ToolAccumulate.StepState.Accumulate` | packages/llm/src/tool-runtime.ts:164-216 | one event changes the step state as its function says |
| `ToolAccumulate.StepState.AppendStreamingText` | packages/llm/src/tool-runtime.ts:258-277 | streamed text joins the last part, or its metadata does, or a new part is pushed |
| `ToolAccumulate.AccumulateAll` | packages/llm/src/tool-runtime.ts:93-97 | tapping a finite stream leaves the state of the whole round |
| `ToolAccumulate.RoundConserves` | packages/llm/src/tool-runtime.ts:164-204 | message content flattens to exactly the stream's characters, calls and hosted results, in order; the pending calls are its client-executed calls |
| `ToolAccumulate.RoundKeepsMetadata` | packages/llm/src/tool-runtime.ts:173-180 | block metadata survives coalescing |
| `ToolAccumulate.RoundCoalesces` | packages/llm/src/tool-runtime.ts:264-277 | neighbouring parts of one kind are split only where the first carries metadata |
| `ToolAccumulate.StepFinishDecides` | packages/llm/src/tool-runtime.ts:205-210 | the last step-finish event gives the finish reason, and a stop after client calls becomes tool calls |
| `ToolAccumulate.FinishDecides` | packages/llm/src/tool-runtime.ts:211-215 | without a step-finish event the first finish event gives the reason as it is |
| `ToolDispatch.PartitionToolCalls` | packages/llm/src/tool-runtime.ts:339-355 | the batches concatenate to the calls, unsafe calls stand alone, and adjacent safe calls share a batch |
| `ToolDispatch.PartitionUnique` | packages/llm/src/tool-runtime.ts:339-355 | there is only one such cut |
| `ToolDispatch.UnsafeCallsRunAlone` | packages/llm/src/tool-runtime.ts:357-375 | in every schedule an unsafe call overlaps nothing, starts after all earlier calls have finished and ends before any later one starts |
| `ToolDispatch.OverlapIsBounded` | packages/llm/src/tool-runtime.ts:366-371 | calls that overlap are of one safe batch and never more than the concurrency allows |
| `ToolDispatch.ReportsInCallOrder` | packages/llm/src/tool-runtime.ts:364-374 | every call is reported once, in call order, with the outcome of its own execution |
| `ToolDispatch.ExecutedOnce` | packages/llm/src/tool-runtime.ts:365-373 | no call is executed twice |
| `ToolDispatch.StepUsesWork` | packages/llm/src/tool-runtime.ts:365-373 | every dispatcher action uses up work, so every schedule is finite |
| `ToolDispatch.SomethingCanHappen` | packages/llm/src/tool-runtime.ts:365-373 | until the last batch is finished some action is possible |
| `ToolLoop.RoundsBounded` | packages/llm/src/tool-runtime.ts:54-57 | `stepCountIs(n)` allows at most max(1, n) rounds, and no stop condition one |
| `ToolLoop.OneFinishAndLast` | packages/llm/src/tool-runtime.ts:97-124 | exactly one finish event, at the end; none if a model stream fails |
| `ToolLoop.EmitsEveryResult` | packages/llm/src/tool-runtime.ts:377-383 | one result event per call in call order, preceded by an error event exactly if it is an error |
| `ToolLoop.NextRequestContinues` | packages/llm/src/tool-runtime.ts:385-396 | a follow-up adds one assistant message saying what was streamed and one in-order tool message per client-executed call |
| `ToolLoop.Transcript` | packages/llm/src/tool-runtime.ts:126-139 | over all rounds every request continues the one before |
| `ToolLoop.OutputIsTheRounds` | packages/llm/src/tool-runtime.ts:99-139 | the output is the rounds' events and a finish event with the usage and metadata of all rounds |
| `ToolLoop.RoundUsageIsStepUsage` | packages/llm/src/tool-runtime.ts:205-210 | without a finish event a round's usage is the sum over its steps |
| `ToolLoop.FinishFillsIn` | packages/llm/src/tool-runtime.ts:205-215 | a finish event at any position counts only if nothing before it reported usage, and the steps after the last one are added |
| `ToolLoop.AnyScheduleReports` | packages/llm/src/tool-runtime.ts:114-121 | the reports the loop uses are those of any dispatcher schedule |
| `ToolLoop.StreamRun` | packages/llm/src/tool-runtime.ts:65-148 | the whole run with `stepCountIs`: bounded rounds, advertised tools, one conversation, one final finish event |
| `SessionProjection.MemoryState.ActiveIndex` | packages/core/src/session-message-updater.ts:21-25 | the index of the latest matching message |
| `SessionProjection.MemoryState.Replace` | packages/core/src/session-message-updater.ts:46-66 | only the latest matching message is replaced |
| `SessionProjection.MemoryState.Update` | packages/core/src/session-message-updater.ts:76-420 | one event changes the list as the projection function says |
| `SessionProjection.MemoryState.UpdateAll` | packages/core/src/session-message-updater.ts:76-420 | applying a whole log event by event leaves its projection |
| `SessionInvariants.AtMostOneOpenAssistant` | packages/core/src/session-message-updater.ts:171-214 | after any log at most one assistant message is open |
| `SessionInvariants.CompletedAssistantsAreFinal` | packages/core/src/session-message-updater.ts:20-52 | a completed assistant message never changes and no message moves or disappears |
| `SessionInvariants.MessageIdsAreAppendIds` | packages/core/src/session-message-updater.ts:67-190 | the message ids are those of the append events, in order: appending adds one message at the end and nothing else does |
| `SessionInvariants.ItemAfter` | packages/core/src/session-message-updater.ts:83-92 | an event changes an item only if it is the latest of its kind and id in the open assistant |
| `SessionInvariants.ItemAdded` | packages/core/src/session-message-updater.ts:215-266 | new items are empty texts and reasonings or pending tools |
| `SessionInvariants.ToolsAreLawful` | packages/core/src/session-message-updater.ts:247-349 | pending tools never ran, running ones did, settled ones ran and completed, with the input of their latest call |
| `SessionInvariants.SettledToolRunsAgain` | packages/core/src/session-message-updater.ts:279-297 | a reachable running tool that still carries a completion time |
| `SessionDeltas.BlankApply` | packages/core/src/session-message-updater.ts:215-416 | an event that does not leave a slot acts alike on two states that are equal up to that slot |
| `SessionDeltas.Coincide` | packages/core/src/session-message-updater.ts:237-246 | two states equal up to a slot become equal when the slot is overwritten |
| `SessionDeltas.ThinningKeepsTheProjection` | packages/core/src/session-message-updater.ts:215-416 | deleting any superseded text, reasoning, compaction and tool-input deltas leaves the projection unchanged |
| `SessionDeltas.CompactedProjection` | packages/core/src/session-message-updater.ts:215-416 | deleting all of them does too |
| `SessionDeltas.LeftDiffersForever` | packages/core/src/session-message-updater.ts:46-59 | texts that differ when their slot is left differ for good |
| `SessionDeltas.DeltaRedundantIff` | packages/core/src/session-message-updater.ts:227-416 | a delta can be deleted without a trace exactly when it is empty, has nothing to append to, or is superseded |
| `ProcessTree.ChildIndex` | packages/core/src/process-supervisor.ts:137-138 | the index holds exactly the child rows |
| `ProcessTree.ListProcessTreePids` | packages/core/src/process-supervisor.ts:131-150 | for every table, cyclic or not, exactly the live pids reachable from the root, each once |
| `ProcessTree.ProcessGroupPids` | packages/core/src/process-supervisor.ts:152-159 | exactly the live rows of the group; none on Windows |
| `ProcessTree.GroupPidsAreTheRows` | packages/core/src/process-supervisor.ts:157-158 | one pid for each live row of the group, repeated rows included, in row order |
| `ProcessTermination.ActiveProcessPids` | packages/core/src/process-supervisor.ts:161-164 | exactly the processes of the tree and the group that their tables name and that live when probed afterwards, each once |
| `ProcessTermination.WaitUntilDead` | packages/core/src/process-supervisor.ts:166-180 | true only on a quiet observation, false only past the deadline on one that is not; it terminates |
| `ProcessTermination.Escalate` | packages/core/src/process-supervisor.ts:211-246 | TERM, wait and KILL: KILL is sent only after a TERM that was taken and whose wait ran out, and the part fails exactly if the system refused a signal or could not be observed |
| `ProcessTermination.TerminateProcessTree` | packages/core/src/process-supervisor.ts:196-269 | killed, with every signal taken by the system and the last one reported, or exited after an interruption, only if the last observation saw nothing left; a failure comes after an observation that saw something and lists what the final one still saw, or the leader and an error after an interruption |
| `ProcessTermination.QuietLeaderIsGone` | packages/core/src/process-supervisor.ts:190-195 | after a quiet observation the leader, and every process its table leads to, was dead when probed |
| `ProcessTermination.QuietMeansGoneIff` | packages/core/src/process-supervisor.ts:136-146 | exactly when nothing of the tree lived at the moment of the probes |
| `ProcessTermination.ForkIsMissed` | packages/core/src/process-supervisor.ts:136-146 | a quiet observation that misses a living child |
| `SchemaMigration.Database.ApplyOnly` | packages/core/src/database/migration.ts:48-89 | one start on an existing database, stopped after any number of commits |
| `SchemaMigration.Database.Apply` | packages/core/src/database/migration.ts:19-46 | one start on any database: upgrade, refuse, install, or roll back the install of a list that repeats an id |
| `SchemaMigration.InstallsIff` | packages/core/src/database/migration.ts:27-43 | over any starts an empty database is set up, with the whole list in its journal, exactly if the list repeats no id and some start commits; otherwise it stays empty |
| `SchemaMigration.StartAdvances` | packages/core/src/database/migration.ts:53-87 | a start runs and records a leading part of the pending steps, all of them if it finishes |
| `SchemaMigration.RestartsRunPendingOnce` | packages/core/src/database/migration.ts:73-87 | over any crashes and restarts the pending steps run once each and in list order; what is recorded or imported under any alias never runs |
| `SchemaMigration.FinishedStartRecordsAll` | packages/core/src/database/migration.ts:73-87 | a finished start leaves every step of the list recorded |
| `SchemaMigration.FreshInstallNeverRuns` | packages/core/src/database/migration.ts:27-43 | a fresh install and its restarts never run a step |
| `SchemaMigration.UpgradesRunOnce` | packages/core/src/database/migration.ts:74-78 | even with a different list at each start no step or alias of it runs twice |
| `SchemaMigration.AliasesBothRun` | packages/core/src/database/migration.ts:53-78 | two spellings of one step in a list both run |
| `SchemaMigration.RunsOnceIff` | packages/core/src/database/migration.ts:53-78 | a finished start runs each name at most once exactly when its pending steps have distinct names |
| `DataMigration.PageResumesIff` | packages/jyycode/src/data-migration.ts:21-30 | a page query resumes right after its cursor exactly when the cursor is not empty |
| `DataMigration.Store.WritePageFromMessages` | packages/jyycode/src/data-migration.ts:108-163 | one page gets the sums of its assistant messages, zero if none |
| `DataMigration.Store.WritePageFromParts` | packages/jyycode/src/data-migration.ts:33-66 | the sessions of one page that have step-finish parts get their sums, the others keep theirs |
| `DataMigration.Store.RunPages` | packages/jyycode/src/data-migration.ts:93-179 | the two cursor loops write the pages of the sessions they visit, one commit each, and differ only after an empty id |
| `DataMigration.VisitsAll` | packages/jyycode/src/data-migration.ts:21-70 | unless the first page ends with the empty id the loops visit every session exactly once, in order, and end, for any page size |
| `DataMigration.VisitsOnlyTheFirst` | packages/jyycode/src/data-migration.ts:21-30 | if it does, the message backfill stops after that page and the part backfill never ends |
| `DataMigration.Store.RunMigration` | packages/jyycode/src/data-migration.ts:193-212 | a recorded migration is skipped, another is run and then recorded |
| `DataMigration.Store.RunAll` | packages/jyycode/src/data-migration.ts:188-213 | one start of the runner, stopped after any number of commits |
| `DataMigration.BackfillsConverge` | packages/jyycode/src/data-migration.ts:80-213 | over any crashes and restarts, once all rows exist each session has its part sums if it has such parts and its message sums otherwise |
| `DataMigration.BackfillsConvergeIff` | packages/jyycode/src/data-migration.ts:188-213 | exactly from which partly migrated databases they do |
| `DataMigration.UninterruptedStartFinishesIff` | packages/jyycode/src/data-migration.ts:193-212 | exactly when a start with enough commits records everything |
| `SessionCache.SortSorts` | packages/app/src/data/event-bridge.ts:334-340 | the list sort sorts by id and permutes |
| `SessionCache.FetchedHolds` | packages/app/src/features/sessions/session-api.ts:42-51 | a fetched list holds exactly the root sessions with its flag, each once, newest first |
| `SessionCache.UpsertHolds` | packages/app/src/data/event-bridge.ts:334-340 | upserting by id keeps a list of any order unique and in agreement with the plain map |
| `SessionCache.PatchedOrder` | packages/app/src/data/event-bridge.ts:334-340 | an upsert that lets a session in sorts the list by id; every other event keeps the order of what it keeps |
| `SessionCache.SessionCache.PatchRootList` | packages/app/src/data/event-bridge.ts:693-706 | one loaded list is patched, an unloaded one is invalidated if the session belongs to it |
| `SessionCache.SessionCache.UpsertSession` | packages/app/src/data/event-bridge.ts:691-717 | an upsert keeps every loaded list, in whatever order, and session in agreement with the plain map, and sorts the lists the session comes into |
| `SessionCache.SessionCache.RemoveSession` | packages/app/src/data/event-bridge.ts:718-733 | so does a removal, and a list that does not have the session is invalidated |
| `SessionCache.PatchedAllHolds` | packages/app/src/data/event-bridge.ts:691-733 | after any events a list, however it was ordered, holds exactly the root sessions of the plain map with its flag, each once |
| `SessionCache.PatchedAllSortedIff` | packages/app/src/data/event-bridge.ts:334-340 | it is in id order exactly if some event let a session in or what is left of the first list was in id order |
| `SessionCache.UpdateKeepsPlace` | packages/app/src/data/event-bridge.ts:334-340 | a fetched list that agrees with the map is not in id order, and an update leaves it in neither order |
| `SessionCache.ListsSplitTheRoots` | packages/app/src/data/event-bridge.ts:691-733 | the two lists share no id and together hold every root session |
| `SessionCache.SortedListIsUnique` | packages/app/src/data/event-bridge.ts:334-340 | where ids compare apart there is only one such list in id order |
| `JsonMatching.CanonicalIff` | packages/http-recorder/src/matching.ts:11-21 | canonical forms are equal exactly on documents equal up to key order at every depth |
| `JsonMatching.MatchesIff` | packages/http-recorder/src/matching.ts:25-37 | exactly which requests the default matcher accepts |
| `JsonMatching.DiffsIff` | packages/http-recorder/src/matching.ts:49-63 | the diff is empty exactly on documents that are alike |
| `JsonMatching.DiffsEmptyIffSame` | packages/http-recorder/src/matching.ts:49-63 | for documents without phantom members it is empty exactly on equal documents |
| `JsonMatching.DiffsWithinLimit` | packages/http-recorder/src/matching.ts:49-63 | the diff never exceeds a positive limit |
| `JsonMatching.DiffsAreReal` | packages/http-recorder/src/matching.ts:49-63 | every line names two different values found at its path |
| `JsonMatching.RequestDiff` | packages/http-recorder/src/matching.ts:73-93 | a request diff reports real differences only, and nothing exactly on undistinguished pairs |
| `JsonMatching.RejectedUnexplainedIff` | packages/http-recorder/src/matching.ts:73-93 | a rejected pair has an empty diff exactly when its bodies differ in phantoms alone |
| `JsonMatching.RejectedIsExplained` | packages/http-recorder/src/matching.ts:95-105 | without phantoms every rejection is explained |
| `JsonMatching.PhantomIsUnexplained` | packages/http-recorder/src/matching.ts:51-54 | two documents with different canonical forms and an empty diff |
| `JsonMatching.PhantomRequestIsUnexplained` | packages/http-recorder/src/matching.ts:73-93 | the requests with these bodies are rejected by the matcher with an empty request diff |
| `Catalog.Normalized` | packages/core/src/catalog.ts:127-131 | a base url option of an AI SDK endpoint becomes its url and disappears |
| `Catalog.DraftContext.ProviderUpdate` | packages/core/src/catalog.ts:147-161 | the edited provider replaces its record in map and array |
| `Catalog.DraftContext.ProviderRemove` | packages/core/src/catalog.ts:162-166 | the provider leaves map and array |
| `Catalog.DraftContext.ModelUpdate` | packages/core/src/catalog.ts:169-183 | the edited model replaces its entry; a missing provider throws and changes nothing |
| `Catalog.DraftContext.ModelRemove` | packages/core/src/catalog.ts:184-195 | the model leaves its provider's record in both copies |
| `Catalog.ApplyAgreesIff` | packages/core/src/catalog.ts:138-199 | an operation keeps the copies in agreement exactly when it does not rename its provider |
| `Catalog.RunAgrees` | packages/core/src/catalog.ts:138-199 | over any operations that keep ids, map and array hold the same records, no id twice |
| `Catalog.RunIsOrderBlind` | packages/core/src/catalog.ts:138-199 | what operations do to the records does not depend on the array |
| `Catalog.SweepEditsEach` | packages/core/src/catalog.ts:138-199 | a hook that visits the array and edits each record on its own leaves every record edited once from what it was |
| `Catalog.HookAgrees` | packages/core/src/catalog.ts:138-217 | every hook made of such operations, programs and sweeps, keeps the two copies in agreement |
| `Catalog.HookIsOrderBlind` | packages/core/src/catalog.ts:138-217 | and what it does to the records, or whether it throws, does not depend on the order of the array |
| `Catalog.IncrementalIsRebuild` | packages/core/src/catalog.ts:201-234 | while the listener lives, loading, closing and handling a brand-new plugin, throwing hooks included, keep the records those of a full rebuild unless that would throw |
| `Catalog.StaysFreshIff` | packages/core/src/catalog.ts:201-234 | records that are those of a full rebuild stay so exactly unless a plugin is added that no listener handles and whose hook would have changed them |
| `Catalog.CatalogIsAlwaysRebuilt` | packages/core/src/catalog.ts:201-234 | so over any sequence of them from the empty catalog while the listener lives |
| `Catalog.RecordsMissOnlyTheMissed` | packages/core/src/catalog.ts:201-234 | after any sequence, with or without a listener, the records are those of a rebuild without the plugins added unhandled since the last load or close |
| `Catalog.RunIsFreshIff` | packages/core/src/catalog.ts:201-234 | exactly after which sequences the records are those of a full rebuild |
| `Catalog.DeadListenerMisses` | packages/core/src/catalog.ts:209-217 | a sequence after which they are not |
| `CachePolicy.MarkMessages` | packages/llm/src/cache-policy.ts:85-97 | the messages the strategy names are marked and no others |
| `CachePolicy.PlacementOnlyPlaces` | packages/llm/src/cache-policy.ts:99-111 | placement changes nothing but hints |
| `CachePolicy.PlacementOnlyFills` | packages/llm/src/cache-policy.ts:47-83 | no hint is ever replaced and every new one is the policy's |
| `CachePolicy.PlacementIdempotent` | packages/llm/src/cache-policy.ts:99-111 | placing twice is placing once |
| `CachePolicy.PlacementAddsExactly` | packages/llm/src/cache-policy.ts:47-111 | how many hints are added: one for each empty breakpoint the policy names that can carry one |
| `CachePolicy.PlacementAddsFew` | packages/llm/src/cache-policy.ts:85-111 | at most one tool, one system and one message hint, or one for each of the last messages |
| `CachePolicy.PlacementReaches` | packages/llm/src/cache-policy.ts:47-83 | a breakpoint has a hint afterwards exactly if it had one, or the policy asks for it and, in a message, it is a text or a tool result |

## Left out

- Output retention: un-awaited concurrent appends, overlapping flushes and snapshots taken during the lazy replay; the lazy replay awaits midway, and `retainOutput` awaits every append.
- Output retention: the SHA-256 function itself (the result names the bytes it is taken of), blob storage, byte-order-mark stripping, and string chunks, which are bytes by the time they are counted.
- OutputRetention.RetainOutput: the error path of a failing source, which only flushes and rethrows.
- SpillPipeline.FlushCompletes: says that a finishing continuation exists and, with `ApplyUsesWork`, that no run avoids it for ever; a writer that never answers is not modelled.
- Tool runtime: schema encoding and decoding of tool values are parameters; a missing `providerExecuted` flag reads as false; usage numbers are integers, so floating-point rounding is not modelled.
- ToolLoop.RoundsBounded: the loop is modelled for stop conditions that hold from some round on, as `stepCountIs` does; a condition that never holds may loop for ever.
- Session projection: prompts, models, metadata, usage and tool outputs are opaque values; the adapter over a database is not part of this model.
- Process supervision: `ps`, PowerShell, `taskkill` and real signals are answers of the world; all probes of one search happen at one moment, and the two searches of an observation are numbered one after the other, which relates nothing since no snapshot is related to another; a timer takes at least one millisecond.
- ProcessTermination.TerminateProcessTree: the early exit when neither leader nor group is alive inspects no descendants, so it promises nothing about them.
- Schema migration: SQL and the effect of a step are not modelled, only whether its transaction committed; two programs migrating one database at once are not either.
- Data migration: JSON extraction and pauses between pages; messages, parts and sessions do not change while the backfills run.
- Session lists: which sessions the server sends, beyond that each id comes once; batching, ordering across flushes, refetching, notifications and all other cache actions.
- Request matching: JSON serialization is taken to be injective on canonical documents; negative zero, integer-like key order, redaction and the wording of the lines are not modelled. JSON.parse itself is a parameter.
- Catalog: plugin removal and re-adding an existing plugin, which neither path rebuilds for; default model selection and queries.
- Catalog.SweepEditsEach: a sweep edits or reads only the record it is at and removes no provider, as the hooks of the repository that visit the array do; a sweep that adds or removes records while it visits them is not modelled.
- Cache hints: the message constructor, which is taken to drop a hint on a part whose schema has no field for it, and the lowering of hints to wire formats.
- User interface, desktop bridges, provider setup, release scripts and the plan, lease and blackboard protocols.
