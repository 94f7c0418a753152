# Rivulets, modelled and verified in Dafny

A model of the parts of the workspace application where correctness is hardest to see from the code, with proofs of what
they are for. Each module models one source file or one concern of it. Code that changes state is a class whose methods
are proved to do what a specification function says; the theorems are then about that function, over all inputs, all
runs or all interleavings.

| module | models |
|---|---|
| FlowGraph, FlowCanvas | the workflow canvas: loop edges, the fan-out a merge joins, what is drawn |
| WorkflowStore, PublishedEntries | requests on workflows, nodes and connections |
| Backup, RestoreSafety, RestoredWorkspace | backup archives and restore, step by step on a disk |
| Invites, InviteRequests, Login, LoginOutcomes | concurrent requests on one SQLite file: redeeming invites, the first login |
| Tracing | the life of traces and spans, the reapers |
| AgentRun | the fold over the events of an agent run |
| MarkdownBlocks, MarkdownInline | the block loop of the renderer, code spans and escaping |
| Merge, MergeAgain | the upsert of one kind of row, once and again |
| WorkspaceYaml, ImportSteps, ImportSafety, ImportResults, ImportEffects, ImportConvergence, ImportExamples | importing a workspace definition, once and again |
| WorkspaceExport, ExportRoundTrip, ExportToEmpty | exporting it, and importing the export |

Check everything with `dafny verify dfyconfig.toml`.

## How things are modelled

- Rows are values in maps from ids; a request or a step is atomic unless said otherwise. In Invites and Login each
  request is a program counter, and a run is any interleaving of reads, the first write that takes the lock, commits,
  rollbacks and aborts; a writer sees its own uncommitted view, everybody else the committed rows.
- In Backup the disk is a map from paths to contents, any step may fail, a copy may be seen torn, and a log keeps the
  disk after every step, so that a statement about the log is a statement about every crash point.
- What lies outside is a parameter: new ids, which row of several a query returns, clocks, which steps fail, what compiles
  or serializes, hashes and their verification. Theorems hold for every value of these.
- A method is tied twice: to its specification function, which the theorems over runs speak of, and, in its own contract or
  in a lemma about that function, to what it does to the rows before and after.
- A stored secret hash is identified with the secret it is of.
- "Path" on the canvas means walk: graphs may have cycles and parallel connections. A connection whose source is null or
  empty is an entry and no edge.
- In an import a new id is one that no row, no deleted row and no item of the file has. The settings of a file are a
  mapping, so no key occurs twice.

## Where the code and its documentation differ

The model follows the code.

- Restore (server/src/rivulets/backup.py:389-392) says the engine override is always cleared. It is not when the removal
  of the agent database, which comes first in the finally block, raises: `RestoredWorkspace.EngineDroppedExactlyWhen`.
- Importing a file again is said to converge (server/src/rivulets/workspace_yaml.py:20-24). Three kinds of file do not: two
  items under one id, two items for one row of which one renames it, and an archived channel that is not under its own id.
  `ImportConvergence.SameRowsExactlyWhen` has the exact condition, `ImportExamples.RepeatedIdDoesNotConverge`,
  `ImportExamples.SharedRowIsSplit` and `ImportExamples.ArchivedChannelIsAddedAgain` follow one file of each kind through
  both imports. A file that renames a custom tool while an agent of it uses the old name is refused the second time:
  `ImportConvergence.AcceptedAgainExactlyWhen`, `ImportExamples.RenamedToolIsRefused`. Where several MCP tools share type
  and name, the lookup may return another of them the second time.
- Publishing needs an entry connection (server/src/rivulets/api/workflows.py:700-730), but a published workflow may lose it
  again: the owner may delete the connection, or the node it leads to. `PublishedEntries.PublishedKeepsEntryExactlyWhen`
  says that there is no other way.
- A close is said to leave no running step under a closed trace (server/src/rivulets/tracing.py:236-241). A span that
  starts later stays open: `Tracing.LateSpanStaysOpen`.
- The block loop of the renderer need not end: `MarkdownBlocks.CarriageReturnHangs`.
- The tool name pattern (server/src/rivulets/validation.py:25) ends in `$`, which also matches before a final line feed,
  so such a name passes; `WorkspaceYaml.ToolNameOk` keeps this.
- server/src/rivulets/db/models.py:828-831 says the interface allows one outbound connection per node. The endpoints do
  not check that, and neither does the model.

## Model

| member | source | states |
|---|---|---|
| `FlowGraph.IsLoopEdge` | ui/src/lib/workflowFlowGraph.ts:131-157 | the search answers true exactly when a walk of the connection list leads from the target back to the source; an entry edge never is one |
| `FlowGraph.LoopEdgeClosesCycle` | ui/src/lib/workflowFlowGraph.ts:131-157 | a connection is a loop edge exactly when it lies on a directed closed walk |
| `FlowGraph.DeletingLoopsBreaksCycles` | ui/src/lib/workflowFlowGraph.ts:131-157 | without its loop edges the graph has no cycle left |
| `FlowGraph.Ancestors` | ui/src/lib/workflowFlowGraph.ts:248-265 | the backward search lists exactly the nodes that reach the merge, in the order of a breadth-first search |
| `FlowGraph.SearchIsShortest` | ui/src/lib/workflowFlowGraph.ts:248-265 | the level at which that search found a node is not above the length of any walk from it to the merge |
| `FlowGraph.FirstIsNearest` | ui/src/lib/workflowFlowGraph.ts:234-275 | the first fan-out in search order is a nearest one: no other has a shorter walk to the merge |
| `FlowGraph.TwoPreds` | ui/src/lib/workflowFlowGraph.ts:238-239 | the guard passes exactly when two connections of the list enter the merge from a source that is neither null nor empty |
| `FlowGraph.FirstFanOut` | ui/src/lib/workflowFlowGraph.ts:266-275 | the scan stops at the first ancestor with two or more edges into the nodes that reach the merge, with the number of such edges |
| `FlowGraph.FindMergeFanOut` | ui/src/lib/workflowFlowGraph.ts:234-299 | no answer exactly when fewer than two edges enter the merge or nothing fans out; otherwise a nearest fan-out, its branch count, and exactly the nodes and connections on walks from it to the merge |
| `FlowGraph.NodeBetweenIsReach` | ui/src/lib/workflowFlowGraph.ts:277-298 | a node is on some walk between two others exactly when the first reaches it and it reaches the second, cycles included |
| `FlowGraph.EdgeBetweenIsReach` | ui/src/lib/workflowFlowGraph.ts:277-298 | the same for a connection |
| `FlowGraph.RestrictedClosure` | ui/src/lib/workflowFlowGraph.ts:277-290 | a forward search that never leaves the nodes reaching the merge misses none of them |
| `FlowGraph.Descendants` | ui/src/lib/workflowFlowGraph.ts:277-290 | that search returns exactly the nodes between the fan-out and the merge |
| `FlowCanvas.BuildRunOverlay` | ui/src/lib/workflowFlowGraph.ts:72-86 | each node shows the status of its last run in the list, and no other node shows any |
| `FlowCanvas.BuildFlowGraph` | ui/src/lib/workflowFlowGraph.ts:306-422 | which nodes and connections are drawn and how each is marked, the loop flag, the entry node, and the fan-out of a selected merge: none exactly when it is not to be shown, fewer than two edges enter the merge, or nothing fans out |
| `FlowCanvas.EntryIsFirst` | ui/src/lib/workflowFlowGraph.ts:329 | the entry node is the target of the first connection without a source, and there is none exactly when every connection has one |
| `FlowCanvas.ShowsFanOutExactlyWhen` | ui/src/lib/workflowFlowGraph.ts:331-335 | the fan-out is looked for exactly when no run is overlaid and the first node of the selected id is a merge |
| `FlowCanvas.DrawnInOrder` | ui/src/lib/workflowFlowGraph.ts:378-384 | drawn are the connections between two present nodes, each once and in order |
| `FlowCanvas.MarksOfNode` | ui/src/lib/workflowFlowGraph.ts:346-361 | which node is marked as ancestor or branch, and which status it shows with and without a run |
| `FlowCanvas.HasLoopIsCycle` | ui/src/lib/workflowFlowGraph.ts:378-387 | the loop flag lies between a cycle of drawn connections and a cycle of all; without dangling endpoints it is true exactly when there is a cycle |
| `FlowCanvas.HasLoopAgreesExactlyWhen` | ui/src/lib/workflowFlowGraph.ts:378-387 | on any graph the flag tells whether there is a cycle exactly when there is none or some drawn connection lies on one |
| `FlowCanvas.DanglingLoops` | ui/src/lib/workflowFlowGraph.ts:378-387 | two graphs with dangling connections on which the flag and the drawn cycles disagree |
| `WorkflowStore.WorkflowContainsHumanInput` | server/src/rivulets/api/workflows.py:457-480 | ends on every embedding graph, cyclic ones included, and answers whether some workflow reached by zero or more embedding steps has a human-input step |
| `WorkflowStore.ScanSteps` | server/src/rivulets/api/workflows.py:457-480 | the scan of one workflow finds a human-input step if there is one, and otherwise exactly the workflows its steps embed |
| `WorkflowStore.DirectQuerySuffices` | server/src/rivulets/api/workflows.py:783-802 | a workflow is nested somewhere, at any depth, exactly when some step names it |
| `WorkflowStore.LastNewEdge` | server/src/rivulets/api/workflows.py:483-511 | a chain of embeddings that may use a new edge can be cut to one that starts at its old start or at the new child and uses old edges only |
| `WorkflowStore.EmbeddingStaysUnattended` | server/src/rivulets/api/workflows.py:483-511 | naming a child that the transitive check has cleared brings no human-input step below any nested workflow |
| `WorkflowStore.AskingStaysUnattended` | server/src/rivulets/api/workflows.py:783-802 | a human-input step in a workflow that no step names brings none below a nested one |
| `WorkflowStore.StepKeeps` | server/src/rivulets/api/workflows.py:582-1010 | every request, accepted or refused, keeps the invariant: nested runs unattended, one entry per workflow, connections between own nodes, unique names |
| `WorkflowStore.EveryRunIsConsistent` | server/src/rivulets/api/workflows.py:582-1010 | the invariant holds in every state that any requests of anyone lead to from the empty store |
| `WorkflowStore.GuestsCannotChangePublished` | server/src/rivulets/api/workflows.py:582-596 | no run of requests without the owner grant changes the name, flag, triggers, nodes or connections of a published workflow |
| `PublishedEntries.PublishedKeepsEntryExactlyWhen` | server/src/rivulets/api/workflows.py:700-1010 | while every published workflow has an entry, a request leaves it so exactly when it is refused or deletes neither the entry of a published workflow nor the node that entry leads to |
| `PublishedEntries.RunKeepsEntries` | server/src/rivulets/api/workflows.py:700-1010 | from the empty store on, every published workflow has an entry as long as no accepted request takes one |
| `PublishedEntries.GuestsCannotTakeEntry` | server/src/rivulets/api/workflows.py:582-596 | no run of requests without the owner grant takes the entry of a published workflow |
| `PublishedEntries.PublishedMayLoseItsEntry` | server/src/rivulets/api/workflows.py:898-1010 | both ways for the owner to do it: deleting the connection, and deleting its node; the workflow stays published |
| `WorkflowStore.Store.ValidateChildWorkflow` | server/src/rivulets/api/workflows.py:483-511 | the status for a child: itself, missing, asking a human, or fit |
| `WorkflowStore.Store.CreateNode` | server/src/rivulets/api/workflows.py:754-819 | accepted exactly under the listed conditions; then one new row with the given fields, the agent and child only where the type has them, and nothing else changes; refused requests change nothing, with the reasons of each status |
| `WorkflowStore.Store.UpdateNode` | server/src/rivulets/api/workflows.py:851-895 | accepted exactly under the listed conditions; then each field of that row is the given one or as before, and no other row changes; a change refused half-way leaves the stored row as it was |
| `WorkflowStore.Store.DeleteNode` | server/src/rivulets/api/workflows.py:898-914 | when it is accepted; the node goes, and with it exactly the connections that leave or enter it; all other rows stay |
| `WorkflowStore.Store.CreateConnection` | server/src/rivulets/api/workflows.py:917-960 | accepted exactly between own nodes, as an entry only where there is none, with a well-formed condition; then one new row from the given source to the given target, all other rows as before |
| `WorkflowStore.Store.UpdateConnection` | server/src/rivulets/api/workflows.py:974-992 | when it is accepted; the condition of that row changes, its ends and all other rows do not |
| `WorkflowStore.Store.DeleteConnection` | server/src/rivulets/api/workflows.py:995-1010 | when it is accepted; exactly that connection goes |
| `WorkflowStore.Store.CreateWorkflow` | server/src/rivulets/api/workflows.py:599-612 | accepted exactly for a well-formed name that is free; then one new unpublished row without triggers |
| `WorkflowStore.Store.UpdateWorkflow` | server/src/rivulets/api/workflows.py:625-680 | who may change what: accepted exactly under the listed conditions; then each field is the given one or as before, the flag stays, and so do all other rows |
| `WorkflowStore.Store.DeleteWorkflow` | server/src/rivulets/api/workflows.py:682-698 | owner only; the workflow goes with exactly its nodes and connections, and steps and triggers that named it name none |
| `WorkflowStore.DeletedWorkflowIsGone` | server/src/rivulets/api/workflows.py:682-698 | afterwards no row of any kind leads to the workflow, and rows of other workflows differ at most in such a reference |
| `WorkflowStore.Store.PublishWorkflow` | server/src/rivulets/api/workflows.py:700-730 | accepted exactly for the owner and with an entry; sets the flag and nothing else |
| `WorkflowStore.Store.UnpublishWorkflow` | server/src/rivulets/api/workflows.py:732-751 | accepted exactly for the owner; clears the flag and nothing else |
| `WorkflowStore.Handle` | server/src/rivulets/api/workflows.py:582-1010 | the requests of a run are these endpoints |
| `RestoreSafety.RestoreIsCrashSafe` | server/src/rivulets/backup.py:400-462 | whatever step fails and wherever the process stops, the database file has held its old content up to some point and the archived content from then on, and so has the credentials file, which an archive without credentials removes; a reported success means the latter of both |
| `RestoreSafety.DatabaseBeforeCredentials` | server/src/rivulets/backup.py:424-462 | at no such moment are archived credentials beside the old database |
| `RestoreSafety.ReplaceSwitches` | server/src/rivulets/backup.py:320-337 | copy and rename: at every moment the destination holds the old content or the new, and the old for good if a step fails |
| `RestoreSafety.SwapInMoves` | server/src/rivulets/backup.py:424-451 | the whole swap switches each of the two files once and leaves it alone afterwards |
| `RestoreSafety.RefusedRestoreTouchesNothing` | server/src/rivulets/backup.py:400-423 | an archive with a missing or damaged database raises, exactly then, and every live file and the engine are as before at every moment |
| `RestoredWorkspace.EngineDroppedExactlyWhen` | server/src/rivulets/backup.py:424-462 | once the engine is disposed, it is dropped for good exactly when the three removals of the finally block work, whatever else failed |
| `RestoredWorkspace.DisposedEngineCanRemain` | server/src/rivulets/backup.py:389-392 | the failure on which the documented "always" is wrong |
| `RestoredWorkspace.RestoredDisk` | server/src/rivulets/backup.py:424-462 | after a reported success every path holds what the archive, or else the live disk, says |
| `RestoredWorkspace.BackupThenRestore` | server/src/rivulets/backup.py:155-223 | the whole cycle: a backup reported as written, any changes that leave it in place, a restore. It is never refused as invalid, and a success brings back database, credentials or their absence and tool sources; the sync directory is overlaid, the agent database is gone, uploads stay |
| `RestoredWorkspace.BackupRestoreRoundTrip` | server/src/rivulets/backup.py:155-196 | the same from any archive of a disk, taken in whatever order its directories are listed |
| `RestoredWorkspace.RestoredExactlyWhen` | server/src/rivulets/backup.py:340-462 | a restore reports success exactly when the archive is there, both databases pass their check and no step that was run failed |
| `RestoredWorkspace.WrittenExactlyWhen` | server/src/rivulets/backup.py:199-223 | a backup reports success exactly when its steps work and what it copied passes the check; it never touches the disk |
| `RestoredWorkspace.RestoreSavesLiveDisk` | server/src/rivulets/backup.py:400-403 | a restore leaves the former disk under the name of its safety snapshot, and every other backup as it was |
| `RestoredWorkspace.RestoreCanBeUndone` | server/src/rivulets/backup.py:400-462 | restoring that snapshot brings the former disk back |
| `RestoredWorkspace.SafetySnapshotShadowsArchive` | server/src/rivulets/backup.py:400-403 | why the names must differ: a safety snapshot that takes the archive name undoes the restore |
| `Backup.Workspace.AtomicReplace` | server/src/rivulets/backup.py:320-337 | runs exactly the steps of the specification, clean-up after a failure included |
| `Backup.Workspace.BuildArchive` | server/src/rivulets/backup.py:155-196 | the archive is the disk at that moment: database, credentials if any, the files of both directories |
| `Backup.Workspace.Snapshot` | server/src/rivulets/backup.py:199-223 | what a backup leaves under its name, and its result, for every failing step |
| `Backup.Workspace.Restore` | server/src/rivulets/backup.py:340-462 | runs exactly the steps the theorems speak of, finally block included |
| `Invites.SessionsMatchUses` | server/src/rivulets/api/invites.py:122-270 | in every interleaving from the empty database the committed sessions of an invite number exactly its use count, which never exceeds its limit |
| `Invites.CommitConserves` | server/src/rivulets/api/invites.py:122-147 | what a request commits under the lock keeps sessions and use counts equal, because the slot is taken by the update itself |
| `Invites.RunKeepsInv` | server/src/rivulets/api/invites.py:122-363 | the books, the lock and the private views of all requests stay consistent over every run |
| `Invites.RevokeFreezesInvite` | server/src/rivulets/api/invites.py:195-203 | after a committed revoke no run takes a slot or adds a session |
| `Invites.RevokeStopsResume` | server/src/rivulets/api/invites.py:294-363 | a resume that reads the invite after the revoke never succeeds, however the run goes on |
| `Invites.ReservingNeedsLiveInvite` | server/src/rivulets/api/invites.py:122-147 | in every run, an accept that holds or has used a slot took it at a moment when the lock was free and the committed invite was neither revoked, expired nor used up, whatever it had read before |
| `Invites.UseMeansSession` | server/src/rivulets/api/invites.py:206-270 | a use count changes only by one, in a commit of an accept that adds exactly one session |
| `InviteRequests.SlotNeedsSecret` | server/src/rivulets/api/invites.py:222-225 | in every run, whoever holds or has used a slot brought the secret of that invite |
| `InviteRequests.ResumeNeedsSecret` | server/src/rivulets/api/invites.py:294-330 | in every run, whoever has resumed a session brought the secret of that session |
| `InviteRequests.RowsComeFromRequests` | server/src/rivulets/api/invites.py:150-180 | in every run, a session carries the resume secret and the invite of the accept that committed it, and an invite the secret, limit and expiry its creator asked for |
| `InviteRequests.RevokeTakesEffect` | server/src/rivulets/api/invites.py:195-203 | in every run, an invite is revoked once a revoke of it is done |
| `InviteRequests.ResumeNeedsLiveSession` | server/src/rivulets/api/invites.py:294-363 | in every run, a resume that is through read its session unexpired and its invite not revoked |
| `InviteRequests.AcceptAlone` | server/src/rivulets/api/invites.py:206-291 | undisturbed, an accept succeeds exactly with the secret of a live invite, and then adds one use and one session of thirty days and nothing else; otherwise nothing changes |
| `InviteRequests.ResumeAlone` | server/src/rivulets/api/invites.py:294-363 | undisturbed, a resume succeeds exactly with the secret of an unexpired session whose invite is not revoked, and then extends that session by thirty days and nothing else |
| `InviteRequests.RevokeAlone` | server/src/rivulets/api/invites.py:195-203 | undisturbed, a revoke sets the flag of an invite that is there and changes nothing else |
| `InviteRequests.CreateAlone` | server/src/rivulets/api/invites.py:150-165 | a new invite is unused and not revoked |
| `Login.OneWorkspaceOneSeeding` | server/src/rivulets/api/auth.py:124-175 | in every interleaving of first logins there is at most one workspace row, without any unique constraint, at most one seeding, and it is by the creator of the row |
| `Login.TokensAreVouchedFor` | server/src/rivulets/api/auth.py:110-186 | every login that gets a token created that row or verified against it, and the session keys belong to such a login |
| `Login.ClaimNeedsToken` | server/src/rivulets/api/auth.py:139-158 | in every run that needs a bootstrap token, the row was inserted by a login that supplied the configured one, which is not empty |
| `Login.StepLocksOut` | server/src/rivulets/db/session.py:113-132 | check, lock, re-check: a login between re-check and commit holds the lock, and there is no row meanwhile |
| `Login.RunKeepsInv` | server/src/rivulets/api/auth.py:124-175 | the invariant of rows, lock, seedings and verifications over every run |
| `LoginOutcomes.RefusedOnlyWhen` | server/src/rivulets/api/auth.py:124-175 | in every run, a login that is turned away brought a key that does not verify against the one row, or found no row and lacked the bootstrap token |
| `LoginOutcomes.ReturningLogin` | server/src/rivulets/api/auth.py:124-240 | from every reachable state with a row, a login gets its token by its own moves exactly when its key verifies, and its keys become those of the process |
| `LoginOutcomes.LateLogin` | server/src/rivulets/api/auth.py:127-175 | so does one that saw no row and takes the lock late, and it lets go of the lock |
| `LoginOutcomes.FirstLogin` | server/src/rivulets/api/auth.py:124-175 | without a row, a login by its own moves creates the row with the hash of its key, seeds the library once and gets its token, exactly when it brings the token this takes; otherwise there is still no row |
| `Tracing.SpanCountIsExact` | server/src/rivulets/tracing.py:110-139 | over every run the incremental span count of every trace equals the number of its spans |
| `Tracing.ClosedIsFinal` | server/src/rivulets/tracing.py:187-256 | status and completion time of a terminal trace never change until it is pruned |
| `Tracing.CloseLeavesNoOpenSpan` | server/src/rivulets/tracing.py:236-256 | a close leaves no open span exactly when the trace was not terminal or had none |
| `Tracing.LateSpanStaysOpen` | server/src/rivulets/tracing.py:110-139 | a span started under a closed trace, which a further close leaves open |
| `Tracing.OrphanReapIsExact` | server/src/rivulets/tracing.py:271-309 | the orphan reap leaves running exactly the traces that wait for a human |
| `Tracing.PeriodicReapIsExact` | server/src/rivulets/tracing.py:271-309 | the periodic reap closes exactly the old running traces without a span |
| `Tracing.CloseOneMore` | server/src/rivulets/tracing.py:236-256 | closing traces one after the other is closing them together |
| `Tracing.CloseTraceMeans` | server/src/rivulets/tracing.py:236-256 | a close gives the trace and each of its open spans the status and the time, and changes nothing else; a terminal trace is left alone |
| `Tracing.Perform` | server/src/rivulets/tracing.py:90-328 | the steps of a run are these functions |
| `Tracing.TraceStore.StartSpan` | server/src/rivulets/tracing.py:110-139 | under a trace that is there: the new running span with its fields, and one more in the count of that trace; otherwise nothing |
| `Tracing.TraceStore.FinishSpan` | server/src/rivulets/tracing.py:142-185 | the span gets status, time, duration and error, all else stays; a missing span is ignored |
| `Tracing.TraceStore.AggregateTrace` | server/src/rivulets/tracing.py:187-208 | the count becomes the number of its spans, and the result says whether one of them failed |
| `Tracing.TraceStore.FinishTrace` | server/src/rivulets/tracing.py:211-233 | a running trace ends as error exactly when one of its spans has failed, and as completed otherwise, with the number of its spans; a terminal one stays |
| `Tracing.TraceStore.CloseTrace` | server/src/rivulets/tracing.py:236-256 | the trace and all its open spans get the given status |
| `Tracing.TraceStore.ReapStaleTraces` | server/src/rivulets/tracing.py:271-309 | closes exactly the running traces that do not wait for a person, all of them or those without a span for five minutes, and returns their number |
| `Tracing.TraceStore.PruneOldTraces` | server/src/rivulets/tracing.py:312-328 | exactly the traces started at the cutoff or later survive, whatever their status, unchanged; a span goes exactly with its trace; the result is the number of traces that went |
| `AgentRun.CollectIsOnePerCall` | server/src/rivulets/agentos/service.py:395-425 | the collected calls are those that ended, in the order of their first report, one per call id with its last report, all without an id kept |
| `AgentRun.RunEvents` | server/src/rivulets/agentos/service.py:369-479 | for every event sequence, by the event that ends it: an error makes a failed run of its message without tools, a completion a run of its content with its own tools or those collected, and without either the run has the text of the deltas and every call collected, or raises; a run fails exactly when an error ends it |
| `AgentRun.CollectedInOrder` | server/src/rivulets/agentos/service.py:395-425 | the collected list has an entry for each call that ended, in the order of the first reports, and each is the last report of its call |
| `AgentRun.TextInTurn` | server/src/rivulets/agentos/service.py:385-394 | the text of a stream is that of its parts in turn |
| `AgentRun.FallbackRaisesExactlyWhen` | server/src/rivulets/agentos/service.py:455-468 | without a terminal event the run raises exactly when no text has arrived |
| `AgentRun.CompletionReportsCollected` | server/src/rivulets/agentos/service.py:369-468 | a completion that lists no tools reports the calls collected, later ones included |
| `AgentRun.ToolList.Add` | server/src/rivulets/agentos/service.py:395-425 | one report replaces the entry of its call in place, or is appended |
| `MarkdownBlocks.TerminatesExactlyWhen` | ui/src/lib/markdown.ts:67-143 | the block loop ends exactly when no line outside a code fence opens a heading that the heading pattern then refuses |
| `MarkdownBlocks.PlainTextTerminates` | ui/src/lib/markdown.ts:67-143 | it ends on every text without carriage returns and Unicode line separators |
| `MarkdownBlocks.CarriageReturnHangs` | ui/src/lib/markdown.ts:89-138 | a one-line message on which it does not end |
| `MarkdownBlocks.HeadingIsPattern` | ui/src/lib/markdown.ts:89-91 | the greedy match finds a heading whenever the pattern has any match |
| `MarkdownBlocks.MarksArePatterns` | ui/src/lib/markdown.ts:79-128 | the tests for fences, bullets and quotes agree with their patterns |
| `MarkdownBlocks.NumberIsPattern` | ui/src/lib/markdown.ts:109-118 | so does the test for numbered items |
| `MarkdownBlocks.StuckNeedsLineEnd` | ui/src/lib/markdown.ts:132-138 | a line is stuck exactly when a line end character follows its heading mark |
| `MarkdownBlocks.EachLineOnce` | ui/src/lib/markdown.ts:67-143 | when the loop ends, its pieces are the lines, each once and in order |
| `MarkdownBlocks.PiecesCoverLines` | ui/src/lib/markdown.ts:67-143 | in any case the pieces are the lines up to the first stuck one outside the fences |
| `MarkdownBlocks.PiecesAreWellFormed` | ui/src/lib/markdown.ts:70-138 | each piece is made of lines of its own kind |
| `MarkdownBlocks.PiecesAreLongest` | ui/src/lib/markdown.ts:70-138 | no piece could be longer: the next line is of another kind, and a fenced block ends at its fence or at the end |
| `MarkdownBlocks.Turn` | ui/src/lib/markdown.ts:70-138 | one turn of the outer loop ends where its inner loop stops |
| `MarkdownBlocks.RenderBlocks` | ui/src/lib/markdown.ts:60-146 | renders exactly when the loop ends, into well-formed pieces, as long as can be, that are the lines each once; otherwise names the stuck line |
| `MarkdownInline.EscapeIsOnePass` | ui/src/lib/markdown.ts:8-19 | the five replacements in sequence equal one pass: none escapes what another wrote |
| `MarkdownInline.EscapeRoundTrip` | ui/src/lib/markdown.ts:8-19 | unescaping gives the text back |
| `MarkdownInline.EscapeIsInert` | ui/src/lib/markdown.ts:8-19 | no character of the result opens or closes a tag or an attribute |
| `MarkdownInline.CodeLengthIsPattern` | ui/src/lib/markdown.ts:37-45 | a code span is found exactly where the pattern matches, with its length |
| `MarkdownInline.RestoreIsExact` | ui/src/lib/markdown.ts:57-63 | every placeholder becomes its code span and all other text stays |
| `MarkdownInline.PlaceholdersRoundTrip` | ui/src/lib/markdown.ts:37-63 | extracting code spans and restoring them yields the text with each span replaced by its code element |
| `MarkdownInline.InlineCodeOfAnyMessage` | ui/src/lib/markdown.ts:37-63 | the hypothesis holds of every message, because the mark character is stripped first |
| `WorkspaceYaml.PlanEntities` | server/src/rivulets/workspace_yaml.py:343-386 | each item gets the target of the four-way resolution: id, tombstone, unique name, new |
| `WorkspaceYaml.BuildTeamMap` | server/src/rivulets/workspace_yaml.py:441-459 | what each team id of the file stands for here, later items over earlier ones |
| `WorkspaceYaml.Validate` | server/src/rivulets/workspace_yaml.py:389-567 | the loops record exactly the problems of the specification, in order |
| `WorkspaceYaml.Workspace.ApplyTeams` | server/src/rivulets/workspace_yaml.py:569-584 | the upserts in order up to the first the database refuses |
| `WorkspaceYaml.Workspace.ApplyTools` | server/src/rivulets/workspace_yaml.py:586-633 | the same with the source files; an item without source leaves the file alone |
| `WorkspaceYaml.Workspace.SetAgentJoins` | server/src/rivulets/agentos/agent_lifecycle.py:39-188 | the rows of that agent are deleted and replaced, those of others stay |
| `WorkspaceYaml.Workspace.ApplyAgents` | server/src/rivulets/workspace_yaml.py:635-694 | rows and joins, tools by type and name, teams through the map |
| `WorkspaceYaml.Workspace.ApplyChannels` | server/src/rivulets/workspace_yaml.py:696-726 | the same for channels |
| `WorkspaceYaml.Workspace.ApplySettings` | server/src/rivulets/workspace_yaml.py:728-741 | known settings that are not the node's own are written |
| `WorkspaceYaml.Workspace.ApplyImport` | server/src/rivulets/workspace_yaml.py:389-752 | the whole import: refused with all problems and no change, or applied in foreign-key order |
| `Merge.NoResurrection` | server/src/rivulets/workspace_yaml.py:371-386 | a row is never created under an id with sync history, and a deleted id is skipped, not matched by name |
| `ImportEffects.FourWays` | server/src/rivulets/workspace_yaml.py:343-386 | which of the four ways an item goes, from the rows, the history and the names alone |
| `MergeAgain.StaysUnambiguous` | server/src/rivulets/workspace_yaml.py:378-384 | after a run that completed no item is ambiguous, and an item is written the next time exactly when it was |
| `MergeAgain.SameTargetsExactlyWhen` | server/src/rivulets/workspace_yaml.py:352-386 | the items go to the same rows again exactly when no written item carries the id of a new row but goes elsewhere, and every row that an item goes to under another id than its own, or none, ends up with the name of that item; two items may share a row or an id |
| `MergeAgain.Converges` | server/src/rivulets/workspace_yaml.py:352-386 | under that condition the second run creates nothing and leaves the table as it is |
| `Merge.OwnRowsAreIdentity` | server/src/rivulets/workspace_yaml.py:366-370 | items that are the rows of the table leave it as it is |
| `Merge.PutAllKeepsUnique` | server/src/rivulets/workspace_yaml.py:569-726 | the upserts keep the unique index |
| `Merge.PutAllRows` | server/src/rivulets/workspace_yaml.py:569-726 | rows that are no target stay, every target is there afterwards, nothing else appears |
| `ImportSteps.TeamsArePutAll` | server/src/rivulets/workspace_yaml.py:569-584 | the team phase writes the team table only, as one run of upserts |
| `ImportSteps.ToolsArePutAll` | server/src/rivulets/workspace_yaml.py:586-633 | the tool phase writes tools and sources only |
| `ImportSteps.AgentsArePutAll` | server/src/rivulets/workspace_yaml.py:635-694 | the agent phase writes agents and their joins only |
| `ImportSteps.ChannelsArePutAll` | server/src/rivulets/workspace_yaml.py:696-726 | the channel phase writes channels only |
| `ImportSafety.RefusedExactlyWhen` | server/src/rivulets/workspace_yaml.py:389-567 | a file is refused exactly when one of the declared conditions fails, and then nothing is written |
| `ImportEffects.TakenExactlyWhen` | server/src/rivulets/workspace_yaml.py:389-567 | the same condition written out over the items, the rows and what each item resolves to |
| `ImportSafety.NothingIsResurrected` | server/src/rivulets/workspace_yaml.py:371-386 | however the import ends, no row of any kind appears under an id with sync history |
| `ImportSafety.NothingDangles` | server/src/rivulets/workspace_yaml.py:438-460 | however it ends, every team, tool and agent reference still leads to a row |
| `ImportSafety.IndexesHold` | server/src/rivulets/workspace_yaml.py:569-726 | however it ends, the unique indexes hold |
| `ImportConvergence.PublishedFollows` | server/src/rivulets/workspace_yaml.py:292-310 | the history an import adds is that of rows it left live |
| `ImportConvergence.AcceptedAgainExactlyWhen` | server/src/rivulets/workspace_yaml.py:389-567 | after any completed import the file is accepted again exactly when every custom tool its agents name is still in the file or here |
| `ImportConvergence.SameRowsExactlyWhen` | server/src/rivulets/workspace_yaml.py:352-386 | the condition for a whole document: teams, tools and agents all go to the same rows again exactly when it holds of each of the three kinds, and channels exactly when it holds of them |
| `ImportExamples.RepeatedIdDoesNotConverge` | server/src/rivulets/workspace_yaml.py:352-386 | two teams under one id: both imports complete, and the second turns one team into a second row of the other name |
| `ImportExamples.SharedRowIsSplit` | server/src/rivulets/workspace_yaml.py:352-386 | one team found by the name of a row that another renames: both imports complete, and the second adds a team |
| `ImportExamples.ArchivedChannelIsAddedAgain` | server/src/rivulets/workspace_yaml.py:366-386 | an archived channel without id: both imports complete, and the second adds it again |
| `ImportExamples.RenamedToolIsRefused` | server/src/rivulets/workspace_yaml.py:508-534 | a file that renames a tool its agent means by the old name: the first import completes, the second is refused |
| `ImportConvergence.SecondImportKeepsDefinitions` | server/src/rivulets/workspace_yaml.py:569-694 | if teams, tools and agents go to the same rows, and a tool reference that several tools match is looked up alike both times, the second import creates none of them and changes no definition field, source, tool, team or scope set or rule |
| `ImportConvergence.SecondImportIsIdentity` | server/src/rivulets/workspace_yaml.py:569-741 | if channels go to the same rows too and the file is accepted, it completes and changes nothing at all |
| `ImportConvergence.ClearRefsAgree` | server/src/rivulets/workspace_yaml.py:667-674 | references that at most one tool matches are looked up alike both times |
| `ImportResults.AgentsSettle` | server/src/rivulets/agentos/agent_lifecycle.py:39-188 | after the agent phase every agent written has exactly the joins and rules of the last item that goes to it |
| `ImportEffects.ImportedAgentTeams` | server/src/rivulets/workspace_yaml.py:676-680 | after a completed import an agent is in exactly the teams its last item means: for each reference the row of the last team of the file it names, by file id or row id, nothing if that is skipped, and the reference itself if it names none |
| `ImportEffects.ImportedChannel` | server/src/rivulets/workspace_yaml.py:696-726 | a channel has the fields of its last item and the team that its reference means in this sense |
| `ImportEffects.ImportedAgent` | server/src/rivulets/workspace_yaml.py:635-664 | an agent has the fields of its last item, an empty fallback or schema stored as none |
| `ImportEffects.ImportedAgentTools` | server/src/rivulets/workspace_yaml.py:667-675 | it has for each tool reference the one tool of that type and name the lookup returns, and no other |
| `ImportEffects.ImportedAgentScopes` | server/src/rivulets/workspace_yaml.py:683 | it has exactly the scopes of that item |
| `ImportEffects.ImportedRules` | server/src/rivulets/workspace_yaml.py:688-693 | its rules are those of the last item that carries rules |
| `ImportEffects.RulesKept` | server/src/rivulets/workspace_yaml.py:688-693 | items without rules leave them |
| `ImportEffects.ImportedTeam` | server/src/rivulets/workspace_yaml.py:569-584 | a team has the fields of its last item |
| `ImportEffects.ImportedTool` | server/src/rivulets/workspace_yaml.py:586-608 | so has a tool, and it is a custom tool |
| `ImportEffects.ImportedSource` | server/src/rivulets/workspace_yaml.py:609-630 | its source file is that of its last item with source |
| `ImportEffects.SourceKept` | server/src/rivulets/workspace_yaml.py:609-630 | items without source leave it |
| `ImportEffects.ImportedSettings` | server/src/rivulets/workspace_yaml.py:728-741 | a known shared setting has the value of the file, every other stays |
| `ImportEffects.OtherRowsStay` | server/src/rivulets/workspace_yaml.py:569-726 | a row that no item goes to is as before |
| `ImportEffects.OtherAgentsStay` | server/src/rivulets/agentos/agent_lifecycle.py:39-188 | so are the joins and rules of such an agent |
| `ImportEffects.PublishedExactlyWhen` | server/src/rivulets/workspace_yaml.py:292-310 | history is gained by exactly the rows the file goes to whose publication works |
| `WorkspaceExport.BuildExport` | server/src/rivulets/workspace_yaml.py:171-268 | the document has each team, custom tool, agent and channel once, with its fields, source, references and rules |
| `WorkspaceExport.ExportAgent` | server/src/rivulets/workspace_yaml.py:186-231 | the item of one agent: fields, tools by type and name, teams, scopes, rules |
| `WorkspaceExport.ExportToolRefs` | server/src/rivulets/workspace_yaml.py:188-195 | the references are those of exactly the assigned tools that exist |
| `ExportRoundTrip.OwnExportAcceptedExactlyWhen` | server/src/rivulets/workspace_yaml.py:389-567 | a workspace's own export is accepted exactly when its rows meet the file schema, team names are unique, and tools, scopes, types and settings pass the checks |
| `ExportRoundTrip.OwnExportIsIdentity` | server/src/rivulets/workspace_yaml.py:171-268 | importing it changes nothing but stored settings |
| `ExportRoundTrip.OwnSettingsStay` | server/src/rivulets/api/settings.py:83-144 | the settings in force are the same afterwards |
| `ExportRoundTrip.OwnExportRoundTrip` | server/src/rivulets/workspace_yaml.py:171-268 | the round trip: the same teams, tools, sources, agents with joins and rules, channels and settings in force |
| `ExportRoundTrip.OwnRefsExactlyWhen` | server/src/rivulets/workspace_yaml.py:667-674 | an agent's tools survive the file exactly when the lookup by type and name returns each of them |
| `ExportToEmpty.ExportRebuilds` | server/src/rivulets/workspace_yaml.py:389-752 | imported into an empty workspace, the export rebuilds teams, custom tools with source, agents with teams, scopes, rules and custom tools, and channels, under the same ids |
| `ExportToEmpty.ExportConverges` | server/src/rivulets/workspace_yaml.py:352-386 | importing an export a second time, after an empty workspace has imported it once, completes and changes nothing, if a tool reference that several tools match is looked up alike both times |
| `ExportToEmpty.BlankAcceptsExactlyWhen` | server/src/rivulets/workspace_yaml.py:389-567 | an empty workspace accepts the export exactly when its origin would |

## Left out

- Sync between peers: clocks, versions, apply, publish. Publishing is a no-op in the model, apart from the sync history
  that live rows may gain.
- The dispatch engine and the workflow execution engine.
- Which status a refused invite or login request gets, rate limits, and what an accept or a resume checks besides the invite
  and the session: the workspace, the person, the unlocked node.
- HTTP, sessions and tokens as such, hashing, keychains, OAuth, MCP, model calls and the construction of agents.
- YAML and JSON text: the document and its values are data, and a document that does not parse is one outcome.
- The order of items in an export, which the source sorts by name or position: an export is any order of the rows.
- Warnings and counts in the summary of an import, version rows of tools and agents, and the rebuild of the registry.
- Positions of agents within a team, which neither the export nor the import carries, and ids of routing rules.
- Foreign keys other than those in `ImportSafety.NoDangling`, and what a failure other than a unique index does to an import.
- WAL contents: a database file is identified with what the database holds, so a new database beside an old WAL is not
  modelled. Across files a restore is not atomic; `RestoreSafety.DatabaseBeforeCredentials` is all that is claimed.
- Failures of the temporary directory and of the archive file format, except an archive that cannot be read at all.
- Pruning of backups, the daily and pre-upgrade triggers, and the names they choose.
- Workflow requests and trace steps that overlap: each is one atomic step.
- Costs, tokens, labels and parent links of spans; the clock is read once per step.
- Callbacks, metrics and the choice of the model in an agent run.
- Links, emphasis and mentions in the renderer: any rewriting of the text between code spans that leaves the placeholders
  alone is covered by `MarkdownInline.RestoreIsExact`, but the rewriting itself is not modelled.
- The HTML of a block: a piece is its kind and its lines.
- Layout, colours and labels on the canvas.
