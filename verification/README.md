# Termlinks: a verified model

Termlinks shares a computer's terminals with a browser: a daemon keeps PTY sessions and AI workflows,
a connector carries them over an end-to-end encrypted channel through a relay, and a web client shows
them. This project models the parts of it where state, concurrency or an untrusted network make the
behaviour hard to see, and proves what those parts promise. `dafny verify dfyconfig.toml` checks all of it.

The parts, and how each is modelled:

- **AI workflow coordinator** (`WorkflowRows`, `WorkflowStore`, `Ownership`, `Coordinator`,
  `CoordinatorInvariant`, `CoordinatorSteps`, `CoordinatorRuns`, `CoordinatorStatuses`, `CoordinatorLog`,
  `CoordinatorStranding`, `CoordinatorWitness`, `RunQueue`, `CoordinatorDrain`, `CoordinatorManager`). Every store transaction and every stretch of a lock section that touches
  only memory is one atomic step; any number of `Create` calls, run loops, messages, cancels, failing
  writes and restarts interleave. A token stands for the identity of a run loop's entry. `RunQueue`
  is the loop left alone, and `CoordinatorDrain` shows that the interleaved one refines it.
- **Workflow compiler** (`Text`, `Mentions`, `WorkflowCompiler`, `PlanPrinting`). The mention scanner
  as the case-insensitive regular expression works, the loop over matches, and a printer for plans.
- **Terminal stream** (`Bytes`, `PtySession`, `TerminalServer`, `Reconciler`). Bounded scrollback and
  lossy subscriber channels with the history of everything published, the handler's frames under any
  scheduling, and the browser's three-phase reconciler with its buffer filled by offset.
- **Packet codec** (`Base64Url`, `PacketCodec`). Base64url (section 5 of RFC 4648) as both languages
  compute it, the packet layout, the additional authenticated data, and the size bound.
- **Encrypted channel** (`SecureChannel`, `ChannelRefusals`, `ChannelWrap`, `ChannelEnds`). Both ends and an adversary
  that delivers arbitrary strings anywhere. AES-GCM is an ideal box with the interface of section 2 of
  RFC 5116: opening succeeds only on what was sealed and sent. The connector's counters are uint32 and
  wrap; the browser's are JavaScript numbers and do not.
- **File upload** (`UploadPaths`, `Uploads`, `UploadHandlers`, `UploadRuns`, `UploadClient`, `UploadRace`). The
  directory is a map from names to bytes. The browser's loop runs against the connector's handlers while
  other uploads, faults, lost requests and replies and closing channels interfere; a start is also
  taken apart into its lock sections.
- **Viewer controller** (`Viewer`, `ViewerSessions`). Lock sections interleaved with launches and closes outside the
  lock; a launch overwrites the platform's one recorded window per session.
- **Terminal history** (`HistoryRows`, `HistoryReplay`, `HistoryStore`, `HistoryPolls`, `HistoryEdits`). Transactions as sequences of
  statements over a row map, with the database's choices (which linked row, which of equal keys) left open.
- **Logins** (`LoginLimiter`, `LoginRuns`). The pruned maps beside a history of everything that happened.
- **Relay** (`Relay`, `RelayEffects`, `RelayObject`). The socket set with late close and error events.
- **Quoting** (`ShellTokens`, `ShellQuoting`). A tokenizer after sections 2.2 and 2.3 of the POSIX
  Shell Command Language, and the two quoting styles read back by it.

`Wrappers` and `Collections` hold an option type and facts about finite sets and sequences. Classes carry
the source's fields and methods; each method is tied to the function or step whose properties are proved
beside it. A row below that begins with `Link:` is no more than such a tie: it adds the frame and the kept
invariant, and the results are the rows about the function or step.

What the model shows about the code, where it differs from its comments and documents:

- `docs/architecture.md:52` calls history reconciliation idempotent. Polling indeed never rewrites the
  timestamps of a row that survives (`HistoryReplay.ReplayKeepsTimestamps`). But a session that was linked
  only by being reopened gets a second row when its end is recorded again
  (`HistoryReplay.IdempotentUnlessReopened`), and one whose row was pruned may come back; exactly when a
  whole second pass changes nothing is `HistoryPolls.SecondPollIsIdleIff`.
- `docs/architecture.md:134` says packets cannot be replayed or reordered. Towards the browser that
  holds exactly up to 2^32 connector messages on one channel, where the uint32 number wraps
  (`SecureChannel.BrowserAcceptsPrefix`, `ChannelWrap.WrapBreaksPrefix`).
- `README.md:237` of the repository says repeated show requests create no duplicate windows. They do
  not as long as a launching show finds no recorded window and no other launch; otherwise a window can
  be lost (`Viewer.WindowsAreWanted`, `Viewer.UnclearShowCanOrphan`), as in the run
  `Viewer.HiddenLaunchOrphans`.
- The comment at `apps/backend/internal/coordinator/manager.go:284` is right about completion
  (`CoordinatorRuns.CompletionStrandsNothing`), but a turn added while a failing loop still holds its
  entry is stranded unless a cancel takes it (`CoordinatorStranding.SendStrands`, with the run
  `CoordinatorWitness.StrandedTurn`); work is stranded exactly by a loop's cleanup or a restart
  (`CoordinatorStranding.StrandsIff`) and waits for the next message. A message's turn can also be taken by
  a concurrent cancel before its lock is released (`CoordinatorRuns.SendLeavesTurnAndOwner`, with the run
  `CoordinatorWitness.CancelledTurn`).
- The relay ignores the close of a replaced connector only while some connector is open
  (`Relay.LateEventOfReplaced`, `Relay.LateCloseCanDisconnect`).
- A relay connection that ends after an upload's start has been read, and before its second lock section,
  leaves the temporary file behind (`UploadRace.ClosingCleansUpIff`, `UploadRace.LateRegistrationLeavesFile`).
- A file inserted after white space that JavaScript counts but a shell does not is glued to the word
  before it (`ShellQuoting.InsertedStartsAWord`, `ShellQuoting.NoBreakSpaceGlues`).
- An upload whose last reply is lost is reported as failed although its file is saved, and cancelling it
  changes nothing (`UploadClient.UploadFile`, `UploadClient.FinishedCannotBeCancelled`).

## Model

| member | source | states |
|---|---|---|
| CoordinatorRuns.OwnershipAlwaysBijective | apps/backend/internal/coordinator/manager.go:104-134 | In every state of every interleaving of Create (with its rollback), messages, cancels, restarts and any number of run loops, `running` has at most two entries and `workspaces` is a bijection onto its ids |
| CoordinatorRuns.OnlyTheOwnerReleases | apps/backend/internal/coordinator/manager.go:255-265 | An entry of `running` goes away or changes hands only by a step of the loop that owns it or a restart; a loop with only its deferred cleanup left cannot remove a successor's entry |
| CoordinatorRuns.StagesStartOnceInOrder | apps/backend/internal/coordinator/manager.go:369-377 | Over a workflow's whole life the start events only grow and name strictly increasing positions, so no stage starts twice; positions are always 0 to n-1 |
| CoordinatorRuns.RunGrows | apps/backend/internal/coordinator/store.go:331-381 | No step ever removes a stage or an event, changes a stage's agent or position, or puts a stage back into the queue |
| CoordinatorRuns.RunningStagesAreFew | apps/backend/internal/coordinator/manager.go:369-427 | While no write that ends a stage has failed since the last restart, each workflow has at most one running stage and the store at most two |
| CoordinatorRuns.CompletedMeansDone | apps/backend/internal/coordinator/manager.go:283-305 | A completed workflow has no queued stage, no owner and, unless the end of a stage was lost, no running stage |
| CoordinatorRuns.CompletionStrandsNothing | apps/backend/internal/coordinator/manager.go:286-306 | When the final empty-queue check gives the entry up, nothing is queued, also with transactions of other threads inside the lock section |
| CoordinatorRuns.TurnStaysQueued | apps/backend/internal/coordinator/store.go:331-381 | A queued turn leaves the queue exactly when a cancel takes the queue or the run loop starts or aborts that very stage |
| CoordinatorRuns.SendLeavesTurnAndOwner | apps/backend/internal/coordinator/manager.go:430-487 | When a message to a participant succeeds, the workflow has a run-loop owner at lock release, the agent has no more queued turns than max(1, before), and its turn is queued iff no thread outside the lock took that turn inside the section |
| CoordinatorStatuses.StepStatus | apps/backend/internal/coordinator/store.go:331-381 | Over any step of any thread a stage's status changes exactly by a start, abort or end recorded by the loop on that very stage, by a cancel that finds it queued, or by a restart that finds it running, and then to that very status |
| CoordinatorStatuses.StatusIsLastWritten | apps/backend/internal/coordinator/store.go:331-381 | In every state of every run the status of every stage is the last one so written, or queued if none was |
| CoordinatorStatuses.FinalIff | apps/backend/internal/coordinator/store.go:350-375 | A stage is completed, failed or interrupted iff some step of the run wrote exactly that; such a status is never overwritten |
| CoordinatorStatuses.CompletedIff | apps/backend/internal/coordinator/manager.go:394-427 | A stage is completed iff the loop that had started it recorded its success |
| CoordinatorStatuses.InterruptedIff | apps/backend/internal/coordinator/store.go:122-131 | A stage is interrupted iff it was running at some restart of the run |
| CoordinatorStatuses.StepWorkflowStatus | apps/backend/internal/coordinator/store.go:319-329 | Which step writes which status of a workflow, and that no other step touches it |
| CoordinatorStatuses.StepMessages | apps/backend/internal/coordinator/store.go:402-469 | A post, and a message to an agent that succeeds, each add exactly their message to the room; no other step does |
| CoordinatorStatuses.CancelledIff | apps/backend/internal/coordinator/manager.go:203-226 | In every state of every run a loop's context is cancelled iff that loop owned the workflow when a cancel for it came, or owned any when the shutdown came, with no restart since |
| CoordinatorLog.LogAgrees | apps/backend/internal/coordinator/store.go:331-381 | In every state of every run the event log says how each status came about: a queued stage never started; a running or interrupted one started and has no end; a completed or failed one has that end and no other; a cancelled one never started or has a cancelled end |
| CoordinatorStranding.StrandsIff | apps/backend/internal/coordinator/manager.go:255-322 | For every step of every run: a workflow with work queued loses its run loop exactly when that loop's own deferred cleanup runs or the daemon restarts |
| CoordinatorStranding.DoomedStrands | apps/backend/internal/coordinator/manager.go:316-322 | A turn queued behind a loop that has already left its last turn is never picked by it: the entry goes by cleanup or restart, and the turn is then queued without a loop iff no cancel took it meanwhile |
| CoordinatorStranding.SendStrands | apps/backend/internal/coordinator/manager.go:430-487 | The sender's view: a message that succeeds behind such a loop leaves its turn stranded when the entry goes iff nothing took the turn inside the lock section and no cancel took it afterwards |
| CoordinatorStranding.StrandedUntilMessage | apps/backend/internal/coordinator/manager.go:468-487 | A stranded workflow stays without a loop, restarts included, until a message to one of its agents returns; until then only a cancel takes its turns |
| CoordinatorStranding.OnlyMessagesRevive | apps/backend/internal/coordinator/manager.go:468-487 | The only step that gives a stored workflow without a loop a new one is the return of a message to it |
| CoordinatorWitness.StrandedTurn | apps/backend/internal/coordinator/manager.go:317-322 | A concrete run from the start: a message arrives after the last stage failed and before the loop wrote `failed`; its turn ends queued with no loop left |
| CoordinatorWitness.CancelledTurn | apps/backend/internal/coordinator/manager.go:203-226 | A concrete run from the start: `Cancel` empties the queue between a message's read and its write; the message is stored and returns, and nothing is queued |
| CoordinatorDrain.LoopDrains | apps/backend/internal/coordinator/manager.go:266-324 | In every run, from any state in which a workflow's loop is at its head and as long as the workflow is left to it (no cancel, message to an agent or restart, no failing read or write), whatever all other workflows do: the loop takes at most four steps a stage and five more, and when it is done the row is what draining the queue makes of it, messages aside |
| CoordinatorDrain.StepFollows | apps/backend/internal/coordinator/manager.go:266-324 | Each such step, of any thread, keeps the outcome the loop is heading for, and each of the loop's own brings it nearer |
| CoordinatorDrain.LoopCanGoOn | apps/backend/internal/coordinator/manager.go:266-324 | A loop that has not returned can always take such a step, unless it waits for a mutex that another thread holds |
| CoordinatorSteps.StepKeeps | apps/backend/internal/coordinator/manager.go:255-325 | The whole invariant (ownership, program counters against rows, queue order, completion) is kept by every atomic step, failing writes and restarts included |
| WorkflowRows.FirstQueuedMayStart | apps/backend/internal/coordinator/manager.go:275-282 | In a consistent row, the head of the queue by position is exactly a queued stage with nothing queued before it and no start at or after it |
| WorkflowRows.StartStageKeeps | apps/backend/internal/coordinator/store.go:331-348 | Starting the head of the queue keeps start order and positions; the start event is appended |
| WorkflowRows.CancelQueuedStagesKeeps | apps/backend/internal/coordinator/store.go:377-381 | Every queued stage becomes cancelled, every other one and the rest of the row stay as they were; the row stays consistent |
| WorkflowRows.AddMessageWithStageKeeps | apps/backend/internal/coordinator/store.go:437-455 | A follow-up takes the next position, is queued for its agent, and moves a completed workflow out of `completed` |
| WorkflowRows.MarkInterruptedKeeps | apps/backend/internal/coordinator/store.go:122-131 | A restart makes exactly the running stages, and a running or queued workflow, interrupted; everything else of the row stays; the row stays consistent |
| WorkflowStore.Store.CreateWorkflow | apps/backend/internal/coordinator/store.go:177-205 | The row with all stages, its first event and message commits whole, or nothing does |
| WorkflowStore.Store.StartStage | apps/backend/internal/coordinator/store.go:331-348 | Workflow status, stage status and event change together or not at all |
| WorkflowStore.Store.FinishStage | apps/backend/internal/coordinator/store.go:350-375 | Stage status and event change together or not at all |
| WorkflowStore.Store.AddMessageWithStage | apps/backend/internal/coordinator/store.go:410-469 | Message, follow-up stage, event and revived status commit together or not at all; it succeeds iff every statement does and the message replied to is one of this room |
| WorkflowStore.Store.MarkInterrupted | apps/backend/internal/coordinator/store.go:122-131 | For every row: each running stage becomes interrupted and no other stage changes; the status becomes interrupted iff it was running or queued; events and messages stay |
| CoordinatorManager.Manager.Create | apps/backend/internal/coordinator/manager.go:104-135 | Succeeds iff the workspace is free, fewer than two workflows run and the store accepts, and which refusal comes when; every refusal leaves maps and store unchanged |
| CoordinatorManager.Manager.Release | apps/backend/internal/coordinator/manager.go:256-265 | Removes exactly the caller's own entry and its workspace; a stale owner changes nothing |
| CoordinatorManager.Manager.SendAgentMessage | apps/backend/internal/coordinator/manager.go:430-487 | When each refusal happens, a reply into another room included, and that success leaves a queued turn and an owner with message and new turn in one change |
| CoordinatorManager.Manager.Run | apps/backend/internal/coordinator/manager.go:255-325 | Undisturbed, the loop ends (the number of queued stages falls) with the row drained and its entry released |
| RunQueue.DrainOutcome | apps/backend/internal/coordinator/manager.go:266-324 | An undisturbed loop ends `completed` iff every queued stage succeeds; it has run each up to the first failure and left the others as they were |
| RunQueue.DrainKeeps | apps/backend/internal/coordinator/manager.go:266-324 | In it a stage starts iff it was queued and no queued stage before it failed; starts are in order |
| Mentions.MatchesAreAllMentions | apps/backend/internal/coordinator/compiler.go:12-31 | The scanner's matches are in order, do not overlap, and are all positions where an at sign meets a letter |
| WorkflowCompiler.Compile | apps/backend/internal/coordinator/compiler.go:14-81 | The loops over agents and matches compute the compiled stages or the error; what these are is stated by the rows that follow |
| WorkflowCompiler.StagesAre | apps/backend/internal/coordinator/compiler.go:35-61 | Compilation succeeds iff no mentioned agent is refused, and then stage k is built from mention k |
| WorkflowCompiler.StagesFollowMentions | apps/backend/internal/coordinator/compiler.go:35-61 | One stage per mention, numbered from zero, its agent known and ready, its prompt the text up to the next mention without all the space around it and then all the separators in front, or the default text |
| WorkflowCompiler.UndirectedIs | apps/backend/internal/coordinator/compiler.go:63-79 | A request without a mention compiles iff some known agent is ready: to one stage, at 0, whose prompt is the trimmed request and whose agent is the first ready one in the order of preference |
| WorkflowCompiler.RefusedIff | apps/backend/internal/coordinator/compiler.go:14-81 | Exactly when compilation is refused, and how: only space, more than 48 KiB, more than eight mentions, nobody mentioned and nobody ready, or else the reason of the first mention that is refused |
| WorkflowCompiler.RefusalIs | apps/backend/internal/coordinator/compiler.go:35-61 | An agent is refused iff it is unknown, or the last installed entry under its name cannot be run, or no entry under it is ready, and with which error |
| WorkflowCompiler.NameIgnoresCase | apps/backend/internal/coordinator/compiler.go:12-46 | A mention names a known agent iff it spells its id, in whatever case |
| PlanPrinting.PrintedPlanCompiles | apps/backend/internal/coordinator/compiler.go:31-61 | Compiling the printed form of any plan of at most eight ready agents with plain prompts gives back its agents and prompts in order, numbered from zero |
| PtySession.Session.Publish | apps/backend/internal/session/session.go:356-370 | The scrollback stays the last min(n, 2 MiB) bytes of everything published; every subscriber with room gets the chunk, a full one drops it |
| PtySession.Session.FanOut | apps/backend/internal/session/session.go:361-369 | Whatever order the map yields, each channel gets the chunk or, when full, is left alone |
| PtySession.Session.Subscribe | apps/backend/internal/session/session.go:283-299 | The snapshot is the scrollback at that moment and the new channel starts empty right after it |
| PtySession.Session.Receive | apps/backend/internal/session/session.go:283-299 | The reader takes the oldest accepted chunk it has not taken |
| PtySession.FanOutKeeps | apps/backend/internal/session/session.go:361-369 | One publish keeps every subscriber's queue equal to its accepted but untaken chunks, an in-order subsequence of those published after it joined |
| PtySession.LosslessIsContiguous | apps/backend/internal/session/session.go:356-370 | A subscriber that has been given as many chunks as were published since it joined has been given exactly those |
| PtySession.OfferLosesIff | apps/backend/internal/session/session.go:361-369 | A publish loses a chunk for a subscriber exactly when its 256 slots are taken at that moment |
| PtySession.LosslessIffNeverFull | apps/backend/internal/session/session.go:356-370 | Over every run of publishes and reads: no chunk has been lost iff the channel was never full at a publish |
| PtySession.SnapshotThenLiveIsSuffix | apps/backend/internal/session/session.go:283-299 | Without a drop, snapshot plus live chunks is an end of the child's whole output: no byte is missing or in both parts |
| PtySession.ReadsDrain | apps/backend/internal/server/server.go:816-819 | Each read takes the oldest chunk left; as many reads as chunks are queued empty the channel, and change nothing else |
| TerminalServer.WriteSnapshot | apps/backend/internal/server/server.go:793-805 | Start frame with the exact size, the bytes unless there are none, end frame |
| TerminalServer.SelectLoop | apps/backend/internal/server/server.go:814-831 | The subscriber ends up as exactly the turns up to the exit make it, updates taken included, and the wire holds one binary frame for every chunk taken, in order; the loop ends early iff it met a failing read or saw that the child had exited, and adds a status iff the latter |
| TerminalServer.Terminal | apps/backend/internal/server/server.go:791-832 | For any output before, during and after the attach: the wire is exactly the framed scrollback at Subscribe, then one frame for each chunk taken until the exit, then a status iff the exit was seen; a session that had exited by then gets its snapshot and the final status only |
| TerminalServer.BrowserShowsSuffix | apps/web/src/terminal-reconnect.ts:34-75 | End to end, for any split of the snapshot and any cut of the connection: the reconciler never throws, emits one snapshot equal to the scrollback at Subscribe, then a prefix of the accepted chunks; without drops the screen is an end of the child's output |
| TerminalServer.NeverFullShowsSuffix | apps/web/src/terminal-reconnect.ts:34-75 | From attach on, over every run of publishes and reads in which the channel is never full at a publish, at every point of the stream after the snapshot the screen is an end of what the child had written by then: all of it, or at least 2 MiB |
| TerminalServer.EverythingArrives | apps/backend/internal/server/server.go:814-819 | And after any such run, 256 more reads bring the screen up to an end of everything the child has written, at least 2 MiB of it |
| Reconciler.FramedStreamReassembles | apps/web/src/terminal-reconnect.ts:34-75 | A framed stream, split anyhow and cut anywhere, emits nothing before its end frame, then exactly one snapshot of all pieces, then the live chunks unchanged |
| Reconciler.UnframedFallback | apps/web/src/terminal-reconnect.ts:59-65 | Without framing, the first frame stands for the snapshot and all later ones are live |
| Reconciler.OnlyWholeSnapshots | apps/web/src/terminal-reconnect.ts:34-75 | For any frames at all, as long as none is rejected: nothing is shown while a snapshot is under way; afterwards exactly one snapshot has been, whose pieces have exactly the declared size (or the first frame of an unframed stream), then every later frame in order |
| Reconciler.ErrorsAre | apps/web/src/terminal-reconnect.ts:34-75 | Which frame is rejected in which phase, with which error |
| Reconciler.TerminalStreamReconciler.ReceiveControl | apps/web/src/terminal-reconnect.ts:34-57 | The method's checks, errors, state change and emitted snapshot |
| Reconciler.TerminalStreamReconciler.Assemble | apps/web/src/terminal-reconnect.ts:48-53 | Copying each chunk at its offset fills the buffer with their concatenation, never past its end |
| Reconciler.TerminalStreamReconciler.ReceiveBinary | apps/web/src/terminal-reconnect.ts:59-75 | The three phases for binary frames |
| Base64Url.RoundTrip | apps/web/src/e2e.ts:58-72 | For every byte string both languages encode alike and both decode it back; the length is (4n+2)/3 |
| Base64Url.EncodersAgree | apps/web/src/e2e.ts:58-64 | `btoa` with replaced symbols and stripped padding is Go's raw URL encoding |
| Base64Url.DecodersAgree | apps/web/src/e2e.ts:66-72 | On the URL alphabet the browser's padding arithmetic with `atob` and Go's decoder agree, failing only for lengths 1 mod 4 |
| Base64Url.UndigitsRoundTrip | apps/web/src/e2e.ts:66-72 | A digit string decodes iff its length is not 1 mod 4, and is what the encoder writes iff its left-over bits are zero |
| Base64Url.Reencode | apps/backend/internal/cloud/connector.go:1503-1507 | A decoded string is re-encoded to itself iff its left-over bits are zero |
| Base64Url.BytesToBase64URL | apps/web/src/e2e.ts:58-64 | The loop over 32 KiB slices yields the encoding of the whole array |
| Base64Url.Base64URLToBytes | apps/web/src/e2e.ts:66-72 | The loop fills an array with exactly the decoded bytes, or fails |
| PacketCodec.SequenceRoundTrip | apps/backend/internal/cloud/connector.go:1494-1495 | Four big-endian bytes read back as the sequence |
| PacketCodec.PacketRoundTrip | apps/web/src/e2e.ts:21-56 | A packet of sequence, 12-byte nonce and sealed bytes parses back at both ends under its own sequence and is refused under any other |
| PacketCodec.ParsedIsWhole | apps/backend/internal/cloud/connector.go:1503-1526 | A packet that parses is exactly the expected sequence, a nonce and at least a tag |
| PacketCodec.AADInjective | apps/web/src/e2e.ts:74-80 | No two of channel, direction and sequence share their additional data, whatever the channel id holds |
| PacketCodec.EncryptionAAD | apps/web/src/e2e.ts:74-80 | The filled buffer is the additional data |
| PacketCodec.AssemblePacket | apps/web/src/e2e.ts:18-36 | Outside the range 0 to 0xfffffffe the sequence is refused; inside it the filled buffer is the encoded packet |
| PacketCodec.FrameFits | apps/backend/internal/cloud/connector.go:1083-1089 | A binary frame, encoded inside its JSON message and again around the sealed message, stays within 5 MiB iff it has at most 2949022 bytes; 2 MiB always fits |
| SecureChannel.ConnectorAcceptsPrefix | apps/backend/internal/cloud/connector.go:521-544 | On never-reused ids, whatever the network drops, reorders, replays, forges or moves, the connector accepts a prefix of what that channel's browser sent, and its uint32 counter never wraps |
| SecureChannel.BrowserAcceptsPrefix | apps/web/src/main.ts:725-730 | As long as the connector has used at most 2^32 numbers on the channel, the browser accepts a prefix of what it sent and stops before the first oversize packet |
| ChannelWrap.WrapBreaksPrefix | apps/backend/internal/cloud/connector.go:1334-1337 | For every larger number of sends there is a run in which the browser accepts something that is not a prefix: the bound is exact |
| SecureChannel.OriginOf | apps/backend/internal/cloud/connector.go:1503-1526 | What opens under the additional data of a channel, direction and number was sealed by that end of that channel at that number |
| SecureChannel.StepKeeps | apps/backend/internal/cloud/connector.go:1324-1345 | The log of sealings, counters and accepted prefixes stay consistent under every step of ends and adversary |
| SecureChannel.BrowserAcceptsExpected | apps/web/src/main.ts:725-730 | A connector packet within the size limit that arrives when expected is accepted with its plaintext |
| SecureChannel.ConnectorAcceptsExpected | apps/backend/internal/cloud/connector.go:530-544 | A browser packet within both of the connector's size limits that arrives when expected is accepted with its plaintext and the channels stay open |
| ChannelRefusals.ConnectorAcceptsIff | apps/backend/internal/cloud/connector.go:521-544 | A packet that reaches an open channel is accepted iff it is the expected number with what some end sealed for this channel, direction and number, within the size limit; otherwise exactly this channel is closed |
| ChannelRefusals.BrowserAcceptsIff | apps/web/src/main.ts:725-730 | The browser accepts a packet iff it is the expected number with what was sealed for this channel, direction and number; otherwise the bridge has failed |
| ChannelRefusals.OpenIff | apps/backend/internal/cloud/connector.go:521-544 | In every state of every run a channel is open iff it was opened and since then neither closed, nor handed a packet it refuses, nor the connection ended by a packet of impossible size |
| ChannelRefusals.ClosedForGood | apps/backend/internal/cloud/connector.go:521-544 | A closed channel accepts and sends nothing for the rest of every run |
| ChannelRefusals.SilentForGood | apps/web/src/main.ts:693-701 | After a packet that does not open, or a send that threw, the browser sends nothing on the channel for the rest of every run |
| ChannelEnds.EncryptedBridge.SendEncrypted | apps/web/src/main.ts:693-701 | Takes the next number; a refused number or a closed socket breaks the chain for good |
| ChannelEnds.EncryptedBridge.Receive | apps/web/src/main.ts:725-730 | The counter advances exactly on packets that decrypt under it |
| ChannelEnds.ConnectionState.OpenChannel | apps/backend/internal/cloud/connector.go:494-519 | The channel starts with fresh counters, replacing one still open under the id |
| ChannelEnds.ConnectionState.SendEncrypted | apps/backend/internal/cloud/connector.go:1324-1345 | Uses up a number even for a packet that turns out too large |
| ChannelEnds.ConnectionState.HandleEncrypted | apps/backend/internal/cloud/connector.go:521-544 | Accepts exactly what decrypts under the expected number and size limit, and otherwise closes the channel |
| ChannelEnds.ConnectionState.ReadEncrypted | apps/backend/internal/cloud/connector.go:476-481 | A packet of no characters or more than 5 MiB ends the connection and closes every channel; any other is handled |
| ChannelEnds.ConnectionState.CloseAllChannels | apps/backend/internal/cloud/connector.go:1438-1448 | Closing one channel after the other, in any order, leaves none |
| UploadPaths.CandidatesDistinct | apps/backend/internal/cloud/connector.go:1271-1275 | No two suffixes give the same candidate name |
| UploadPaths.FirstFreeIsLeast | apps/backend/internal/cloud/connector.go:1268-1290 | The suffix taken is the least below 10000 whose name is free; there is none iff all names are taken |
| UploadPaths.CandidateIsPlain | apps/backend/internal/cloud/connector.go:1268-1275 | Every name tried for a valid one is a plain component of a path, and is the stem, the suffix in parentheses and the unchanged extension |
| Uploads.StartKeeps | apps/backend/internal/cloud/connector.go:1155-1193 | A start adds one upload with an empty temporary file exactly if the name is valid, the size is between 0 and 100 MiB, the id is new, the channel has fewer than two uploads and the file can be made; otherwise it fails and changes nothing |
| Uploads.WriteKeeps | apps/backend/internal/cloud/connector.go:1195-1223 | A chunk is appended, counted and acknowledged exactly if the upload is active, the chunk decodes, is at most 192 KiB, comes at the right offset, fits the declared size and can be written; any other removes the upload and its file |
| Uploads.FinishKeeps | apps/backend/internal/cloud/connector.go:1225-1266 | A file appears whole under the least free name, overwriting nothing, exactly if all its bytes are there, nothing fails and one of 10000 names is free; otherwise upload and temporary file are gone |
| Uploads.HandleKeeps | apps/backend/internal/cloud/connector.go:1155-1322 | For any message on any channel under any fault: at most two uploads per channel, received equals file size and is at most the declared size, the directory is user files plus one temporary file per upload, no user file is lost, other uploads are untouched |
| Uploads.CloseKeeps | apps/backend/internal/cloud/connector.go:1376-1390 | Afterwards the channel has no upload, every kept file is as it was, and every upload of another channel is untouched, contents included |
| UploadHandlers.UploadServer.WriteFileUpload | apps/backend/internal/cloud/connector.go:1195-1223 | Each active temporary file stays the concatenation of its accepted chunks |
| UploadHandlers.UploadServer.StartFileUpload | apps/backend/internal/cloud/connector.go:1155-1193 | The method's checks and effect, keeping the invariant |
| UploadHandlers.UploadServer.ReserveUploadPath | apps/backend/internal/cloud/connector.go:1268-1290 | The loop links under the first free name, or leaves the directory as it was |
| UploadHandlers.UploadServer.FinishFileUpload | apps/backend/internal/cloud/connector.go:1225-1266 | The method's checks and effect, keeping the invariant |
| UploadHandlers.UploadServer.CloseUploads | apps/backend/internal/cloud/connector.go:1376-1390 | Cleaning up one upload after the other, in any order, closes the channel's uploads |
| UploadRuns.RunKeeps | apps/backend/internal/cloud/connector.go:1155-1395 | Over any run of messages, faults and closing channels the directory keeps exactly what it kept before and the files completed meanwhile, under names that were free; the invariant holds |
| UploadRuns.OwnIsSaved | apps/backend/internal/cloud/connector.go:1225-1266 | What one upload completed is, contents included, part of what the directory gained |
| UploadRuns.SavedNamesArePlain | apps/backend/internal/cloud/connector.go:1134-1147 | Over any run every completed file is in the upload directory itself, whatever names were asked for |
| UploadRace.SectionsMakeOneStart | apps/backend/internal/cloud/connector.go:1155-1193 | With nothing between them, the two lock sections of a start are the one start of the handlers |
| UploadRace.AlwaysInv | apps/backend/internal/cloud/connector.go:1155-1193 | In every interleaving with closing channels: at most two uploads a channel, each with its own temporary file of the right size, every other file is a saved one or the one a start under way has just made, and that start passes its second check |
| UploadRace.ClosingCleansUpIff | apps/backend/internal/cloud/connector.go:1438-1448 | In every such run, with all channels closed and nothing being handled, the directory is exactly the files that were there and those completed since, iff no upload was registered with a channel that had closed since its message was read |
| UploadRace.LateRegistrationLeavesFile | apps/backend/internal/cloud/connector.go:1164-1191 | Two concrete runs in which the connection ends before the first section of a start, or between the two, and the temporary file stays |
| UploadClient.Exchange | apps/web/src/main.ts:703-723 | Link: the connector's state after the exchange is that after the other traffic and this request, and the reply is its answer to this very request or a failure |
| UploadClient.OthersSpare | apps/web/src/main.ts:703-723 | Other traffic, closing channels included, leaves our upload as it was or drops it, and completes nothing of ours |
| UploadClient.UploadFile | apps/web/src/main.ts:541-567 | Under any interleaving with other uploads, faults, lost requests and replies and closing channels, the directory afterwards is what it kept before, the files completed meanwhile under free names, and the temporary files of active uploads. Of our own: exactly the chosen bytes under the path it resolves with; nothing if it rejects, or the whole file if only the reply to its last request was lost; a rejected upload that could be cancelled is not active; undisturbed it resolves |
| UploadClient.FinishedCannotBeCancelled | apps/web/src/main.ts:558-566 | Once a finish was carried out the cancel that follows a lost reply changes nothing |
| Viewer.WindowsAreWanted | apps/backend/internal/server/viewer.go:63-107 | In any interleaving where every launching show begins with no window recorded and no other launch under way: no window is lost, and with nothing pending a window is open only if still desired or attached |
| Viewer.OneShow | apps/backend/internal/server/viewer.go:63-107 | Starting with nothing pending, one show with any number of hides, registrations, unregistrations, expiries and reads keeps that |
| Viewer.UnclearShowCanOrphan | apps/backend/internal/server/viewer.go:63-107 | From any state in which a launching show begins otherwise there is a run that loses a window: the condition is exact |
| Viewer.OrphansStay | apps/backend/internal/server/viewer.go:63-107 | A lost window stays lost over every continuation of every run |
| Viewer.HiddenLaunchOrphans | apps/backend/internal/server/viewer.go:63-107 | A concrete run of an idle session: show, hide during the launch, show again; both launches open a window and the first can no longer be closed |
| Viewer.HideWins | apps/backend/internal/server/viewer.go:109-146 | After a hide with no later launching show, once nothing is pending no window is open, even if a launch was under way |
| Viewer.LaunchOnce | apps/backend/internal/server/viewer.go:74-84 | With no hide, last viewer leaving, expiry or failed launch between, shows launch exactly once if nothing was wanted before, and never otherwise |
| ViewerSessions.AdmitsIff | apps/backend/internal/server/viewer.go:148-167 | A viewer is admitted iff the session is desired and its launch has not timed out; it is then attached and every next status is visible; otherwise nobody is added |
| ViewerSessions.AttachedIff | apps/backend/internal/server/viewer.go:148-188 | In every run from an idle session a viewer is attached iff it was admitted and has neither left nor been hidden since |
| ViewerSessions.DesiredIff | apps/backend/internal/server/viewer.go:63-146 | A session is desired iff a show launched and no hide, failed launch, last leaving or expiry came since |
| ViewerSessions.StatusIff | apps/backend/internal/server/viewer.go:40-61 | In every state of every run status says visible iff some admitted viewer is still there, opening iff none is, the session is still desired and its launch has not timed out; show launches exactly where status says hidden |
| ViewerSessions.ShowClosesIff | apps/backend/internal/server/viewer.go:97-107 | After its launch a show closes the window again iff the session is no longer desired |
| Viewer.ViewerController.ShowBegin | apps/backend/internal/server/viewer.go:63-84 | Launches iff no viewer is attached and the session is not desired or its launch has timed out, and which status it tells otherwise; no other session's entry changes |
| Viewer.ViewerController.LaunchFailed | apps/backend/internal/server/viewer.go:87-94 | Link: the section after a failed launch; no other session's entry changes |
| Viewer.ViewerController.StillDesired | apps/backend/internal/server/viewer.go:97-100 | Link: the section after a launch, which creates a missing entry; no other session's entry changes |
| Viewer.ViewerController.HideBegin | apps/backend/internal/server/viewer.go:109-131 | Link: the lock section of `hide`, yielding the viewers to close; no other session's entry changes |
| Viewer.ViewerController.Register | apps/backend/internal/server/viewer.go:148-167 | True iff the platform is supported and the session is desired and not timed out, and then the connection is among its viewers; no other session's entry changes |
| Viewer.ViewerController.Unregister | apps/backend/internal/server/viewer.go:169-188 | The connection is no longer among the viewers, the others are; a close is asked for iff it was the last one; no other session's entry changes |
| Viewer.ViewerController.Status | apps/backend/internal/server/viewer.go:40-61 | Visible iff a viewer is attached, opening iff none is and the session is desired and not timed out, hidden otherwise; no other session's entry changes |
| HistoryReplay.CloseTimeChanges | apps/backend/internal/terminalhistory/store.go:166-196 | Over every history statement, a row's close time changes only when its session's end is recorded and it was never closed or that session was its active one |
| HistoryReplay.EndIsRecorded | apps/backend/internal/terminalhistory/store.go:190-195 | Conversely, such a row gets the time of the end and loses the active link |
| HistoryReplay.EventKeepsOneLink | apps/backend/internal/terminalhistory/store.go:166-196 | A session stays linked to at most one row under every statement, unless a row is opened under a session id another row has |
| HistoryReplay.ReplayKeepsTimestamps | apps/backend/internal/terminalhistory/store.go:122-164 | After a pass over ended sessions, replaying any of them in any order and number, with pruning and clearing between, changes no timestamp of a surviving row |
| HistoryReplay.IdempotentUnlessReopened | apps/backend/internal/terminalhistory/store.go:166-196 | Recording an end twice changes nothing iff the session was not linked to its row only by being reopened there; otherwise it adds a row |
| HistoryReplay.ReopenedSessionIsRecordedTwice | apps/backend/internal/terminalhistory/store.go:166-196 | A concrete table on which the second recording adds a row |
| HistoryPolls.SecondPollIsIdleIff | apps/backend/internal/terminalhistory/store.go:122-146 | After a completed Reconcile, another over ends it has seen changes nothing at all, however the database chooses among equal keys, iff no session it records again has lost its row, or there are ten recent rows and all are younger than any such session |
| HistoryPolls.EndsAdd | apps/backend/internal/terminalhistory/store.go:166-196 | Recording settled ends again changes no row and adds exactly one for each session that no row is linked to |
| HistoryStore.SecondPollKeepsTimestamps | apps/backend/internal/terminalhistory/store.go:122-146 | Two polls of the object: the second over sessions already recorded changes no timestamp of a surviving row |
| HistoryStore.ReconciledIsPass | apps/backend/internal/terminalhistory/store.go:122-146 | What the method performs is a pass in the sense of the replay theorem, over exactly the ended sessions |
| HistoryRows.EventKeepsUnique | apps/backend/internal/terminalhistory/store.go:80-100 | Source sessions and active sessions stay distinct under every statement |
| HistoryRows.EventKeepsFavorites | apps/backend/internal/terminalhistory/store.go:378-387 | No statement takes the number of favorites above 100 |
| HistoryRows.PruneKeepsTop | apps/backend/internal/terminalhistory/store.go:389-395 | Pruning keeps all favorites and ten others, none of them with a smaller activity key than one that goes |
| HistoryRows.RecentExists | apps/backend/internal/terminalhistory/store.go:389-395 | Such a selection always exists |
| HistoryRows.ListingFits | apps/web/src/terminal-history.ts:3-19 | A table with those bounds has at most 110 rows, the decoder's limit |
| HistoryEdits.ActivityIsLatest | apps/backend/internal/terminalhistory/store.go:389-395 | The key for pruning is the latest of a row's update, opening and closing times |
| HistoryEdits.UpdatedRow | apps/backend/internal/terminalhistory/store.go:298-335 | After an update the row, if the prune leaves it, has the name and favorite mark asked for and is otherwise as before; a favorite is always left; no other row changes |
| HistoryEdits.SavedRow | apps/backend/internal/terminalhistory/store.go:254-296 | After saving, the session's row carries the mark asked for, and a new one the session's name, directory and times; no other row changes |
| HistoryEdits.EndedRow | apps/backend/internal/terminalhistory/store.go:166-196 | After recording an end the session's row, if it is left, is closed at that time and no longer active, or was closed before and is unchanged; no other row changes |
| HistoryEdits.StoredName | apps/backend/internal/terminalhistory/store.go:463-476 | A stored name is never empty, has at most 80 characters and no NUL; a fine one is kept as it is, a blank one becomes the default, any other is what the space around it leaves, cut at 80 |
| HistoryStore.Store.ReconcileEnded | apps/backend/internal/terminalhistory/store.go:166-196 | Performs exactly the recording of this end, with any row the query may find; fails exactly for an unusable directory or a taken row id |
| HistoryStore.Store.ClearMissing | apps/backend/internal/terminalhistory/store.go:198-224 | Collecting and then updating one by one clears exactly the links to unknown sessions |
| HistoryStore.Store.PruneRecent | apps/backend/internal/terminalhistory/store.go:389-395 | Performs a prune to some ten most recent |
| HistoryStore.Store.Reconcile | apps/backend/internal/terminalhistory/store.go:122-146 | Records the ends in order, clears unknown links and prunes, all or nothing; the bounds hold afterwards; a failure has a named cause |
| HistoryStore.Store.RecordEnded | apps/backend/internal/terminalhistory/store.go:148-164 | Records one end and prunes, all or nothing |
| HistoryStore.Store.SaveSession | apps/backend/internal/terminalhistory/store.go:254-296 | Inserts or updates the session's row and prunes; refused at 100 favorites |
| HistoryStore.Store.Update | apps/backend/internal/terminalhistory/store.go:298-335 | Exactly when it is refused, and otherwise the update and a prune |
| HistoryStore.Store.Delete | apps/backend/internal/terminalhistory/store.go:337-347 | Afterwards the row is gone and every other one is as it was; the answer says whether there was one; the bounds are kept |
| HistoryStore.Store.MarkOpened | apps/backend/internal/terminalhistory/store.go:349-360 | Links the row to the session at that time iff it exists and the session is active in no other row; no other row changes; the bounds and both unique indexes are kept |
| HistoryStore.Store.RenameSession | apps/backend/internal/terminalhistory/store.go:362-366 | Every row linked to the session has the new name and time, every other one is as it was; the bounds are kept |
| LoginLimiter.PrunedMapsAnswer | apps/backend/internal/auth/auth.go:44-66 | Whatever the pruned maps hold, they answer as the full history would, for rate and sessions, both directions |
| LoginLimiter.RecentIsAfter | apps/backend/internal/auth/auth.go:59-66 | Filtering the list of attempts since the last success counts exactly the recorded attempts after the cutoff in the history |
| LoginLimiter.Manager.TryLogin | apps/backend/internal/auth/auth.go:37-85 | With a non-decreasing clock: logged in iff the token is right, random bytes are at hand and the client is not limited, that is, the full history holds fewer than five recorded attempts of it in the last minute since its last success; limited iff it is; which other answer comes when, and what each does to counts and sessions |
| LoginLimiter.Manager.IsValid | apps/backend/internal/auth/auth.go:87-101 | A session is valid iff it was issued, not logged out since, and is under 12 hours old |
| LoginLimiter.Manager.Logout | apps/backend/internal/auth/auth.go:103-108 | The session is not valid any more at any time, every other one as before; both maps stay in step with the history |
| LoginLimiter.Manager.ExpireSessions | apps/backend/internal/auth/auth.go:41-45 | The loop removes exactly the expired sessions |
| LoginLimiter.Manager.PruneAttempts | apps/backend/internal/auth/auth.go:47-59 | The loop keeps exactly the attempts after the cutoff and no empty list |
| LoginRuns.AnsweredIff | apps/backend/internal/auth/auth.go:37-85 | Over any sequence of logins and logouts: a call is limited iff its client made five wrong guesses in the last minute since it last gave the right token; otherwise the right token logs in and any other is told so |
| LoginRuns.SixthIsLimited | apps/backend/internal/auth/auth.go:59-71 | After five wrong guesses within a minute the next call of that client is limited whatever its token |
| LoginRuns.SessionIff | apps/backend/internal/auth/auth.go:76-101 | Over any such sequence a session is valid at a time iff a login was answered with it less than twelve hours before and it was not logged out since |
| Relay.OneConnector | apps/relay/src/index.ts:87-122 | In every run at most one connector is open, the one accepted last; every open browser was accepted under it; at most eight browsers |
| Relay.PacketsReachTheirChannel | apps/relay/src/index.ts:134-152 | In every run a packet is handed only to a browser whose channel id it carries, and browsers' packets only to connectors |
| Relay.BrowserPacketIsTagged | apps/relay/src/index.ts:124-132 | A valid browser packet reaches the open connector unchanged under the browser's own channel, or the browser is closed |
| Relay.ConnectorPacketIsForwarded | apps/relay/src/index.ts:139-152 | A valid packet for an open browser is handed to it unchanged |
| Relay.LateEventOfReplaced | apps/relay/src/index.ts:58-85 | The late close or error of a replaced connector leaves the browsers alone iff some connector is open then or no browser is; otherwise it disconnects all |
| Relay.LateCloseCanDisconnect | apps/relay/src/index.ts:58-65 | A concrete run in which it disconnects a browser of the current connector |
| RelayEffects.BrowserGoneIsTold | apps/relay/src/index.ts:66-85 | When a browser's socket closes or fails, the open connector is told that its channel is closed, and no other socket changes |
| RelayEffects.ChannelCloseCloses | apps/relay/src/index.ts:154-162 | A connector's `channel_close` closes the open browser of that channel and nothing else |
| RelayEffects.ConnectorTakesOver | apps/relay/src/index.ts:87-101 | A new connector closes every other socket and is greeted |
| RelayEffects.CurrentGoneDisconnects | apps/relay/src/index.ts:58-85 | When the connector accepted last closes or fails every browser is disconnected |
| RelayEffects.BrowserAccepted | apps/relay/src/index.ts:103-122 | A browser is accepted iff a connector is open and fewer than eight browsers exist; the connector hears of the channel before the browser hears that the bridge is ready, and a failing send closes the browser |
| RelayEffects.ForwardOutcomes | apps/relay/src/index.ts:139-152 | A malformed packet closes its sender, one for a missing browser changes nothing, and a failing send closes just that browser |
| RelayObject.TermlinksRelay.AcceptConnector | apps/relay/src/index.ts:87-101 | Link: the handler as its step, with the invariant kept |
| RelayObject.TermlinksRelay.AcceptBrowser | apps/relay/src/index.ts:103-122 | Link: the handler as its step, with the invariant kept; accepts iff a connector is open and fewer than eight browsers exist |
| RelayObject.TermlinksRelay.ForwardCiphertext | apps/relay/src/index.ts:124-132 | Link: the handler for browser messages as its step, with the invariant kept |
| RelayObject.TermlinksRelay.HandleConnectorMessage | apps/relay/src/index.ts:134-168 | Link: the handler for connector messages as its step, with the invariant kept |
| RelayObject.TermlinksRelay.SocketGone | apps/relay/src/index.ts:58-85 | Link: the handlers for close and error events as their step, with the invariant kept |
| RelayObject.TermlinksRelay.CloseAll | apps/relay/src/index.ts:194-196 | Link: the loop marks exactly the sockets of one kind as closing, in any order |
| ShellQuoting.QuotingRoundTrips | apps/web/src/terminal-attachments.ts:6-8 | For every path a shell tokenizer reads the quoted path back as exactly one word equal to it, in both styles |
| ShellQuoting.QuotedReadsAsPath | apps/web/src/terminal-attachments.ts:6-8 | Wherever an unquoted reader stands, the quoted path extends its word by exactly the path |
| ShellQuoting.DirectInputIsOneWord | apps/web/src/terminal-attachments.ts:10-12 | After any complete unquoted input the attachment adds exactly one word |
| ShellQuoting.InsertionKeepsText | apps/web/src/terminal-attachments.ts:14-29 | The text outside the clamped selection stays, the caret is just after the insertion, which is the quoted path with a space in front iff something other than white space comes before it, and one behind iff something other than white space comes after it |
| ShellQuoting.InsertedStartsAWord | apps/web/src/terminal-attachments.ts:22-24 | To a shell the inserted path starts a word of its own iff no word is being read there or a space was added |
| ShellQuoting.NoBreakSpaceGlues | apps/web/src/terminal-attachments.ts:22-24 | A concrete text: inserted after a no-break space, every path is read as the end of the word before it |
| ShellQuoting.AttachCommandWords | apps/backend/internal/visibleterminal/visibleterminal.go:137-143 | For any values the attach command is read as exactly `env` with the three values as whole words, then `exit 0` |

## Left out

- PTYs, processes, sockets, SQLite, timers, HTTP and the file system: replaced by the maps, parameters and nondeterministic steps described above.
- AES-GCM and SHA-256 internals: an ideal box, and an injective hash in `LoginLimiter`. JSON: only its length, in `PacketCodec.FrameFits`.
- CoordinatorManager.Manager.Run: states the undisturbed loop with successful writes; that the interleaved loop refines it is `CoordinatorDrain.LoopDrains`, and cancelled and failing exits are steps of `Coordinator`.
- WorkflowStore.Store.AddMessageWithStage: says that a failing statement rolls everything back; besides a reply into another room, which statements fail in SQLite is a parameter.
- WorkflowCompiler.Compile: stage ids (random), titles and the constant status `queued` are not in the result; agent ids are lower-cased only on characters a mention can hold.
- TerminalServer.Terminal: reads from the browser (input, resize) and the authorisation before Subscribe are not modelled; a write that fails is a cut of the stream, as `TerminalServer.BrowserShowsSuffix` takes it.
- SecureChannel.ConnectorAcceptsPrefix: assumes that channel ids are never reused, which the relay provides by fresh UUIDs; `openChannel` itself would restart the counters of a reused id.
- ChannelEnds.ConnectionState.HandleEncrypted: what is done with an accepted message is not modelled, nor the recheck of the counter between its two lock sections, which one reading goroutine cannot fail. Other ends of the connection than an oversize packet are `ConnectorCloses` steps.
- UploadHandlers.UploadServer.StartFileUpload: one handler at a time, as the connector's single reading goroutine runs them; channels closed in the middle of a start are in `UploadRace`.
- UploadHandlers.UploadServer.ReserveUploadPath: no other process changes the directory while a name is being looked for; a removal during clean-up is taken to succeed.
- UploadClient.UploadFile: the browser's progress callback is left out, and its 30-second timer is an unanswered request.
- Viewer.WindowsAreWanted: a launch either fails without a window or opens and records one, and a close removes the recorded window; launchers and closes that fail half way are not modelled.
- HistoryStore.Store.List: the order of the listing is not modelled; it is a set of rows.
- LoginLimiter.Manager.TryLogin: assumes the clock values of successive calls do not decrease, although the source reads the clock before it takes the lock.
- RelayObject.TermlinksRelay.SocketGone: close codes and reasons are not modelled.
- ShellQuoting.InsertionKeepsText: a character stands for one UTF-16 unit; characters outside the basic plane are two.
- ShellQuoting.QuotingRoundTrips: unquoted expansions are outside the tokenizer, which never meets them in quoted paths.
- Desktop and selected-window streams, HTTP forwarding, authentication of a channel, self-update, installer, CLI, configuration and the web user interface: plumbing around the parts above.
- `normalizeCloseCode`, id validators, the route allowlist, agent discovery, `workspaceKey` and input-mode toggles: each is settled by reading its own body.
