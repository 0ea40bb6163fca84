# Verified model of cleanroom's control plane

This project models the parts of cleanroom that decide what happens to sandboxes, executions, output, network access and
image files, and proves what they promise. It is written in Dafny 4.11; `dafny verify dfyconfig.toml` checks all of it.

What is modelled, and in which modules:

- **The control service** as a transition system. Each critical section under the service mutex is one atomic step;
  runner goroutines, backend calls in flight, cancel functions taken but not yet called, interactive connections and
  event followers are part of the state and interleave in any order (`ServiceModel`). The invariant
  (`ServiceInvariant`) is kept by every step (`ServiceSteps`, `ServiceRunSteps`, `ServiceClientSteps`) and gives the
  theorems about whole runs (`ServiceTheorems`, `ServiceProgress`, `ServicePruning`), among them what each call comes to
  in its caller's terms (`ServiceOutcomes`, `ServiceSessions`). `ControlService` holds the same service as a
  class over mutable maps, with the loops of the source (`ServiceStore`, `Pruning`): each of its calls is an enabled step of
  the transition system, and its history is a run, so every theorem about runs holds of the object.
- **Event feeds and their followers**: bounded history, subscriber channels that overflow, the streaming loops of the
  RPC server and of the interactive bridge (`EventLog`, `Followers`), and a run in which a stream misses the exit event
  (`MissedExit`).
- **The output path** from the guest's copy loops through the frame decoder, bounded retention and the merge of the
  buffered result to the execution's trace (`StreamCodec`, `Retention`, `ServiceOutput`).
- **The client's per-key lock** and the EnsureSandbox calls it serialises, with what they answer (`EnsureLock`,
  `EnsureOutcomes`, and the class in `EnsureClient`).
- **Policies**: compiling, asking, and the round trip through the message (`Policy`).
- **Host networking**: first-match chains shared by many sandboxes, set-up with rollback, and the meaning of a policy as
  packets that pass (`Firewall`, `HostNetwork`, `NetworkSetup`, `PolicyNetwork`).
- **Provisioning**: the adapter's tables and the gateway's identity registry (`Provisioning`, and the classes in `Adapter`),
  and joint runs of the adapter with the control service (`ServiceProvisioning`).
- **Tar extraction** over a file tree with symbolic and hard links (`FileTree`, `Extraction`, `ExtractionSuccess`,
  `TarEntries`, `TarExtractor`).
- `Seqs` and `Text` hold sequence and string facts shared by the others.

Assumptions made explicit:

- Generated ids are fresh and contain no slash; a request may contain any text.
- Times are natural numbers and 0 is Go's zero time. Go's `select` and map iteration are nondeterministic. Channel
  capacities, history, output and retention limits are parameters, including zero and negative ones.
- The adapter, the guest, the resolver, the hash and the clock are parameters or nondeterministic steps.
- A command on the host that fails changes nothing; a command whose context has expired fails.
- The extraction root is given by its real path (no component of it is a symbolic link), and no file below it shares its
  contents with a file outside when extraction starts.
- Filter chains start without rules for the TAP at hand and without rules that match the packet at hand.

What turned out not to hold, with the exact condition proved:

- A follower that returns nil has delivered everything through the exit event exactly when its channel did not overflow
  and, should no history be retained at all, it subscribed before the exit (`ServiceTheorems.FollowerDeliversThroughExit`;
  `MissedExit.NilReturnCanMissTheExit` is a run of nine steps in which the exit event is missed).
- Merging a buffered result emits exactly what streaming missed only under the condition of
  `Retention.EmitsMissingSuffixExactlyWhen`: a streamed text longer than the limit, or one that fills the limit and is also a
  suffix, loses or repeats text in the event stream (`Retention.MergeCanRepeatAndLose`; the retained text is right in every
  case). With a retention limit of zero or less the whole text comes twice (`ServiceOutput.GuestOutputReachesTheTrace`).
- The network cleanup function gets its five-second deadline when the set-up starts. It restores the host exactly when
  every command is issued within it; for a sandbox that lived longer it changes nothing, and its TAP cannot be made again
  (`NetworkSetup.TeardownRestoresIffInTime`). What such lives leave in the chains decides before the rules of later ones
  (`PolicyNetwork.RunningSandbox`, `PolicyNetwork.LateLifeLeavesAll`).
- Rules with the same host are not merged and the sort is not stable, so repeated hosts can cost a policy its canonical
  form. Against a policy with distinct hosts another one has the same compiled form exactly when its hosts are distinct
  too and image, docker and meaning agree (`Policy.CanonicalForm`, with an instance in
  `Policy.RepeatedHostsLoseCanonicalForm`). A compiled policy is sure to survive the round trip exactly when rules of one
  host do not differ (`Policy.RoundTrip`).
- A symbolic link whose path exists after it was removed is taken for a success in the source; without others changing the
  tree that never happens (`TarExtractor.Extractor.ExtractSymlink`).
- The status TIMED_OUT is never reached: the run context is made with a cancel function and no deadline
  (`ServiceTheorems.NoLostCancel`).
- The parameter `allowMissingLeaf` of `ensureNoSymlinkPath` makes no difference to its answer
  (`TarExtractor.EnsureNoSymlinkPath`).

## Model

| member | source | states |
|---|---|---|
| `ServiceTheorems.StepInv` | internal/controlservice/service.go:148-1830 | every critical section, callback, client and follower step keeps the whole-service invariant |
| `ServiceTheorems.RunInv` | internal/controlservice/service.go:148-1830 | the invariant holds in every state of every finite interleaving |
| `ServiceTheorems.OneUserPerSandbox` | internal/controlservice/service.go:278-316 | in every reachable state a sandbox has at most one live execution, it is the one named active, it never coexists with a download, and at most one backend run or download is in flight per sandbox |
| `ServiceTheorems.StalePointersNeverBlock` | internal/controlservice/service.go:474-537 | for a ready sandbox on a known backend, create and download are accepted if and only if there is no live execution and no download in flight |
| `ServiceTheorems.NoLostCancel` | internal/controlservice/service.go:719-797 | final means CANCELED if and only if a cancel or terminate was accepted, with the last signal's exit code (never 0); a running execution can be cancelled; every accepted cancel reached the run context or is about to; nothing times out |
| `ServiceTheorems.ExitEventTellsOfCancels` | internal/controlservice/service.go:1154-1207 | stored or pruned, a done trace ends with an exit event that is CANCELED if and only if a cancel or terminate was accepted, with the last signal's code |
| `ServiceTheorems.LiveExecutionsKeepTheirSandbox` | internal/controlservice/service.go:1054-1100 | a live execution's sandbox is stored, a non-ready one has only running executions asked to cancel, and the three early exits of a runner are unreachable |
| `ServiceTheorems.OneAttachmentPerExecution` | internal/controlservice/service.go:551-693 | pending sessions plus attachment is at most one per execution, each for a stored, live, interactive execution, and a release never detaches another connection |
| `ServiceTheorems.ConsumedAtMostOnce` | internal/controlservice/service.go:627-680 | in any run a session id is consumed successfully at most once |
| `ServiceTheorems.DeliveryHasNoGaps` | internal/controlservice/service.go:946-997 | snapshot plus received plus buffered events of every subscriber are always a contiguous, duplicate-free stretch of the full trace, reaching its end while registered; no channel is closed twice or sent to after closing |
| `ServiceTheorems.FollowerDeliversThroughExit` | internal/controlserver/server.go:163-206 | for every limit, a followed execution stream that returned nil sent everything through the exit event if and only if its channel did not overflow and its snapshot does not start after the exit, which a positive history limit rules out; pruned or not |
| `ServiceTheorems.SandboxFollowerIsComplete` | internal/controlserver/server.go:98-129 | the same for sandbox event streams, which end only for stopped or pruned sandboxes |
| `ServiceTheorems.BridgeForwardsThroughExit` | internal/interactivequic/server.go:119-254 | for every limit, a bridge that forwarded an exit forwarded everything before it; one that ended silently on its own had overflowed, or without retained history had joined after the end and forwarded nothing |
| `ServiceTheorems.TraceEndsWithTheOnlyExit` | internal/controlservice/service.go:1787-1817 | a trace has exactly one exit event, at its end, if and only if the execution is final or pruned; done is closed exactly then; the exit event agrees with the record; no handles are left |
| `ServiceTheorems.LifecycleOnlyMovesForward` | internal/controlservice/service.go:1041-1220 | over any stretch of a run status only moves QUEUED, RUNNING, final; final records are frozen; traces only grow until done |
| `ServiceTheorems.ExecutionKeyInjective` | internal/controlservice/service.go:1662-1664 | slash-free sandbox ids make the execution key injective |
| `ServiceTheorems.RequestsNameOneExecution` | internal/controlservice/service.go:1662-1664 | whatever text a request carries, it can name a stored execution only by that execution's own ids |
| `ServiceTheorems.RunStepProgress` | internal/controlservice/service.go:1041-1220 | every step of a run moves executions and traces forward, and consumed sessions stay consumed |
| `ServiceOutcomes.RunEndsAsReported` | internal/controlservice/service.go:1143-1207 | how a run ends, in every run: without an accepted cancel SUCCEEDED if and only if the backend returned exit code zero, else FAILED with the result's code, or 1 for an error; with one CANCELED with the last signal's code; the exit event carries the result's message or the error, and the record agrees |
| `ServiceOutcomes.RunGivesBackTheSandbox` | internal/controlservice/service.go:1149-1152 | a run that ends leaves its sandbox without an active execution, updated now |
| `ServiceOutcomes.CancelMeans` | internal/controlservice/service.go:719-805 | a cancel does nothing to unknown or finished executions, ends a queued one as CANCELED with the signal's code, and asks a running one to stop; no signal means an interrupt |
| `ServiceOutcomes.TerminationDismisses` | internal/controlservice/service.go:345-401 | the sandbox is stopping, its queued executions have ended with code 143, its running ones are asked to stop with signal 15, and every other execution is left alone |
| `ServiceOutcomes.TerminationStops` | internal/controlservice/service.go:403-425 | after a failed backend call nothing has changed; after a successful one the sandbox is STOPPED, if still stored, and its trace is done, ending with that event |
| `ServiceOutcomes.CreationStoresTheSandbox` | internal/controlservice/service.go:178-203 | a created sandbox is stored as READY on the backend asked for, and its trace starts with that event |
| `ServiceOutcomes.ExecutionIsTakenWhen` | internal/controlservice/service.go:474-549 | stored as QUEUED with a runner on its way if and only if the sandbox is there, ready, on a known backend, without a live execution and without a download; a refusal leaves executions and events alone |
| `ServiceOutcomes.RunnerStartsTheQueued` | internal/controlservice/service.go:1044-1112 | a runner starts an execution it finds queued, and does nothing to one that has ended or gone |
| `ServiceOutcomes.AttachIsNoted` | internal/controlservice/service.go:1442-1452 | the attach callback is noted for a live execution and ignored for any other |
| `ServiceOutcomes.ChunksBecomeEvents` | internal/controlservice/service.go:1327-1364 | each non-empty chunk for a live execution becomes one event on its stream; empty and late ones become none |
| `ServiceSessions.OnlyOpenMakesSessions` | internal/controlservice/service.go:551-612 | no step but an open call makes an interactive session |
| `ServiceSessions.PendingWasOpened` | internal/controlservice/service.go:551-612 | every pending session was issued by an open call of the run, with that call's execution, token and expiry |
| `ServiceSessions.OpeningNeedsAFreeExecution` | internal/controlservice/service.go:551-612 | a session is issued if and only if the transport is set up and the execution is stored, interactive, not finished, not attached and without a session that is still good |
| `ServiceSessions.ConsumingNeedsTheToken` | internal/controlservice/service.go:627-680 | a connection gets the execution if and only if it presents the token of a pending session no later than its expiry; then an earlier open call issued that token for that execution, and its time to live has not passed; a refused connection changes nothing but that expired sessions are forgotten |
| `ServiceModel.CancelExitCode` | internal/controlservice/service.go:1655-1660 | the exit code is between 129 and 255, and recovers the signal when it is a valid one |
| `ServiceSteps.CreateSandboxInv` | internal/controlservice/service.go:148-220 | committing a provisioned sandbox keeps the invariant |
| `ServiceSteps.TerminateBeginInv` | internal/controlservice/service.go:345-401 | the first section of terminate keeps the invariant for all executions of the sandbox |
| `ServiceSteps.TerminateEndInv` | internal/controlservice/service.go:407-425 | the second section, after success or failure of the backend, keeps the invariant |
| `ServiceSteps.DownloadBeginInv` | internal/controlservice/service.go:278-308 | starting a download keeps the invariant |
| `ServiceSteps.DownloadEndInv` | internal/controlservice/service.go:309-315 | ending a download keeps the invariant |
| `ServiceSteps.FinalizeInv` | internal/controlservice/service.go:1787-1817 | finalizing an execution whose outcome fits its cancel request restores the invariant |
| `ServiceSteps.PruneInv` | internal/controlservice/service.go:1519-1641 | pruning keeps the invariant, followers included |
| `ServiceRunSteps.CreateExecutionInv` | internal/controlservice/service.go:474-537 | an accepted, refused or pointer-clearing create keeps the invariant |
| `ServiceRunSteps.BeginRunInv` | internal/controlservice/service.go:1044-1139 | the first section of a runner keeps the invariant |
| `ServiceRunSteps.OutputChunkInv` | internal/controlservice/service.go:1327-1378 | output callbacks keep retained output equal to the last bytes of the trace's text |
| `ServiceRunSteps.SetAttachInv` | internal/controlservice/service.go:1442-1452 | registering attach I/O keeps the invariant, also when it comes late |
| `ServiceRunSteps.FinishRunInv` | internal/controlservice/service.go:1143-1207 | the second section of a runner keeps the invariant for every result |
| `ServiceRunSteps.CancelInv` | internal/controlservice/service.go:741-797 | a cancel keeps the invariant, queued or running |
| `ServiceClientSteps.OpenSessionInv` | internal/controlservice/service.go:572-607 | opening a session keeps the invariant |
| `ServiceClientSteps.ConsumeSessionInv` | internal/controlservice/service.go:639-680 | consuming a session keeps the invariant |
| `ServiceClientSteps.ReleaseSessionInv` | internal/controlservice/service.go:682-693 | a connection's deferred release keeps every other attachment |
| `ServiceClientSteps.MoveWatchInv` | internal/controlserver/server.go:163-238 | every choice of a follower's select keeps what is known of all followers |
| `ServiceProgress.StepProgress` | internal/controlservice/service.go:148-1830 | one step of any kind moves statuses forward, grows traces, and consumes a session only by a successful consume |
| `ServicePruning.PruneIdempotent` | internal/controlservice/service.go:1519-1641 | a second prune at the same time changes nothing at all |
| `ServicePruning.Survivors` | internal/controlservice/service.go:1527-1641 | exactly which executions and sandboxes survive: live ones, and those no older than the maximum age with fewer than the limit of such that ended later, names deciding between equal times; said without sorting, with the age comparison written out |
| `Pruning.OldestOverLimit` | internal/controlservice/service.go:1533-1580 | collecting, sorting and dropping removes exactly the complement of the newest `limit` under (time, key), and that many are kept |
| `Pruning.KeepNewestIdempotent` | internal/controlservice/service.go:1545-1579 | keeping the newest twice is keeping them once |
| `Pruning.KeepNewestUpwardClosed` | internal/controlservice/service.go:1545-1579 | whatever is newer than a kept record is kept |
| `Pruning.CandidateOrder` | internal/controlservice/service.go:1553-1566 | the comparison used for sorting is a consistent order, zero times included |
| `ControlService.Service.CreateSandbox` | internal/controlservice/service.go:200-209 | storing, announcing and pruning refine the atomic step of the theorems above |
| `ControlService.Service.BeginTerminate` | internal/controlservice/service.go:345-401 | the loop over all executions is the atomic termination step, and the result is exactly the cancel functions to call |
| `ControlService.Service.EndTerminate` | internal/controlservice/service.go:416-425 | refines the second section after success, and ends the call after failure |
| `ControlService.Service.CreateExecution` | internal/controlservice/service.go:474-537 | verdict and new state are the model's for any text as sandbox id |
| `ControlService.Service.EnterRun` | internal/controlservice/service.go:1044-1139 | refines the runner's first section, and goes ahead if and only if the execution is still live |
| `ControlService.Service.OnOutput` | internal/controlservice/service.go:1327-1378 | late chunks are dropped, others retained and announced, as the atomic step says |
| `ControlService.Service.OnAttach` | internal/controlservice/service.go:1442-1452 | attach I/O is kept for live executions only |
| `ControlService.Service.EndRun` | internal/controlservice/service.go:1143-1207 | hand-back, merge, failure message, outcome, finalization and pruning together are the model's step |
| `ControlService.Service.CancelExecution` | internal/controlservice/service.go:741-797 | accepted exactly for live executions; the cancel function is returned exactly for running ones |
| `ControlService.Service.OpenInteractive` | internal/controlservice/service.go:572-607 | a session is granted exactly when the model allows it |
| `ControlService.Service.ConsumeInteractive` | internal/controlservice/service.go:639-680 | the session's own execution is handed out exactly when the model allows it |
| `ControlService.Service.ReleaseInteractive` | internal/controlservice/service.go:682-693 | detaches exactly the releasing connection's execution |
| `ControlService.Service.BeginDownload` | internal/controlservice/service.go:278-308 | the verdict and new state are the model's |
| `ControlService.Service.EndDownload` | internal/controlservice/service.go:309-315 | the sandbox is given back even if it was pruned meanwhile |
| `ControlService.Service.SubscribeTo` | internal/controlservice/service.go:959-979 | succeeds exactly for a stored execution or sandbox, with its history and a new number |
| `ControlService.Service.UnsubscribeFrom` | internal/controlservice/service.go:981-994 | closes only a channel that is still registered |
| `ControlService.Service.TakeEventFrom` | internal/controlserver/server.go:171-192 | a follower's receive takes the oldest buffered event of its own channel |
| `ControlService.Service.FollowerMoves` | internal/controlserver/server.go:163-206 | a follower's moves other than a receive touch nothing of the service |
| `ControlService.Service.CallCancelFunction` | internal/controlservice/service.go:403-405 | calling a cancel function taken under the lock cancels the run context |
| `ControlService.Service.PruneExecutions` | internal/controlservice/service.go:1527-1580 | the loops leave exactly the executions of the set specification |
| `ControlService.Service.PruneSandboxes` | internal/controlservice/service.go:1582-1641 | the loops leave exactly the sandboxes of the set specification |
| `ControlService.Service.FinalizeExecution` | internal/controlservice/service.go:1787-1830 | record, exit event, done and interactive state change together as in the model |
| `ControlService.RunTidy` | internal/controlservice/service.go:1662-1664 | in every reachable state the critical sections can be entered |
| `ServiceStore.Broadcast` | internal/controlservice/service.go:1754-1777 | one loop over the subscribers offers the event to each and drops exactly those whose channel is full |
| `ServiceStore.CloseFeed` | internal/controlservice/service.go:1454-1485 | every registered channel is closed once and done is closed |
| `ServiceStore.ForgetSessions` | internal/controlservice/service.go:1819-1830 | exactly the sessions of one execution go |
| `ServiceStore.ForgetExpired` | internal/controlservice/service.go:1278-1287 | exactly the expired sessions go |
| `ServiceStore.FindPending` | internal/controlservice/service.go:1289-1299 | true if and only if a session of the execution is pending |
| `ServiceStore.FindLive` | internal/controlservice/service.go:1487-1494 | true if and only if the sandbox has a live execution |
| `EventLog.RecordOk` | internal/controlservice/service.go:1754-1777 | recording keeps every channel a contiguous stretch of the trace and the history its last events |
| `EventLog.SubscribeOk` | internal/controlservice/service.go:959-979 | a new subscriber starts where its history snapshot starts |
| `EventLog.DropOk` | internal/controlservice/service.go:1461-1485 | dropping an execution closes channels without losing buffered events |
| `Followers.DeliveryIsContiguous` | internal/controlserver/server.go:163-194 | what a follower sent is a gap-free, duplicate-free stretch of the trace |
| `Followers.FinishedIsCompleteIffNoOverflow` | internal/controlserver/server.go:183-206 | a nil return is complete if and only if the channel did not overflow |
| `MissedExit.NilReturnCanMissTheExit` | internal/controlserver/server.go:183-206 | a run of the service, with channels of capacity one, in which a stream has returned nil and the exit event at the end of the trace was never sent |
| `Followers.BridgeEndsAtExit` | internal/interactivequic/server.go:186-254 | the bridge's ways to end on its own: after forwarding everything through the exit, or silently after an overflow or after joining a finished feed at its end |
| `Retention.AppendIsTakeLast` | internal/controlservice/service.go:1865-1883 | the branching append is the last `limit` bytes of the concatenation, for every limit |
| `Retention.RetainedIsTakeLast` | internal/controlservice/service.go:1352-1378 | however output is chunked, the retained text is the last `limit` bytes of all of it |
| `Retention.MergeRefinesTakeLast` | internal/controlservice/service.go:1301-1406 | the six-way merge leaves the last `limit` bytes of the buffered text, or what was retained if nothing was buffered |
| `Retention.MergeOfStreamedTextIsNoop` | internal/controlservice/service.go:1301-1325 | merging exactly what was streamed emits nothing if and only if the limit is positive or nothing was produced |
| `Retention.EmitsMissingSuffixExactlyWhen` | internal/controlservice/service.go:1839-1863 | for every limit, exactly when the merge emits the part that streaming missed |
| `Retention.MergeCanRepeatAndLose` | internal/controlservice/service.go:1846-1863 | with a limit of one: a text that is emitted again, and one whose rest is never emitted |
| `StreamCodec.DecodeStreamResponse` | internal/vsockexec/protocol.go:98-163 | computes the meaning of the frame sequence: the response carries exactly the text reported by callbacks before the first frame that is not a chunk; every other end is an error |
| `StreamCodec.FirstOtherFrameDecides` | internal/vsockexec/protocol.go:107-163 | each way a stream can end, spelled out, with the chunks before it; what follows is never read |
| `StreamCodec.ChunksAloneAreNoAnswer` | internal/vsockexec/protocol.go:101-105 | chunks without another frame after them are an error, whatever was reported |
| `StreamCodec.ReadChunks` | internal/vsockexec/protocol.go:126-147 | stops at the first frame that is not a chunk; the two buffers are the text of the callbacks made so far, and empty chunks make none |
| `StreamCodec.InterleavingText` | cmd/cleanroom-guest-agent/main.go:146-171 | each stream's text is independent of how the two copy loops interleave |
| `StreamCodec.GuestOutputSurvivesInterleaving` | cmd/cleanroom-guest-agent/main.go:260-286 | for every interleaving and every exit frame the decoded response is exactly the guest's stdout and stderr with the exit frame's code and error, and all frames before it are reported |
| `ServiceOutput.StepText` | internal/controlservice/service.go:1236-1248 | while the backend runs an execution only its own callbacks add output to its trace |
| `ServiceOutput.TraceGainsReportedText` | internal/controlservice/service.go:1327-1364 | over any stretch of a run the trace gains exactly the reported text |
| `ServiceOutput.FinishAddsOnlyTheComplaint` | internal/controlservice/service.go:1190-1207 | a result that repeats what was streamed adds to the trace exactly the failure message, for a non-zero exit code and a message that retained stderr lacks; with no retention it repeats the text |
| `ServiceOutput.EndOfRunText` | internal/controlservice/service.go:1149-1199 | what the end of a run adds to the trace when the backend fails or does not stream: the error as a line on stderr, or all buffered output and the failure message |
| `ServiceOutput.GuestOutputReachesTheTrace` | internal/backend/firecracker/backend.go:330-357 | end to end, through the decoded response and the backend's result, for any interleaving of the guest and of the service and any exit frame: the output payloads of the finished trace are exactly the guest's stdout, and its stderr followed by the backend's message if one is due; for every retention limit |
| `EnsureLock.StepInv` | client/ergonomics.go:176-322 | every step of every goroutine keeps the lock protocol's invariant |
| `EnsureLock.LockProtocol` | client/ergonomics.go:285-322 | over all runs: at most one holder per key, `refs` counts the goroutines between their increment and decrement, the entry is that same object while used, tokens plus holders is one |
| `EnsureLock.NeverStuck` | client/ergonomics.go:300-321 | a release never blocks, and a waiter for a key nobody holds can take the token |
| `EnsureLock.IdleKeysLeaveNoEntry` | client/ergonomics.go:305-320 | a key has an entry if and only if some call on it is under way |
| `EnsureLock.OneCreatePerKey` | client/ergonomics.go:201-236 | at most one CreateSandbox call per key is in flight, and only while nothing is tracked for the key |
| `EnsureLock.HolderOwnsTracking` | client/ergonomics.go:185-243 | no other goroutine changes the sandbox tracked for a held key; a successful call leaves its answer tracked until it lets go |
| `EnsureOutcomes.TrackedReply` | client/ergonomics.go:201-216 | in every run the tracked sandbox is handed out if and only if it is found, ready and on the requested backend or none was requested; the call fails if and only if the server could not be asked; otherwise the sandbox is forgotten and one is created |
| `EnsureOutcomes.ExplicitReply` | client/ergonomics.go:192-199 | an explicitly requested sandbox is handed out and tracked if and only if it is found |
| `EnsureOutcomes.CreatedReply` | client/ergonomics.go:218-247 | a created sandbox with an id is handed out as created and tracked where nothing was; a failed create and an empty id are the two errors; creating needs a policy |
| `EnsureOutcomes.RequestsAreKept` | client/ergonomics.go:176-192 | every call works on the request it was made with, trimmed; a blank key never gets to the lock |
| `EnsureOutcomes.AnswersHaveOrigins` | client/ergonomics.go:176-247 | every answer of every call comes from the reply it should, the step of the run that gave it; each failure names what went wrong |
| `EnsureClient.Client.EnterKey` | client/ergonomics.go:285-298 | joins the key's lock, or makes it, as the protocol's step |
| `EnsureClient.Client.TakeGate` | client/ergonomics.go:300-310 | taking the token is the protocol's step |
| `EnsureClient.Client.AbandonWait` | client/ergonomics.go:300-308 | giving up a wait is the protocol's step |
| `EnsureClient.Client.PutToken` | client/ergonomics.go:312-314 | the send always finds the channel empty |
| `EnsureClient.Client.DropReference` | client/ergonomics.go:315-321 | the last reference takes the entry with it |
| `EnsureClient.Client.ChooseSandbox` | client/ergonomics.go:192-201 | the explicit id if there is one, else the tracked one, else none |
| `EnsureClient.Client.UseExplicit` | client/ergonomics.go:192-199 | handed out and tracked if and only if found |
| `EnsureClient.Client.UseTracked` | client/ergonomics.go:201-216 | handed out if and only if found, ready and on the requested backend; failed if and only if the server could not be asked; otherwise forgotten |
| `EnsureClient.Client.RequirePolicy` | client/ergonomics.go:219-226 | creating needs a policy |
| `EnsureClient.Client.UseCreated` | client/ergonomics.go:230-247 | handed out as created and recorded where nothing was tracked; the two errors record nothing |
| `Policy.ParseDigestReference` | internal/ociref/ref.go:26-54 | an accepted reference reads as a repository, an at-sign and a sha256 digest, and the result has that repository and that digest |
| `Policy.ReferenceMeaning` | internal/ociref/ref.go:26-54 | accepted if and only if it reads so; whichever way it is read, repository and digest are the ones written in it |
| `Policy.CompilePorts` | internal/policy/policy.go:149-163 | the first invalid port is reported; otherwise the ports come out ascending and once each |
| `Policy.CompileRules` | internal/policy/policy.go:140-168 | the first bad rule is reported; otherwise the result is a sorted permutation of the canonical rules |
| `Policy.Compile` | internal/policy/policy.go:115-190 | the first problem, or a compiled form with the image digest written in the reference |
| `Policy.AcceptedExactly` | internal/policy/policy.go:115-165 | Compile accepts a policy if and only if its version is 1, its image is pinned by digest, its network default is empty or deny, and each rule names a host and at least one port, all from 1 to 65535 |
| `Policy.CompiledDigest` | internal/policy/policy.go:127-179 | a compiled policy's image digest is the one written in the raw reference, in lower case |
| `Policy.Allows` | internal/policy/policy.go:192-205 | true if and only if some rule has the normalized host and the port |
| `Policy.CompilePreservesAllows` | internal/policy/policy.go:115-205 | the compiled policy allows exactly what the raw one lists, repeated hosts included |
| `Policy.CanonicalForm` | internal/policy/policy.go:140-189 | against a policy with distinct hosts, another compiles to the same policy and hash if and only if its hosts are distinct too and image, docker and meaning agree |
| `Policy.RepeatedHostsLoseCanonicalForm` | internal/policy/policy.go:166-168 | an instance of the condition failing: one rule cut in two keeps the meaning and never the compiled form |
| `Policy.ToProto` | internal/policy/policy.go:240-268 | the message has the same fields, integers cut to 32 bits |
| `Policy.FromProto` | internal/policy/policy.go:271-353 | refused with the first problem, or recompiled and its hash compared |
| `Policy.RoundTrip` | internal/policy/policy.go:240-353 | every answer of the round trip is the policy itself if and only if rules of one host do not differ; distinct hosts are enough |
| `Policy.RoundTripKeepsMeaning` | internal/policy/policy.go:240-353 | whatever comes back allows the same, and a refusal is for the hash only |
| `Policy.OtherOrderComesBack` | internal/policy/policy.go:326-328 | if rules of one host differ, the unstable sort has an order that gives another policy or a hash refusal |
| `Firewall.Projection` | internal/backend/firecracker/backend.go:1752-1812 | in any interleaving, a TAP's own rules are what its own commands alone produce |
| `Firewall.Independence` | internal/backend/firecracker/backend.go:1752-1812 | the verdict for a packet entering on a TAP and not leaving on one is decided by that TAP's own commands alone |
| `HostNetwork.TapName` | internal/backend/firecracker/backend.go:2034-2049 | names start with "cr", have at most 15 characters, and none that would make them a pattern |
| `HostNetwork.TapNameOf` | internal/backend/firecracker/backend.go:2034-2049 | an id of small letters and digits keeps its last thirteen characters |
| `HostNetwork.CleanupRestoresIff` | internal/backend/firecracker/backend.go:1715-1727 | after any prefix of a set-up, its reversed cleanup restores TAPs exactly and chains as multisets if and only if every command is carried out |
| `NetworkSetup.Machine.Run` | internal/backend/firecracker/backend.go:1932-1943 | an expired context makes a command fail without effect |
| `NetworkSetup.Machine.RunBatch` | internal/backend/firecracker/backend.go:1922-1930 | failures are ignored one by one |
| `NetworkSetup.Machine.InstallReturnPath` | internal/backend/firecracker/backend.go:1822-1833 | the state module is used if and only if conntrack failed; both failing is the only error; what the installed rule lets through is `PolicyNetwork.ReturnVerdict` |
| `NetworkSetup.Machine.SetupHostNetwork` | internal/backend/firecracker/backend.go:1712-1820 | all or nothing: success has run every command and leaves the host set up; a failure anywhere restores the host if and only if its cleanup commands are carried out |
| `NetworkSetup.SetupLeaves` | internal/backend/firecracker/backend.go:1729-1779 | a completed set-up leaves the TAP with the host address, up and without IPv6, and the host forwarding; a packet POSTROUTING did not decide before is masqueraded if and only if it comes from the guest |
| `NetworkSetup.Machine.SetupGatewayFirewall` | internal/backend/firecracker/gateway_firewall.go:29-52 | both global rules or neither, if the rollback command is carried out |
| `NetworkSetup.GatewayVerdict` | internal/backend/firecracker/gateway_firewall.go:29-52 | tcp to the gateway port is accepted from loopback, dropped from everything but TAPs, and anything else is left to later rules |
| `NetworkSetup.Machine.TearDown` | internal/backend/firecracker/backend.go:1717-1724 | a command of the cleanup function runs only before the deadline |
| `NetworkSetup.TeardownRestoresIffInTime` | internal/backend/firecracker/backend.go:1715-1724 | teardown restores the host if and only if each command is issued within five seconds of the start of the set-up; later it changes nothing and the TAP cannot be made again |
| `PolicyNetwork.ResolveForwardRules` | internal/backend/firecracker/backend.go:1842-1876 | no duplicates, and exactly the protocol, address and port triples some rule allows; the first host without addresses is the error |
| `PolicyNetwork.InputVerdict` | internal/backend/firecracker/backend.go:1752-1774 | INPUT accepts from the TAP exactly tcp to the gateway port from the guest address, if there is a gateway |
| `PolicyNetwork.ForwardVerdict` | internal/backend/firecracker/backend.go:1781-1812 | FORWARD accepts from the TAP to elsewhere exactly DNS and the resolved list |
| `PolicyNetwork.ReturnVerdict` | internal/backend/firecracker/backend.go:1822-1833 | towards the guest a set-up's rules accept exactly packets of established connections and decide nothing else, with either tracking module |
| `PolicyNetwork.RunningSandbox` | internal/backend/firecracker/backend.go:1752-1812 | for a set-up sandbox in any interleaving of set-ups, failed set-ups and complete or incomplete cleanups over distinct TAPs and the gateway rules: what earlier lives of its TAP left decides first, and every packet that matches none of it gets exactly the verdicts of its own rules |
| `PolicyNetwork.TowardsTheGuest` | internal/backend/firecracker/backend.go:1781-1833 | the same in any interleaving with other sandboxes, the gateway and any earlier lives of the TAP: new connections from outside are never accepted by FORWARD |
| `PolicyNetwork.RemovedSandbox` | internal/backend/firecracker/backend.go:1717-1727 | after any past lives the chains decide a packet from the TAP if and only if it matches a rule whose deletion was not carried out |
| `PolicyNetwork.TowardsAGoneGuest` | internal/backend/firecracker/backend.go:1717-1727 | towards a TAP whose sandboxes are gone nothing but established connections is ever accepted |
| `PolicyNetwork.LivesLeave` | internal/backend/firecracker/backend.go:1715-1727 | the TAP's own chain after any lives holds exactly the rules whose deletion was not carried out, as a multiset |
| `PolicyNetwork.LateLifeLeavesAll` | internal/backend/firecracker/backend.go:1715-1724 | a teardown none of whose commands ran leaves all the sandbox's INPUT and FORWARD rules |
| `PolicyNetwork.SetupIsDisciplined` | internal/backend/firecracker/backend.go:1729-1812 | every command of a set-up and its cleanup touches only the sandbox's own rules |
| `PolicyNetwork.PolicyMeaning` | internal/backend/firecracker/backend.go:1788-1812 | from the raw policy through compilation, resolution and installation, FORWARD accepts a packet that no leftover of earlier lives decides if and only if it is DNS to the resolver or the raw policy allows it; with every earlier cleanup carried out there is no leftover |
| `Provisioning.StepInv` | internal/backend/firecracker/backend.go:226-275 | every step of concurrent provision and terminate calls keeps both tables in order |
| `Provisioning.LaunchesAreNeverDuplicates` | internal/backend/firecracker/backend.go:264-274 | the two tables are disjoint in every reachable state and the duplicate check after a launch never fires |
| `Provisioning.FailureUndoesRegistration` | internal/backend/firecracker/backend.go:1347-1361 | a launch that fails after registering leaves the same state as one that fails before; one that boots differs only by its registration |
| `Provisioning.RegisteredAddressesHaveOneOwner` | internal/gateway/registry.go:35-54 | every registered address belongs to exactly one launched and not released sandbox, and no step removes another owner's entry |
| `ServiceProvisioning.ReadySandboxesExist` | internal/controlservice/service.go:178-203 | in every joint run of the control service and the adapter, a sandbox the service shows as READY on this backend is in the adapter's table and its address is registered to it |
| `ServiceProvisioning.ReadyOnlyByCreation` | internal/controlservice/service.go:148-1830 | no step of the service but the creation of a sandbox makes it READY, or changes its backend |
| `ServiceProvisioning.JointStepInv` | internal/controlservice/service.go:178-203 | every step of either side keeps both invariants and their agreement |
| `Adapter.Registry.RegisterScope` | internal/gateway/registry.go:35-48 | refused with nothing changed if and only if the address is taken |
| `Adapter.Registry.ReleaseScope` | internal/gateway/registry.go:50-54 | removes exactly one address |
| `Adapter.Registry.Lookup` | internal/gateway/registry.go:57-62 | finds exactly what is registered |
| `Adapter.Adapter.Reserve` | internal/backend/firecracker/backend.go:235-252 | the first critical section is the machine's step, with its two refusals |
| `Adapter.Adapter.RegisterGuest` | internal/backend/firecracker/backend.go:1347-1353 | without a gateway it always succeeds; with one a collision fails the launch and touches nothing |
| `Adapter.Adapter.LaunchFailed` | internal/backend/firecracker/backend.go:1341-1361 | a launch that fails before registering releases nothing; one that fails after gives back its own address |
| `Adapter.Adapter.Booted` | internal/backend/firecracker/backend.go:1461-1463 | a launch that boots changes no table |
| `Adapter.Adapter.Launch` | internal/backend/firecracker/backend.go:1341-1463 | with no other call in between it succeeds if and only if everything outside works and the address is free, and otherwise leaves the registry as it was |
| `Adapter.Adapter.CommitInstance` | internal/backend/firecracker/backend.go:266-274 | the duplicate branch is coded and never taken: the instance is stored and the reservation gone |
| `Adapter.Adapter.AbortProvision` | internal/backend/firecracker/backend.go:259-264 | a failed launch gives up its reservation |
| `Adapter.Adapter.RemoveInstance` | internal/backend/firecracker/backend.go:424-432 | the instance and its address come out together |
| `Adapter.Adapter.ReleaseGuest` | internal/backend/firecracker/backend.go:434-436 | with a gateway the released entry is the terminated sandbox's own; without one nothing is released |
| `Adapter.Adapter.ProvisionSandbox` | internal/backend/firecracker/backend.go:226-275 | a whole call with no other in between: succeeds if and only if the id is given, not stored and not reserved, there is a policy, the launch works and the address is free; then the sandbox is stored and registered, otherwise nothing has changed |
| `Adapter.Adapter.TerminateSandbox` | internal/backend/firecracker/backend.go:418-439 | a whole call with no other in between takes out the sandbox and the address registered to it, and nothing else; an unknown id is no error |
| `FileTree.WalkStraight` | internal/imagemgr/materialize.go:233-253 | a walk along a path without links, symbolic links followed everywhere else, stays on it |
| `Extraction.SafeJoinStaysInside` | internal/imagemgr/materialize.go:205-219 | an accepted name leads to the root or below; refused if and only if absolute or beginning with two dots once cleaned, so the second check refuses nothing |
| `Extraction.PlainNamesLead` | internal/imagemgr/materialize.go:205-219 | names joined with slashes lead to just those names below the root, unless the first begins with two dots, and then they are refused |
| `Extraction.IdlePartsDoNotMatter` | internal/imagemgr/materialize.go:205-219 | empty and "." parts of a relative name do not matter |
| `Extraction.UpCancels` | internal/imagemgr/materialize.go:205-219 | a name directly followed by ".." cancels; when nothing is left the root is meant |
| `Extraction.AbsoluteAndClimbingAreRefused` | internal/imagemgr/materialize.go:205-219 | absolute names and names that start by climbing are refused; "" and "." mean the root |
| `Extraction.JoinedSplit` | internal/imagemgr/materialize.go:205-219 | splitting a text at its slashes loses nothing |
| `Extraction.RelativeLinkLeads` | internal/imagemgr/materialize.go:267-269 | a plain link text leads beside the link |
| `Extraction.UpLinkLeads` | internal/imagemgr/materialize.go:267-269 | a link text with a leading ".." starts one directory up |
| `Extraction.AbsoluteTargetsStayInside` | internal/imagemgr/materialize.go:261-266 | absolute link targets are always read inside the root |
| `Extraction.AbsoluteLinkLeads` | internal/imagemgr/materialize.go:262-266 | an absolute link text leads to its names below the root |
| `Extraction.MkdirAllSafe` | internal/imagemgr/materialize.go:132-150 | making directories along a path without links changes nothing outside the root |
| `ExtractionSuccess.MkdirAllSucceeds` | internal/imagemgr/materialize.go:132-150 | making directories succeeds when nothing but directories is in the way |
| `TarExtractor.EnsureNoSymlinkPath` | internal/imagemgr/materialize.go:221-255 | accepted if and only if the path is inside and each prefix is missing or not a link |
| `TarExtractor.Extractor.ExtractDir` | internal/imagemgr/materialize.go:131-137 | contained; succeeds if and only if nothing but directories is in the way, and then the directory is there and only missing directories were added elsewhere |
| `TarExtractor.Extractor.ExtractFile` | internal/imagemgr/materialize.go:138-160 | contained; succeeds if and only if only directories are above the path and nothing but a file is there; then the file has the entry's contents, and no other file and no other path but missing directories changed |
| `TarExtractor.Extractor.ExtractSymlink` | internal/imagemgr/materialize.go:161-176 | contained; succeeds if and only if only directories are above the path, what is there can be unlinked and the text leads inside; then the link is there, and nothing else changed but missing directories |
| `TarExtractor.Extractor.ExtractHardlink` | internal/imagemgr/materialize.go:177-198 | contained; succeeds if and only if only directories are above the path, what is there is no link and can be unlinked, and the source is another path with a file; then both names share one file, and nothing else changed but missing directories |
| `TarEntries.ExtractedAtNames` | internal/imagemgr/materialize.go:124-127 | an entry whose name is names joined with slashes is in place at those names below the root |
| `TarEntries.StaysThrough` | internal/imagemgr/materialize.go:131-198 | an entry in place stays so through any later entry that is not for its path or its hard link's source and does not write over contents it shares |
| `TarEntries.EntryStays` | internal/imagemgr/materialize.go:115-203 | over a whole archive, every entry that no later one spoils is in place |
| `TarEntries.FreshArchiveIsComplete` | internal/imagemgr/materialize.go:28-35 | an archive unpacked into an empty root, with no two entries for one path other than directories, is in place as a whole |
| `TarExtractor.Extractor.ExtractTar` | internal/imagemgr/materialize.go:115-203 | for every entry sequence nothing outside the root changes, under link-following system calls, and every link below the root leads lexically inside; it stops exactly at the first entry the tree cannot take; on success every entry that no later one spoils is in place, one named a/b at a/b below the root, and all are if the root was empty and no paths clash |
| `Text.TrimSpaceOf` | internal/policy/policy.go:123 | trimming takes the space off both ends and nothing else |
| `Text.LowerLetters` | internal/policy/policy.go:142 | lower-casing changes the capital letters one by one and nothing else |
| `Text.ContainsMeans` | internal/controlservice/service.go:1193 | containing is having something before and after |

## Left out

- The command line, the daemon, the generated protocol code, the RPC wrappers and the configuration code: no logic that would add a hard property.
- VM launch, Firecracker and macOS virtualization processes, vsock dialing, QUIC and TLS: backend calls are steps that return a result or an error.
- JSON, base64, protobuf, YAML and SQL encodings: frames, messages and records are abstract; SHA-256 and SHA-1 are parameters.
- `WriteExecutionStdin` and `ResizeExecutionTTY`: wall-clock polling around a handle whose presence is modelled.
- Listing, snapshots, run ids, image fields, commands, plan paths, logging and the exact wording of messages with ids or numbers in them.
- Liveness: nothing says that a runner, a follower or a waiter is ever scheduled.
- The streaming loops of the RPC server and the interactive bridge are steps of a follower on values, one step per choice of `select`, and not methods over channels; send errors and cancelled contexts are one step, giving up.
- The whole of one EnsureSandbox call as a single method: between its critical sections other goroutines act, so it is split into the methods of `EnsureClient.Client`.
- EnsureOutcomes.TrackedReply: a sandbox's status in a reply is reduced to whether it is READY, and every error but not found to one.
- Unicode: trimming, lower-casing and paths are over ASCII, and output is a sequence of characters where the source has bytes.
- ServiceTheorems.BridgeForwardsThroughExit: a bridge whose connection or input failed returns without promising anything, as in the source.
- NetworkSetup.Machine.SetupHostNetwork: IP forwarding, which the set-up switches on and never off, is not part of what is restored; the restored chains may be in another order if an equal rule was there before.
- Firewall.Independence: is about packets that do not leave on a TAP; the return-path rules of other sandboxes accept established packets towards their own TAPs. NAT rules are keyed by guest address, not by TAP, and carry no verdict.
- TarExtractor.Extractor.ExtractTar: failures of the disk and of the stream inside an entry, file modes, device entries, and concurrent changes to the tree by others are not modelled.
- Adapter.Adapter.ProvisionSandbox: is one call undisturbed by others; calls that interleave are the steps it is made of, over which the results of `Provisioning` range. What the launch does outside the tables is two answers, whether it worked before and after the registration.
- ServiceProvisioning.ReadySandboxesExist: is about backends with persistent sandboxes; others have no table to be in.
