# Verification of the Acpus runtime, agent executor, ACP client and expressions

Acpus runs agents as child processes, keeps their sessions and its own store on disk, and
evaluates workflow expressions. This project models the parts of it that keep a guarantee
over crashes, interleavings or unbounded input, and proves those guarantees in Dafny 4.11.
Check everything with `dafny verify dfyconfig.toml`.

| file | what it models |
|---|---|
| RuntimeLock.dfy | the shared/exclusive workspace lock made of files; one step per file system call, any number of processes, crashes anywhere |
| RuntimeStoreLifecycle.dfy | the journaled rollover of the runtime store; one step per atomic write, a crash after any of them |
| SessionSupervisor.dfy | leases, neutralization, quarantine, ownership manifests and shutdown of agent sessions |
| ProcessCapsule.dfy | the Turn machine inside a process capsule |
| OwnershipRecovery.dfy | startup recovery of ownership manifests and the bounded stop of a process tree |
| PromptFencing.dfy | the fence between the stream reader, the update queue and a turn |
| TerminalLifecycle.dfy | creating, releasing and closing terminals, with interrupted and queued callers |
| TerminalOutput.dfy | the bounded terminal output buffer |
| Conversation.dfy | the bounded conversation of a session projection |
| TurnReducer.dfy | the online reducer of a turn's events |
| JsonWalk.dfy | the memoized, cycle-detecting JSON check on heap graphs |
| ExpressionSoundness.dfy | the expression validator against the evaluator |
| TemplateDedent.dfy | dedenting of `md` templates |
| ShellCommand.dfy | rendering an argument vector as a POSIX shell command |
| Options.dfy | the option type the other modules share |

The protocols are state machines: a state, one action per stretch of code without a yield
point, and a total function `Next`; an action that does not apply changes nothing. Their
results are about `Exec`, so about every finite run. Where the source updates variables in
place there is a class with those variables whose methods are proved to take the step that
the machine takes. What the outside world decides (file system answers, process liveness,
timers, what callers and workers do next) comes with the action, or as an arbitrary value.

Where the code does less than one might expect, the model follows the code and the result
says exactly when the guarantee holds:

- The lock's reclaiming of a dead owner's file is a look, a read, a probe and a removal, and a
  removal can hit a file created in between. `MutualExclusion` and `OwnershipIffClean` name the runs on
  which it does not; `ExclusionWhenReclaimIsAtomic` shows that an undisturbed reclaim suffices.
- A lock file can outlive a failed acquisition or release if writing it or removing it fails;
  `FailedLeavesNothing` names these steps and `EveryBranchLeaves` has a run for each.
- A generation source without a store directory has its metadata written once and is refused when
  the transition is replayed; `CrashConvergence` is an equivalence for that reason.
- A terminal's buffer can depend on chunk boundaries for limits below three bytes or output that
  is not UTF-8; `ChunkingIndependence` is an equivalence, and `TextIsNeverCut` what holds of UTF-8 text.
- A `closed` message from the worker during cleanup can bring a capsule back to `ready`;
  `NoTurnAfterCleanup` is an equivalence.
- A capsule's cleanup removes the ownership manifest without waiting for a manifest write that is under
  way; `ManifestsAccountedFor` is an equivalence, and `LateWriteRun` a run on which a manifest comes back.
- A failure within the cancellation or the settlement that a capsule's cleanup itself asks for waits for
  that same cleanup; `CleanupEnds` and `CleanupWaitsForItself` are equivalences.
- A rendered command whose bare first argument is an assignment or a reserved word is not run as a
  command by a shell; `RunsAsCommand` is an equivalence.

## Model

| member | source | states |
|---|---|---|
| `RuntimeLock.MutualExclusion` | packages/runtime/src/runtime-lock-adapter.ts:47-176 | after every interleaving of any number of acquisitions, crashes included, in which no step removes the exclusive file of a live client that relies on it, no client holds the exclusive lock while another live client holds either lock |
| `RuntimeLock.OwnershipIffClean` | packages/runtime/src/runtime-lock-adapter.ts:76-108 | those runs are exactly the ones in which every live client keeps the exclusive file from creating it until removing it |
| `RuntimeLock.ExclusionWhenReclaimIsAtomic` | packages/runtime/src/runtime-lock-adapter.ts:150-176 | if nothing comes between reading a dead owner's file, probing the owner and removing the file, exclusion and ownership hold after every run |
| `RuntimeLock.MissingFileRace` | packages/runtime/src/runtime-lock-adapter.ts:150-170 | without that, exclusion fails even with no crash: a file that vanished between being looked at and being read counts as not live, so its path, by then a new owner's file, is removed |
| `RuntimeLock.DeadOwnerRace` | packages/runtime/src/runtime-lock-adapter.ts:150-176 | and with one crash: two clients find the owner dead, the second removal deletes the next owner's file |
| `RuntimeLock.FailedLeavesNothing` | packages/runtime/src/runtime-lock-adapter.ts:47-108 | once an acquisition or a release of a live client has failed by some step, a file of its own is on disk only if that step failed to write the content of a file it had just created or to remove its own file; on runs whose removals are clean, in the sense of `CleanRun`, exactly then |
| `RuntimeLock.EveryBranchLeaves` | packages/runtime/src/runtime-lock-adapter.ts:47-108 | each of those branches does fail with the file left on some run: the write, the two removals and the release, shared and exclusive |
| `RuntimeLock.ReleasedLeavesNothing` | packages/runtime/src/runtime-lock-adapter.ts:63-65 | a lock whose release succeeded leaves no file of its client, on any run, clean or not |
| `RuntimeLock.FailureHasCause` | packages/runtime/src/runtime-lock-adapter.ts:47-108 | on every run a client gives up an acquisition or a release only because of an I/O error of its own, or because its deadline had passed while it was waiting |
| `RuntimeLock.DeadlineEnds` | packages/runtime/src/runtime-lock-adapter.ts:200-210 | a client that finds its deadline passed while it waits has failed for good, and none of its files is left |
| `RuntimeLock.AttemptsAreWaitedFor` | packages/runtime/src/runtime-lock-adapter.ts:55-107 | every attempt of a client but its first was preceded by a wait in time, or by finding that the exclusive file in its way was not that of a live owner |
| `RuntimeLock.HolderDirectory.CollectLiveHolders` | packages/runtime/src/runtime-lock-adapter.ts:132-148 | one scan reports exactly what is live, half-written, doubtful or not a regular file and removes exactly the files of dead owners; it fails exactly if a file cannot be looked at or a dead owner's file cannot be removed, and has then removed dead owners' files only |
| `RuntimeLock.ScanAlone` | packages/runtime/src/runtime-lock-adapter.ts:132-176 | the interleaved machine, where one client scans undisturbed and without errors, reaches the result of that scan, doubtful owners included |
| `RuntimeStoreLifecycle.CrashConvergence` | packages/runtime/src/runtime-store-lifecycle.ts:996-1133 | from any valid journal whose uninterrupted run succeeds, every sequence of crashes between atomic writes leads, by replaying, to the end of the uninterrupted run, if and only if every generation source has a store directory |
| `RuntimeStoreLifecycle.StorelessDiverges` | packages/runtime/src/runtime-store-lifecycle.ts:1067-1133 | a disk and a journal with one generation source without a store directory: the uninterrupted run succeeds, yet some crash keeps every later run from its end |
| `RuntimeStoreLifecycle.CrashStatesSafe` | packages/runtime/src/runtime-store-lifecycle.ts:996-1133 | in every crash state each source's store is in exactly one of its original and destination places and unchanged; the manifest names the next generation only when every source is archived under its own id, version and creation time as of the transition's start, with the run index its store asks for, and the next generation is described and has the current format; and the journal is absent only after that publication |
| `RuntimeStoreLifecycle.CompleteRecords` | packages/runtime/src/runtime-store-lifecycle.ts:1027-1133 | what an uninterrupted run leaves, field by field: every source with its id, version and creation time and archived as of the start, the next generation with version 19, created at the start and not archived, a manifest that keeps the creation time of a valid predecessor, and the run index of exactly the complete version 9 stores that have one |
| `RuntimeStoreLifecycle.OthersKept` | packages/runtime/src/runtime-store-lifecycle.ts:996-1133 | a generation that is neither a source nor the next one keeps its metadata, its index and its store |
| `RuntimeStoreLifecycle.ResumeSucceeds` | packages/runtime/src/runtime-store-lifecycle.ts:996-1133 | a transition succeeds if and only if each of its sources can be sealed and the place of the next generation is usable, judged by the disk it starts from alone |
| `RuntimeStoreLifecycle.AttemptConverges` | packages/runtime/src/runtime-store-lifecycle.ts:996-1053 | one run cut off after any number of writes leaves a disk from which a full run reaches the same end |
| `RuntimeStoreLifecycle.SealResumes` | packages/runtime/src/runtime-store-lifecycle.ts:1067-1133 | a crash anywhere in sealing one source is made good by sealing it again, with the same result |
| `RuntimeStoreLifecycle.SealAllResumes` | packages/runtime/src/runtime-store-lifecycle.ts:1002-1004 | the same for the loop over all sources |
| `RuntimeStoreLifecycle.FinishResumes` | packages/runtime/src/runtime-store-lifecycle.ts:1006-1051 | the same for the part from the new generation's directories to removing the journal |
| `RuntimeStoreLifecycle.StuckRefuses` | packages/runtime/src/runtime-store-lifecycle.ts:1090-1093 | a sealed generation without a store directory makes every replay fail |
| `RuntimeStoreLifecycle.CreateTransitionJournal` | packages/runtime/src/runtime-store-lifecycle.ts:937-994 | the journal has distinct generation ids and distinct originals, so that the recovery results apply to it; its sources carry the versions and times of the entries found, and a current store is always among them with its kind, id, version and time |
| `RuntimeStoreLifecycle.ListSources` | packages/runtime/src/runtime-store-lifecycle.ts:943-961 | partial generations and legacy archives are listed once each, in order, with their storage version and creation time, and with fresh ids for the archives |
| `RuntimeStoreLifecycle.Machine.SealTransitionSource` | packages/runtime/src/runtime-store-lifecycle.ts:1067-1133 | sealing performs a prefix of its plan of writes up to the crash, and fails exactly where the plan does |
| `RuntimeStoreLifecycle.Machine.SealAllSources` | packages/runtime/src/runtime-store-lifecycle.ts:1002-1004 | so does the loop over the sources |
| `RuntimeStoreLifecycle.Machine.DescribeNext` | packages/runtime/src/runtime-store-lifecycle.ts:1006-1026 | the directories and metadata of the next generation are written, or a changed identity is refused |
| `RuntimeStoreLifecycle.Machine.PublishTransition` | packages/runtime/src/runtime-store-lifecycle.ts:1027-1051 | the store is initialized and verified, the manifest switched, the published store verified and the journal removed, in that order |
| `RuntimeStoreLifecycle.Machine.ResumeTransition` | packages/runtime/src/runtime-store-lifecycle.ts:996-1053 | a whole run performs a prefix of the transition's plan up to the crash |
| `SessionSupervisor.ManifestsAccountedFor` | packages/agent-executor/src/process-capsule.ts:688-849 | after every prefix of a run, and however the manifest writes and the leases it has begun then end, each ownership manifest on disk belongs to a session leased by the very lease that wrote it or quarantined, and no session has two, if and only if no step of the run disturbs a write: no cleanup removes a manifest that is being written, no capsule in use begins a write after that, and no search or revalidation gives up a manifest that is being written |
| `SessionSupervisor.QuietNext` | packages/agent-executor/src/session-supervisor.ts:231-306 | from an invariant state in which every write is of a manifest somebody will still look for, exactly those steps lead to a state where one is not |
| `SessionSupervisor.LateWrite` | packages/agent-executor/src/process-capsule.ts:820-849 | whenever a write is under way of a manifest that nobody will look for, there is a way for it and its lease to end that leaves a manifest unaccounted for |
| `SessionSupervisor.LateWriteRun` | packages/agent-executor/src/process-capsule.ts:688-757 | such a run from an empty start: the lease ends with a clean cleanup, a manifest of the unleased, unquarantined session is on disk, and the next lease of the session gives it a second one |
| `SessionSupervisor.InUseOnDisk` | packages/agent-executor/src/process-capsule.ts:198-260 | on undisturbed runs a capsule in use that is not cleaned up yet has its manifest on disk |
| `SessionSupervisor.LeasesExclusive` | packages/agent-executor/src/session-supervisor.ts:108-229 | two leases in use are of different sessions, neither of them quarantined |
| `SessionSupervisor.NeutralizationExclusive` | packages/agent-executor/src/session-supervisor.ts:430-512 | an active neutralization keeps its sessions marked, overlaps no other active one, and once committed none of its sessions is leased until its marks are cleared |
| `SessionSupervisor.QuarantineRefuses` | packages/agent-executor/src/session-supervisor.ts:473-485 | a neutralization whose preflight leaves one of its sessions quarantined is never committed, however the run goes on |
| `SessionSupervisor.CommittedChecked` | packages/agent-executor/src/session-supervisor.ts:473-512 | a committed neutralization has, for each of its sessions, checked it in its preflight and found it not quarantined then |
| `SessionSupervisor.CommittedDrained` | packages/agent-executor/src/session-supervisor.ts:492-535 | and has, for each of them, found it not leased or seen its lease end with the process tree dead and no error |
| `SessionSupervisor.NeutralizationCanEnd` | packages/agent-executor/src/session-supervisor.ts:430-512 | once the leases have finished every neutralization can end, whatever it found |
| `SessionSupervisor.CommitNeedsNoLease` | packages/agent-executor/src/session-supervisor.ts:492-510 | a neutralization that is able to commit has none of its sessions leased |
| `SessionSupervisor.ShutdownFinal` | packages/agent-executor/src/session-supervisor.ts:590-616 | once shutdown has finished every lease and every neutralization has ended, the lease table is empty, and both stay so over every further run |
| `SessionSupervisor.ClosedStartsNothing` | packages/agent-executor/src/session-supervisor.ts:430-443 | from the moment shutdown has begun no lease and no neutralization starts |
| `SessionSupervisor.RevalidateKeeps` | packages/agent-executor/src/session-supervisor.ts:551-588 | revalidating a quarantine keeps what the invariant says of the files, whatever is found |
| `SessionSupervisor.TableNext` | packages/agent-executor/src/session-supervisor.ts:108-616 | every step of every fiber keeps the invariant of the lease table, the neutralizations and the shutdown, whatever happens to the files |
| `SessionSupervisor.InvNext` | packages/agent-executor/src/session-supervisor.ts:108-616 | and that of the files as well, as long as every write is of a manifest somebody will still look for |
| `SessionSupervisor.Supervisor.AdmitLease` | packages/agent-executor/src/session-supervisor.ts:114-139 | a lease is admitted exactly if the supervisor is open and the session neither leased nor being neutralized |
| `SessionSupervisor.Supervisor.RevalidateQuarantine` | packages/agent-executor/src/session-supervisor.ts:551-588 | the quarantine entry and the manifest change as the evidence says |
| `SessionSupervisor.Supervisor.SettleLeaseCleanup` | packages/agent-executor/src/session-supervisor.ts:231-251 | residual ownership quarantines the session before the lease is given up, and only its own record is removed |
| `SessionSupervisor.Supervisor.MarkSessions` | packages/agent-executor/src/session-supervisor.ts:436-454 | all sessions are marked or none, and none if one is marked already |
| `SessionSupervisor.Supervisor.ClearMarks` | packages/agent-executor/src/session-supervisor.ts:458-460 | exactly the operation's own marks are cleared |
| `SessionSupervisor.Supervisor.CloseAdmission` | packages/agent-executor/src/session-supervisor.ts:594-599 | the supervisor closes and the leases to be drained are those of that moment |
| `PromptFencing.FenceCorrect` | packages/acp/src/session.ts:437-441 | a turn past its fence has handled exactly the updates read between writing its prompt and reading its response, each once and in wire order, and no update of another epoch |
| `PromptFencing.FenceConserved` | packages/acp/src/session.ts:493-534 | while a turn waits, processed updates and updates in flight add up to the fence, which is the number of updates between prompt and response |
| `PromptFencing.FenceNeverUnreachable` | packages/acp/src/session.ts:493-534 | a waiting turn gets past its fence by handing on and handling what has been read already |
| `PromptFencing.FenceNeverRefused` | packages/acp/src/transport.ts:457-471 | beginning a prompt is never refused to a turn, and finishing an answered one never fails for a missing fence |
| `PromptFencing.ProjectsInBetween` | packages/acp/src/session.ts:436-440 | a turn projects no update before it starts projecting, and none once it is past its fence |
| `PromptFencing.DownIsSilent` | packages/acp/src/transport.ts:292-314 | once the transport is down nothing more is written, read or asked of the agent |
| `PromptFencing.TurnCanEnd` | packages/acp/src/transport.ts:292-314 | a turn whose transport has failed can end, and leaves nothing of its prompt in the fence |
| `PromptFencing.InvReachable` | packages/acp/src/transport.ts:292-314 | the fence's variables agree with the wire log in every reachable state, interrupted prompts included |
| `PromptFencing.PromptFence.OnRead` | packages/acp/src/transport.ts:370-396 | an update is stamped with the active epoch and the next sequence number, a response to the active request closes the count |
| `PromptFencing.PromptFence.OnWrite` | packages/acp/src/transport.ts:402-413 | writing a prompt request turns the pending epoch into the active one |
| `PromptFencing.PromptFence.BeginPrompt` | packages/acp/src/transport.ts:457-463 | a new epoch, unless one is pending or active |
| `PromptFencing.PromptFence.FinishPrompt` | packages/acp/src/transport.ts:464-471 | the completed count of the epoch, once |
| `PromptFencing.PromptFence.AbandonPrompt` | packages/acp/src/transport.ts:472-476 | nothing of the epoch is left in the fence |
| `PromptFencing.PromptFence.TakeUpdate` | packages/acp/src/transport.ts:477-477 | stamps are taken in the order in which they were queued |
| `JsonWalk.IsJsonValue` | packages/expression/src/ir.ts:6-40 | on every heap graph the memoized walk ends, and answers true exactly if the value unfolds to a finite JSON tree |
| `JsonWalk.TreeIffReachable` | packages/expression/src/ir.ts:14-40 | which is the case exactly if every reachable node is all right and no cycle is reachable, shared nodes included |
| `JsonWalk.TreeFromChildren` | packages/expression/src/ir.ts:22-36 | a node is a tree exactly if it is all right itself and all its children are trees |
| `JsonWalk.CycleIsNoTree` | packages/expression/src/ir.ts:19-21 | nothing on a cycle is a tree |
| `JsonWalk.Walk.Visit` | packages/expression/src/ir.ts:14-40 | `visiting` is restored, `validated` only ever holds trees, and the answer is right for the value as seen from inside the nodes being visited |
| `JsonWalk.Walk.VisitNode` | packages/expression/src/ir.ts:22-36 | the same for the body of the walk over one node |
| `ExpressionSoundness.ValidatorSound` | packages/expression/src/evaluator.ts:35-119 | an expression without diagnostics is evaluated in finitely many steps and fails only for a missing value, a value that is not JSON or a callback that could not be loaded or failed |
| `ExpressionSoundness.ExprSound` | packages/expression/src/validator.ts:18-63 | the same for every sub-expression, under the nodes the validator is inside of |
| `ExpressionSoundness.KindSound` | packages/expression/src/validator.ts:34-60 | and for each kind of expression |
| `ExpressionSoundness.CallSound` | packages/expression/src/evaluator.ts:67-85 | a validated call never fails for its operator, its arity or its callback source |
| `ExpressionSoundness.TemplateSound` | packages/expression/src/evaluator.ts:58-65 | a validated template never fails for its shape |
| `ExpressionSoundness.ObjectSound` | packages/expression/src/evaluator.ts:43-50 | nor does a validated object |
| `ExpressionSoundness.ArrayMeans` | packages/expression/src/evaluator.ts:41-42 | an array expression evaluates to the array of its items' values, in their order, and to one exactly if every item has a value |
| `ExpressionSoundness.ObjectMeans` | packages/expression/src/evaluator.ts:43-50 | an object expression evaluates to exactly the fields whose value is present, in their order; there is one exactly if no field fails |
| `ExpressionSoundness.TemplateMeans` | packages/expression/src/evaluator.ts:58-65 | a template evaluates to the texts of its parts joined in their order, and to a string exactly if each expression part has a JSON value |
| `ExpressionSoundness.ReferenceMeans` | packages/expression/src/evaluator.ts:162-166 | a reference evaluates to what the adapter answers for its path; undefined counts as missing |
| `ExpressionSoundness.AccessMeans` | packages/expression/src/evaluator.ts:74-75 | `access` evaluates its target, then its key, and gives the element at the index or the own field named by the key; outside of them, and for a missing target, the value is missing |
| `ExpressionSoundness.IndexMeans` | packages/expression/src/evaluator.ts:170-174 | a key denotes an index exactly if it is that number or its canonical decimal spelling |
| `ExpressionSoundness.LiftMeans` | packages/expression/src/evaluator.ts:81-85 | `lift` evaluates to what its callback returns for the values of its inputs in argument order, and to a value exactly if the callback passes its check and loads, its inputs and what it returns are JSON, and it returns |
| `ExpressionSoundness.InputMeans` | packages/expression/src/evaluator.ts:87-101 | an input of a callback keeps the items of an array and all fields of an object, undefined for the missing ones |
| `ExpressionSoundness.ValidatorExact` | packages/expression/src/validator.ts:12-136 | an expression has no diagnostics if and only if it is well formed: of finite depth, every record with the fields of its kind and no others, every operator with its arguments |
| `ExpressionSoundness.ValidateExprIR` | packages/expression/src/validator.ts:12-16 | the walk that pushes diagnostics returns the list the specification gives |
| `ExpressionSoundness.Validator.ValidateExpr` | packages/expression/src/validator.ts:18-63 | the diagnostics of one expression are appended and `seen` is restored |
| `ExpressionSoundness.Validator.ValidateCall` | packages/expression/src/validator.ts:65-93 | the diagnostics of a call, in order, with the early returns |
| `ExpressionSoundness.Validator.ValidateArgs` | packages/expression/src/validator.ts:82-92 | those of its arguments, holes and the callback source included |
| `ExpressionSoundness.Validator.ValidateTemplate` | packages/expression/src/validator.ts:116-136 | those of a template and its parts |
| `ExpressionSoundness.Validator.ValidateExprFields` | packages/expression/src/validator.ts:108-114 | those of an object's fields, in order |
| `TerminalOutput.ChunkingIndependence` | packages/acp/src/reverse-rpc.ts:490-495 | while unreleased, the buffer after every way of cutting a stream into chunks is the trimmed whole stream, if and only if no run of more than `limit` UTF-8 continuation bytes reaches into the last `limit` bytes, or the limit is zero |
| `TerminalOutput.Utf8Independence` | packages/acp/src/reverse-rpc.ts:784-797 | so chunk boundaries never show for UTF-8 output and limits of three bytes or more |
| `TerminalOutput.TextIsNeverCut` | packages/acp/src/reverse-rpc.ts:784-797 | when the output consists of UTF-8 characters and the limit is three bytes or more, the buffer holds, however the output was cut into chunks, the longest suffix of whole characters that fits |
| `TerminalOutput.TrimKeepsCharacters` | packages/acp/src/reverse-rpc.ts:784-797 | for every limit, trimming a whole text of UTF-8 characters keeps whole characters, and as many as fit |
| `TerminalOutput.ContinuationIsTail` | packages/acp/src/reverse-rpc.ts:784-797 | the bit test for continuation bytes is true exactly of the bytes from 0x80 to 0xBF |
| `TerminalOutput.CutFourByteCharacter` | packages/acp/src/reverse-rpc.ts:784-797 | with a limit of two bytes they do, for one four-byte character |
| `TerminalOutput.TruncatedIffOverLimit` | packages/acp/src/reverse-rpc.ts:490-495 | `truncated` is set exactly if more bytes than the limit were received; until then nothing is lost |
| `TerminalOutput.NeverOverLimit` | packages/acp/src/reverse-rpc.ts:490-495 | no sequence of chunks, release and clearing leaves more than `limit` bytes |
| `TerminalOutput.ReleasedIsFrozen` | packages/acp/src/reverse-rpc.ts:490-492 | after the release mark later chunks change nothing |
| `TerminalOutput.TrimOutput` | packages/acp/src/reverse-rpc.ts:784-797 | the scanning loop keeps the last `limit` bytes from their first non-continuation byte on |
| `TerminalOutput.Terminal.Append` | packages/acp/src/reverse-rpc.ts:490-495 | appending a chunk changes output and flag as specified |
| `TerminalLifecycle.CloseLeavesNothing` | packages/acp/src/reverse-rpc.ts:360-374 | when `closeAll` settles, on every interleaving, the table is empty and every terminal ever spawned has its termination settled and its scope closed; it fails exactly if a terminal of its snapshot did not terminate |
| `TerminalLifecycle.StaysClosed` | packages/acp/src/reverse-rpc.ts:360-374 | afterwards no call spawns a terminal or fills the table again |
| `TerminalLifecycle.SnapshotIsTable` | packages/acp/src/reverse-rpc.ts:365-366 | the terminals closed are the whole table at the snapshot |
| `TerminalLifecycle.CreatesSerialized` | packages/acp/src/reverse-rpc.ts:295-308 | of the creates under way at most one still has its caller |
| `TerminalLifecycle.TerminatesOnce` | packages/acp/src/reverse-rpc.ts:475-482 | a settled termination keeps its result for every later waiter |
| `TerminalLifecycle.LateCallsRefused` | packages/acp/src/reverse-rpc.ts:295-348 | a create call made after closing has begun never starts a fiber, and a release call made then releases nothing |
| `TerminalLifecycle.TerminationIsAsked` | packages/acp/src/reverse-rpc.ts:332-374 | a terminal is terminated only by an admitted kill while it is in the table, by its release or by its branch of `closeAll` |
| `TerminalLifecycle.ForgottenWasTerminated` | packages/acp/src/reverse-rpc.ts:343-358 | until `closeAll` takes the rest, a terminal leaves the table only after a successful termination |
| `TerminalLifecycle.ReleasedIsForgotten` | packages/acp/src/reverse-rpc.ts:343-358 | a release that ends after a successful termination takes the terminal out of the table for good |
| `TerminalLifecycle.CloseNeverBlocked` | packages/acp/src/reverse-rpc.ts:360-374 | once `closeAll` was asked for, work already begun, in whatever order it is done, takes at most `Remaining` steps, has `closeAll` settled when no step is left, and can always be continued to that point |
| `TerminalLifecycle.ProgressDecreases` | packages/acp/src/reverse-rpc.ts:252-374 | every step that finishes something leaves less to be done by callers, fibers, releases, terminations and the branches of `closeAll` together |
| `TerminalLifecycle.InvNext` | packages/acp/src/reverse-rpc.ts:252-374 | every step keeps the lifecycle invariant and takes nothing back |
| `TerminalLifecycle.ReverseRpc.CreateTerminal` | packages/acp/src/reverse-rpc.ts:295-303 | a create is rejected exactly if closing has begun |
| `TerminalLifecycle.ReverseRpc.BeginCreate` | packages/acp/src/reverse-rpc.ts:134-163 | the admission check in the create fiber |
| `TerminalLifecycle.ReverseRpc.PublishTerminal` | packages/acp/src/reverse-rpc.ts:289-291 | the spawned terminal enters the table |
| `TerminalLifecycle.ReverseRpc.RequireForRelease` | packages/acp/src/reverse-rpc.ts:343-348 | an unknown terminal is refused, a known one marked released |
| `TerminalLifecycle.ReverseRpc.FinishRelease` | packages/acp/src/reverse-rpc.ts:349-351 | a terminal leaves the table only if its termination succeeded |
| `TerminalLifecycle.ReverseRpc.TakeSnapshot` | packages/acp/src/reverse-rpc.ts:365-366 | exactly the terminals of the table are marked released |
| `Conversation.BoundConversation` | packages/acp/src/persistence.ts:503-521 | the backward loop returns the newest entries that fit, as the definition that drops entries from the front does, and fails exactly if it reaches an entry without a JSON form |
| `Conversation.WindowIsLongest` | packages/acp/src/persistence.ts:503-521 | a suffix meets the entry and the exact byte limit exactly if it is no longer than the result |
| `Conversation.Window` | packages/acp/src/persistence.ts:571-573 | the result passes the bounds check made at load time |
| `Conversation.AppendAfterBounding` | packages/acp/src/session.ts:947-965 | entries dropped by bounding earlier are never missed later |
| `Conversation.AppendingIsBoundingOnce` | packages/acp/src/session.ts:947-965 | bounding after every append gives what bounding the full history once gives |
| `Conversation.Projection.Append` | packages/acp/src/session.ts:947-965 | the stored conversation is always the window of everything appended |
| `ProcessCapsule.OneTurnAtATime` | packages/agent-executor/src/process-capsule.ts:442-465 | in every reachable state at most one Turn is unfinished, and it is the active one |
| `ProcessCapsule.SettlesOnce` | packages/agent-executor/src/process-capsule.ts:632-664 | each settlement is resolved at most once, after its Turn ended, and reports the number of its events, the final response of its trace, its first policy and its sink failure |
| `ProcessCapsule.SettlementTellsTheEnd` | packages/agent-executor/src/process-capsule.ts:632-664 | a settlement tells how its Turn ended: terminal exactly if its own terminal message ended it, hard exactly if the process had been stopped by then; its error is that of a failed manifest write, or else none after the terminal message and the first error raised so far after anything else |
| `ProcessCapsule.EndSettles` | packages/agent-executor/src/process-capsule.ts:636-664 | the step that ends a Turn settles it, or returns the capsule to `ready` and leaves the Turn to its manifest write, which settles it whether it succeeds or not |
| `ProcessCapsule.FirstPolicyIsReported` | packages/agent-executor/src/process-capsule.ts:585-596 | the first recorded policy is never replaced and is the one reported |
| `ProcessCapsule.EventsInOrder` | packages/agent-executor/src/process-capsule.ts:402-428 | events are numbered 0, 1, 2, … and the reducer's state after the trace counts exactly these; the sink sees them up to and including its first rejection |
| `ProcessCapsule.FinishedIsFinal` | packages/agent-executor/src/process-capsule.ts:632-664 | a settled Turn gains no event and no second resolution |
| `ProcessCapsule.InactivityMeansSilence` | packages/agent-executor/src/process-capsule.ts:504-547 | on every run a recorded inactivity policy was recorded by a timer armed earlier for its silence, at a moment when no event had been observed since that silence began |
| `ProcessCapsule.StaleTimerIgnored` | packages/agent-executor/src/process-capsule.ts:524-547 | a timer armed before the latest event, interrupted or not, does nothing when it fires |
| `ProcessCapsule.NoTurnAfterCleanup` | packages/agent-executor/src/process-capsule.ts:688-776 | once cleanup begins a further Turn can be claimed if and only if a Turn without a policy was active at that moment |
| `ProcessCapsule.ClosedForGood` | packages/agent-executor/src/process-capsule.ts:688-776 | if no such Turn was active and the last manifest write succeeds, the capsule is closed for good |
| `ProcessCapsule.ReopenedByClosedMessage` | packages/agent-executor/src/process-capsule.ts:372-376 | the way it happens: an early `closed` message, then a policy and a settlement, lead back to `ready` |
| `ProcessCapsule.CleanupEnds` | packages/agent-executor/src/process-capsule.ts:688-772 | in every reachable state the cleanup can end if and only if it does not wait for itself |
| `ProcessCapsule.CleanupWaitsForItself` | packages/agent-executor/src/process-capsule.ts:585-631 | a cleanup can come to wait for itself if and only if a Turn without a policy is active when it begins: a failing cancellation or settlement of that Turn ends in waiting for the cached cleanup it is part of |
| `ProcessCapsule.ClaimedWithoutPolicy` | packages/agent-executor/src/process-capsule.ts:442-465 | after `ready` and one claim such a Turn is active, so that both can happen |
| `ProcessCapsule.InvNext` | packages/agent-executor/src/process-capsule.ts:303-428 | every step keeps the Turn invariant and takes nothing back |
| `ProcessCapsule.Capsule.ClaimTurn` | packages/agent-executor/src/process-capsule.ts:448-465 | a Turn is claimed exactly in phase `ready` with none active |
| `ProcessCapsule.Capsule.RecordPolicy` | packages/agent-executor/src/process-capsule.ts:590-594 | a policy is recorded only for the active Turn and only if it has none |
| `ProcessCapsule.Capsule.Settle` | packages/agent-executor/src/process-capsule.ts:636-651 | the active Turn ends and its resolution is fixed |
| `ProcessCapsule.Capsule.StartSilence` | packages/agent-executor/src/process-capsule.ts:504-522 | a new silence object, unless the Turn has a policy |
| `ProcessCapsule.Capsule.FireTimer` | packages/agent-executor/src/process-capsule.ts:536-547 | a timer compares identities only, yet records inactivity only if no event came since its silence began |
| `ProcessCapsule.Capsule.TakeEvent` | packages/agent-executor/src/process-capsule.ts:402-428 | an event of the active Turn is numbered, reduced, taken as a sign of life and offered to the sink until its first rejection |
| `ProcessCapsule.Capsule.OnEvent` | packages/agent-executor/src/process-capsule.ts:387-428 | an event outside the active Turn faults the capsule; any other is taken, and the invariant is kept |
| `OwnershipRecovery.Host.RecoverProcessCapsules` | packages/agent-executor/src/ownership.ts:73-91 | whatever the probes answer, the log stays sound, the disk ends as the outcomes say, the quarantined sessions are exactly those with a manifest left, and the log is, manifest by manifest, what `Host.RecoverManifest` promises of each |
| `OwnershipRecovery.Host.RecoverManifest` | packages/agent-executor/src/ownership.ts:173-206 | one manifest: a tree whose identity matched is, in time, stopped: probed and, if seen alive, sent a term signal, and a kill signal followed by a last probe unless it was then seen dead; no kill comes before the grace, the deadline or a probe that did not see the tree alive; the result is dead exactly if the evidence or the last probe says so, and the manifest is then removed, else degraded |
| `OwnershipRecovery.Host.StopProcessTree` | packages/agent-executor/src/process-tree.ts:34-61 | term, wait, kill, wait, each only after a probe that calls for it; death is reported exactly if the last probe saw it |
| `OwnershipRecovery.Host.WaitForTreeDeath` | packages/agent-executor/src/process-tree.ts:87-103 | polling asks about nothing but this tree, and ends only by a probe that does not see it alive, by the grace or by the deadline |
| `OwnershipRecovery.Host.FinishOwnership` | packages/agent-executor/src/ownership.ts:106-131 | a dead tree's manifest is removed, any other rewritten as degraded with its previous phase |
| `OwnershipRecovery.Host.RevalidateOwnership` | packages/agent-executor/src/ownership.ts:133-153 | root and group are asked about, nothing is signalled or rewritten; the answer is dead exactly if both are gone, and live exactly if the root matches or the group is alive; the manifest goes exactly with the answer dead |
| `OwnershipRecovery.OnlyOwnLiveTreesAreSignalled` | packages/agent-executor/src/ownership.ts:190-198 | what soundness of the log, which `Host.RecoverProcessCapsules` guarantees of its own, means at each position: a tree is signalled only after its recorded identity matched and it was then seen alive |
| `OwnershipRecovery.OnlyDeadTreesAreForgotten` | packages/agent-executor/src/ownership.ts:186-189 | likewise what it means for removals: a manifest is removed only after its tree was seen dead |
| `OwnershipRecovery.QuarantinedSessions` | packages/agent-executor/src/ownership.ts:83-87 | a session is quarantined exactly if the recovery of one of its manifests did not end dead, with the last such manifest and its outcome |
| `OwnershipRecovery.LeftOnDisk` | packages/agent-executor/src/ownership.ts:114-127 | a manifest is gone exactly if its recovery ended dead, and is otherwise degraded by the outcome, with the phase of its last healthy moment, its worker and its session kept |
| `OwnershipRecovery.Untouched` | packages/agent-executor/src/ownership.ts:114-127 | files the recovery was not given are left as they were |
| `TurnReducer.ResponsesAreSegments` | packages/agent-executor/src/turn-reducer.ts:33-44 | after every trace the responses are the texts between interruptions without the empty ones, and joined they are all assistant text in order |
| `TurnReducer.FinalResponseIsLastSegment` | packages/agent-executor/src/turn-reducer.ts:40-47 | the final response is the maximal uninterrupted segment ending with the last text, or empty if a tool call follows that text |
| `TurnReducer.NoTextNoFinal` | packages/agent-executor/src/turn-reducer.ts:104-104 | without any text it is empty |
| `TurnReducer.ToolsAreSummaries` | packages/agent-executor/src/turn-reducer.ts:45-62 | each tool listed is the summary of the events that name it: first start, last update, last given fields |
| `TurnReducer.CompletedMeaning` | packages/agent-executor/src/turn-reducer.ts:49-59 | the completion time is that of the event since which every status has been terminal |
| `TurnReducer.ToolsByFirstAppearance` | packages/agent-executor/src/turn-reducer.ts:45-62 | tools are listed once each, in order of first appearance |
| `TurnReducer.TokensAreLatest` | packages/agent-executor/src/turn-reducer.ts:67-77 | the token usage is the last one reported, by an update or with a prompt response |
| `TurnReducer.ContextIsLatest` | packages/agent-executor/src/turn-reducer.ts:67-68 | the context usage is the last one reported, with the time of its event |
| `TurnReducer.CountsEveryEvent` | packages/agent-executor/src/turn-reducer.ts:30-31 | the event count is the number of observed events |
| `TurnReducer.Reducer.Observe` | packages/agent-executor/src/turn-reducer.ts:30-71 | the variables are updated per event as the trace prescribes |
| `TurnReducer.Reducer.TakeSnapshot` | packages/agent-executor/src/turn-reducer.ts:73-99 | a snapshot reports exactly what the trace so far means, context usage included |
| `TurnReducer.Reducer.CurrentFinalResponse` | packages/agent-executor/src/turn-reducer.ts:104-104 | as does the final response |
| `TemplateDedent.DedentTemplateParts` | packages/expression/src/index.ts:248-276 | the loop that carries line state from part to part computes the specified template; expression parts stay unchanged and in place, text stays text |
| `TemplateDedent.TrimBoundaryBlankLines` | packages/expression/src/index.ts:278-290 | the method trims the first and the last text as specified |
| `TemplateDedent.TrimmedAtTheEnds` | packages/expression/src/index.ts:278-290 | the first text loses blank lines from its beginning, the last text then line ends with blanks from its end, all there are and nothing else, and no other part changes |
| `TemplateDedent.VisibleKept` | packages/expression/src/index.ts:248-290 | dedenting keeps all expressions and all characters other than blanks and line ends, in their order |
| `TemplateDedent.FindCommonIndent` | packages/expression/src/index.ts:292-321 | the scan finds the least indentation of a line with content, across part boundaries |
| `TemplateDedent.DedentCutsLines` | packages/expression/src/index.ts:248-276 | every line loses the common indent from its beginning and nothing else |
| `TemplateDedent.ContentLineLosesCommonIndent` | packages/expression/src/index.ts:248-276 | a line with content loses exactly the common indent, so relative indentation is kept |
| `TemplateDedent.LineLosesAtMostCommonIndent` | packages/expression/src/index.ts:248-276 | every line, blank or not, loses the common indent as far as it has it, and nothing else |
| `TemplateDedent.DedentedHasNoCommonIndent` | packages/expression/src/index.ts:248-276 | the result's common indent is zero |
| `TemplateDedent.DedentIdempotent` | packages/expression/src/index.ts:248-321 | dedenting twice is dedenting once |
| `TemplateDedent.TrimmedIsStable` | packages/expression/src/index.ts:278-290 | after trimming neither pattern matches any more |
| `ShellCommand.RoundTrip` | packages/cli/src/presentation/shell-command.ts:3-11 | a shell splits the rendered command into exactly the arguments it was made from, empty ones and quotes included |
| `ShellCommand.RenderInjective` | packages/cli/src/presentation/shell-command.ts:3-11 | different argument vectors are rendered differently |
| `ShellCommand.RunsAsCommand` | packages/cli/src/presentation/shell-command.ts:3-11 | the shell runs them as that command if and only if the first argument was not left bare while reading as an assignment or a reserved word |
| `ShellCommand.AssignmentIsNoCommand` | packages/cli/src/presentation/shell-command.ts:3-11 | the vector with the one argument `A=1` is rendered bare and is not run as a command |
| `ShellCommand.ScanArgument` | packages/cli/src/presentation/shell-command.ts:8-11 | one rendered argument is read as one word, outside quotes again at its end |

## Left out

- Storage and processes: the real file system, SQLite, IPC, sockets and signals are replaced by abstract state, by the action that is taken, or by arbitrary answers.
- Effect fibers, scopes and layers as a library: only the steps and interleavings they allow are modelled. Code between two yield points is one step; in particular a settlement's snapshot and the check of `settleActive` are taken in one step.
- RuntimeLock: creating the lock directories and checking for symbolic links; the acquire loops are program counters of the interleaved machine, not loops. Reading a directory gives one snapshot. Deadlines are arbitrary, and nothing is said about fairness.
- RuntimeStoreLifecycle: initializing the new store is idempotent and one step; metadata, index and manifest writes are atomic, as the source's helpers intend; path, symlink and permission checks, the assessment and the reading of stores are not modelled.
- SessionSupervisor: a quarantine revalidation is one step; capsule cleanup gives a typed success or failure; the text of evidence, the resolution of agents and attempt deadlines are left out. The recovered state starts with at most one manifest per session. Any number of writes of one manifest may be under way at once, in any order, as writes abandoned by an interruption may; opening a capsule fails once its cleanup has ended.
- ProcessCapsule: a second evaluation of the cached cleanup waits for the first, as `Effect.cached` promises; durations (an armed timer fires at any later moment, or never), the interruption of superseded timers, the texts of errors, opening a capsule before its first message, the messages sent to the worker and the contents of the manifest.
- PromptFencing: the update handler is called once per notification and in wire order; requests other than prompts, and cancellations of them; updates of a prompt whose turn was abandoned carry no prompt id, so only turns that pass the fence are claimed.
- OwnershipRecovery: reading and decoding the manifest files (the recovery starts from the decoded entries, each under its own path), timestamps, and health reports.
- TerminalLifecycle: permission requests, file requests, the termination sequence of one process (it settles with an arbitrary result) and the finalizers run when the enclosing scope closes; a spawn that fails leaves nothing to clean.
- TerminalOutput: decoding the buffer to a string, and the clamping of a requested limit.
- Conversation: merging text chunks and updating tool calls in place, which differ from full history after truncation; the JSON encoding of an entry is arbitrary.
- TurnReducer: the preview of a tool's input is taken as given, and start, finish and elapsed times are left out.
- JsonWalk.IsJsonValue: the source also answers false when a very deeply nested value overflows the stack; the model's recursion has no such limit.
- JsonWalk: property getters and proxies; a value is a node of a finite heap graph.
- ExpressionSoundness: the operator table is `access` with two arguments and `lift` with its callback layout; the callback source check, the loading and the running of a callback are arbitrary functions, and a source that fails to load counts as a callback failure. Values an adapter resolves are trees.
- TemplateDedent: template strings with invalid escapes; a carriage return counts as content of a line, as in the source.
- ShellCommand: aliases, here-documents and the lines a shell does not read as one list of plain words.
- The scheduler, daemon, web pages, command wiring, MCP tools, loaders and configuration parsing: not modelled; they would add only easy members or wrap other libraries.
- Zod schemas and the shape checks of manifests, projections and messages: long but obvious branch by branch.
