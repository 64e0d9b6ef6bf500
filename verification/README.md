# Agent Flow: proofs about supervision, lifecycle and encodings

Agent Flow supervises external worker processes and moves work items through investigate, fix and test. This project
models the parts of it whose failure would matter most, and proves what they promise, for every input, every answer
of the outside world and every interleaving.

What the outside world does is left arbitrary: process inspections, group listings, signals, clocks, store answers
and exceptions come from methods that may return anything (or, in the system model, from moves that any process may
make at any time). The protocols are state machines (`Expects` says which call comes next, `Advance` what it leads
to, `Replay` follows a whole history); the methods with the source's own control flow are proved to make exactly the
calls of their machine, and the theorems are about every history of the machine.

| file | what it models |
|---|---|
| `Processes.dfy` | kernel identities, runtime calls and their answers |
| `Reconciler.dfy` | `process_reconciler.py`: reconcile, its signals, its release rule and its time bound |
| `StableGuardian.dfy` | the inspection window before a guardian is recorded |
| `GuardedLauncher.dfy`, `GuardedRunner.dfy` | `GuardedGitCommandRunner.run`: barrier, record, fence, status, reap, clear |
| `Models.dfy` | handoffs, gate proofs, the gate evaluator, binding and finalisation of worker output |
| `JobStore.dfy`, `StoreInvariant.dfy`, `Fencing.dfy`, `Lifecycle.dfy` | the store's job transactions, what each keeps, fencing tokens, item histories |
| `RestartSafety.dfy` | launcher, reconciler and store composed over an operating system that forks, exits and reuses numbers |
| `ReleaseFence.dfy` | in that composition, the release fence's store transaction against revocations of an admission |
| `AbortedRelease.dfy` | in that composition, a launcher that clears after an aborted release without looking at the group |
| `RoleLanes.dfy`, `ClaimLoop.dfy`, `Heartbeat.dfy` | claim order, the claiming loop and its fairness, lease renewal |
| `ClaimAccounts.dfy`, `Scheduler.dfy` | what becomes of every claim over runs of ticks, task ends and shutdowns; the scheduler's methods against it |
| `JsonlCapture.dfy` | chunked capture of the event stream against a fold over its lines |
| `Bytes.dfy`, `WebSocket.dfy` | RFC 6455 framing (sections 5.2 to 5.5) |
| `ShortIds.dfy` | collision-free short labels from sorted neighbours |
| `ManifestEncoding.dfy`, `RuntimeTree.dfy` | what is fed to the digests of a checkout and of a runtime tree |
| `SchemaClosing.dfy` | the recursive closing of a JSON schema |
| `OperationRecovery.dfy` | recovery of expired and quarantined worktree operations |
| `SeatbeltQuote.dfy` | string literals of a sandbox profile |

Seven properties that documentation, comments or names suggest do not hold of the code as it is; each is stated with
an input at which it fails and with the exact condition under which it holds:

- "No public storage API can directly set an item to `VERIFIED_GREEN`" (the repository's README.md:406-408):
  `fail_job(..., requeue=False, blocked_item_state="verified_green")` does, on any role's live lease, with no proof
  (`Lifecycle.AnyWorkerCanFailGreen`; storage.py:9166-9233 writes that state unchecked). Every green item was earned
  by a tester's commit exactly if no accepted failure names that state (`Lifecycle.GreenWasEarnedIff`); histories are
  paths of the lifecycle graph exactly if no failure names a state the graph does not lead to
  (`Lifecycle.HistoriesArePathsIff`); and live items keep their one open job under the same kind of condition
  (`Lifecycle.OneOpenJobKept`). The scheduler's own adapter names neither argument and meets all three
  (`Lifecycle.SchedulerFailuresAreSafe`).
- Clearing a launcher's record once its process was waited for (`codex_worker.py:573-582`) is safe only if a barrier
  write that raised has never delivered its byte: otherwise the job can be given out again over a live target, and
  exactly then (`AbortedRelease.AbortIsSafeIff`, `AbortedRelease.MisledRun`).
- A claim that leaves its slot is accepted, stale or among the errors in every run in which a task ends as cancelled
  only when it was asked to (`ClaimAccounts.EveryClaimIsAccounted`); a worker that raises a cancellation of its own
  accord is lost (`ClaimAccounts.UnaskedCancellationIsLost`).
- A blank line over the line limit is skipped or ends a capture, as the stream happens to be cut
  (`JsonlCapture.LongBlankLineDependsOnTheSplit`). Some two cuts of a stream differ in whether the capture ends clean
  exactly when the stream holds such a line, its total, its tail and its other lines are within the limits, every
  over-long line ends within one read past the limit, and its lines can be read (`JsonlCapture.CutMattersIff`).
- "Every declared property is required" fails for a property named `default`, which is lost, and for properties that
  look like an object themselves (`SchemaClosing.EveryDeclaredIsRequiredIff`, with an input for each).
- The bound on a page message is a bound on each frame of it (`WebSocket.BoundIsPerFrame`): a message is refused
  exactly for a frame over the bound (`WebSocket.RefusedIffOversized`), and all texts of n fragments are within the
  bound exactly for n = 1 (`WebSocket.TextWithinBoundIff`).
- A run of the heartbeat renews inside every lease exactly when interval plus retries times pause is below the lease;
  with the default interval that holds for every lease exactly below twenty retries
  (`Heartbeat.RenewsInTimeIffSafe`, `Heartbeat.DefaultIsSafeBelowTwentyRetries`).

`storage.py` is modelled from its transactions; where the `Storage` protocol's docstrings are looser than the code,
the code is followed. A `discard_line` that `_JsonlCapture` sets is never acted on, because `truncated` is set with
it; the branch is kept in the model.

Assumptions of the composed theorems: a target's descendants stay in its process group; a listing or probe that finds
a group empty is right at that instant, and so is an inspection that finds a process; a number is not given to a second
process while one has it or its parent has not waited for it; births (identities) do not repeat; attempt ids and tokens
are drawn fresh; write transactions exclude one another.

## Model

| member | source | states |
|---|---|---|
| Reconciler.SignalsAreDisciplined | src/agent_flow/process_reconciler.py:376-507 | In every history of a reconcile, whatever the system answers: at most one SIGTERM and then at most one SIGKILL, all to the bound group, each directly after an inspection that returned the exact identity, SIGKILL only over a non-empty listing that matches the listing before SIGTERM; a refused binding makes no call at all |
| Reconciler.ReleaseRule | src/agent_flow/process_reconciler.py:132-137 | Gone if and only if the history is one inspection that does not find the launcher and one empty listing; Terminated if and only if it ends in a poll after a signal that listed the group empty; whenever release is allowed the last call was an empty listing of the bound group |
| Reconciler.ReconcileTimeBound | src/agent_flow/sqlite_scheduler.py:139-146 | With an exact clock a reconcile sleeps at most twice the grace, each wait polls at most ceil(grace/poll)+1 times, and all of it is inside any lease that the constructor accepts |
| Reconciler.ExternalProcessReconciler.Reconcile | src/agent_flow/process_reconciler.py:376-507 | The calls made replay in the phase machine to exactly the verdict returned, or to an escape for an exception that is not handled |
| Reconciler.ExternalProcessReconciler.WaitForGroupExit | src/agent_flow/process_reconciler.py:509-525 | The polling loop ends, in the phase that its answer means: group empty, deadline passed, or the last failure raised |
| Reconciler.ExternalProcessReconciler.ReconcileVerified | src/agent_flow/process_reconciler.py:404-507 | The body of the try block: its calls lead to the verdict or to the exception |
| Reconciler.ExternalProcessReconciler.SignalAndWait | src/agent_flow/process_reconciler.py:459-502 | A signal and the wait after it, with a vanished group taken as signalled |
| StableGuardian.InspectStableGuardian | src/agent_flow/worktrees.py:441-466 | An identity is returned only when it leads its own group and two inspections at least 50 ms apart found it, with no inspection between finding anything else |
| GuardedLauncher.StartsOnlyWhenPermitted | src/agent_flow/worktrees.py:280-341 | In every history the barrier byte is written at most once, after the record call returned, with no cancellation read before it, and with a fence only inside it after one more cancellation check |
| GuardedLauncher.CleansUpCarefully | src/agent_flow/worktrees.py:343-407 | On success, timeout, cancellation and failed release: every signal follows at once on a proof that the guardian still leads the group, each signal is sent at most once and no SIGTERM after a SIGKILL; the control byte follows at once on a proof that the guardian is alone in its group, after the child's status was read; the clear comes only after the group was seen empty with no signal since |
| GuardedRunner.GuardedCommandRunner.Run | src/agent_flow/worktrees.py:221-439 | The whole run follows the machine, and ends there in the way that it reports, or as failed |
| GuardedRunner.GuardedCommandRunner.Launch | src/agent_flow/worktrees.py:279-341 | Identify, record, check, write: afterwards the machine awaits a refused guardian or monitors a released one, as the flags say |
| GuardedRunner.GuardedCommandRunner.WriteInsideFence | src/agent_flow/worktrees.py:329-341 | Entering the fence, the check inside it, the byte and the fence's exit, which may raise after the byte is out |
| GuardedRunner.GuardedCommandRunner.Reap | src/agent_flow/worktrees.py:343-407 | Every way out of the monitor leads through a cleanup of the group |
| GuardedRunner.GuardedCommandRunner.Monitor | src/agent_flow/worktrees.py:380-391 | The polling loop ends with completion, cancellation or timeout, as the machine says |
| GuardedRunner.GuardedCommandRunner.OwnedGroupState | src/agent_flow/worktrees.py:468-492 | Inspect, list, inspect again: the state returned is the one the three answers mean |
| GuardedRunner.GuardedCommandRunner.TerminateGuardian | src/agent_flow/worktrees.py:502-535 | SIGTERM, settling and SIGKILL in the order of the machine, stopping at the first proof that the group is gone or no longer owned |
| GuardedRunner.GuardedCommandRunner.ReleaseGuardian | src/agent_flow/worktrees.py:537-553 | The control byte, the guardian's exit and the wait for its group; reaped only when the group was probed empty |
| GuardedRunner.GuardedCommandRunner.WaitForGroupExit | src/agent_flow/worktrees.py:555-565 | The probe loop ends before its deadline's first late reading, with the answer that it saw |
| GuardedRunner.GuardedCommandRunner.WaitOrKillUnreleased | src/agent_flow/worktrees.py:567-573 | A guardian that was not released is waited for or killed, and the run fails |
| RestartSafety.NoRequeueWhileTargetLives | src/agent_flow/sqlite_scheduler.py:162-203 | In every run with crashes, expiries and racing reconciliations: while any target of a launch lives, its job is running the very attempt that launched it under the same token, the byte was delivered, and the launch's row is on record with the guardian's identity and not stopped; for every launch of the guarded runner, and for one that clears after an aborted release unless its own raising write had delivered |
| RestartSafety.OneGenerationAtATime | src/agent_flow/sqlite_scheduler.py:162-203 | Targets of two such launches of one job are never alive together |
| ReleaseFence.FencedByteIsAuthorized | src/agent_flow/storage.py:6813-6888 | In every run a fenced launch writes its byte only while its token holds the lease, the admission its attempt was claimed under is active, and its own guardian is on record as active: what the fence checked cannot change before the write |
| ReleaseFence.RevocationIsFinal | src/agent_flow/storage.py:3735-3780 | In every run a fenced launch under a revoked admission that has its byte had it before the revocation: the two transactions have one order, whatever launches, crashes and recoveries do in between |
| AbortedRelease.AbortIsSafeIff | src/agent_flow/codex_worker.py:573-582 | Runs in which no such launcher's raising write has delivered its byte never queue the job again over a live target; allowing one such write, some run does |
| AbortedRelease.MisledRun | src/agent_flow/codex_worker.py:573-582 | A concrete run of twelve moves after which the job is pending while its target lives |
| RestartSafety.ClearNamesOwnRow | src/agent_flow/storage.py:6890-6957 | An accepted clear of a launch stops that launch's own row: token and insistence on exactly one row fix it |
| RestartSafety.ReachableIsOk | src/agent_flow/process_reconciler.py:376-507 | Every reachable state keeps the system invariant: rows stop only over extinct groups, releasable sessions have seen theirs, and targets descend from recorded guardians |
| Models.GateDecisions | src/agent_flow/models.py:832-921 | The evaluator's decision for every set of gates and proofs: green if and only if the handoff passed and every gate required has a passing proof with evidence of the kinds it accepts; back to fixing if and only if it is red and a required gate fails; blocked if and only if it is blocked; with the next state each of them means |
| Lifecycle.FinalizeMeetsStore | src/agent_flow/scheduler.py:1082-1150 | For every output the scheduler finalises, the store comes to the same next state and successor; it accepts it if and only if its evidence is attached, and judges a tester outside simulation by the canonical handoff alone: whatever was handed in, accepted if and only if that one has its evidence attached and the gates are supported |
| JobStore.CommitIsGuarded | src/agent_flow/storage.py:8994-9094 | An accepted stage commit meets every guard, and to green only with an earned tester's result |
| JobStore.CompleteIsGuarded | src/agent_flow/storage.py:9749-9913 | An accepted reconciliation outcome meets every guard: the job goes back only with its one row stopped |
| JobStore.DecisionsAreGuarded | src/agent_flow/storage.py:5681-5990 | Every accepted transaction meets the guards of the change it makes; a failure that does not requeue may leave any state named by its caller |
| StoreInvariant.StepKeeps | src/agent_flow/storage.py:9429-9569 | Every transaction, accepted or refused, keeps: references, one lease per running job and one running attempt per lease, unique tokens, live process rows on current attempts and one per attempt, running jobs on different items in their active states |
| StoreInvariant.RunKeeps | src/agent_flow/storage.py:9571-9658 | The invariant holds after every history of transactions, by whomever and in whatever order |
| Fencing.SilencedIsRefused | src/agent_flow/storage.py:5980-5990 | Every fenced call with the token of an attempt that ended is refused |
| Fencing.CloseSilences | src/agent_flow/storage.py:9166-9278 | An accepted commit, failure or interruption ends the attempt of its token |
| Fencing.SilenceLasts | src/agent_flow/storage.py:9292-9422 | A token once silenced stays silenced through any further history |
| Fencing.AtMostOneOutcomePerToken | src/agent_flow/storage.py:8994-9422 | In every history at most one commit, failure or interruption is accepted per lease token, and no fenced call with it afterwards |
| Lifecycle.HistoriesArePathsIff | src/agent_flow/models.py:272-310 | Whatever workers return and callers ask for, all item histories are paths of the lifecycle graph if and only if no accepted failure gave up for a state that the graph does not lead to |
| Lifecycle.TurnsGreenBy | src/agent_flow/storage.py:8850-9094 | A transaction that turns an item green is a failure that names that state, or a tester's commit on that item with a live lease, no process left, and a passing proof with attached evidence for every gate required |
| Lifecycle.GreenWasEarnedIff | src/agent_flow/storage.py:8850-9094 | Over every history, every green item has such a commit in its past if and only if no accepted failure named the green state |
| Lifecycle.AnyWorkerCanFailGreen | src/agent_flow/storage.py:9166-9233 | A history in which an investigator's failure turns its item green without any commit |
| Lifecycle.SchedulerFailuresAreSafe | src/agent_flow/sqlite_scheduler.py:571-592 | If all failures are the adapter's, then in every history, whoever makes the other calls: histories are paths, green was earned, and what a failure gives up is blocked |
| Lifecycle.OneOpenJobKept | src/agent_flow/storage.py:3909-4033 | An accepted transaction keeps one matching open job per live item if and only if it is not a job added from outside, a live item created without one, or a failure that gives its item up in a live state |
| Lifecycle.OneOpenJobAlways | src/agent_flow/scheduler.py:1082-1150 | In every history without those, every live item has exactly one open job, queued or active as the item is, and terminal items none |
| RoleLanes.OrderIsPermutation | src/agent_flow/scheduler.py:522-537 | The claim order lists every slot exactly once and nothing else |
| RoleLanes.OrderListsEveryRole | src/agent_flow/scheduler.py:522-537 | Within a role the slots keep their own order |
| RoleLanes.PrefixesAreBalanced | src/agent_flow/scheduler.py:522-537 | In every prefix of the order two roles that both have slots to come differ by at most one |
| ClaimLoop.FillKeeps | src/agent_flow/scheduler.py:368-419 | A tick keeps roles, workers and slots in use, claims exactly as many as become active, and never passes the global limit |
| ClaimLoop.TickServesOrAdvances | src/agent_flow/scheduler.py:368-419 | A role whose first slot is free and which the store would serve is claimed for, or moves strictly nearer to the cursor if anything was claimed |
| ClaimLoop.ServedWithinThreeClaimingTicks | src/agent_flow/scheduler.py:368-419 | Such a role is never passed over for three claiming ticks, over every run of ticks in which other slots free up |
| ClaimAccounts.SettledIsAccounted | src/agent_flow/scheduler.py:548-744 | However worker, heartbeat and store answer: a claim that ends of itself has an accepted outcome, is stale or leaves an error; it ends as cancelled exactly when its work was, and then changes nothing; nothing counts as accepted unless the store said so |
| ClaimAccounts.EveryClaimIsAccounted | src/agent_flow/scheduler.py:368-517 | Over every sequence of ticks, task ends and shutdowns: each claim ever lent to a slot is still in one, or accepted, or its job stale, or one of the errors is its; after a shutdown none is in a slot |
| ClaimAccounts.ShutAccounts | src/agent_flow/scheduler.py:440-476 | A shutdown frees every slot and leaves every claim ever lent accounted for |
| ClaimAccounts.UnaskedCancellationIsLost | src/agent_flow/scheduler.py:504-517 | From any state, a task that ends as cancelled unasked leaves its slot in the next tick with its claim in none of the three |
| ClaimAccounts.EscapesAreReported | src/agent_flow/scheduler.py:504-517 | An exception that escapes a claim is among the errors when its slot is reaped |
| Scheduler.Scheduler.RunOnce | src/agent_flow/scheduler.py:368-419 | The state after a tick is exactly that of the run's tick: recovered ids stale and their tasks asked to cancel, finished slots reaped with their errors, free slots filled in claim order, the cursor moved behind the last claim; and every claim stays accounted for, the limit kept |
| Scheduler.Scheduler.ClaimFreeSlots | src/agent_flow/scheduler.py:384-412 | The loop with its early exits leaves exactly the slots, count and cursor of filling the whole order under the limit |
| Scheduler.Scheduler.ExecuteClaim | src/agent_flow/scheduler.py:548-744 | Every way through the exception handlers ends in the settlement: which end, whether accepted, which jobs stale and which errors, in order; what a settlement may be is `ClaimAccounts.SettledIsAccounted` |
| Scheduler.Scheduler.Finalize | src/agent_flow/scheduler.py:1082-1150 | A commit counts exactly when the output was bound and the store accepted it; a refusal is an operator's interruption, a lost lease or the poll's failure |
| Scheduler.Scheduler.RequeueAfterHeartbeatFailure | src/agent_flow/scheduler.py:703-720 | After a heartbeat failure its error is kept and the claim is given back, or found recovered and stale, or a second error remains |
| Scheduler.Scheduler.FailClaim | src/agent_flow/scheduler.py:723-744 | A failed claim ends accepted or stale, or by an exception that changes nothing |
| Scheduler.Scheduler.EndTask | src/agent_flow/scheduler.py:548-744 | A task that ends, cancelled only if it was asked to, moves the state as the run's event does and keeps every claim accounted for |
| Scheduler.Scheduler.ReapFinishedSlots | src/agent_flow/scheduler.py:504-517 | The loop frees exactly the slots whose tasks are done and keeps each exception that escaped, in slot order |
| Scheduler.Scheduler.Shutdown | src/agent_flow/scheduler.py:440-476 | The five loops and calls come to exactly the run's shutdown: afterwards every slot is free and every claim ever lent is accepted, stale or among the errors |
| Heartbeat.RunBeat | src/agent_flow/scheduler.py:1022-1058 | Every beat has exactly one of three ends: renewed if and only if the store answers within the retries and first with an acceptance, lost if and only if first with a refusal, a storage failure if and only if it never answers; each at the time of the first answered retry or of the last |
| Heartbeat.RunHeartbeat | src/agent_flow/scheduler.py:1022-1058 | With safe timing every renewal falls strictly inside the lease before it, for as long as the loop does not raise |
| Heartbeat.RenewsInTimeIffSafe | src/agent_flow/scheduler.py:324-330 | Every possible renewal is in time if and only if interval plus retries times pause is below the lease |
| Heartbeat.DefaultIsSafeBelowTwentyRetries | src/agent_flow/scheduler.py:324-330 | With the default interval every lease is safe if and only if there are fewer than twenty retries |
| JsonlCapture.Capture.Consume | src/agent_flow/codex_worker.py:219-236 | For every cut of a stream: it ends untruncated without error if and only if no limit is passed at the end of any read and the fold over the newline-split stream succeeds, and then its fields are the fold's; the session is recorded at most once; the artifact is the stream's first min(total, limit) bytes and everything is hashed |
| JsonlCapture.Capture.Feed | src/agent_flow/codex_worker.py:238-260 | A chunk brings the fields to the fold over the longer stream, or marks it truncated because a limit is passed, or raises what the fold raises |
| JsonlCapture.Capture.ParseLines | src/agent_flow/codex_worker.py:250-256 | The newline loop reads exactly the ended lines of the buffer, in order, and keeps the rest |
| JsonlCapture.Capture.ParseLine | src/agent_flow/codex_worker.py:267-298 | One line changes the fields as the fold does, or is skipped as too long and marks the capture truncated |
| JsonlCapture.Capture.Finish | src/agent_flow/codex_worker.py:262-265 | The last line is read only if the capture is not truncated; then the fields are the fold over all lines |
| JsonlCapture.LinesExtend | src/agent_flow/codex_worker.py:238-260 | The lines of a stream are those ended in its first part and those of what was pending followed by the rest |
| JsonlCapture.FoldSucceedsIff | src/agent_flow/codex_worker.py:267-298 | The fold succeeds if and only if every non-blank line decodes to a typed event and all thread starts name one thread, the expected and accepted one |
| JsonlCapture.FoldFinds | src/agent_flow/codex_worker.py:285-298 | The flags say which events occur anywhere in the stream; the terminal error is the last failure |
| JsonlCapture.EverySplitFitsIff | src/agent_flow/codex_worker.py:219-260 | No cut of a stream into reads passes a limit if and only if the stream and each of its lines are within the limits |
| JsonlCapture.SomeSplitFitsIff | src/agent_flow/codex_worker.py:219-260 | Some cut passes no limit if and only if total, tail and lines that are not blank are within the limits and each longer line ends within one read past the limit |
| JsonlCapture.CutMattersIff | src/agent_flow/codex_worker.py:219-270 | Two cuts of a stream into reads differ in whether the capture ends clean if and only if some cut passes no limit, some blank line is over the limit, and the lines can be read |
| JsonlCapture.LongBlankLineDependsOnTheSplit | src/agent_flow/codex_worker.py:257-270 | A blank line one byte over the limit is skipped under one cut and truncates under another |
| JsonlCapture.CaptureThread.Run | src/agent_flow/worktrees.py:184-202 | A guarded command's capture keeps and hashes the first min(total, limit) bytes, and is truncated exactly when bytes are missing |
| WebSocket.FrameRoundTrip | src/agent_flow/browser_collector.py:83-119 | For every mask, opcode and payload a sent frame is read back from exactly its bytes, whatever follows, or refused over 16 MiB |
| WebSocket.EncodeIsShortest | src/agent_flow/browser_collector.py:84-96 | No bytes that read as a frame are fewer than its encoding: the length takes its shortest form |
| WebSocket.MessageIsRead | src/agent_flow/browser_collector.py:98-133 | A fragmented message with any frames but a close between its fragments reads as the fragments joined, with its pings in order, consuming exactly its bytes |
| WebSocket.BoundIsPerFrame | src/agent_flow/browser_collector.py:110-111 | Two fragments at the bound make a message of twice the bound that is read |
| WebSocket.RefusedIffOversized | src/agent_flow/browser_collector.py:98-133 | Any frames without a close, up to the end of a message or of the stream, are refused for the bound if and only if one of them up to the end of the message is over it |
| WebSocket.TextWithinBoundIff | src/agent_flow/browser_collector.py:98-133 | All texts of messages in n fragments are within the bound if and only if n is 1 |
| WebSocket.Connection.ReadExact | src/agent_flow/browser_collector.py:74-81 | However `recv` cuts the stream, exactly the bytes asked for are returned and consumed, or the end is reported |
| WebSocket.Connection.SendFrame | src/agent_flow/browser_collector.py:84-96 | One call writes one whole final masked frame of this opcode and payload |
| WebSocket.Connection.ReadFrame | src/agent_flow/browser_collector.py:101-120 | The header and body reads together parse the first frame of what is incoming |
| WebSocket.Connection.ReceiveText | src/agent_flow/browser_collector.py:98-133 | Returns the text that the incoming frames amount to, or their failure, and writes one pong per ping met, with its payload, in order |
| Bytes.XorTwice | src/agent_flow/browser_collector.py:95 | Masking a byte twice gives it back |
| Bytes.BigEndianRoundTrip | src/agent_flow/browser_collector.py:87-109 | A packed length unpacks to itself whenever it fits its width |
| ShortIds.CommonPrefixLength | src/agent_flow/status.py:119-125 | The loop computes the length of the common prefix |
| ShortIds.CommonIsLongest | src/agent_flow/status.py:119-125 | The first k characters of one id begin another if and only if k is at most that length |
| ShortIds.NeighboursShareMost | src/agent_flow/status.py:104-117 | In sorted order the longest prefix an id shares with any other is shared with a neighbour |
| ShortIds.LabelIsShortest | src/agent_flow/status.py:104-117 | Of the lengths from the minimum on, a label has the first that is the whole id or begins no other |
| ShortIds.ShortIdMap | src/agent_flow/status.py:104-117 | For every list of ids and every minimum: exactly the non-empty ids are labelled, by prefixes no shorter than the minimum allows; labels are pairwise distinct; one that begins another id is its whole own id; and none over the minimum can be shortened |
| ManifestEncoding.ManifestRoundTrip | src/agent_flow/worktrees.py:703-746 | The entries are read back from the bytes that are hashed |
| ManifestEncoding.ManifestIsUnambiguous | src/agent_flow/worktrees.py:732-746 | Equal bytes if and only if equal sequences of path, kind, mode and content digest |
| ManifestEncoding.CheckoutsHashAlikeIff | src/agent_flow/worktrees.py:686-746 | Two checkouts are hashed from equal bytes if and only if the same is found at the same paths |
| ManifestEncoding.HashCheckout | src/agent_flow/worktrees.py:703-746 | The loop hashes exactly the manifest of what it found, and raises exactly for an unsafe path or an unsupported entry |
| ManifestEncoding.RecordAt | src/agent_flow/worktrees.py:708-740 | The record has the kind, mode and digest of what was found |
| RuntimeTree.TreeRoundTrip | src/agent_flow/focused_sandbox.py:83-140 | Root mode and entries are read back from the bytes that are hashed |
| RuntimeTree.TreeIsUnambiguous | src/agent_flow/focused_sandbox.py:83-140 | Equal bytes if and only if equal modes, paths, link targets, sizes and contents |
| RuntimeTree.SizesMustMatch | src/agent_flow/focused_sandbox.py:118-139 | Without the agreement of size and contents two different trees would be hashed from equal bytes |
| RuntimeTree.HashTree | src/agent_flow/focused_sandbox.py:86-140 | Hashes exactly the tree that was walked, and refuses exactly past a bound or for a file that changed |
| RuntimeTree.DigestWalk | src/agent_flow/focused_sandbox.py:96-139 | The walk's loop, with its bounds checked entry by entry, feeds exactly the entries in order |
| RuntimeTree.DigestContents | src/agent_flow/focused_sandbox.py:123-128 | Reading a file in pieces feeds exactly its contents |
| SchemaClosing.ClosedIsStrict | src/agent_flow/codex_worker.py:127-145 | In every closed schema, at every depth: no default, each object has additionalProperties false and requires exactly its property names |
| SchemaClosing.UnchangedIffStrict | src/agent_flow/codex_worker.py:127-145 | A pass leaves a schema as it is if and only if it is strict; a second pass changes nothing |
| SchemaClosing.CloseSucceedsIff | src/agent_flow/codex_worker.py:137-142 | A pass raises exactly when, outside defaults, some `properties` is not a dictionary |
| SchemaClosing.OtherMembersAreKept | src/agent_flow/codex_worker.py:127-145 | Every other key of a dictionary keeps its value, closed, and none is invented |
| SchemaClosing.ItemsAreKept | src/agent_flow/codex_worker.py:128-131 | Every item of a list stays in its place, closed |
| SchemaClosing.OnlyObjectsGainKeys | src/agent_flow/codex_worker.py:134-145 | A dictionary that is no object only loses its default and keeps the order of its keys |
| SchemaClosing.EveryDeclaredIsRequiredIff | src/agent_flow/codex_worker.py:114-145 | The declared properties are the required ones if and only if none is named default and the properties do not look like an object without an object's keys |
| SchemaClosing.PropertyNamedDefaultIsLost | src/agent_flow/codex_worker.py:134-145 | A schema whose one property is named default closes to one without properties, whatever that property was |
| SchemaClosing.PropertyNamedPropertiesGainsKeys | src/agent_flow/codex_worker.py:137-142 | A schema whose one property is named properties closes to one that requires three |
| SchemaClosing.CloseObjects | src/agent_flow/codex_worker.py:127-145 | The recursive pass with its loops computes the closing |
| SchemaClosing.CloseValues | src/agent_flow/codex_worker.py:134-136 | The default is dropped and the other values are closed in order |
| OperationRecovery.ExpiredCompletionIsEarned | src/agent_flow/worktrees.py:1303-1381 | Every completion of an expired operation, also one whose call raises after committing, comes after its artifacts matched path and hash and were recorded and its Git state was inspected, and after an active guardian's whole group had been seen gone and its row cleared; a completion returns if and only if the result is releasable, as the last act |
| OperationRecovery.RetryCompletionIsEarned | src/agent_flow/worktrees.py:1383-1494 | The same of a retry, for the row that it resumed |
| OperationRecovery.ManagedWorktreeManager.ReconcileExpired | src/agent_flow/worktrees.py:1303-1381 | One result per claimed operation, in order, unless the quarantine of one is interrupted; each other than by completion ends in a quarantine attempt |
| OperationRecovery.ManagedWorktreeManager.RecoverExpired | src/agent_flow/worktrees.py:1313-1380 | One operation: completed with a releasable result, quarantined, or interrupted while quarantining |
| OperationRecovery.ManagedWorktreeManager.RetryQuarantinedProcesses | src/agent_flow/worktrees.py:1383-1494 | One result per claimed operation, in order, unless a reconcile raises; each is completed or ends by quarantine, by giving the retry up, or unable to read which |
| OperationRecovery.ManagedWorktreeManager.RetryQuarantined | src/agent_flow/worktrees.py:1394-1493 | One retry: a stopped guardian counts as gone, an active one must be released and cleared before anything is adopted |
| OperationRecovery.ManagedWorktreeManager.Adopt | src/agent_flow/worktrees.py:1687-1742 | Artifacts, then inspection, then completion of that very kind; anything that raises before leaves nothing completed |
| OperationRecovery.ManagedWorktreeManager.RecoverArtifacts | src/agent_flow/worktrees.py:1744-1793 | Artifacts are recorded only at the configured paths and with the persisted hashes where there are any |
| SeatbeltQuote.QuoteRoundTrip | src/agent_flow/focused_sandbox.py:354-357 | A quoted value is read back exactly, whatever follows it; a NUL is refused |

## Left out

- `codex_worker.py` launch and reap (`run`, `_terminate`, `_owned_group_state`): a second copy of the guarded launch in asynchronous form, without cancellation checks before the write and with a further inspection before each signal; of it only the abort path that clears without a look at the group is modelled, on top of the guarded launcher (`AbortedRelease.AbortIsSafeIff`).
- GuardedRunner.Host.InspectStableGuardian: answers any identity here; what an identity returned by the real loop has been through is `StableGuardian.InspectStableGuardian`.
- RestartSafety.NoRequeueWhileTargetLives: assumes that descendants stay in their process group and that an empty listing is an atomic snapshot; the Darwin runtime inspects members one by one (`DarwinProcessRuntime`, ctypes), which is not covered.
- SQLite: transactions are atomic functions on tables; connections, migrations, retries and clocks are not modelled.
- ReleaseFence.FencedByteIsAuthorized: of the fence's checks it has the lease, the pinned admission's status and job, and the active row's identity and target; the admission's bindings, the prepared execution and the provider only refuse more. The browser and database callers leave out an argument of `_assert_attempt_collector_admission` (storage.py:6748, 6781) and so always raise; a fence may refuse here at any time.
- Store guards that only refuse more: resources, approvals, managed worktree bindings, resume authorisation, campaign limits, legacy rows, pagination of the recovery batch.
- Scheduler.Scheduler.ExecuteClaim: the worker, the heartbeat task and the store are a record of answers, and a claim's settlement is one event at its end; during a shutdown tasks end in slot order.
- ClaimAccounts.EveryClaimIsAccounted: the scheduler keeps the exceptions alone; that each is some claim's is kept beside it. A claim that breaks the store's promise raises out of the tick before any slot is lent to it.
- ClaimLoop.ServedWithinThreeClaimingTicks: assumes that storage hands out claims for the slot it was asked for; `run_until_quiescent` is not modelled.
- Heartbeat.RunHeartbeat: store calls take no time, and the loop is followed for a given number of beats.
- Reconciler.ReconcileTimeBound: system calls take no time; time is in whole units.
- WebSocket.Connection.ReceiveText: a socket timeout, which ends any of these calls with its exception, and UTF-8 decoding, which is a parameter; `struct.pack` refuses payloads of 2^64 bytes, which `SendFrame` requires not to be asked for.
- JsonlCapture.Capture.Consume: JSON and UTF-8 decoding of a line is a parameter; file permissions and failures of the artifact file are not modelled.
- ManifestEncoding.HashCheckout: the listing of `git ls-files` comes sorted and without duplicates; SHA-256 is a parameter, and lengths stay below 2^64, where `to_bytes` raises.
- RuntimeTree.TreeIsUnambiguous: needs each file's contents to have the size that `lstat` said, which the second `lstat` of the source makes true of a file that is not being rewritten.
- SchemaClosing.CloseObjects: the source rewrites a deep copy in place; the model returns the rewritten value, so sharing of subtrees inside one schema is not captured.
- OperationRecovery.ManagedWorktreeManager.Adopt: the Git inspections of `_reconcile_creation` and `_reconcile_removal` are one step that may fail; the store's own checks of their results are not modelled.
- GuardedRunner.GuardedCommandRunner.Run: starting the capture and status threads does not fail; environment, working directory and output decoding are not modelled.
- Text fields, evidence metadata and identifiers beyond equality; command line, tables, watch loop, Git itself, Seatbelt semantics, Chrome and HTTP.
- `database_collector.py`, `focused_tests.py`, `browser_runtime.py`, `workers.py`, `evidence_pipeline.py`, `real_proof.py`: field checks, delegation and sequencing that would only add easy members.
