# Codex dispatch: verified models

A Dafny 4.11 project beside the dispatch broker and its review and plan scripts. Each module models one part of the
system, keeps its branches, constants and error cases, and proves what that part is for. `dafny verify dfyconfig.toml`
checks everything.

- `TurnPump`, `Multiplexer`, `Calls`: the shared `codex app-server` stream. One reader goroutine feeds a pump per turn;
  StartTurn, Cancel and the consumer run beside them. Every goroutine is a program counter and every channel operation,
  atomic access or mutex section one step, so a property of all behaviours is a property of all interleavings.
- `TaskTable`, `StatusTable`, `EventRing`, `Durability`: the task table with its eviction, in-place order slice, event
  ring and disk archive. `TaskTable` gives each critical section as a function, `StatusTable` and `EventRing` are the
  mutable implementations proved against it, and `Durability` runs it through failed writes, crashes and restarts.
- `Lifecycle`: the handlers of dispatch.run and task.start, from admission to exit, composed with the task table and one
  turn machine each, against task.cancel, context cancellation, deadlines, child death and storage failure.
- `Lines`, `Chunks`: newline framing over any buffer size; oversized events cut into chunk frames and put together again.
- `Claims`, `ClaimStore`: file leases with fencing tokens, as functions and as the mutable store that computes them.
- `Closure`: the recursive, quota-bound copy of every object a git index refers to.
- `Review`: the review controller, the receipt ledger and the validator of finished reviews.
- `Plan`, `FanIn`, `Handoff`: packet scheduling, multi-file apply with rollback, and the background handoff protocol.

Common assumptions. Task, claim and run identifiers are fresh. A failed archive write leaves the old archive entry. One
critical section reads the clock once. A Go panic is a sticky flag that is proved never to be set. JSON and git encodings
are opaque: a message is the value it encodes, and equal digests mean equal content. Failing I/O, clocks and other
processes are parameters that choose an outcome at each step.

Where the code falls short of its stated intent, the code is modelled as it is, the shortfall is shown by a lemma, and the
exact condition under which the intent holds is proved: `Multiplexer.StartIsHarmlessIffQuiescent` (a turn is removed by
thread id, not identity), `Lifecycle.DeadlineAgreesIffNotCancelled` (the deadline arm ignores a refused transition),
`Durability.DeregisterIsDurableIff`, `Durability.DeregisteredSurvivesRestartIff` and
`Durability.SurvivesRestartIffNotPinned` (a session deregistration, or a quiet cancel of a task whose write failed, is not
durable), `Claims.GrantKeepsTightIff` and `Claims.TokensRiseIffNoOlderRevival` (claim renewal),
`Handoff.ReleasedIsReportedIff` (an exception after the commit), `Handoff.AbortedMeansDrained` (a signal inside the owner's
finally block), `Handoff.ReportIsTrueIffSeen` (a commit written too late) and `Lines.FrameReadsBackIff` (a body that ends in
CR). When the commit is written, and where a signal strikes, no caller can know beforehand; what a caller can check
afterwards is the owner's exit code (`Handoff.ReportIsTrueIffOwnerExitsZero`).

Where code and comment disagree, the code is followed: eviction is by insertion order although a comment on the policy says
by finishing time (`internal/broker/tasks.go`), and fencing tokens do not rise per path although the claim type's comment
says so (`internal/broker/claims.go`).

## Model

| member | source | states |
|---|---|---|
| TurnPump.NeverPanics | internal/codex/appserver/appserver.go:325-416 | in every interleaving, also of a turn whose entry another turn of its thread deletes, no channel is sent on after its close or closed twice |
| TurnPump.DeliveredInOrder | internal/codex/appserver/appserver.go:377-416 | delivered events are an in-order subsequence of the routed frames, with at most one loss marker |
| TurnPump.UncancelledDelivery | internal/codex/appserver/appserver.go:356-416 | an uncancelled closed turn was sent every accepted frame, one loss marker exactly if a non-terminal frame was dropped, and its verdict even when the inbox overflowed |
| TurnPump.ReportIsVerdict | internal/codex/appserver/appserver.go:345-416 | a result is the decoded turn/completed or codex-exited turn, and only a cancelled turn closes without one |
| TurnPump.VerdictIsFinal | internal/codex/appserver/appserver.go:608-629 | once the pump leaves through the closed inbox, the stored final turn is the verdict of the routed frames |
| TurnPump.ReaderNeverBlocks | internal/codex/appserver/appserver.go:631-639 | a reader inside a turn always has a next step, whatever the pump and the consumer do |
| TurnPump.StepKeepsInv | internal/codex/appserver/appserver.go:590-677 | the invariant behind all of these is kept by each of the steps of reader, pump, StartTurn, Cancel and consumer |
| TurnPump.DisownKeeps | internal/codex/appserver/appserver.go:1203-1207 | and by another turn of the same thread deleting or replacing the entry |
| TurnPump.StepKeepsOwned | internal/codex/appserver/appserver.go:590-677 | without such a deletion a live turn never leaves the routing table |
| TurnPump.InternalIsUntouched | internal/codex/appserver/appserver.go:1247-1260 | without the consumer or a Cancel call the result stays in its channel, the canceller stays idle and a done turn is routed nothing |
| Multiplexer.ProjectedRun | internal/codex/appserver/appserver.go:590-677 | what a run that starts turns only on quiescent threads does to one of them is a run of the single-turn machine alone on its thread |
| Multiplexer.ProjectedSharedRun | internal/codex/appserver/appserver.go:590-677 | what any run does to one of its turns is a run of that machine with its entry at the mercy of others, so the TurnPump results hold of every turn |
| Multiplexer.StepKeepsSharedInv | internal/codex/appserver/appserver.go:590-677 | table, single reader and every turn stay consistent over every step, threads reused at will |
| Multiplexer.FrameMovesOneThread | internal/codex/appserver/appserver.go:600-607 | in any run a frame for one thread moves no turn of another |
| Multiplexer.CarefulNeverOrphans | internal/codex/appserver/appserver.go:1202-1209 | if turns start only on quiescent threads, no live turn is ever missing from the routing table |
| Multiplexer.CarefulStepKeepsInv | internal/codex/appserver/appserver.go:590-677 | table, thread order and the single reader stay consistent over every step of such a run |
| Multiplexer.StartIsHarmlessIffQuiescent | internal/codex/appserver/appserver.go:1202-1209 | starting a turn can never lead to a lost turn exactly when every earlier turn of the thread is past its deletes |
| Multiplexer.QuiescentStartIsHarmless | internal/codex/appserver/appserver.go:1202-1209 | one direction, over every continuation |
| Multiplexer.UnquietStartCanOrphan | internal/codex/appserver/appserver.go:1247-1252 | the other direction, with the run that loses the turn |
| Multiplexer.CancelUnderWayIsReachable | internal/codex/appserver/appserver.go:1247-1252 | a turn whose Cancel has marked it done and not yet deleted it is reachable |
| Multiplexer.ReuseOrphansATurn | internal/codex/appserver/appserver.go:1203-1207 | from there StartTurn accepts the thread again and the old Cancel deletes the new turn's entry |
| Calls.ReaderNeverBlocks | internal/codex/appserver/appserver.go:498-503 | every channel in `pending` and the one in the reader's hand is empty, so delivering a response never blocks and the error sent after the child dies is never dropped |
| Calls.NoCallIsForgotten | internal/codex/appserver/appserver.go:699-734 | a waiting call is pending, in the reader's hand or answered until the reader exits, and then it is unblocked |
| EventRing.Ring.constructor | internal/broker/tasks.go:352-361 | a fresh ring replays the empty log |
| EventRing.Ring.Append | internal/broker/tasks.go:570-589 | an append extends the full log by one event with the next sequence number |
| EventRing.Ring.EventsSince | internal/broker/tasks.go:622-651 | walking the ring backwards returns what the contract over the full log says |
| EventRing.ReplayIsExact | internal/broker/tasks.go:591-621 | events since s are exactly log entries s to total when s is at least max(1, total-ring+1), lost below, none above |
| EventRing.CatchUp | internal/broker/tasks.go:617-621 | asking from the last seen number plus one yields the unseen tail or the lost signal, never a silent gap |
| TaskTable.EvictIsSafe | internal/broker/tasks.go:690-729 | a pass removes only unpinned terminal records, keeps survivors unchanged and in order, and keeps order and keys equal |
| TaskTable.CapPassIsSafe | internal/broker/tasks.go:708-728 | the same for the cap pass alone |
| TaskTable.CompactKeeps | internal/broker/tasks.go:744-756 | compaction keeps exactly the ids still in the table, without duplicates |
| TaskTable.CompactInOrder | internal/broker/tasks.go:744-756 | and in their insertion order |
| TaskTable.DropOldestSafe | internal/broker/tasks.go:715-727 | the cap loop never drops a queued, running or pinned record |
| TaskTable.DropOldestFirst | internal/broker/tasks.go:715-727 | a dropped record leaves no older evictable one behind |
| TaskTable.DropOldestCount | internal/broker/tasks.go:714-727 | the loop drops exactly the excess, or every evictable record if there are fewer |
| TaskTable.CapHolds | internal/broker/tasks.go:708-728 | a pass over too many terminals leaves exactly max(cap, pinned terminals) of them |
| StatusTable.StatusTable.CompactOrder | internal/broker/tasks.go:744-756 | sliding survivors down in the shared backing array computes the compaction, and the tail is cleared |
| StatusTable.StatusTable.AppendOrder | internal/broker/tasks.go:367-367 | appending to the slice, reallocating or not, adds one id at the end |
| StatusTable.StatusTable.EvictTerminal | internal/broker/tasks.go:690-729 | the two in-place passes compute the eviction that TaskTable proves safe |
| StatusTable.StatusTable.DropExpired | internal/broker/tasks.go:696-704 | deleting while ranging over the map removes exactly the expired records |
| StatusTable.StatusTable.DropOldestTerminals | internal/broker/tasks.go:714-727 | the cap loop computes the oldest-first drop |
| StatusTable.StatusTable.CountTerminals | internal/broker/tasks.go:732-740 | counting over the map in any order gives the number of terminal records |
| StatusTable.StatusTable.PersistRecord | internal/broker/task_store.go:123-162 | one archive write: stored, or the record spoiled and pinned and admission closed |
| StatusTable.StatusTable.FinishRecord | internal/broker/tasks.go:416-427 | a terminal transition persists before it evicts |
| StatusTable.StatusTable.AdmitTask | internal/broker/tasks.go:332-372 | admission computes the specified outcome: refused after a storage failure, full at 64, not inserted when its write fails |
| StatusTable.StatusTable.Run | internal/broker/tasks.go:383-402 | queued to running |
| StatusTable.StatusTable.Complete | internal/broker/tasks.go:405-427 | running to done |
| StatusTable.StatusTable.Fail | internal/broker/tasks.go:434-455 | queued or running to errored |
| StatusTable.StatusTable.CancelTask | internal/broker/tasks.go:461-512 | cancellation in its two forms, which differ in exit code and in the answer for a terminal task |
| StatusTable.StatusTable.Deregister | internal/broker/tasks.go:771-794 | cancels exactly the session's queued tasks, returns their ids, and writes nothing |
| StatusTable.StatusTable.RecoverEntry | internal/broker/task_store.go:48-69 | one archive entry: an unfinished task becomes errored/125 and is written back before it is listed |
| StatusTable.StatusTable.RecoverAll | internal/broker/task_store.go:44-71 | recovery of the whole directory, stopping at the first failed write |
| Durability.TerminalOutcomeIsDurable | internal/broker/tasks.go:405-512 | once a terminal transition returns success, every later broker answers the same state, exit code, session, fallback flag and message for that task |
| Durability.EvictionIsInvisible | internal/broker/tasks.go:514-525 | an eviction pass changes no status answer |
| Durability.FinishedAnswerStays | internal/broker/tasks.go:514-525 | while one broker runs, no terminal answer changes, even one whose write failed: the stale archive cannot resurface |
| Durability.RestartOutcome | internal/broker/task_store.go:17-72 | after a restart finished tasks answer as archived and unfinished ones errored/125, never done, whatever was evicted during recovery or failed |
| Durability.RecoverKeeps | internal/broker/task_store.go:44-71 | the same over the recovery loop, for any entry order and any pattern of write failures |
| Durability.SurvivesRestartIffNotPinned | internal/broker/task_store.go:150-160 | a terminal answer survives a crash and restart exactly when no failed write pinned the record |
| Durability.ApplyKeeps | internal/broker/tasks.go:332-512 | every critical section keeps memory and archive in agreement and reopens no finished task |
| Durability.StepKeepsInv | internal/broker/task_store.go:17-72 | as do crashes and restarts |
| Durability.EndingSettles | internal/broker/tasks.go:405-512 | a successful terminal transition leaves the promised record both visible and archived |
| Durability.FinishedEntryIsNotRewritten | internal/broker/task_store.go:123-162 | the archive entry of a finished task is never written again |
| Durability.DeregisterKeepsAgreementIff | internal/broker/tasks.go:771-794 | deregistration keeps memory and archive in agreement exactly when the session has no queued task |
| Durability.DeregisteredTaskResurfaces | internal/broker/tasks.go:787-792 | in any table, a task it cancelled can be evicted by the next pass and then answers queued again |
| Durability.EvictionKeepsAnswerIff | internal/broker/tasks.go:771-794 | the answer for a task survives every later eviction pass exactly when the deregistration did not cancel it |
| Durability.DeregisterIsDurableIff | internal/broker/tasks.go:771-794 | all answers survive every eviction pass exactly when the session has no queued task |
| Durability.DeregisteredSurvivesRestartIff | internal/broker/tasks.go:771-794 | a finished answer survives a crash and restart exactly when its record is not pinned and the deregistration did not cancel it |
| Durability.EventCountLags | internal/broker/task_store.go:127-129 | an event appended after the last write is not in the archived count |
| Lifecycle.NoFalseSuccess | internal/broker/handlers_dispatch.go:275-401 | a client sees exit 0 only if turn/completed with status completed was routed to that turn and the task is done with exit 0 in table and archive; the client's own mapping of the result (`internal/codex/codex.go`, lines 105 to 119) is included, and so is early reuse of the thread by another turn |
| Lifecycle.CancelIsFinal | internal/broker/handlers_task.go:158-180 | once task.cancel has taken effect, even with a failed write, no later result for the task is done |
| Lifecycle.LiveCloseIsCompletion | internal/broker/handlers_dispatch.go:444-476 | events that close under a live context were closed by the reader, and the collected turn is the verdict of the routed frames |
| Lifecycle.NoStuckWork | internal/broker/handlers_dispatch.go:119-169 | every unfinished task has a handler that has not left it, and a running one holds a slot |
| Lifecycle.RunningIsBounded | internal/broker/handlers_broker.go:53-77 | slots taken equal handlers between acquire and release, running tasks stay within the cap and unfinished ones within 64 |
| Lifecycle.WireMatchesTable | internal/broker/handlers_dispatch.go:275-401 | a returned result has the table's state and exit code, for the deadline arm up to a concurrent cancellation |
| Lifecycle.DeadlineAgreesIffNotCancelled | internal/broker/handlers_dispatch.go:295-311 | the deadline result and the table agree on the state exactly when the task was not already cancelled, and on state and exit code exactly when besides the write of MarkErrored succeeded |
| Lifecycle.DeadlineCanMissCancel | internal/broker/handlers_dispatch.go:295-311 | from every state in which a running task is drained, three steps lead to the disagreement |
| Lifecycle.RecoveredBrokerIsIdle | internal/broker/task_store.go:44-71 | a broker recovered from any archive starts with no unfinished task |
| Lifecycle.TransitionEffect | internal/broker/tasks.go:383-512 | what each transition does to a query's answer, when it is allowed, refused or fails to persist, and that no other answer moves |
| Lifecycle.ClosedByReader | internal/broker/handlers_broker.go:114-132 | the step from the ordering of context cancel and handle cancel to the reader as the closer |
| Lifecycle.StepByKeepsInv | internal/broker/handlers_dispatch.go:119-401 | the invariant is kept by every step of every handler and of its surroundings |
| Lifecycle.CommitKeeps | internal/broker/handlers_dispatch.go:540-590 | every arm, dispatchFailure included, leaves the task terminal with a result that matches |
| Lines.Reader.ReadSlice | internal/broker/rpc.go:216-216 | the buffered slice a line is assembled from: through the newline, a full buffer, or the rest |
| Lines.Reader.ReadLine | internal/broker/rpc.go:213-254 | for any buffer size the result is the next line of the input as specified without a buffer, and the rest follows |
| Lines.FrameReadsBackIff | internal/broker/rpc.go:116-131 | a newline-free body framed with LF reads back unchanged exactly when it does not end in CR |
| Lines.StreamReadsBack | internal/broker/rpc.go:213-254 | a stream of frames reads back as its bodies, in order, with nothing left over |
| Chunks.MarshalTaskEventChunks | internal/broker/rpc.go:158-209 | the restart-and-halve loop terminates with the event cut at the first halving at which every frame fits, or fails below one byte |
| Chunks.MarshalNotificationFrames | internal/broker/rpc.go:144-156 | every chunk frame is within the message bound, and an error means not even single bytes fit |
| Chunks.PiecesCover | internal/broker/rpc.go:172-197 | the pieces number ceil(length/size), none is empty, and they join to the payload |
| Chunks.ChunkIdIsInjective | internal/broker/rpc.go:173-173 | distinct task and sequence pairs have distinct chunk ids |
| Chunks.Reassembler.AddChunk | internal/broker/client.go:257-303 | one chunk: the seven answers in their order and the assembly kept, extended or removed |
| Chunks.RoundTrip | internal/broker/client.go:229-303 | under any order-preserving interleaving each event is delivered once with its exact payload, no frame is rejected and no assembly is left |
| Chunks.NextPart | internal/broker/client.go:270-303 | the next part of a stream that is on track is accepted and completes it exactly at the last one |
| Chunks.DeliveredIsGapFree | internal/broker/client.go:257-303 | whatever chunks arrive, a delivered event is the gap-free concatenation of arrived chunks with constant metadata |
| Claims.StepKeepsInv | internal/broker/claims.go:78-272 | every indexed path points to a live claim that lists it, and tokens are unique and below the next one |
| Claims.AcquireFailsExactlyOnConflict | internal/broker/claims.go:110-172 | acquire fails exactly when a requested path has another live holder, with the exact list, and otherwise grants all paths |
| Claims.ConflictsAreExact | internal/broker/claims.go:110-132 | the conflict list holds each such path once per request entry with its holder's data, and nothing else |
| Claims.PathChangesOnlyByReleaseOrExpiry | internal/broker/claims.go:78-272 | a path leaves its claim only when that claim expires or its owner releases it with the current token |
| Claims.FreshTokenIsNew | internal/broker/claims.go:160-171 | only a fresh claim takes a new token; every other step keeps the tokens of the claims it keeps |
| Claims.FreshTokenExceedsAllBefore | internal/broker/claims.go:160-171 | over a run a fresh claim's token exceeds that of every claim ever live before |
| Claims.GrantKeepsTightIff | internal/broker/claims.go:134-158 | acquire keeps every listed path indexed to its lister exactly when the request does not span two claims |
| Claims.TightMeansExclusive | internal/broker/claims.go:78-172 | and then no two claims list a common path |
| Claims.OneClaimEachNeverShares | internal/broker/claims.go:78-272 | so if owners never hold two live claims, no run ever shares a path |
| Claims.RenewalListsAnIndexedPath | internal/broker/claims.go:146-157 | renewing one of two claims with a path of the other makes both list it |
| Claims.RenewalCanShareAPath | internal/broker/claims.go:146-157 | after the other is released a stranger acquires the path and claims of two owners list it |
| Claims.TokenRisesIffClaimIsYounger | internal/broker/claims.go:146-157 | decided before the call: a newly indexed path gets a higher token than an earlier one exactly when no requested path is the owner's yet or the claim of the first such path was issued later |
| Claims.TokensRiseIffNoOlderRevival | internal/broker/claims.go:17-19 | over a run, tokens never fall per path exactly when no renewal adds a free path to a claim older than one that held that path before |
| Claims.IndexedToken | internal/broker/claims.go:138-171 | after a step a path carries the token it had, a fresh one, or that of the claim a renewal added it to |
| Claims.TokenCanFall | internal/broker/claims.go:17-19 | a path added by renewal can go back to an older token |
| ClaimStore.ClaimStore.AcquireClaim | internal/broker/claims.go:78-172 | the in-place acquire computes the specified store and answer, error checks first |
| ClaimStore.ClaimStore.ReleaseClaim | internal/broker/claims.go:177-199 | release with its three refusals |
| ClaimStore.ClaimStore.RenewClaim | internal/broker/claims.go:201-221 | renew with its three refusals |
| ClaimStore.ClaimStore.ValidateForTask | internal/broker/claims.go:240-258 | succeeds exactly when every listed claim is live and held by the session |
| ClaimStore.ClaimStore.ExpireAll | internal/broker/claims.go:260-272 | expiry in any map order removes exactly the expired claims and their index entries |
| ClaimStore.ClaimStore.Merge | internal/broker/claims.go:284-297 | merging keeps the first list and appends what is new, once |
| ClaimStore.ClaimStore.FindConflicts | internal/broker/claims.go:110-132 | the conflict loop computes the exact list |
| Closure.CopyIndexObjectClosure | internal/diff/snapshot.go:285-392 | on success the sorted manifest is exactly the set of reachable objects, each copied unchanged, within both quotas; unless a git or clock step fails, it is refused exactly when the index does not parse or is too long, a reachable object or tree entry is unsupported, or the reachable objects exceed a quota |
| Closure.Copier.CopyObject | internal/diff/snapshot.go:301-365 | the recursion terminates on shared and cyclic stores, marks before walking, and closes every tree it leaves; a failure names the unsupported object, the list over quota, or the step that failed |
| Closure.SuccessExcludesRefusal | internal/diff/snapshot.go:308-326 | a successful copy leaves no malformed record, no unsupported reachable object and no excess over a quota |
| Closure.ClosedContainsReachable | internal/diff/snapshot.go:342-364 | a set closed under tree entries that holds the roots holds everything reachable |
| Closure.SortSorts | internal/diff/snapshot.go:383-383 | the manifest order: ascending, with the same members |
| Review.ValidateHistory | scripts/api-review.py:214-275 | the one-pass validator accepts exactly the histories whose every row, archive folder and report are in order |
| Review.Receipt.Collect | scripts/review-evidence.py:217-260 | the ledger admits a dispatch only on a complete chain within budget, resuming nothing or the last session |
| Review.Receipt.Judge | scripts/api-review.py:129-169 | one archived judgment per iteration, returned only when the decision is valid |
| Review.Receipt.Control | scripts/api-review.py:180-211 | every completed controller run leaves a history and report the validator accepts, and it fails only where the last recorded dispatch or judgment raises |
| Review.AcceptedHistoryReplays | scripts/api-review.py:224-272 | for any accepted history, replaying the controller stops at its last iteration with the same verdict, reason and feedback |
| Review.AcceptsIffReplayEndsThere | scripts/api-review.py:258-272 | a well-linked history is accepted with a report exactly when the replayed controller ends there with it, exhausted before not-converging |
| Review.AcceptedReportIsUnique | scripts/api-review.py:269-271 | a ledger and archive admit one report only |
| Review.RepairExtends | scripts/api-review.py:202-209 | a repair dispatch extends a valid chain |
| Plan.CheckGraph | scripts/graphrag-plan-runner.py:767-784 | the recursive check reports no error exactly when every dependency is known and the graph is acyclic |
| Plan.Checker.Visit | scripts/graphrag-plan-runner.py:769-782 | one visit keeps the stack a walk, and without errors leaves the packet listed after its dependencies |
| Plan.SelectWave | scripts/graphrag-plan-runner.py:709-736 | the wave is the deterministic greedy choice: in order, conflict-free, within max(1, jobs), and never empty |
| Plan.GreedyIsWave | scripts/graphrag-plan-runner.py:721-730 | the greedy choice takes packets in order, pairwise disjoint in paths |
| Plan.GreedyIsMaximal | scripts/graphrag-plan-runner.py:723-730 | a packet is deferred only for a packet already chosen or a full wave |
| Plan.RunWaves | scripts/graphrag-plan-runner.py:870-898 | the loop terminates and runs each uncached packet at most once; the run is the conflict-free waves one after the other, and when a wave starts every dependency of its packets is cached or has passed in an earlier wave |
| Plan.OneWaveEach | scripts/graphrag-plan-runner.py:869-898 | a packet ran exactly if it is in a wave, and then in one wave only, once |
| Plan.RunPlan | scripts/graphrag-plan-runner.py:739-916 | the blocked set is the least one closed under failed or blocked dependencies, the waves are those of RunWaves, and status is pass exactly when every packet passed or was cached |
| Plan.BlockedIsClosed | scripts/graphrag-plan-runner.py:871-880 | every uncached packet with a failed or blocked dependency is blocked |
| Plan.BlockedIsLeast | scripts/graphrag-plan-runner.py:871-880 | and no others |
| Plan.FinalStatus | scripts/graphrag-plan-runner.py:910-910 | the status read off the records |
| FanIn.Checkout.Preflight | scripts/graphrag-fanin.py:80-89 | accepted exactly when every destination is allowed, safe, clean and as captured |
| FanIn.Checkout.Apply | scripts/graphrag-fanin.py:72-148 | with any step failing and nobody else writing, either every destination is as planned or, if no rollback step fails, the whole tree is as before; with another writer only before and after states are ever overwritten |
| FanIn.Checkout.MakeParents | scripts/graphrag-fanin.py:106-113 | missing parents are created outermost first and recorded |
| FanIn.Checkout.Restore | scripts/graphrag-fanin.py:126-141 | undoing in reverse restores every file and leaves alone a destination in neither state |
| FanIn.Checkout.RemoveCreated | scripts/graphrag-fanin.py:142-146 | created directories are empty again and removed |
| FanIn.UndoOne | scripts/graphrag-fanin.py:127-141 | what a rollback step finds, and that it returns to the stage before |
| FanIn.LastCreatedIsEmpty | scripts/graphrag-fanin.py:142-146 | removal in reverse always meets an empty directory |
| Handoff.NoExitWithoutDrain | scripts/owned_process.py:128-141 | an owner exits without a drain attempt exactly when it recognised the supervisor's commit to that very task, or a signal reached it inside its finally block before signals were ignored |
| Handoff.ReleasedIsReportedIff | scripts/execution_policy.py:154-195 | a released task is reported as transferred exactly when no step of the supervisor after the commit write raised |
| Handoff.ReleasedWithoutReport | scripts/execution_policy.py:156-162 | a run in which the callback or the outcome file raises after the commit: the owner releases and nothing is reported |
| Handoff.AbortedMeansDrained | scripts/execution_policy.py:122-136 | an owner whose supervisor gave up before committing has attempted a drain exactly when no signal reached it inside its finally block |
| Handoff.AbortedWithoutDrain | scripts/owned_process.py:128-130 | a run in which the supervisor's own signal strikes there, and a task never committed is left undrained |
| Handoff.ReportIsTrueIffSeen | scripts/owned_process.py:133-137 | a reported transfer is a release exactly when the task id fits one pipe read, the commit was not written after the owner's last look, and no signal discarded its read or broke its finally block |
| Handoff.ReportIsTrueIffOwnerExitsZero | scripts/owned_process.py:134-141 | the report itself tells: the task was released exactly when the owner's exit code in it is zero |
| Handoff.CommitCanBeLate | scripts/execution_policy.py:154-155 | a run in which the owner drains and the supervisor reports the task transferred |
| Handoff.RecognisedMeansSame | scripts/owned_process.py:83-89 | a commit the owner recognises was written for its own task, truncated reads included |

## Left out

- Lifecycle.NoFalseSuccess: session.deregister is not a step of the handler model, so runs with it are covered only by the table lemmas of Durability.
- Lifecycle.RunningIsBounded: each handler has a turn machine of its own, whose entry other turns may delete; that the shared reader does no more to it than that is Multiplexer.ProjectedSharedRun.
- Lifecycle.WireMatchesTable: persistence is on, as the broker command always enables it; a table without a store, as bare tests use it, is not modelled.
- Durability.TerminalOutcomeIsDurable: prompts and event counts are not compared, because the archive keeps neither current; runs contain no session.deregister.
- Durability.RestartOutcome: unreadable or foreign archive files, which stop recovery before serving, are not modelled.
- EventRing.Ring.Append: a recovered record has no ring slot and an append to it would index out of range; no handler holds such a task, and the method requires a slot.
- TurnPump.UncancelledDelivery: says what was sent once the channels are closed; that they eventually close depends on scheduling and is not claimed.
- Calls.NoCallIsForgotten: ends at an enabled step, without a fairness assumption.
- Chunks.MarshalTaskEventChunks: the length of a frame around its payload is an arbitrary function, so JSON escaping is not computed.
- Chunks.RoundTrip: JSON decoding of frames is the identity on their values.
- Lines.Reader.ReadLine: read errors other than the end of input are not modelled.
- Claims.AcquireFailsExactlyOnConflict: path normalisation is done by the caller; a rejected path is a distinguished value.
- ClaimStore.ClaimStore.FindConflicts: the clean-up of stale index entries is absent, because the invariant proves there are none.
- Closure.CopyIndexObjectClosure: object ids are integers in their sorting order, and git commands either give the stored object or fail.
- Review.Receipt.Control: fixed request fields, token usage and file hashes are not compared; run directories are distinct.
- Plan.SelectWave: the fallback for an empty wave is proved unreachable instead of being written out.
- Plan.RunPlan: duplicate ids, contract and path errors, cancellation by signal and the on-disk ledger are not modelled; whether a packet passes is an arbitrary function, read at most once per packet.
- FanIn.Checkout.Apply: an asynchronous interrupt between creating a directory and recording it is not a step; the worktree does not change, and special files are directories to it.
- Handoff.NoExitWithoutDrain: SIGKILL is excluded, and draining is one step that ends in an attempt; the record file's contents are not modelled, only that writing it can raise.
- The HTTP transport, authentication, discovery file, MCP server, hooks and command line: plumbing around these parts.
- Process groups, job objects, sandbox and confinement checks: foreign calls.
- The PID file and idle timer: their claims rest on operating-system races.
- Version comparison, result encoding, module discovery and gate field checks: easy members.
