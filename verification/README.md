# EffectLatch in Dafny

EffectLatch is a durable scheduler for sandboxed WebAssembly tools. This project models its four
protocols and proves what they keep in every execution.

**Scheduler and lease fencing.** `Store.dfy` is the store as the program runs it: a class whose
methods update rows in place, one transaction per method, and restore them when a transaction is
dropped. `Scheduler.dfy` says as functions what each transaction does to the tables; every method
is proved equal to its function. `Execution.dfy` lets any number of workers, sweepers, owners and
the effect broker interleave these operations with a clock that never runs backwards. Admission,
claim, reap and finish are serialized by the scheduler lock; a heartbeat or a start can fall
between a reaper's choice and its row lock, so a reap is two steps. `Service.dfy` shows that the
class carries out every execution. Each step is one of five changes to the runs (`Deltas.dfy`),
and the invariant (`Rows.dfy`, `Invariants.dfy`, `Reachable.dfy`) is proved from these five.
`Fencing.dfy`, `Lifecycle.dfy`, `Corruption.dfy`, `Fairness.dfy` and `Sweeping.dfy` hold the
results, and `Outcomes.dfy` says exactly when each operation succeeds. `Selection.dfy` says which row
each query picks, and `Terms.dfy` what a worker is told and who may act, in the fields of the rows
and without the names the operations use. `Queries.dfy` and `ClaimWindow.dfy` relate the queries to
their choices.

**Grants and budgets.** `Grants.dfy` has the checks on chains, `Forest.dfy` the paths of the
stored forest, `Budget.dfy` the exact accounting of charges, `Allowances.dfy` and `Operator.dfy`
the results over executions, `Shrinking.dfy` the law of grants field by field.

**Runner and supervisor.** `Abi.dfy` is the host state behind the guest's imports, `Ipc.dfy` the
message order, `RunnerProcess.dfy` the dispatcher, the end of the runner's event loop and the
runner's objects together,
`Supervision.dfy` the supervisor's main loop for an arbitrary child. `Protocol.dfy` composes them
over two pipes with an arbitrary guest and an arbitrary broker. `Permits.dfy` is the protocol of
cleanup permits.

**Hashes and frames.** `Hash.dfy` proves that preimages parse in one way, `Hasher.dfy` that the
hashing loops feed exactly these preimages, `EventChain.dfy` that the event log is tamper evident,
`Frames.dfy` that length-prefixed frames survive any cut of the stream; `Layouts.dfy` spells the
preimages out byte by byte and `Bytes.dfy` has the codecs.
SHA-256 (FIPS 180-4) is a function about which nothing is assumed: a result that needs distinct
hashes shows the two colliding preimages instead.

Effects are created and dispatched, and cancellation is requested, by code outside the modelled
files. These are steps of the environment: a run may be marked cancelled at any time, effects move
only along `EffectState::transition`, and a new effect or a dispatch needs a live lease, as
crates/runtime/src/supervisor.rs:59-61 demands of brokers. All operations use one configuration.

Two properties a reader might expect fail. For each, `Counterexamples.dfy` has a whole execution from
a provisioned database that shows it, and the exact condition is proved. A finish reads the
tenant's counter before the lease fence, so a stale finish is told that the scheduler is corrupt
(`Counterexamples.StaleFinishToldCorrupt`), exactly when its tenant holds no slot
(`Corruption.FinishCorruptExactly`). A heartbeat checks the leaf grant alone, so it is answered after
the root has been revoked (`Counterexamples.RevocationMissed`); renewing agrees with holding the lease
under a live line if and only if the lease is not held, the leaf is dead, or no proper ancestor is
revoked (`Allowances.RenewalAgreesExactly`). No claim succeeds under a revoked ancestor
(`Allowances.RevokedForGood`) and no lease outlives any ancestor (`Allowances.LeaseWithinAncestors`).

## Model

| member | source | states |
|---|---|---|
| Fencing.Fenced | crates/store/src/scheduler.rs:213-292 | once a lease has expired, been released or been superseded, no later heartbeat, start or finish naming its epoch succeeds or changes anything, in any interleaving |
| Fencing.EpochIssuedOnce | crates/store/src/scheduler.rs:180-182 | of two successful claims of one run the later carries the larger epoch, so an epoch is issued to one worker |
| Fencing.RowShowsLatestClaim | crates/store/src/scheduler.rs:171-209 | a run's row always shows the epoch of its latest claim, and while a slot is held that claim's worker |
| Fencing.FinishCarriesLatestClaim | crates/store/src/scheduler.rs:441-528 | a successful finish carries the epoch and the worker of the latest claim of its run |
| Fencing.FinishedOnce | crates/store/src/scheduler.rs:441-528 | after a successful finish no other finish and no claim of the run succeeds |
| Lifecycle.SlotConservation | crates/store/src/scheduler.rs:79-180 | in every reachable state slots are held exactly by leased and running runs, active_count counts them, and the tenant, global and worker limits hold |
| Lifecycle.ReaperSparesLiveLeases | crates/store/src/scheduler.rs:355-383 | a reaper that chose its run earlier takes the slot exactly if the lease has expired when it commits; a renewed lease keeps it |
| Corruption.ClaimCorruptOnlyAtExhaustion | crates/store/src/scheduler.rs:79-172 | a claim reports a corrupt scheduler if and only if the dispatch sequence is used up and a live candidate waits |
| Corruption.ReaperNeverCorrupt | crates/store/src/scheduler.rs:294-437 | neither half of the reaper ever reports corruption |
| Corruption.FinishCorruptExactly | crates/store/src/scheduler.rs:472-490 | a finish reports corruption if and only if it is well formed, the run is visible and its tenant holds no slot |
| Counterexamples.StaleFinishToldCorrupt | crates/store/src/scheduler.rs:472-490 | from a provisioned database: a finish of a run never claimed is told that the scheduler is corrupt |
| Lifecycle.QueueBounds | crates/store/src/scheduler.rs:294-437 | queued runs stay within the global and the tenant's cap although retries are deferred; with deferred retries and held slots, within the caps plus the slots |
| Lifecycle.Readmission | crates/store/src/lib.rs:286-306 | submitting a known key with the same request names the same run and changes nothing however full the queue; with another request it is refused unless the hashes agree |
| Lifecycle.KeyNamesOneRequest | crates/store/src/lib.rs:279-306 | a known key is never answered for a different request unless the two requests collide under SHA-256 |
| Lifecycle.LogReplaysToRow | crates/store/src/lib.rs:691-733 | folding a run's event log gives its stored state, slot, attempt and epoch (the number of lease.claimed events); the log is a hash chain with the stored length and head, of fewer than 8 * max_attempts events |
| Lifecycle.StoredLogTamperEvident | crates/store/src/lib.rs:711-732 | a log that verifies against a run's stored head holds the run's stored rows, or two rows with colliding preimages are exhibited |
| Lifecycle.StoreRefinesDomain | crates/domain/src/state.rs:54-106 | every change of a stored state is a transition the domain machine allows, with `unresolved` computed from the run's effects and no explicit resume |
| Lifecycle.EffectsAgreeWithRuns | crates/store/src/scheduler.rs:332-346 | an effect in flight or unknown belongs to a run that holds a slot or needs reconciliation, and a succeeded run has only settled effects |
| Lifecycle.BoundedLife | crates/store/src/scheduler.rs:384-412 | a run changes state at most 4 * max_attempts - 1 times after admission |
| Fairness.CandidateExists | crates/store/src/scheduler.rs:100-119 | the claim query yields a row exactly when some allowed tenant is eligible |
| Fairness.BoundedOvertaking | crates/store/src/scheduler.rs:100-180 | while a tenant stays eligible and allowed, at most N - 1 successful claims go to the other N - 1 tenants before one goes to it |
| Selection.ClaimTakesOldest | crates/store/src/scheduler.rs:100-111 | in every execution a claim goes to the tenant served longest ago among those listed, below their limits and with a run to take, and to that tenant's earliest created run among the queued, uncancelled ones with an attempt left; ties go to the smaller id |
| Selection.NeverOvertakenLong | crates/store/src/scheduler.rs:100-180 | the same bound on overtaking with servability spelled out in the fields of tenants and runs |
| Selection.WorkIsFound | crates/store/src/scheduler.rs:79-170 | when slots are free and some listed tenant is servable, a claim leases a run or fails one whose grant is dead |
| Sweeping.ReapOneProgress | crates/store/src/scheduler.rs:294-437 | a reap with nothing interleaved shrinks the backlog, or finds no expired lease and only blocked retries and changes nothing |
| Sweeping.TickSettles | crates/control/src/scheduler/mod.rs:52-62 | a sweep ends with nothing left to reap, or has used its whole budget on the backlog |
| Sweeping.QuiescentStays | crates/control/src/scheduler/mod.rs:52-62 | sweeping a settled database changes nothing |
| Selection.SettledMeans | crates/store/src/scheduler.rs:294-360 | a settled database holds no slot whose lease has run out and, while the global queue has room, no deferred retry whose tenant has room |
| Selection.ReapsEarliest | crates/store/src/scheduler.rs:355-360 | the reaper takes the held lease that ran out first, the smaller id on a tie |
| Selection.PromotesOldest | crates/store/src/scheduler.rs:301-316 | the deferred retry created first among the tenants with room is promoted, and only while the global queue has room |
| Outcomes.ClaimsExactly | crates/store/src/scheduler.rs:113-209 | the candidate is leased if and only if its grant's whole line is live and a sequence number is left; without a live line it fails with GRANT_DENIED; no other run is touched |
| Outcomes.StartsExactly | crates/store/src/scheduler.rs:246-290 | a start succeeds if and only if the live lease is held, the run is then running under it, and repeating it changes nothing |
| Outcomes.FinishesExactly | crates/store/src/scheduler.rs:466-528 | a finish succeeds if and only if the run is running under the caller's live lease with all effects settled; a cancellation outranks a failure and a failure a success |
| Outcomes.ReapsTo | crates/store/src/scheduler.rs:384-412 | an expired run goes to reconciliation if an effect is uncertain, else is cancelled, else fails when its attempts are used up, else is queued, and deferred only when a queue is full |
| Outcomes.PromotesTo | crates/store/src/scheduler.rs:317-352 | a promoted retry is queued, or cancelled if that was requested, with its attempts kept and no other run touched |
| Selection.ReapedTells | crates/store/src/scheduler.rs:332-437 | in every execution the outcome the reaper replies names the state the run is left in |
| Selection.AdmittedExactly | crates/store/src/lib.rs:308-344 | a new key is admitted if and only if tenant, module and a live grant of the tenant are stored and queued and deferred runs together are below the global, the tenant's and the policy's limit; lack of room alone is answered CapacityExhausted; the new run holds what was submitted |
| Selection.CountsAreSets | crates/store/src/scheduler.rs:300-311 | each counting query is the size of the set of runs its SQL condition describes |
| Terms.RenewalTerms | crates/store/src/scheduler.rs:228-241 | in every execution a renewed lease ends at the lease time from now or at the end of the leaf grant, whichever is first; that instant and the cancellation flag are replied, and nothing else is written |
| Terms.LeaseWithinTerm | crates/store/src/scheduler.rs:233-233 | in every reachable state a lease ends within one lease time from now |
| Terms.OnlyTheHolder | crates/store/src/scheduler.rs:213-292 | in every execution a heartbeat, start or finish is answered only if the row says: held, leased or running, by this worker, under this epoch, until a later instant; a finish moreover only if running with each effect committed or definitely failed |
| Terms.ServedExactly | crates/store/src/scheduler.rs:213-292 | well-formed calls on a visible run: a start is answered if and only if the worker holds the lease, a heartbeat if moreover the leaf grant is live, a finish if moreover the run is running with settled effects |
| Terms.ArgumentsExactly | crates/store/src/scheduler.rs:49-73 | malformed names, keys, codes, lists, epochs and outputs are refused with nothing changed, and well-formed ones never for their form |
| Terms.ForeignWorkers | crates/store/src/scheduler.rs:213-292 | a worker whose list lacks the run's tenant is told that there is no such run and changes nothing |
| States.RunTable | crates/domain/src/state.rs:58-106 | the domain machine for runs is the given table; with uncertain effects it leads only to leasing, running or reconciliation |
| States.RunEnds | crates/domain/src/state.rs:58-106 | terminal states are final, every other state can fail, and reconciliation leads nowhere else without a resume |
| States.EffectTable | crates/domain/src/state.rs:31-53 | the machine for effects is the given table; an unknown outcome is left only by evidence or an eligible retry |
| Reachable.InvPerform | crates/store/src/scheduler.rs:57-529 | every operation keeps the scheduler invariant: rows, logs, slots, queues, keys, effects and the open reap |
| Store.Store.AppendEvent | crates/store/src/lib.rs:694-733 | appends one event under the run's head and advances the head, or reports the argument or head that forbids it |
| Store.Store.AdmitRun | crates/store/src/lib.rs:258-381 | the admission transaction: known keys first, then module, grant and queue |
| Store.Store.ClaimRun | crates/store/src/scheduler.rs:60-209 | the claim transaction: limits, candidate, row checks, chain, lease |
| Store.Store.HeartbeatRun | crates/store/src/scheduler.rs:213-242 | the renewal transaction |
| Store.Store.MarkRunStarted | crates/store/src/scheduler.rs:246-290 | the start transaction, which may be repeated |
| Store.Store.SelectExpired | crates/store/src/scheduler.rs:294-360 | the reaper up to its row locks, or the promotion of a deferred retry |
| Store.Store.ReapExpired | crates/store/src/scheduler.rs:361-437 | the reaper once its locks are held, judging the lease again |
| Store.Store.FinishRun | crates/store/src/scheduler.rs:441-528 | the final transaction, releasing the slot with the terminal event |
| Store.Store.LoadGrantChain | crates/store/src/lib.rs:560-619 | reads a chain root first and checks its structure without revocations |
| Store.Store.CreateGrant | crates/store/src/lib.rs:385-443 | inserts a root or a child after validation |
| Store.Store.RevokeGrant | crates/store/src/lib.rs:457-489 | revokes a grant; repeating it changes nothing |
| Store.Store.ReserveGrantChain | crates/store/src/lib.rs:493-557 | charges a prepared effect to every ancestor, or nothing |
| Store.Store.Sweep | crates/control/src/scheduler/mod.rs:52-62 | one tick of the sweeper (64 reaps in the source) |
| Service.Run | crates/store/src/lib.rs:203-217 | the store object carries out any execution action by action, so the results about executions hold of it |
| Queries.ChosenIsCandidate | crates/store/src/scheduler.rs:100-111 | the row order of the claim query is total: a row that satisfies it is the only one (Selection.ClaimTakesOldest says in fields which) |
| ClaimWindow.CancellationCommutes | crates/store/src/scheduler.rs:100-143 | a cancellation between the candidate query and the row lock gives the same reply and the same tables as one after the claim |
| Grants.ValidateChain | crates/domain/src/grants.rs:77-101 | the checking loop reports the first faulty grant and its first fault |
| Grants.ValidateChild | crates/domain/src/grants.rs:102-117 | a child is checked for validity, then its ancestry, depth and attenuation |
| Grants.ParentSuffices | crates/domain/src/grants.rs:102-117 | against a faultless ancestry, attenuating the parent alone is equivalent to attenuating every ancestor |
| Grants.ReservationPlan | crates/domain/src/grants.rs:122-152 | the planning loop yields one entry per grant, or the first refusal |
| Grants.PlanCharges | crates/domain/src/grants.rs:122-152 | a plan exists if and only if no grant refuses, and names each grant once with its next use |
| Forest.ChainLoads | crates/store/src/lib.rs:560-619 | in a forest in order, reading a chain fails only for an unknown grant and never reports corruption |
| Forest.PathIsQueryAnswer | crates/store/src/lib.rs:565-574 | in a forest in order the recursive query ordered by depth has one answer, the path from the root that the model follows |
| Forest.ChainLiveness | crates/store/src/scheduler.rs:145-149 | comparing timestamps and validating at whole milliseconds agree on a chain: live if and only if no ancestor is revoked and the leaf has not expired |
| Allowances.StoredChainsLoad | crates/store/src/lib.rs:385-443 | in every reachable state a stored grant's chain loads and has at most five grants; each has no action, destination or project that one above it lacks, ends no later and has no larger budget; and its least expiry is the leaf's |
| Allowances.LeaseFormulasAgree | crates/store/src/scheduler.rs:180-180 | the lease bound taken over the chain by a claim equals the bound taken from the leaf by a heartbeat |
| Allowances.LeaseWithinAncestors | crates/store/src/scheduler.rs:233-233 | no lease outlives any ancestor of its run's grant |
| Allowances.SubtreeBudget | crates/store/src/lib.rs:504-556 | used_effects is the number of charged effects of runs at or below the grant, at most max_effects, each of them allowed by the grant |
| Allowances.SeparateSubtrees | crates/domain/src/grants.rs:119-152 | the use of any set of incomparable grants below a grant adds up to at most its own, hence its max_effects |
| Allowances.ChildrenAreSeparate | crates/domain/src/grants.rs:119-152 | the children of a grant are such a set |
| Budget.ReservationExactly | crates/store/src/lib.rs:493-557 | a charged effect is answered Existing with no change whatever happened since; another is charged to its whole line if and only if it is prepared, the line is live, the leaf allows it and every ancestor has a unit left; CorruptGrant means exactly an uncharged effect past its prepared state |
| Shrinking.ChildCreatedExactly | crates/store/src/lib.rs:385-443 | a child is created if and only if its authority is proper, its parent's line is live and above depth 4, and its actions, destinations, projects, expiry and budget are within the parent's; if only the last fails the answer is Escalation; only that row is inserted |
| Shrinking.RootCreatedExactly | crates/store/src/lib.rs:385-443 | a root is created if and only if the tenant exists and the authority is proper: the one action, one to sixteen well-formed destinations and projects, a budget of 1 to 100, an end within a day |
| Shrinking.AuthorityShrinks | crates/domain/src/grants.rs:66-72 | in every reachable state a grant's actions, destinations, projects, expiry and max_effects are within those of every grant above it, field by field |
| Shrinking.ClaimTerms | crates/store/src/scheduler.rs:144-209 | in every execution a claim replies what it stores: the next epoch, the worker, the run's own request and the lesser of lease time and leaf expiry; every grant of the line is unrevoked, unexpired and lasts as long as the lease |
| Shrinking.ChargedExactly | crates/store/src/lib.rs:504-556 | an uncharged effect is charged if and only if it is prepared and every grant of its line is unrevoked, unexpired, below its max_effects and names the effect's action, destination and project; then each is used once more and no other grant |
| Shrinking.ChargedWithinLine | crates/store/src/lib.rs:504-556 | in every reachable state a charged effect names an action, destination and project that every grant of its line holds |
| Budget.BudgetPerform | crates/store/src/lib.rs:385-557 | every operation keeps the forest in order, every counter exact and every reservation complete |
| Allowances.ReservedForGood | crates/store/src/lib.rs:514-524 | once charged, an effect is answered Existing by every later reservation of any execution |
| Allowances.RenewsExactly | crates/store/src/scheduler.rs:222-236 | a heartbeat renews if and only if its lease is held and the leaf grant is neither revoked nor expired |
| Allowances.HeartbeatMissesAncestors | crates/store/src/scheduler.rs:233-233 | revoking a proper ancestor changes no heartbeat's reply |
| Allowances.RenewalAgreesExactly | crates/store/src/scheduler.rs:222-236 | a heartbeat renews exactly under a held lease and a live line if and only if the lease is not held, the leaf is dead or no proper ancestor is revoked |
| Counterexamples.RevocationMissed | crates/store/src/scheduler.rs:233-233 | from a provisioned database: a run is claimed under a child grant, the root is revoked, and the heartbeat is still answered |
| Allowances.RevokedForGood | crates/store/src/scheduler.rs:144-170 | once a grant is revoked, no run at or below it is ever claimed again |
| Allowances.ClaimFailsOnlyAtExhaustion | crates/store/src/scheduler.rs:60-209 | a claim fails if and only if its arguments are invalid or the dispatch sequence is used up |
| Operator.NormalizesExactly | crates/control/src/grants/mod.rs:27-103 | normalization accepts exactly the well-formed submissions whose every destination lists every project; an ill-formed one is invalid whatever it asks for |
| Operator.ChargedWithinOperatorBounds | crates/control/src/grants/mod.rs:43-50 | when roots come through normalization, every effect ever charged is a ticket creation for a destination and project the adapters list |
| Abi.Host.Spend | crates/runtime/src/abi.rs:148-160 | every call counts, and none goes through after a failure, after the output or beyond the cap |
| Abi.BudgetExactly | crates/runtime/src/abi.rs:148-160 | a call goes through if and only if nothing failed before, no output was written and the cap is not reached; a refusal changes nothing but the failure |
| Abi.OutputExactly | crates/runtime/src/abi.rs:231-255 | an output is taken if and only if the guest may call and names at most 65536 bytes inside its memory; output byte i is then the memory byte at the unsigned address ptr + i |
| Abi.LogExactly | crates/runtime/src/abi.rs:256-282 | the same for logs, with UTF-8 and the bytes the cap leaves |
| Abi.InputExactly | crates/runtime/src/abi.rs:192-230 | the input's length is told, and the input read if and only if the buffer lies in the memory and is large enough |
| Abi.RequestExactly | crates/runtime/src/abi.rs:283-321 | a request goes out if and only if sizes and buffers are right and the bytes at the unsigned address parse to a request with a known or the next ordinal below max_effects; it is the one parsed from those bytes |
| Abi.ReplyExactly | crates/runtime/src/abi.rs:322-357 | a reply reaches the guest if and only if its ordinal and project are the request's, its ticket is not empty and its text fits; otherwise the execution has failed, with a trap when the outcome is unresolved or the reply unfit |
| Abi.FirstFailureStays | crates/runtime/src/abi.rs:138-147 | no later call replaces the first failure or the output |
| Abi.Host.ReadInput | crates/runtime/src/abi.rs:207-230 | copies the input to the front of the guest's buffer and leaves the rest of its memory |
| Abi.Host.WriteOutput | crates/runtime/src/abi.rs:231-255 | takes the output once: byte i of the output is the byte at ptr + i of the guest's memory |
| Abi.Host.WriteLog | crates/runtime/src/abi.rs:256-282 | takes a log within the remaining bytes |
| Abi.Host.BeginEffect | crates/runtime/src/abi.rs:283-321 | an effect call up to its dispatch |
| Abi.Host.EndEffect | crates/runtime/src/abi.rs:322-357 | an effect call after its dispatch: a reply with the request's ordinal and project and a ticket is written, and the ordinal advances |
| RunnerProcess.Dispatcher.Dispatch | crates/runtime/src/bin/effectlatch-runner.rs:249-285 | one request is sent under the next id and one response understood |
| RunnerProcess.Dispatcher.WriteLast | crates/runtime/src/bin/effectlatch-runner.rs:102-145 | the logs in order and then the finish frame, or the failure alone |
| RunnerProcess.Process.Run | crates/runtime/src/bin/effectlatch-runner.rs:99-145 | for any guest calls, responses and end, the host and dispatcher objects end in the state and have written the frames of the runner's steps |
| Protocol.RunnerPlays | crates/runtime/src/bin/effectlatch-runner.rs:99-145 | the runner's side of every reachable world is such a run of the objects, on the calls made and the responses that reached it |
| Ipc.ParentSequence.Observe | crates/runtime/src/ipc.rs:265-287 | accepts exactly the frames that are in sequence |
| Ipc.ParentSequence.Respond | crates/runtime/src/ipc.rs:289-296 | accepts exactly a well-formed response to the outstanding request |
| Supervision.Supervise | crates/runtime/src/supervisor.rs:183-292 | the main loop computes the outcome, the responses sent and the requests dispatched |
| Supervision.Loop.DeliverMail | crates/runtime/src/supervisor.rs:201-234 | the half of the loop that hands the broker's answer to the child (Supervision.AnyChildAccounted says in fields what it sends) |
| Supervision.Loop.ReceiveFrame | crates/runtime/src/supervisor.rs:236-291 | the half that takes a frame; its two rejections while a dispatch is pending are dead code |
| Supervision.AnyChildInStep | crates/runtime/src/supervisor.rs:187-283 | for any child: at the head of the loop a dispatch is pending exactly when a response is outstanding, to the request the broker holds; only the observer ever rejects |
| Supervision.AnyChildAccounted | crates/runtime/src/supervisor.rs:201-283 | for any child: response i answers request i, a commit only with the request's ordinal and project and a ticket; at most 128 requests and logs and no more log bytes than the cap are taken |
| Supervision.TakenExactly | crates/runtime/src/ipc.rs:265-287 | for any child: a frame is out of sequence if and only if a response is outstanding, 128 messages were taken, a request's number is not the next or a log exceeds the bytes left; others are dispatched or kept |
| Supervision.SuccessIsClean | crates/runtime/src/supervisor.rs:261-281 | for any child: success needs a finish frame with this output and no failure, taken in time under a current lease, and a clean exit |
| Supervision.StopsAtOnce | crates/runtime/src/supervisor.rs:188-199 | a lost lease, a cancellation or the deadline ends the loop before anything else is sent, dispatched or taken |
| Protocol.HonestNeverRejected | crates/runtime/src/ipc.rs:171-296 | in no interleaving is a frame of an honest runner refused for its form or its order, a second dispatch found or a response malformed; it writes at most 65 frames |
| Protocol.HonestFrames | crates/runtime/src/ipc.rs:171-226 | in every reachable world, running, succeeded or stopped: at most 65 frames written, every one accepted by read_child, and the pipe holds exactly those not yet read |
| Protocol.SuccessMeans | crates/runtime/src/abi.rs:326-397 | on success the broker committed every effect asked for, reply i with the ordinal and project of request i and a ticket; the ordinals are exactly 0 to k-1 with k within max_effects; and output and logs are the guest's |
| Protocol.OutputWasWritten | crates/runtime/src/abi.rs:231-255 | a successful run's output, if any, is the bytes one of the guest's calls named in its memory |
| Protocol.NothingAskedAfter | crates/runtime/src/abi.rs:138-160 | after the output is written or a call has failed the broker is asked for nothing more |
| Protocol.RelaysIntact | crates/runtime/src/supervisor.rs:302-309 | a failure survives its trip as a number, and every response passes the runner's check |
| Permits.PermitsInPlace | crates/runtime/src/supervisor.rs:318-339 | in every interleaving the counter is the number of permits held by starting and live runners, jobs in hand, queued and active jobs, at most 8; the queue always has room; a runner with its child has its permit |
| Permits.PermitsConserved | crates/runtime/src/supervisor.rs:494-559 | neither the abort nor the missing-permit panic is reachable |
| Permits.Cleanup.Run | crates/runtime/src/supervisor.rs:318-559 | the counter, runners, channel and reaper objects carry out any interleaving of the steps |
| Permits.Cleanup.ReservePermit | crates/runtime/src/supervisor.rs:322-333 | a permit is reserved if and only if fewer than eight are out |
| Permits.Cleanup.SpawnFailed | crates/runtime/src/supervisor.rs:335-339 | a failed start gives its permit up |
| Permits.Cleanup.Spawned | crates/runtime/src/supervisor.rs:369-379 | a started runner is armed and owns its child and its permit |
| Permits.Cleanup.DropRunner | crates/runtime/src/supervisor.rs:553-559 | dropping an armed runner kills it first and gives up the permit only if no cleanup job took it |
| Permits.Cleanup.TakeChild | crates/runtime/src/supervisor.rs:494-508 | killing a runner moves its permit to the cleanup job with the child |
| Permits.Cleanup.QueueReap | crates/runtime/src/supervisor.rs:541-551 | the send always succeeds |
| Permits.Cleanup.RetainRunning | crates/runtime/src/supervisor.rs:518-530 | the reaper keeps the jobs whose process is still there and releases the permits of the others |
| Hash.ParsesOneWay | crates/domain/src/hash.rs:9-12 | field lists of one shape are recovered from their encoding, with everything that follows them |
| Hash.DomainsSeparate | crates/domain/src/hash.rs:22-118 | preimages of different kinds never coincide |
| Hash.RunPreimageInjective | crates/domain/src/hash.rs:22-37 | a run's preimage determines the whole request |
| Layouts.RunLayout | crates/domain/src/hash.rs:22-37 | byte for byte: the tag, then the module digest, the grant, the framed input and the four limits, numbers in big-endian order |
| Hash.EffectPreimageInjective | crates/domain/src/hash.rs:38-51 | an effect's preimage determines everything but the ordinal, which is not hashed |
| Layouts.EffectLayout | crates/domain/src/hash.rs:38-51 | byte for byte: the tag, then the five framed texts, numbers in big-endian order |
| Hash.ProviderPreimageInjective | crates/domain/src/hash.rs:52-59 | a provider key's preimage determines tenant, run and ordinal |
| Layouts.ProviderLayout | crates/domain/src/hash.rs:52-59 | byte for byte: the tag, then tenant, run and ordinal, numbers in big-endian order |
| Hash.EventPreimageInjective | crates/domain/src/hash.rs:60-77 | an event's preimage determines all six fields |
| Layouts.EventLayout | crates/domain/src/hash.rs:60-77 | byte for byte: the tag, then tenant, run, number, previous hash, framed kind and payload, numbers in big-endian order |
| Hash.CheckpointInjective | crates/domain/src/hash.rs:78-85 | a checkpoint determines its four fields |
| Layouts.CheckpointLayout | crates/domain/src/hash.rs:78-85 | byte for byte: the tag, then tenant, run, number and terminal hash |
| Hash.GrantPreimageInjective | crates/domain/src/hash.rs:87-110 | a grant's preimage determines its optional parent, its three sets, its expiry and its budget |
| Layouts.GrantLayout | crates/domain/src/hash.rs:87-110 | byte for byte: the tag, whether and which parent, the three sets counted and in byte order, the expiry in two's complement and the budget |
| Hash.RevocationPreimageInjective | crates/domain/src/hash.rs:112-118 | a revocation's preimage determines grant and reason |
| Layouts.RevocationLayout | crates/domain/src/hash.rs:112-118 | byte for byte: the tag, the grant and the framed reason |
| Hash.IncreasingIsUnique | crates/domain/src/hash.rs:97-106 | a set has one increasing listing, so hashing a listing hashes the set |
| Layouts.BytesOrder | crates/domain/src/hash.rs:97-106 | texts are ordered as byte strings: by the first difference, a prefix first |
| Hasher.HashRun | crates/domain/src/hash.rs:22-37 | the routine hashes exactly the run preimage |
| Hasher.HashEffect | crates/domain/src/hash.rs:38-51 | the routine hashes exactly the effect preimage |
| Hasher.HashProvider | crates/domain/src/hash.rs:52-59 | the routine hashes exactly the provider preimage |
| Hasher.HashEvent | crates/domain/src/hash.rs:60-77 | the routine hashes exactly the event preimage |
| Hasher.Checkpoint | crates/domain/src/hash.rs:78-85 | the routine returns exactly the checkpoint's bytes |
| Hasher.HashGrant | crates/domain/src/hash.rs:87-110 | the routine hashes exactly the grant preimage |
| Hasher.HashRevocation | crates/domain/src/hash.rs:112-118 | the routine hashes exactly the revocation preimage |
| EventChain.EqualHeadsEqualLogs | crates/store/src/lib.rs:712-732 | two nonempty logs of one run with equal heads hold the same rows, or two colliding preimages are exhibited |
| EventChain.TruncationShows | crates/store/src/lib.rs:712-732 | dropping events from the end of a log changes its head unless SHA-256 collides |
| Frames.CutStream | crates/runtime/src/ipc.rs:137-163 | however a stream of written frames is cut, the reader delivers exactly the frames that arrived whole, in order and unaltered, then reports truncation |
| Frames.Reader.ReadFrameBytes | crates/runtime/src/ipc.rs:137-147 | reads one frame off the stream or reports its fault |
| Frames.Writer.WriteFrame | crates/runtime/src/ipc.rs:149-163 | writes the length and the body, or nothing when the body is empty or too long |
| Bytes.Hex | crates/domain/src/hash.rs:13-21 | spells every byte with two lower-case digits |
| Bytes.DigestBytes | crates/domain/src/types.rs:85-99 | accepts exactly 64 lower-case digits and yields the 32 bytes they spell |
| Bytes.SpellingIsOneToOne | crates/domain/src/types.rs:85-99 | a digest has one spelling and a spelling one digest, so the two codecs undo each other |
| Bytes.FromBigEndianInverts | crates/runtime/src/ipc.rs:137-163 | big-endian lengths read back as written |
| Layouts.BigEndianPlaces | crates/runtime/src/ipc.rs:137-163 | byte i of a length is its digit of weight 256 to the power width - 1 - i |

## Left out

- PostgreSQL, SQLx, migrations and schema checks: tables are maps, a transaction is one step, row locks are implied by it; only the reaper's wait for its row locks is visible.
- Clock readings: every SQL statement reads clock_timestamp() itself; the model reads the clock once per transaction, except that a claim reads it again for its lease and a reap again at its commit. Timestamps are whole microseconds after 1970 and expiries whole milliseconds.
- Store.Store.LoadGrantChain: follows parent links (Db.Walk) where the source runs a recursive query ordered by depth; on every forest the store can build the two agree (Forest.PathIsQueryAnswer), on tables altered by hand the kind of error may differ.
- Integer columns: u8, i32 and i64 conversions that the SQL CHECK constraints make infallible (depth, limits, counters) are not repeated; the ends of i64 that the code tests (epoch, dispatch sequence, event numbers) are.
- Store.Store.AdmitRun: the conflicting insert after the key lookup is not modelled, because the scheduler lock is held across both; the returned record is reduced to the run's id.
- Store.Store.ClaimRun: does not return the module's bytes that accompany a lease; the lease names the request, with its digest, input and limits.
- Store.Store.CreateGrant: does not model actor names, operator events and the returned record.
- Store.Store.RevokeGrant: does not model actor names, the reason and operator events, and reduces the first revocation's timestamp to a flag.
- Execution.MoveEffect: the broker's own checks are not modelled beyond its transition table and the live lease.
- Configuration files, principals, credentials, HTTP routes, TLS and signal handling.
- Abi.Host.BeginEffect: JSON parsing of requests and UTF-8 decoding are parameters of the setup; what the parser accepts is assumed valid, as the source checks after parsing.
- JSON and base64: frames, replies and payloads are decoded values; the size limits of encoded frames are taken to be met.
- Supervision.Supervise: timeouts, threads and the process are inputs of each pass (late, empty, closed, exited); the broker's answer arrives at most once per dispatch.
- Wasmtime, fuel, epochs and watchdogs: the guest is any sequence of host calls with any memory.
- Bytes of START frames, the descriptor and environment checks of the runner, and its operator arguments.
- Permits: spawning is one step between the reservation and the live runner; process groups and signals are left out.
- Uuid generation: new ids are taken to be unused.
- crates/domain/src/types.rs RunCreate::normalize and crates/domain/src/lib.rs limits: field checks that add no interplay.
- The module validator: a scan over parsed payloads, easier than what is proved here.
