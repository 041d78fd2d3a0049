# Yuex control plane, verified

Yuex lets users start agent runs: a run is planned, confirmed against a quota,
queued, handed to a Runtime over a gateway connection, followed event by event
and brought to one final outcome. What keeps this together is a handful of state
machines that many workers step through at once. This project models them in
Dafny and proves what holds in every interleaving, over every run.

Time is an integer that does not go back, a lease token is a fresh value, a hash
is injective and each SQL transaction is one atomic step. Where the code has an
in-memory form beside an SQL form, the in-memory form is the model and the SQL
form is a second function that a lemma compares with it.

| file | what it models |
|---|---|
| Gateway, GatewayProtocol | the gateway client: callers, read loops and invalidations over one table of pending calls; all interleavings |
| Queue, QueueProtocol, QueueHolder | leases, fences, retries, dead letters and replays; all runs; the goroutine that keeps a lease alive |
| TerminalRecovery | the chain of recovery queues of one terminal convergence |
| Ledger, LedgerBooks, LedgerRuns, LedgerTotals | quota reservations, monthly balances and usage records; conservation over all runs; repeated and late settlement |
| RunLifecycle | a run's status between cancel, submit, convergence and recovery |
| Sanitizer, EventLog, EventKeys, EventStream, EventSse | what an event may carry, the append-only log and its idempotency keys, reading it in pages under compaction, and the server-sent event stream |
| Ingest | copying events from a Runtime that may answer anything |
| Scanner | finding a JSON object in a model's reply |
| Notifier | coalesced wakeups and round-robin recovery |
| Confirmation | confirming a plan over seven tables with rollback |
| Overlay | composing a run's package from base files and Workspace files |

An operation that updates state in place is a class method proved equal to a
function of the old state; the properties are lemmas about those functions and
about the step systems built from them.

## Where the code differs from its promise

Each of these is a lemma with the exact condition, a concrete instance, or both.

- Quota: a reserving transaction that starts in one month and reads the Go clock
  in the next puts the hold on a balance that the release does not look at, so
  the "balance mismatch" guard becomes reachable
  (LedgerBooks.AdmissionKeepsBooks, LedgerBooks.MonthBoundaryTrapsTheHold); and
  one that checks in one month and holds in the next can overdraw that month
  (LedgerBooks.NoOverdraftIff, LedgerBooks.MonthBoundaryOverdraws). Over all
  months together nothing is lost (LedgerTotals.TotalsAlwaysBalance).
- Event stream: a heartbeat or a lease renewal takes the loop back to its top,
  where the page of the last pass is written again; event ids then do not
  increase (EventSse.StreamIdsIncreaseIff, EventSse.HeartbeatWritesTheEventAgain).
- Event stream: an event whose status is empty or unknown counts as failed in the
  public projection, so it ends the stream (EventSse.EndsIff, EventSse.PublicTerminalIff).
- Event log: public and admin events share one numbering, so after compaction a
  reader that saw everything may still be told of a gap
  (EventStream.GapIsReported, EventStream.GapWithoutLoss).
- Event log: deleting the last public event hides every loss from readers
  (EventStream.NeverMisledIff), and unless an admin event follows it restarts the
  numbering (EventStream.NumberingContinuesIff, EventStream.LastRetainedIff,
  EventStream.FullPruneRestartsNumbering).
- Event log: the SQL form reads an event's status back from its payload, so an
  append whose two statuses differ, or are both missing, conflicts with itself
  (EventLog.ReappendSqlIffStatusAgrees, EventLog.EventWithoutStatusConflictsWithItself);
  and with the row, compaction deletes the idempotency key
  (EventKeys.DeletedRowIsAppendedAgain, EventKeys.CompactedDraftIsStoredTwice).
- Event log: in memory, an append under a new key with the number of a stored
  event is accepted without storing the key, so the same call can be refused later
  (EventKeys.ReappendIsNoOpIff, EventKeys.TakenSequenceIsRefusedLater).
- Run status: a run can become cancelled without aborting although it was
  submitted, when the Runtime itself reports that it aborted
  (RunLifecycle.CancelledWithoutAbortingWasSubmittedIff,
  RunLifecycle.CancelledWithoutAbortingThoughSubmitted). With a cancel request on
  record it cannot (RunLifecycle.CancelledDirectlyWasNeverSubmitted).
- Terminal recovery: a block is not permanent, completing the convergence or a
  checkpoint that does not block lifts it (TerminalRecovery.BlockStaysIff,
  TerminalRecovery.BlockCanBeLifted); and requeuing an earlier failed generation
  makes a healthy chain block (TerminalRecovery.RequeueBlocksTheChain).
- Envelope scanner: the marker is searched in the lowered reply but cut from the
  reply itself; letters that lower to another number of bytes move the cut, into
  the marker or past the end of a short reply (Scanner.CutIff,
  Scanner.LoweringCanMissTheObject, Scanner.LoweringCanRunPastTheEnd).
- Workspace overlay: limits are checked only when a file is added, so a replaced
  base that is too large by itself passes if it lists every Workspace file
  (Overlay.OverTheLimitIff, Overlay.OversizedBasePassesIff).
- Lease holder: the proof read during a refresh may already be refused
  (QueueHolder.ProofReadIff, QueueHolder.RefusedWhileRenewed).
- Confirmation: a repeat with the same key stops replaying once the reservation
  has expired (Confirmation.RepeatChangesNothing).

## Model

| member | source | states |
|---|---|---|
| Gateway.PersistentGatewayClient.constructor | extracted/go-runtime-adapter/cmd/openclaw-runtime-adapter/gateway_client.go:60-69 | a new client has no connection and no pending call |
| Gateway.PersistentGatewayClient.Add | extracted/go-runtime-adapter/cmd/openclaw-runtime-adapter/gateway_client.go:113-128 | a call enters the table, or is refused with the capacity error and the table unchanged, exactly when the effective limit is reached |
| Gateway.PersistentGatewayClient.AttachPending | extracted/go-runtime-adapter/cmd/openclaw-runtime-adapter/gateway_client.go:145-165 | the table half of attaching: a call in the table gets its result slot drained and is bound to the connection, one that has left it stays as it is (that the connection is current is the step GatewayProtocol checks before) |
| Gateway.PersistentGatewayClient.Mark | extracted/go-runtime-adapter/cmd/openclaw-runtime-adapter/gateway_client.go:167-195 | a call is marked written only while it is in the table and attached to the connection that is written to |
| Gateway.PersistentGatewayClient.Take | extracted/go-runtime-adapter/cmd/openclaw-runtime-adapter/gateway_client.go:308-351 | the read loop takes a call off the table exactly for a frame that is final for it and comes from the connection it is attached to |
| Gateway.PersistentGatewayClient.Invalidate | extracted/go-runtime-adapter/cmd/openclaw-runtime-adapter/gateway_client.go:353-375 | the connection pointer is cleared only if it is this connection; every pending call attached to it is detached and told, without overwriting a result it already has |
| Gateway.PersistentGatewayClient.Remove | extracted/go-runtime-adapter/cmd/openclaw-runtime-adapter/gateway_client.go:383-389 | exactly the given call leaves the table |
| Gateway.EffectiveLimit | extracted/go-runtime-adapter/cmd/openclaw-runtime-adapter/gateway_client.go:113-128 | a limit of zero means the default, so there is always room for one call |
| GatewayProtocol.StepInv | extracted/go-runtime-adapter/cmd/openclaw-runtime-adapter/gateway_client.go:71-389 | every step of a caller, a read loop or an invalidation keeps the protocol invariant |
| GatewayProtocol.InvSafe | extracted/go-runtime-adapter/cmd/openclaw-runtime-adapter/gateway_client.go:145-218 | the invariant implies: no blocked sender, no overwritten or lost result, results of the last write only, bounded writes, attach never fails after its check, table within its limit |
| GatewayProtocol.RunInv | extracted/go-runtime-adapter/cmd/openclaw-runtime-adapter/gateway_client.go:71-389 | every reachable state satisfies the invariant |
| GatewayProtocol.EveryRunIsSafe | extracted/go-runtime-adapter/cmd/openclaw-runtime-adapter/gateway_client.go:71-218 | in every interleaving, all of the above holds in every state: a frame is written once, an idempotent submit at most twice and then only after its first connection was invalidated |
| GatewayProtocol.NobodyIsStuck | extracted/go-runtime-adapter/cmd/openclaw-runtime-adapter/gateway_client.go:130-218 | no deadlock: an unfinished call can step, or waits for a reply that is on its way, or for a mutex whose holder can step |
| GatewayProtocol.OwnStep | extracted/go-runtime-adapter/cmd/openclaw-runtime-adapter/gateway_client.go:130-218 | a call that waits for neither a reply nor a mutex can always take its own next step |
| Queue.BestExtends | cut-boundary-reference/storage/persistence/queue_repository.go:2563-2633 | one pass of the lease loop keeps the best eligible record among those seen |
| Queue.SortsBeforeIsStrictWhenStamped | cut-boundary-reference/storage/persistence/queue_repository.go:2686-2698 | among records with a creation time, which enqueue and replay stamp, the order is strict |
| Queue.SortsBeforeCyclesWithoutStamps | cut-boundary-reference/storage/persistence/queue_repository.go:2686-2698 | and the stamps are needed: with a record that lacks one, three records sort in a cycle |
| Queue.QueueRepository.constructor | cut-boundary-reference/storage/persistence/queue_repository.go:79-85 | a new queue is empty |
| Queue.QueueRepository.Enqueue | cut-boundary-reference/storage/persistence/queue_repository.go:2396-2437 | a new id gets a pending record, a known id changes nothing |
| Queue.QueueRepository.Inspect | cut-boundary-reference/storage/persistence/queue_repository.go:2563-2633 | a record is dead-lettered exactly if its lease is over and its attempts are used up, and considered exactly if it is eligible |
| Queue.QueueRepository.Scan | cut-boundary-reference/storage/persistence/queue_repository.go:2563-2633 | whatever order the map yields: exhausted leases in the filter become dead letters, all other records stay, and the answer is a best eligible record, none only if there is none |
| Queue.QueueRepository.LeaseNext | cut-boundary-reference/storage/persistence/queue_repository.go:2563-2633 | no work is reported exactly if nothing is eligible; otherwise an eligible record that nothing eligible precedes gets a new fence, token and attempt, and the proof returned is its proof |
| Queue.QueueRepository.LeaseById | cut-boundary-reference/storage/persistence/queue_repository.go:148-171 | with the ttl defaulted to a minute, only a waiting record with attempts left that is due is leased, and only that record changes |
| Queue.QueueRepository.Heartbeat | cut-boundary-reference/storage/persistence/queue_repository.go:2717-2736 | only a matching proof moves the expiry, and nothing else of the record; otherwise the stale-lease error and no change |
| Queue.QueueRepository.Update | cut-boundary-reference/storage/persistence/queue_repository.go:2738-2793 | only a matching proof in an allowed status moves the record; a retry without attempts left becomes a dead letter; the lease ends unless the record starts running |
| Queue.QueueRepository.CompleteConvergence | cut-boundary-reference/storage/persistence/queue_repository.go:2795-2820 | completing once records the convergence; repeating it is a no-op, and another queue cannot claim it |
| Queue.QueueRepository.UpdateErrorSummary | cut-boundary-reference/storage/persistence/queue_repository.go:2822-2835 | only a matching proof writes the error, and only that field |
| Queue.QueueRepository.MarkIgnored | cut-boundary-reference/storage/persistence/queue_repository.go:2837-2857 | an operator closes exactly the named record |
| Queue.QueueRepository.RecoverExpiredLeases | cut-boundary-reference/storage/persistence/queue_repository.go:2439-2474 | each record independently: expired leases become retries or dead letters, running records with attempts left are left alone; the count is that of the records changed |
| Queue.QueueRepository.RecoverRunningWithoutHeartbeat | cut-boundary-reference/storage/persistence/queue_repository.go:2476-2504 | each record independently: running records whose lease is over time out; the count is that of the records changed |
| Queue.QueueRepository.RequeueRecoverable | cut-boundary-reference/storage/persistence/queue_repository.go:2506-2541 | failed and timed-out records of the queue with attempts left, and only those, wait again, and are counted |
| Queue.QueueRepository.MarkDeadLetterCandidates | cut-boundary-reference/storage/persistence/queue_repository.go:2543-2561 | failed records without attempts left, and only those, become dead letters, and are counted |
| Queue.QueueRepository.ReplayDeadLetter | cut-boundary-reference/storage/persistence/queue_repository.go:2878-2942 | a replay creates one new record with its lineage, repeats are no-ops, and every refusal leaves the table alone |
| QueueProtocol.StepInv | cut-boundary-reference/storage/persistence/queue_repository.go:2439-2942 | every operation of every actor keeps the table consistent and every issued proof current or superseded |
| QueueProtocol.SupersededStep | cut-boundary-reference/storage/persistence/queue_repository.go:2563-2658 | fences only grow: a generation that was closed or overtaken stays so |
| QueueProtocol.SupersededForever | cut-boundary-reference/storage/persistence/queue_repository.go:2563-2876 | the same over any number of steps |
| QueueProtocol.StaleWorkerIsPowerlessForever | cut-boundary-reference/storage/persistence/queue_repository.go:2717-2876 | once a lease generation is superseded, in every later state none of its proofs matches, and no heartbeat, update or annotation with one changes anything |
| QueueProtocol.OneHolderAtATime | cut-boundary-reference/storage/persistence/queue_repository.go:2859-2876 | two issued proofs that both match a record are the same proof |
| QueueProtocol.LeaseExcludesEarlierHolders | cut-boundary-reference/storage/persistence/queue_repository.go:2563-2658 | a lease is only granted where no earlier proof still matches, and supersedes all of them |
| QueueProtocol.ValidLeaseSurvives | cut-boundary-reference/storage/persistence/queue_repository.go:2439-2561 | no sweep, requeue, replay or other worker takes a valid lease away; only its holder or an operator's ignore does |
| QueueProtocol.LeaseBudget | cut-boundary-reference/storage/persistence/queue_repository.go:2563-2658 | a record is leased at most maxAttempts times; a waiting record has attempts left and no lease |
| QueueProtocol.DeadLettersAreReplayable | cut-boundary-reference/storage/persistence/queue_repository.go:2878-2942 | a dead letter of any run is refused a replay only for its queue or its task type |
| QueueProtocol.SameCandidates | cut-boundary-reference/storage/persistence/queue_repository.go:1112-1178 | in reachable states, "dead-letter the exhausted, requeue the expired, select" and the in-memory scan see the same eligible records |
| QueueProtocol.LeaseRefinesSql | cut-boundary-reference/storage/persistence/queue_repository.go:1112-1178 | the record the in-memory form leases is one the SQL query may pick (highest priority, oldest), and ends up as the SQL update leaves it |
| QueueProtocol.NoWorkRefinesSql | cut-boundary-reference/storage/persistence/queue_repository.go:1112-1178 | one form finds no work exactly if the other does |
| QueueProtocol.SomePickExists | cut-boundary-reference/storage/persistence/queue_repository.go:2563-2633 | whenever something is eligible, some eligible record is preceded by none |
| QueueHolder.OthersKeepTheExpiry | cut-boundary-reference/backend-workers/queue_heartbeat.go:22-81 | no actor without the lease moves its expiry: it leaves the lease as it is, closes it or overtakes it |
| QueueHolder.RefreshMovesTheExpiry | cut-boundary-reference/backend-workers/queue_heartbeat.go:42-58 | a refresh that arrives moves the expiry of a held lease and nothing else |
| QueueHolder.MoveKeepsInv | cut-boundary-reference/backend-workers/queue_heartbeat.go:22-107 | the holder's newest proof is exactly the record's lease, or the lease has passed on, through every tick, lost reply, stop and foreign step |
| QueueHolder.DoneStaysPut | cut-boundary-reference/backend-workers/queue_heartbeat.go:83-107 | after the goroutine has ended the proof never changes |
| QueueHolder.StoppedProofIsLive | cut-boundary-reference/backend-workers/queue_heartbeat.go:83-107 | the proof Stop or Freeze returns without an error is accepted at every later time before its expiry exactly as long as the lease was not closed or overtaken |
| QueueHolder.ProofReadIff | cut-boundary-reference/backend-workers/queue_heartbeat.go:109-116 | a proof read at any moment, before its expiry and with the lease still its own, is accepted exactly if the recorded expiry is the one it names; without a lost reply, exactly if no refresh with a new expiry is on its way back |
| QueueHolder.LostReplyIff | cut-boundary-reference/backend-workers/queue_heartbeat.go:42-58 | after a refresh whose reply is lost, the proof in hand is accepted exactly if the refresh did not move the expiry |
| QueueHolder.ProofInFlightIsRefused | cut-boundary-reference/backend-workers/queue_heartbeat.go:109-116 | the proof read while a refresh is on its way back is refused although the lease is alive |
| QueueHolder.RefusedWhileRenewed | cut-boundary-reference/backend-workers/queue_heartbeat.go:109-116 | a concrete run: enqueued, leased, ticked, refreshed, and the proof read is refused a minute before its expiry |
| TerminalRecovery.RecoveryQueues.BlockRecovery | cut-boundary-reference/storage/persistence/queue_repository.go:1024-1039 | the block code is written to an open convergence, and only there |
| TerminalRecovery.RecoveryQueues.JoinedRows | cut-boundary-reference/storage/persistence/queue_repository.go:922-947 | the lineage rows whose queue record exists, in generation order |
| TerminalRecovery.RecoveryQueues.EnqueueTerminalRecovery | cut-boundary-reference/storage/persistence/queue_repository.go:893-1022 | an unknown convergence or wrong command is an error without effect; otherwise one of skip, block, reuse, defer, append with exactly the rows that goes with it |
| TerminalRecovery.WalkChain | cut-boundary-reference/storage/persistence/queue_repository.go:947-986 | on a well-formed chain the loop stops at a runnable link only if it is the last, at an unfinished one by deferring, and gets to the end exactly if all are finished |
| TerminalRecovery.CallOnChain | cut-boundary-reference/storage/persistence/queue_repository.go:893-1022 | on a well-formed chain: which outcome a call has, as conditions on the original record and the recovery records, each an equivalence |
| TerminalRecovery.CallFrame | cut-boundary-reference/storage/persistence/queue_repository.go:893-1022 | a call touches its own convergence only and appends at most one generation, whose source is the previous generation's queue |
| TerminalRecovery.StepInv | cut-boundary-reference/storage/persistence/queue_repository.go:893-1105 | calls and arbitrary queue traffic keep every chain well formed |
| TerminalRecovery.ChainsAlwaysWellFormed | cut-boundary-reference/storage/persistence/queue_repository.go:893-1105 | in every run the generations of every convergence are 1..n, linked source to queue, each backed by its own record |
| TerminalRecovery.BlockStepIff | cut-boundary-reference/storage/persistence/queue_repository.go:1024-1039 | a block is lifted by completing the convergence or by a checkpoint whose code does not block, by no other call or queue traffic; meanwhile nothing is appended |
| TerminalRecovery.BlockStaysIff | cut-boundary-reference/storage/persistence/queue_repository.go:906-930 | over runs: a block is in force throughout exactly if none of these steps occurs; as long as it is, the chain does not grow and every call answers with a block |
| TerminalRecovery.BlockCanBeLifted | extracted/go-runtime-control-plane/internal/runtime/runtime_terminal_converger.go:1178-1187 | a run from the empty tables in which a checkpoint overwrites the code and the next call appends again |
| TerminalRecovery.NoBlockWithoutRequeue | cut-boundary-reference/storage/persistence/queue_repository.go:893-1022 | as long as finished records are not put back to work, no call of any run blocks |
| TerminalRecovery.RequeueBlocksTheChain | cut-boundary-reference/storage/persistence/queue_repository.go:2506-2541 | requeuing a failed earlier generation makes the next call block with the invalid-lineage code |
| Ledger.UsageRepository.PositiveMeters | cut-boundary-reference/storage/persistence/usage_repository.go:1464-1478 | exactly the meters with a positive amount, each once |
| Ledger.UsageRepository.EnsureBalance | cut-boundary-reference/storage/persistence/usage_repository.go:2251-2267 | the balance of that user, meter and month exists afterwards, and no other changes |
| Ledger.UsageRepository.AdmitAndReserve | cut-boundary-reference/storage/persistence/usage_repository.go:441-587 | the whole admission: replayed, denied with the balances only ensured, or granted with its check, row, items and holds |
| Ledger.UsageRepository.CreateReservation | cut-boundary-reference/storage/persistence/usage_repository.go:1372-1460 | a reservation under a recorded check: repeated, refused, denied with the denial kept, or made like an admission |
| Ledger.UsageRepository.ReserveMeters | cut-boundary-reference/storage/persistence/usage_repository.go:1413-1454 | checks every meter, then inserts the row and its holds; a taken id undoes all of it |
| Ledger.UsageRepository.CheckAll | cut-boundary-reference/storage/persistence/usage_repository.go:1500-1514 | stops at the first meter whose remaining amount does not cover it |
| Ledger.UsageRepository.HoldAll | cut-boundary-reference/storage/persistence/usage_repository.go:2090-2124 | adds each meter to its month's reserved amount |
| Ledger.UsageRepository.UpdateStatus | cut-boundary-reference/storage/persistence/usage_repository.go:1532-1567 | a status only leaves reserved; leaving it gives the items back, and a missing amount is the mismatch error without effect |
| Ledger.UsageRepository.CreateUsageOnce | cut-boundary-reference/storage/persistence/usage_repository.go:1583-1647 | a known key is checked field by field and changes nothing, a new one is recorded and charged |
| Ledger.UsageRepository.SettleUsageOnce | cut-boundary-reference/storage/persistence/usage_repository.go:918-952 | settles the hold and charges the usage in one step, or reports why not |
| Ledger.CheckMeters | cut-boundary-reference/storage/persistence/usage_repository.go:1500-1514 | checking an admission only opens missing balances, with nothing used or reserved; existing ones stay as they are |
| Ledger.Record | cut-boundary-reference/storage/persistence/usage_repository.go:1583-1647 | recording usage never touches a reservation |
| LedgerBooks.UnholdExact | cut-boundary-reference/storage/persistence/usage_repository.go:2156-2183 | with balanced books the reserved-amount guard cannot fail, and a release takes exactly the reservation's items out |
| LedgerBooks.SetStatusExact | cut-boundary-reference/storage/persistence/usage_repository.go:1532-1567 | every status change keeps the books balanced and never meets a mismatch |
| LedgerBooks.HoldMetersExact | cut-boundary-reference/storage/persistence/usage_repository.go:2090-2124 | reserving adds exactly the admission's amount to each balance of its month |
| LedgerBooks.ReservesIff | cut-boundary-reference/storage/persistence/usage_repository.go:441-587 | what a caller can look up decides: complete and undenied request, no row for the check or under the id, every amount covered: exactly then a reservation is made |
| LedgerBooks.AdmissionKeepsBooks | cut-boundary-reference/storage/persistence/usage_repository.go:441-587 | an admission keeps the books exactly if those guards do not all hold or the Go clock, at every hold, is in the month of the row's database time |
| LedgerBooks.CreationKeepsBooks | cut-boundary-reference/storage/persistence/usage_repository.go:1372-1460 | the same for a reservation created under an earlier check |
| LedgerBooks.AdmissionIsAllOrNothing | cut-boundary-reference/storage/persistence/usage_repository.go:441-587 | a denial or error leaves used, reserved, reservations and usage untouched; a grant takes each amount out of what its balance offered in the month read while reserving, whatever was read while checking |
| LedgerBooks.NoOverdraftIff | cut-boundary-reference/storage/persistence/usage_repository.go:1500-1514 | a granted meter is left with at least zero exactly if the month read while reserving covers the amount, which it does if the check read the same month |
| LedgerBooks.MonthBoundaryOverdraws | cut-boundary-reference/storage/persistence/usage_repository.go:2251-2267 | checked in one month and held in the next, whose balance is used up: granted, with less than zero left |
| LedgerBooks.MonthBoundaryTrapsTheHold | cut-boundary-reference/storage/persistence/usage_repository.go:2251-2267 | a transaction that crosses the month boundary leaves a hold that no release can give back |
| LedgerBooks.RecordKeepsBooks | cut-boundary-reference/storage/persistence/usage_repository.go:1583-1647 | recording keeps used amounts equal to the charges of their month |
| LedgerBooks.SettleHoldKeepsBooks | cut-boundary-reference/storage/persistence/usage_repository.go:1005-1033 | settling a hold keeps the books |
| LedgerBooks.SettleKeepsBooks | cut-boundary-reference/storage/persistence/usage_repository.go:918-952 | the whole settlement keeps the books and never meets a mismatch |
| LedgerRuns.BooksAlwaysBalance | cut-boundary-reference/storage/persistence/usage_repository.go:2156-2183 | conservation over every run of all writers of the ledger whose holds are made in the month of their transaction: reserved is the sum of open holds, used the sum of charges, per month; the mismatch guard is unreachable |
| LedgerTotals.HoldTotals | cut-boundary-reference/storage/persistence/usage_repository.go:2090-2124 | holding adds an admission's amounts to the user's total over all months, whatever months the clock reads |
| LedgerTotals.UnholdTotals | cut-boundary-reference/storage/persistence/usage_repository.go:2156-2183 | giving back takes the items out of that total, from whatever month |
| LedgerTotals.StepTotals | cut-boundary-reference/storage/persistence/usage_repository.go:1532-1567 | no transaction changes the difference between a user's reserved total and the open reservations, or makes a reserved amount negative |
| LedgerTotals.TotalsAlwaysBalance | cut-boundary-reference/storage/persistence/usage_repository.go:2090-2183 | conservation over every run without exception: over all months together reserved is the sum of open reservations, never negative in any month, and used is the sum of charges per month |
| LedgerRuns.RowsAlwaysOk | cut-boundary-reference/storage/persistence/usage_repository.go:569-577 | in every run reservation ids are unique and every reservation has positive items of distinct types |
| LedgerRuns.StepExtends | cut-boundary-reference/storage/persistence/usage_repository.go:1532-1567 | rows are never removed, usage never changes, a reservation gives its hold back once |
| LedgerRuns.RunExtends | cut-boundary-reference/storage/persistence/usage_repository.go:1532-1567 | the same over any number of transactions |
| LedgerRuns.EachKeyChargedOnce | cut-boundary-reference/storage/persistence/usage_repository.go:1583-1647 | in every run each usage id, and each attempt of a task on a meter, is charged at most once |
| LedgerRuns.SettlementReplays | cut-boundary-reference/storage/persistence/usage_repository.go:918-952 | a settlement that charged, repeated at any later point, reports the duplicate and changes nothing |
| LedgerRuns.LateSuccessChargesTheOriginalMonth | cut-boundary-reference/public-api/services/agent_run_product_projector.go:496-531 | late success after a release or expiry: no second give-back, and the charge goes to the reservation's month |
| LedgerRuns.ProjectionReplays | cut-boundary-reference/public-api/services/agent_run_product_projector.go:496-548 | projecting the same terminal run twice succeeds and changes nothing |
| RunLifecycle.AgentRunRepository.constructor | cut-boundary-reference/storage/persistence/agent_run_repository.go:208-220 | a new repository holds no runs |
| RunLifecycle.AgentRunRepository.AuthorizeDispatchSubmit | cut-boundary-reference/storage/persistence/agent_run_repository.go:629-691 | the submit fence on one run: refused after a cancel, idempotent once dispatched, granted only from queued; no other run changes |
| RunLifecycle.AgentRunRepository.RequestCancelAndEnqueue | cut-boundary-reference/storage/persistence/agent_run_repository.go:697-787 | the run is cancelled or becomes aborting before the abort job is stored; a queue that cannot store it leaves the run aborting and reports SERVICE_BUSY; a stored job is never stored twice |
| RunLifecycle.AgentRunRepository.UpdateStatusVersioned | cut-boundary-reference/storage/persistence/agent_run_repository.go:1305-1332 | compare and set: only from an expected status |
| RunLifecycle.StepInv | cut-boundary-reference/storage/persistence/agent_run_repository.go:629-787 | a cancel is on record exactly with its reason and hash, an aborting run has one, and an authorised run is owned or terminal, through every writer's step |
| RunLifecycle.StepMovesForward | cut-boundary-reference/storage/persistence/agent_run_repository.go:1305-1332 | no worker moves a status back |
| RunLifecycle.SavePlanNeedsTrust | cut-boundary-reference/storage/persistence/agent_run_repository.go:527-586 | SavePlan, which takes the next status on trust, is safe exactly for statuses ahead of planning other than aborting |
| RunLifecycle.StatusOnlyMovesForward | cut-boundary-reference/backend-workers/runtime_recovery_worker.go:215-224 | over the union of all workers: outcomes are absorbing, orphaned leads only to an outcome, an aborting run never becomes accepted or running |
| RunLifecycle.CancelIsKept | cut-boundary-reference/storage/persistence/agent_run_repository.go:759-764 | the first cancel time, reason and hash are kept for good |
| RunLifecycle.NoSubmitAfterCancel | cut-boundary-reference/storage/persistence/agent_run_repository.go:629-691 | once a cancel has committed on a live run, at every later moment both forms of the submit fence refuse |
| RunLifecycle.AuthorizedThenCancelled | cut-boundary-reference/storage/persistence/agent_run_repository.go:697-787 | a submitted run that is cancelled becomes aborting with its job, under the first reason, and only ends in a terminal status |
| RunLifecycle.CancelledDirectlyWasNeverSubmitted | cut-boundary-reference/storage/persistence/agent_run_repository.go:697-787 | a requested cancel that never passed through aborting hit a run that was never submitted |
| RunLifecycle.CancelledWithoutRequestWasConverged | cut-boundary-reference/backend-workers/runtime_event_worker.go:205-219 | cancelled without a request: the step that made it so is terminal convergence (or SavePlan), before any aborting |
| RunLifecycle.AuthorizedIffSubmitted | cut-boundary-reference/storage/persistence/agent_run_repository.go:629-691 | in every run the submit authorisation is on record exactly if the run went from queued to dispatched; without SavePlan, exactly if it was ever dispatched |
| RunLifecycle.CancelledWithoutAbortingWasSubmittedIff | cut-boundary-reference/backend-workers/runtime_event_worker.go:205-219 | of the runs cancelled without aborting, exactly those that were dispatched had been submitted; these have no cancel request and were cancelled by convergence |
| RunLifecycle.CancelledWithoutAbortingThoughSubmitted | cut-boundary-reference/backend-workers/runtime_event_worker.go:638-643 | such a run exists: submitted, cancelled, never aborting |
| RunLifecycle.CancelledWithoutRequestNorSubmit | cut-boundary-reference/backend-workers/runtime_event_worker.go:638-643 | and one that nobody asked to cancel and that was never submitted |
| RunLifecycle.AbortingHasItsJob | cut-boundary-reference/storage/persistence/agent_run_repository.go:736-746 | with transactions an aborting run always has its abort job; in memory it may be owed or was refused |
| RunLifecycle.AuthorizeSqlRefines | cut-boundary-reference/storage/persistence/agent_run_repository.go:634-670 | the transaction grants exactly what the in-memory form grants with a matching fence and an unsent dispatch, and with the same effect |
| RunLifecycle.CancelSqlRefines | cut-boundary-reference/storage/persistence/agent_run_repository.go:704-746 | cancelling agrees in both forms unless a live row owns a run whose status does not show it |
| Sanitizer.SeparatorsDoNotHide | cut-boundary-reference/storage/persistence/agent_run_repository.go:2021-2032 | an underscore or hyphen inside a key does not change what it is compared as |
| Sanitizer.SanitizedIsClean | cut-boundary-reference/storage/persistence/agent_run_repository.go:1979-2019 | no forbidden key at any depth, and no value inside more than six objects |
| Sanitizer.SanitizedItemsAreClean | cut-boundary-reference/storage/persistence/agent_run_repository.go:1995-2019 | arrays keep their length, order and depth |
| Sanitizer.UnchangedIffClean | cut-boundary-reference/storage/persistence/agent_run_repository.go:1979-2019 | exactly the clean and shallow values are left alone |
| Sanitizer.Idempotent | cut-boundary-reference/storage/persistence/agent_run_repository.go:1979-1993 | sanitizing again changes nothing |
| Sanitizer.SanitizedAt | cut-boundary-reference/storage/persistence/agent_run_repository.go:1979-2019 | along any path of keys, exactly the values without a forbidden key above them and not too deep survive, unchanged |
| EventLog.AgentRunEvents.constructor | cut-boundary-reference/storage/persistence/agent_run_repository.go:208-220 | no events yet |
| EventLog.AgentRunEvents.Prepare | cut-boundary-reference/storage/persistence/agent_run_repository.go:954-959 | the payload is sanitized and carries the event's status |
| EventLog.AgentRunEvents.AppendPublicEvent | cut-boundary-reference/storage/persistence/agent_run_repository.go:1028-1062 | the in-memory append: known key, known sequence, next sequence or conflict; other runs untouched |
| EventLog.AgentRunEvents.Bounds | cut-boundary-reference/storage/persistence/agent_run_repository.go:1877-1889 | first, last and last terminal sequence |
| EventLog.AgentRunEvents.ListPublicEvents | cut-boundary-reference/storage/persistence/agent_run_repository.go:1142-1203 | the page after a cursor |
| EventLog.AgentRunEvents.PrunePublicEventsBefore | cut-boundary-reference/storage/persistence/agent_run_repository.go:1277-1299 | exactly the events from the given sequence on stay, the keys stay |
| EventLog.PreparedIsSafe | cut-boundary-reference/storage/persistence/agent_run_repository.go:954-959 | adding the status keeps a sanitized payload sanitized |
| EventKeys.ReappendIsNoOp | cut-boundary-reference/storage/persistence/agent_run_repository.go:1028-1038 | in memory, a call that found or stored its key is a no-op after any further appends and prunes |
| EventKeys.TakenSequenceIsRefusedLater | cut-boundary-reference/storage/persistence/agent_run_repository.go:1039-1056 | a call under a new key with a taken number is accepted without storing the key: one append and one prune later the same call is refused |
| EventKeys.ReappendIsNoOpIff | cut-boundary-reference/storage/persistence/agent_run_repository.go:1028-1062 | in every reachable log, an accepted call stays a no-op for ever exactly if its key was known or its number not taken |
| EventLog.OtherContentConflicts | cut-boundary-reference/storage/persistence/agent_run_repository.go:1075-1083 | under a known key, anything but the same type, status and sanitized content is a conflict |
| EventLog.ReappendSqlIffStatusAgrees | cut-boundary-reference/storage/persistence/agent_run_repository.go:970-991 | in SQL it is a no-op exactly if the payload's own status prints as the event's, and otherwise a conflict |
| EventLog.EventWithoutStatusConflictsWithItself | cut-boundary-reference/storage/persistence/agent_run_repository.go:976-986 | an event without any status conflicts with itself in SQL |
| EventKeys.RowIsThereUntilDeleted | cut-boundary-reference/storage/persistence/retention_repository.go:67-116 | through appends, compactions and prunes a row is there exactly until it is public and below the last terminal row with a draft there too, or below a prune |
| EventKeys.DeletedRowIsAppendedAgain | cut-boundary-reference/storage/persistence/agent_run_repository.go:970-1024 | after an append under a key and any further steps, the same call stores a second row exactly if the first was deleted (and the number it asks for, if any, is next); else it is a no-op or a conflict as its status says |
| EventKeys.CompactedDraftIsStoredTwice | cut-boundary-reference/storage/persistence/retention_repository.go:67-116 | a concrete run: a draft under a key, the outcome, compaction, and the draft is stored again |
| EventLog.ListSqlAgrees | cut-boundary-reference/storage/persistence/agent_run_repository.go:1142-1203 | both forms return the same page without a gap, and the same gap and bounds with one |
| EventStream.NumberingContinuesIff | cut-boundary-reference/storage/persistence/agent_run_repository.go:992-998 | the table's highest sequence is the number of events ever appended exactly if nothing was appended, the last event was not deleted, or it is an admin event |
| EventStream.NumberingContinues | cut-boundary-reference/storage/persistence/agent_run_repository.go:992-998 | so it is while a public event is left |
| EventStream.LastRetainedIff | cut-boundary-reference/storage/persistence/agent_run_repository.go:1046-1052 | in memory exactly if the last event was not pruned |
| EventStream.MemoryAppendRefines | cut-boundary-reference/storage/persistence/agent_run_repository.go:1046-1058 | the in-memory append is the world's append |
| EventStream.MemoryPruneRefines | cut-boundary-reference/storage/persistence/agent_run_repository.go:1286-1295 | the in-memory prune is the world's delete |
| EventStream.FullPruneRestartsNumbering | cut-boundary-reference/storage/persistence/agent_run_repository.go:1277-1299 | pruning every event restarts the numbering, and an up-to-date reader is told neither of a gap nor of the new event |
| EventStream.CompactionKeepsTheOutcome | cut-boundary-reference/storage/persistence/retention_repository.go:67-116 | compaction keeps the terminal event |
| EventStream.GapIsReported | cut-boundary-reference/storage/persistence/agent_run_repository.go:1873-1875 | a reader that lost an event is always told; told without loss exactly if only admin events lie before the oldest public one; in memory exactly on loss |
| EventStream.NeverMisledIff | cut-boundary-reference/storage/persistence/agent_run_repository.go:1873-1875 | every loss is reported at every cursor exactly if a public event is left or none was deleted |
| EventStream.GapWithoutLoss | cut-boundary-reference/storage/persistence/retention_repository.go:67-116 | a concrete false alarm after compaction |
| EventStream.ReadIsExact | cut-boundary-reference/storage/persistence/agent_run_repository.go:1849-1871 | a page is exactly the public events between its two cursors, progresses while there is more, and leaves nothing behind when there is not |
| EventStream.FollowingIsExact | cut-boundary-reference/storage/persistence/agent_run_repository.go:1142-1203 | with appends, compaction and every prune that does not take the last public event in between, a client holds exactly the public events after its start up to its cursor |
| EventStream.EveryReadProgressesOrCatchesUp | cut-boundary-reference/storage/persistence/agent_run_repository.go:1849-1871 | each read moves on or leaves the client with every public event after its start |
| EventStream.ResumingSkipsNothingRetained | cut-boundary-reference/public-api/routes/agent_run_routes.go:395-409 | starting over at the advertised sequence skips nothing that is still stored |
| EventSse.PublicTerminalIff | cut-boundary-reference/public-api/services/agent_run_service.go:253-281 | terminal to the public are the outcomes and every unknown status |
| EventSse.FrameAt | cut-boundary-reference/public-api/routes/agent_run_routes.go:412-419 | one frame and whether it ends the stream |
| EventSse.WritePage | cut-boundary-reference/public-api/routes/agent_run_routes.go:395-426 | the frames of a page up to a write failure, the cursor of the last one written, and whether the stream ends |
| EventSse.FramesCarryIds | cut-boundary-reference/public-api/services/agent_run_service.go:299-316 | the projection does not touch ids or the cursor |
| EventSse.FreshPageMovesOn | cut-boundary-reference/public-api/routes/agent_run_routes.go:185-198 | a page read at a cursor is written with increasing ids beyond it |
| EventSse.IdsIncreaseIffTicksAreQuiet | cut-boundary-reference/public-api/routes/agent_run_routes.go:185-225 | the ids of a stream increase exactly if every heartbeat or renewal finds the last page empty |
| EventSse.StreamIdsIncreaseIff | cut-boundary-reference/public-api/routes/agent_run_routes.go:185-225 | the same for the pages of a real stream under any appends and compactions |
| EventSse.HeartbeatWritesTheEventAgain | cut-boundary-reference/public-api/routes/agent_run_routes.go:213-217 | one event and one heartbeat: the event is written twice |
| EventSse.EndsOnlyWhenCaughtUp | cut-boundary-reference/public-api/routes/agent_run_routes.go:410-426 | a stream that ends other than by a gap has written up to the latest event |
| EventSse.EndsIff | cut-boundary-reference/public-api/routes/agent_run_routes.go:410-439 | when it ends at the end of the log: a stored terminal event, an item whose status is not of a live run, or a last event of an outcome's type |
| Ingest.RuntimeEvents.constructor | extracted/go-runtime-control-plane/internal/runtime/runtime_host_concurrency.go:966-982 | an empty store at cursor zero |
| Ingest.RuntimeEvents.AppendRunEventAndAdvanceCursor | extracted/go-runtime-control-plane/internal/runtime/runtime_host_concurrency.go:984-1130 | a known event again is fine if it is the same, the next one advances the cursor, all else is a gap without effect |
| Ingest.RuntimeEvents.IngestPage | cut-boundary-reference/backend-workers/runtime_event_worker.go:417-442 | the items of a page in order up to the first refusal |
| Ingest.RuntimeEvents.IngestEventPages | cut-boundary-reference/backend-workers/runtime_event_worker.go:403-457 | all pages, with the cursor reached and the error |
| Ingest.AppendKeepsConsecutive | extracted/go-runtime-control-plane/internal/runtime/runtime_host_concurrency.go:984-1130 | any append by any worker keeps the store consecutive and adds the one event after its cursor or nothing |
| Ingest.StaleWorkerWritesNothing | cut-boundary-reference/backend-workers/runtime_event_worker.go:417-442 | a worker with an old cursor writes nothing and passes only over events stored just as it has them |
| Ingest.PageExtends | cut-boundary-reference/backend-workers/runtime_event_worker.go:417-442 | a page stores exactly its first items, each routed |
| Ingest.IngestIsConsecutive | cut-boundary-reference/backend-workers/runtime_event_worker.go:403-457 | whatever the Runtime answers: no hole, no duplicate, the returned cursor is the durable one even on an error, and success saw a whole last page with nothing newer announced |
| Ingest.NoProgressIsAGap | cut-boundary-reference/backend-workers/runtime_event_worker.go:452-454 | an empty page that claims more is a gap |
| Ingest.ItemStep | cut-boundary-reference/backend-workers/runtime_event_worker.go:417-442 | one item by one worker, whatever others stored since its last one: the store grows consecutively and the worker stays within it |
| Ingest.StoreIsAlwaysConsecutive | cut-boundary-reference/backend-workers/runtime_event_worker.go:403-457 | any number of workers interleaved item by item: no hole, no duplicate, no cursor ahead of the durable one |
| Ingest.SuccessSawTheEnd | cut-boundary-reference/backend-workers/runtime_event_worker.go:443-457 | a worker that stops without an error has the whole of its last page in the store, whoever else wrote, and that page announced nothing newer |
| Ingest.IngestIsARun | cut-boundary-reference/backend-workers/runtime_event_worker.go:403-457 | the loop over the pages is the run of one worker in which nobody else moves |
| Ingest.ConvergesAtTheCursor | cut-boundary-reference/backend-workers/runtime_event_worker.go:131-159 | terminal convergence uses exactly the ingested cursor, whatever sequence the status claims |
| Scanner.BalancedJSONObjectAt | extracted/go-runtime-adapter/cmd/openclaw-runtime-adapter/faya_result_compat.go:63-98 | the byte loop returns what the automaton accepts first |
| Scanner.StringIsNeutral | extracted/go-runtime-adapter/cmd/openclaw-runtime-adapter/faya_result_compat.go:69-84 | braces, quotes and backslashes inside a string do not count |
| Scanner.ValueIsNeutral | extracted/go-runtime-adapter/cmd/openclaw-runtime-adapter/faya_result_compat.go:63-98 | every JSON value, with its own blanks after every token, leaves the scanner's depth as it was |
| Scanner.ScanUndoesPrint | extracted/go-runtime-adapter/cmd/openclaw-runtime-adapter/faya_result_compat.go:63-98 | for every JSON object in any layout, and any text before and after, the scan returns the printed object |
| Scanner.PrintedObjectsArePrefixFree | extracted/go-runtime-adapter/cmd/openclaw-runtime-adapter/faya_result_compat.go:63-98 | no printed object is a proper prefix of another text |
| Scanner.NothingClosesEarlier | extracted/go-runtime-adapter/cmd/openclaw-runtime-adapter/faya_result_compat.go:85-95 | what is returned closes for the first time at its last byte |
| Scanner.EnvelopeYieldsTheObject | extracted/go-runtime-adapter/cmd/openclaw-runtime-adapter/faya_result_compat.go:42-61 | prose whose lowering keeps its length and one fenced object in any layout, with any case of the marker and any blanks or a byte-order mark, yield that object |
| Scanner.CutIff | extracted/go-runtime-adapter/cmd/openclaw-runtime-adapter/faya_result_compat.go:47-51 | behind any prose the cut is off by what lowering lengthens it: past the end exactly if that exceeds all that follows the marker, right exactly if the prose keeps its length |
| Scanner.LowerSplits | extracted/go-runtime-adapter/cmd/openclaw-runtime-adapter/faya_result_compat.go:47-47 | lowering goes piece by piece at an ASCII byte |
| Scanner.InRangeUnlessLonger | extracted/go-runtime-adapter/cmd/openclaw-runtime-adapter/faya_result_compat.go:47-51 | the slice after the marker is in range as long as lowering does not lengthen the reply |
| Scanner.AsciiRepliesStayInRange | extracted/go-runtime-adapter/cmd/openclaw-runtime-adapter/faya_result_compat.go:47-51 | so it always is for ASCII replies |
| Scanner.LoweringCanRunPastTheEnd | extracted/go-runtime-adapter/cmd/openclaw-runtime-adapter/faya_result_compat.go:47-51 | a reply of one letter that lowers to more bytes, and the marker, makes the slice go past the end |
| Scanner.LoweringCanMissTheObject | extracted/go-runtime-adapter/cmd/openclaw-runtime-adapter/faya_result_compat.go:47-54 | behind a Kelvin sign, which lowers to fewer bytes, a fenced object that is found without it is missed |
| Notifier.StepInv | cut-boundary-reference/storage/persistence/agent_run_event_notifier.go:126-154 | a pending mark stands for exactly one queue entry, publisher or call, and what is owed is covered |
| Notifier.NoWakeupIsLost | cut-boundary-reference/storage/persistence/agent_run_event_notifier.go:126-154 | until a publish or a recovery trigger has followed a Notify, one is on its way |
| Notifier.PublishApproaches | cut-boundary-reference/storage/persistence/agent_run_event_notifier.go:251-271 | each step of the publish loop brings that publish nearer until the run is served, and nobody sets it back |
| Notifier.PublisherIsNeverStuck | cut-boundary-reference/storage/persistence/agent_run_event_notifier.go:251-271 | and the loop can always take it |
| Notifier.CallHandsOver | cut-boundary-reference/storage/persistence/agent_run_event_notifier.go:145-153 | a call with a run in hand queues it, or forgets the mark and triggers recovery |
| Notifier.QueuedOnce | cut-boundary-reference/storage/persistence/agent_run_event_notifier.go:138-147 | at most one queue entry per run, within the queue's capacity |
| Notifier.RecoveringNotifier.constructor | cut-boundary-reference/storage/persistence/agent_run_event_notifier.go:98-120 | no sweep under way |
| Notifier.RecoveringNotifier.NotifyRecoveryBatch | cut-boundary-reference/storage/persistence/agent_run_event_notifier.go:397-434 | signals exactly the next subscribers from the cursor on, wrapping around |
| Notifier.RecoveringNotifier.BeginRecovery | cut-boundary-reference/storage/persistence/agent_run_event_notifier.go:364-371 | a sweep covers at least everyone subscribed |
| Notifier.RecoveringNotifier.RecoverBatch | cut-boundary-reference/storage/persistence/agent_run_event_notifier.go:373-395 | one batch and the remaining count; without a ready subscriber a finished sweep starts over |
| Notifier.SweepGoesRound | cut-boundary-reference/storage/persistence/agent_run_event_notifier.go:373-434 | whatever the batch size, a sweep goes round the subscribers one by one |
| Notifier.SweepReachesEveryone | cut-boundary-reference/storage/persistence/agent_run_event_notifier.go:373-434 | a sweep over a fixed set of subscribers signals every one of them |
| Notifier.SweepSignalsOnce | cut-boundary-reference/storage/persistence/agent_run_event_notifier.go:397-434 | and none twice, if it is as long as there are subscribers |
| Notifier.SweepIsBatches | cut-boundary-reference/storage/persistence/agent_run_event_notifier.go:373-395 | each tick of a sweep under way is its next batch |
| Notifier.TurnsGoRound | cut-boundary-reference/storage/persistence/agent_run_event_notifier.go:313-330 | in any order of triggers and ticks the loop goes round the subscribers one by one, and what it owes falls only by what it signals |
| Notifier.RecoveryReachesEveryone | cut-boundary-reference/storage/persistence/agent_run_event_notifier.go:313-395 | after a begin, whatever triggers and ticks follow: once nothing is owed, every one of a fixed set of subscribers was signalled |
| Confirmation.Repositories.constructor | cut-boundary-reference/storage/persistence/agent_run_confirmation_repository.go:435-444 | empty tables |
| Confirmation.Repositories.Restore | cut-boundary-reference/storage/persistence/agent_run_confirmation_repository.go:692-712 | the tables are what the snapshot holds |
| Confirmation.Repositories.AdmitConfirmation | cut-boundary-reference/storage/persistence/agent_run_confirmation_repository.go:565-611 | reuse of a held reservation, or a new check that is denied or allowed with its reservation |
| Confirmation.Repositories.CommitConfirmation | cut-boundary-reference/storage/persistence/agent_run_confirmation_repository.go:504-562 | task, plan, run, job and event are written, then validated |
| Confirmation.Repositories.ConfirmPlanAndEnqueueWithAdmission | cut-boundary-reference/storage/persistence/agent_run_confirmation_repository.go:435-563 | the whole call with its rollback |
| Confirmation.SuccessMeansAgreement | cut-boundary-reference/storage/persistence/agent_run_confirmation_repository.go:435-563 | after success the run is queued and linked, the plan confirmed under the key, the AiTask linked, its reservation held with an allowed check, one live job and the queued event stored |
| Confirmation.FailureRestores | cut-boundary-reference/storage/persistence/agent_run_confirmation_repository.go:435-563 | any failure restores the state found; a denial keeps its permission check and nothing else |
| Confirmation.RepeatChangesNothing | cut-boundary-reference/storage/persistence/agent_run_confirmation_repository.go:462-475 | the same key again changes nothing and names the same AiTask as long as the reservation has not expired |
| Confirmation.OtherKeyConflicts | cut-boundary-reference/storage/persistence/agent_run_confirmation_repository.go:467-469 | another key is a conflict and changes nothing |
| Confirmation.DenialStands | cut-boundary-reference/storage/persistence/agent_run_confirmation_repository.go:581-587 | a denial stands for its key, even when quota and membership would allow it by now |
| Confirmation.FirstConfirmationSucceedsIff | cut-boundary-reference/storage/persistence/agent_run_confirmation_repository.go:476-562 | a first confirmation goes through exactly if admission allows it, the AiTask comes out on the run's thread and live, and the queue has or can store the job |
| Confirmation.SomeConfirmationSucceeds | cut-boundary-reference/storage/persistence/agent_run_confirmation_repository.go:476-562 | and some confirmation does go through |
| Overlay.Composer.IndexBase | cut-boundary-reference/backend-workers/runtime_manifest_provider_filesystem.go:563-572 | a duplicate path is refused; otherwise the index and the byte total agree with the entries |
| Overlay.Composer.Replace | cut-boundary-reference/backend-workers/runtime_manifest_provider_filesystem.go:575-585 | in whatever order the map yields, exactly the files the Workspace has replace base entries; an unreadable one fails |
| Overlay.Composer.AddTree | cut-boundary-reference/backend-workers/runtime_manifest_provider_filesystem.go:601-618 | the paths of one tree, in order, with the index and the byte total kept |
| Overlay.Composer.AddTrees | cut-boundary-reference/backend-workers/runtime_manifest_provider_filesystem.go:596-619 | all trees |
| Overlay.Composer.SkillHashes | cut-boundary-reference/backend-workers/runtime_manifest_provider_filesystem.go:621-628 | each skill goes by the hash of its SKILL.md in the package, if there is one |
| Overlay.Composer.ComposeEntries | cut-boundary-reference/backend-workers/runtime_manifest_provider_filesystem.go:563-619 | the composed entries and their index |
| Overlay.Composer.ApplyFormalWorkspacePackage | cut-boundary-reference/backend-workers/runtime_manifest_provider_filesystem.go:547-630 | the whole composition, independent of map order |
| Overlay.ComposedPackage | cut-boundary-reference/backend-workers/runtime_manifest_provider_filesystem.go:563-619 | no path twice, base order kept, Workspace content where it exists, added files only under protocols/ or a selected skill, all of them, and within both limits |
| Overlay.OverTheLimitIff | cut-boundary-reference/backend-workers/runtime_manifest_provider_filesystem.go:612-614 | a composed package is over a limit exactly if the replaced base is, and then the base lists every file of the walked trees |
| Overlay.OversizedBasePassesIff | cut-boundary-reference/backend-workers/runtime_manifest_provider_filesystem.go:596-619 | with nothing else wrong, an oversized base is passed on exactly if it already lists every file the walks find |
| Overlay.OversizedBaseIsPassedOn | cut-boundary-reference/backend-workers/runtime_manifest_provider_filesystem.go:575-585 | such a package exists |
| Overlay.ComposingAgainIsTheSame | cut-boundary-reference/backend-workers/runtime_manifest_provider_filesystem.go:563-619 | composing what was composed changes nothing |
| Overlay.SkillHashFollowsWorkspace | cut-boundary-reference/backend-workers/runtime_manifest_provider_filesystem.go:621-628 | a skill the Workspace replaces goes by the Workspace's hash |
| Overlay.SealEntries | cut-boundary-reference/backend-workers/runtime_manifest_provider_filesystem.go:653-664 | sealing succeeds exactly if every reference still has its size and hash, and inlines exactly those |
| Overlay.SealedIsWhatWasComposed | cut-boundary-reference/backend-workers/runtime_manifest_provider_filesystem.go:653-664 | what is sealed is, byte for byte, what was composed |

## Left out

- Gateway.PersistentGatewayClient.Add: a pending call is a table entry under a fresh request id, not a pointer that several tables share.
- GatewayProtocol.EveryRunIsSafe: dialing with its handshake is one step that succeeds or fails; JSON decoding, token redaction and the text of errors are not modelled.
- Queue.QueueRepository.UpdateErrorSummary: the error summary is its code only; attempt series, dead-letter audit rows and recording compensation are left out.
- Queue.QueueRepository.Enqueue: the material queues are known by name, the gate on their id prefix is not modelled; dedupe keys and payloads are not stored.
- QueueProtocol.LeaseBudget: commands with a negative maxAttempts are outside the run system.
- QueueHolder.StoppedProofIsLive: the worker's own use of the proof beside the refreshing goroutine is not part of the step system.
- TerminalRecovery.RecoveryQueues.EnqueueTerminalRecovery: attempt counters and update times are not stored; the legacy-contract block is one more checkpoint code.
- LedgerRuns.BooksAlwaysBalance: per month only for runs whose reserving clocks stay in the month of their transaction; LedgerBooks.AdmissionKeepsBooks says exactly why, and LedgerTotals.TotalsAlwaysBalance what holds in every run.
- Ledger.UsageRepository.CreateReservation: the id is an input, expiry times are not stored, and the in-memory form, which overwrites a row, is not modelled.
- Ledger.UsageRepository.AdmitAndReserve: membership and feature denials are one input, limits are a function that is constant over a run; quota snapshots, trace ids, costs and payloads are not stored; the in-memory reservation setter, which overwrites any status, is not modelled.
- RunLifecycle.AgentRunRepository.AuthorizeDispatchSubmit: trimming of identifiers is not modelled.
- RunLifecycle.StatusOnlyMovesForward: SavePlan is included for statuses that are ahead of planning; RunLifecycle.SavePlanNeedsTrust covers the rest. It has no caller in the repository.
- Sanitizer.SeparatorsDoNotHide: trimming and lowering of keys are those of ASCII.
- EventLog.AgentRunEvents.AppendPublicEvent: creation times, payload hashes and the notification of subscribers are not stored.
- EventLog.ReappendSqlIffStatusAgrees: a status that is an array or object prints as its opening bracket only.
- EventStream.FollowingIsExact: a prune that deletes the last public event is excluded, the one case in which EventStream.NeverMisledIff fails. Which runs are old enough to be compacted is not modelled.
- EventSse.StreamIdsIncreaseIff: admission leases, write deadlines and heartbeat frames, which carry no id, are not modelled.
- Ingest.RuntimeEvents.AppendRunEventAndAdvanceCursor: one dispatch; identity checks, tool receipts, the gap columns and the numbering across dispatches are left out.
- Scanner.EnvelopeYieldsTheObject: blanks are ASCII blanks; the table of lowered letters is a parameter of which only UTF-8's boundaries are assumed; the envelope's own fields are not looked at.
- Notifier.NoWakeupIsLost: a live client with recovery switched on; closing, reconnecting and receiving are left out.
- Notifier.RecoveringNotifier.NotifyRecoveryBatch: the subscribers are kept in the order a batch sorts them into, and are fixed during a batch.
- Notifier.RecoveringNotifier.RecoverBatch: one step; between its two locked sections only the set of subscribers can change, as one goroutine runs every batch and every begin.
- Confirmation.Repositories.ConfirmPlanAndEnqueueWithAdmission: the in-memory form only, without interleaved writers, so the repeated checks under the lock are left out; CreateAiTask is not part of this model, the thread and status it gives a task are inputs, and so are membership, features and the remaining quota.
- Confirmation.RepeatChangesNothing: a run that has left queued answers a repeat with the expired-plan error, without effect.
- Overlay.Composer.ApplyFormalWorkspacePackage: path resolution, links and directory walks are a map of files and a function from a root to its sorted paths; the identity checks on run, plan and context are left out.
- Planning transactions, the dispatcher's retry delay, Thread Workspace switching, knowledge selection and comparison of string lists.
- Host, scheduler, session and capacity repositories, ticket signing, HTTP, Redis and SQL text: only the atomic change each call makes is kept.
