# SkillPass: model and proofs

SkillPass issues soulbound certificates on an EVM chain and mirrors them into Postgres for listing,
search, statistics, webhooks and live updates. This project models the parts of it whose claims are
about whole runs and proves them.

- `Domain.dfy`, `Chains.dfy`: certificates; blocks with parent hashes and issuance events; the rows
  that a chain must produce, and the table as the fold of upserts over them.
- `Store.dfy`: the three tables with their unique keys, and the task queue, changed in place.
- `Indexer.dfy`: the polling worker. Each method is proved to apply a prefix of an
  effect list computed from the chain and the checkpoint, so that a failing call or a crash is a prefix.
- `IndexerRuns.dfy`: runs of chain growth, reorganisations, failing polls, crashes and restarts, their
  invariant, and what successful polls achieve.
- `Batches.dfy`: what a poll makes of any table whatever, and when it can succeed at all.
- `IndexerLimits.dfy`, `IndexerExamples.dfy`: for each hypothesis of the run theorems, the exact condition
  under which successful polls still end with the right table without it, and an input that misses it.
- `Outbox.dfy`: the worker's fast path and any number of sweeps, interleaved call by call.
- `EndToEnd.dfy`: both together, from an event on the chain to an accepted task, and from the contract's
  storage to the table.
- `Calendar.dfy`, `Trend.dfy`: Gregorian bucket arithmetic and the zero-filled issuance trend.
- `Pagination.dfy`: keyset pages chained by a decimal cursor.
- `Contract.dfy`: the certificate contract, and why the chain it writes is the one the indexer expects.
- `Broadcast.dfy`: the in-process fan-out and all its interleavings.

`dafny verify dfyconfig.toml` checks everything. The lemmas carry `{:induction false}`: every induction
is written out.

## What the run theorems assume

`IndexerRuns.Admissible` says it of the chain that a poll reads. Beside the hypotheses stand theorems that
say exactly when successful polls do without them, and inputs that show that they can be needed.

- The canonical chain does not change during one poll (`services/indexer/internal/usecase/worker.go:133`
  and `:148` are separate calls; `SplitReadIff`, `SplitReadKeepsOldRow`).
- Blocks are linked by their parents' hashes, and these do not collide (`SameHashIff`, `HashCollisionHidesReorg`).
- A reorganisation keeps every block up to the rewind point of the checkpoint (`DeepReorgIff`,
  `DeepReorgLeavesOrphan`).
- While the checkpoint's block is canonical, blocks above it that a failed batch read have not been
  replaced (`StaleRowsIff`; `PollCanSucceedIff` and `SwappedTransactionsStall` for whether the retry can
  succeed), and no rewind stopped between its two writes (`TornRewindIff`, `TornRewindMissesRow`).
- The answer to the save of a rewind is not lost once the save is carried out (`LostSaveIff`,
  `AmbiguousSaveSkipsBlocks`). Every other answer may be lost.
- The batch size is at least 1 and nothing wraps at 64 bits (`BatchNotEmptyIff`, `WrappedPollIff`,
  `WrappedBatchMovesBack`).
- Every certificate issued is one that Validate accepts (`ScanCompletesIff`, `RejectedCertificateStalls`,
  and for the contract `IndexableIff`).

## Where code and comments disagree

- `services/indexer/internal/usecase/trend.go:59` bounds the day list by 365; 365d yields 366 buckets.
- `services/indexer/internal/usecase/worker.go:100` calls initNext a no-op after the first call; with the
  position at 0 it runs again, and with the checkpoint at block 0 it resumes at the start block, so block 0
  is scanned twice. `SuccessfulPollSyncs` and `RestartAtGenesisLeavesRowAhead` give the consequence.

## Model

| member | source | states |
|---|---|---|
| `Chains.HashDecidesAgreement` | services/indexer/internal/usecase/worker.go:181-187 | With parent-linked, collision-free hashes, equal hashes at height h mean that two chains agree on every block up to h, and conversely: one comparison detects every replacement. |
| `Chains.LookupAtHead` | services/indexer/internal/adapter/chain/eventsource.go:99-126 | A token issued anywhere in a chain with unique events is found from the head, with the data of its own event. |
| `Chains.BackfillAtHead` | services/indexer/internal/usecase/worker.go:225-233 | Backfilling a log at the head gives the data its own event stored, although the batch lies behind the head. |
| `Chains.LogsMatchRows` | services/indexer/internal/adapter/chain/eventsource.go:68-97 | The logs of a block interval are, one by one and in order, the provenance of the rows that the interval must produce. |
| `Chains.RowsMembers` | services/indexer/internal/adapter/chain/eventsource.go:68-97 | The rows of an interval are exactly those of the events in its blocks. |
| `Chains.FoldMembers` | services/indexer/internal/db/queries.sql.go:479-504 | Folding upserts keeps, for every token, its row and no other. |
| `Chains.ProjectionIff` | services/indexer/internal/db/queries.sql.go:479-504 | A table equals the fold of upserts over an interval if and only if no row is orphaned and none is missing. |
| `Domain.IndexedIff` | services/indexer/internal/domain/certificate.go:28-56 | A log and its on-chain data make a row unless owner, title, issuer, issue time, transaction hash or block hash is missing, and then field by field what they say. |
| `Store.TaskQueue.EnqueueUnique` | services/indexer/internal/adapter/asynqjobs/enqueuer.go:31-52 | A nil answer means that the task is now stored under its id with its payload, or was absorbed because the lock or the task id is held; the lock is held afterwards; an error leaves the queue alone. |
| `Store.CertificateRepo.Upsert` | services/indexer/internal/adapter/postgres/certificate_repo.go:41-61 | Replaces the row of the token, or fails and changes nothing when another token holds the event key, which ON CONFLICT does not name. |
| `Store.CertificateRepo.SaveState` | services/indexer/internal/adapter/postgres/certificate_repo.go:123-134 | Replaces the singleton checkpoint. |
| `Store.CertificateRepo.DeleteFromBlock` | services/indexer/internal/adapter/postgres/certificate_repo.go:136-148 | Removes exactly the rows of this chain at or above the block and leaves every other row as it was. |
| `Store.CertificateRepo.InsertWebhookOutbox` | services/indexer/internal/adapter/postgres/certificate_repo.go:180-196 | Appends a row for a new (chain, tx, token) under a fresh larger id; a known key adds nothing but still uses up an id. |
| `Store.CertificateRepo.ListUnenqueuedWebhookOutbox` | services/indexer/internal/adapter/postgres/certificate_repo.go:198-210 | As many rows as are unmarked, up to limit; an unmarked row with k older unmarked rows stands at place k. |
| `Store.CertificateRepo.MarkWebhookOutboxEnqueued` | services/indexer/internal/adapter/postgres/certificate_repo.go:212-218 | The rows with this id get marked and keep all else; every other row stays as it was. |
| `Store.UnenqueuedAt` | services/indexer/internal/db/queries.sql.go:220-222 | The unmarked rows in order of id: a pending row stands at the position given by the number of older pending rows. |
| `Store.ListedAt` | services/indexer/internal/db/queries.sql.go:220-222 | The same for a list cut off at a limit. |
| `Indexer.Worker.InitNext` | services/indexer/internal/usecase/worker.go:100-115 | The cached position is kept if set, else resolved from the checkpoint; a failing read leaves it. |
| `Indexer.Worker.EnqueueWebhook` | services/indexer/internal/usecase/worker.go:259-288 | A failing insert is an error, without effect unless only its answer was lost; a known key does nothing more; a failing enqueue or mark is absorbed. |
| `Indexer.Worker.ProcessLog` | services/indexer/internal/usecase/worker.go:225-251 | A log that cannot be fetched or validated changes nothing; otherwise some prefix of upsert, outbox insert is applied, all of it on success, and only the network or a unique key can stop it. |
| `Indexer.Worker.Reconcile` | services/indexer/internal/usecase/worker.go:172-222 | Without a state, or with a canonical checkpoint, nothing; otherwise delete above the rewind point, then save it, possibly stopping in between; the cached position moves only if reconcile succeeds, even if the save was carried out and its answer lost. |
| `Indexer.Worker.ProcessLogs` | services/indexer/internal/usecase/worker.go:138-143 | The loop applies a prefix of the effects of the fetchable logs, all of them on success, and stops at the first failing log. |
| `Indexer.Worker.Scan` | services/indexer/internal/usecase/worker.go:124-162 | One batch: all its upserts and then the checkpoint, or a prefix of these; the cached position moves only on success, so it lags if the answer to the last save was lost. The hash may be read on another chain than the logs. |
| `Indexer.Worker.Poll` | services/indexer/internal/usecase/worker.go:92-163 | A poll applies a prefix of its planned effects, the whole plan on success; it fails only if a call is not answered, the plan cannot complete or a key is violated. |
| `Indexer.Fetchable` | services/indexer/internal/usecase/worker.go:138-143 | The number of leading logs that yield a valid certificate: all before it do, the one at it does not. |
| `Indexer.ApplyAllAppend` | services/indexer/internal/usecase/worker.go:138-162 | Two effect lists in a row act, and can be applied, as their concatenation. |
| `Batches.UpsertsAt` | services/indexer/internal/db/queries.sql.go:479-504 | Upserting rows with distinct tokens leaves each of them in the table, and every other token as it was. |
| `Batches.TakenIff` | services/indexer/migrations/00001_init.sql:18 | In any table, a row of a batch meets a violated event key if and only if another token had that key before the batch and no earlier row replaced it. |
| `Batches.BatchExactIff` | services/indexer/internal/usecase/worker.go:132-161 | Any table with an interval of rows upserted is the projection up to its end if and only if no row below the interval was missing and every old row belongs there or has its token issued again. |
| `Batches.LogEffectsTable` | services/indexer/internal/usecase/worker.go:138-143 | The loop over the first n logs upserts the first n rows, and can do so if and only if none of them meets a taken key. |
| `Batches.SplitTable` | services/indexer/internal/usecase/worker.go:132-161 | The same as ScanTable for a scan that reads its last hash on another chain, which must reach that far. |
| `Batches.ScanTable` | services/indexer/internal/usecase/worker.go:132-161 | From any table, a scan can be completed if and only if Validate accepts its certificates and no unique key refuses a row; it then upserts exactly the rows of its interval. |
| `Batches.ReconcileInNumbers` | services/indexer/internal/usecase/worker.go:172-221 | Without a checkpoint hash, or with one that the chain confirms, reconcile does nothing; otherwise it deletes exactly the rows above max(start block, checkpoint - 12) and makes that block the checkpoint, unless the chain does not reach it. |
| `Batches.StartInNumbers` | services/indexer/internal/usecase/worker.go:100-115 | A poll scans from behind the rewound checkpoint, else from its position, else from where a restart resumes. |
| `Batches.NoWebhookBeforeRow` | services/indexer/internal/usecase/worker.go:234-249 | No poll, wherever it stops, records a webhook for a certificate that the table does not have yet. |
| `Batches.PollCanSucceedIff` | services/indexer/internal/usecase/worker.go:119-163 | From any table, a poll can succeed if and only if the checkpoint can be reconciled, Validate accepts every certificate of the batch, and no row is refused by (chain_id, tx_hash, log_index). |
| `Batches.GoodPollTable` | services/indexer/internal/usecase/worker.go:119-163 | What a successful poll leaves of any state: table, checkpoint and position. |
| `Batches.ClashStalls` | services/indexer/internal/usecase/worker.go:138-143 | While the checkpoint stays canonical, a refused row makes every poll fail, with checkpoint and resume point unmoved, and is refused again afterwards. |
| `IndexerRuns.BatchKeeps` | services/indexer/internal/db/queries.sql.go:479-504 | Upserting any canonical rows into a table of canonical rows never violates (chain_id, tx_hash, log_index), overwrites nothing with anything else, and drops no outbox row. |
| `IndexerRuns.PutKeeps` | services/indexer/migrations/00001_init.sql:18 | A canonical row never meets a violated event key and only replaces an equal row. |
| `IndexerRuns.SoundUnique` | services/indexer/migrations/00001_init.sql:3-18 | A table of canonical rows is unique in both keys. |
| `IndexerRuns.LogEffectsAreRows` | services/indexer/internal/usecase/worker.go:225-251 | On a valid chain the effects of a batch upsert exactly canonical rows and cover each log with its row and, with webhooks on, its outbox insert. |
| `IndexerRuns.ScanOnValidChain` | services/indexer/internal/usecase/worker.go:132-161 | On a valid chain the plan of a scan upserts and records every row of its interval and then saves the canonical hash of the last block. |
| `IndexerRuns.PartialBatch` | services/indexer/internal/usecase/worker.go:117-118 | A batch that stopped after any of its upserts keeps the invariant, and its rows stay canonical. |
| `IndexerRuns.SavedBatch` | services/indexer/internal/usecase/worker.go:145-161 | A whole batch ends at min(start + batchSize, head + 1) with every covered row and outbox record present, whether the position follows or lags. |
| `IndexerRuns.CheckpointHashDecides` | services/indexer/internal/usecase/worker.go:181-187 | In every reachable state the stored hash equals the canonical one if and only if the canonical chain agrees with the indexed one up to the checkpoint. |
| `IndexerRuns.RewindKeepsRows` | services/indexer/internal/usecase/worker.go:195-221 | After the deletion the table is sound and complete for the canonical chain up to the rewind point: every kept row is canonical and no row that should be kept is gone. |
| `IndexerRuns.RewoundKeepsInv` | services/indexer/internal/usecase/worker.go:205-220 | A finished rewind re-establishes the invariant with the table and the checkpoint settled on the canonical chain. |
| `IndexerRuns.TornKeepsInv` | services/indexer/internal/usecase/worker.go:205-212 | A rewind that stopped between delete and save keeps the invariant. |
| `IndexerRuns.PollKeepsInv` | services/indexer/internal/usecase/worker.go:119-163 | Whatever fails and wherever a poll stops, the invariant over tables, checkpoint, position and outbox holds again. |
| `IndexerRuns.RunKeepsInv` | services/indexer/internal/usecase/worker.go:93-163 | The invariant holds in every state of every run of chain growth, reorganisations, failing polls, crashes and restarts. |
| `IndexerRuns.TwelveBlocksMayGo` | services/indexer/internal/usecase/worker.go:195-205 | A reorganisation that replaces the checkpoint may replace the eleven blocks below it as well, or everything behind the start block, and still is one that the run theorems cover. |
| `IndexerRuns.SettledExactIff` | services/indexer/internal/usecase/worker.go:119-163 | Once settled, the table equals the projection up to the checkpoint if and only if no row lies above it. |
| `IndexerRuns.SuccessfulPollSyncs` | services/indexer/internal/usecase/worker.go:119-163 | After a successful poll the checkpoint is canonical, the position follows it, and the table is exactly the projection of the canonical chain up to it, if and only if the poll was no restart with the checkpoint at block 0 or no row before it lay beyond the first batch. |
| `IndexerRuns.EveryRunSyncs` | services/indexer/internal/usecase/worker.go:119-222 | The same, with the same condition, after each successful poll of any run. |
| `IndexerRuns.CheckpointCoversNothingMissing` | services/indexer/internal/usecase/worker.go:246-266 | At every moment of every run with a canonical checkpoint, each canonical event it covers has its row and, with an enqueuer wired, its outbox row. |
| `IndexerRuns.PollsAdvance` | services/indexer/internal/usecase/worker.go:124-161 | n successful polls on a chain that holds still move the position by n batches up to the head: the intervals adjoin without overlap or gap. |
| `IndexerRuns.PollsCatchUp` | services/indexer/internal/usecase/worker.go:101-163 | From any reachable state, ceil(distance / batchSize) successful polls end in the one state that the chain determines. |
| `IndexerRuns.CaughtUpRunsAgree` | services/indexer/internal/usecase/worker.go:101-163 | Two runs, whatever failed, crashed or was rewound before, that end in enough successful polls on one chain agree in table, checkpoint and position. |
| `IndexerRuns.HealthyPollCompletes` | services/indexer/internal/usecase/worker.go:119-163 | In a reachable state whose checkpoint the chain still reaches, only the network can fail a poll: no certificate, unique key or missing block does. |
| `IndexerLimits.BatchNotEmptyIff` | services/indexer/internal/usecase/worker.go:132 | The 64-bit batch end does not fall behind the start if and only if the sum does not wrap (or batch size and position are both 0). |
| `IndexerLimits.ScanCompletesIff` | services/indexer/internal/domain/certificate.go:28-56 | The logs of a batch all yield certificates if and only if Validate accepts every one; its effects can all be applied if and only if, besides, no row is refused by a unique key. |
| `IndexerLimits.RejectedCertificateStalls` | services/indexer/internal/usecase/worker.go:225-233 | One rejected certificate in the next batch makes every poll fail with the checkpoint and the resume point unmoved. |
| `IndexerLimits.PollsTable` | services/indexer/internal/usecase/worker.go:119-163 | n successful polls from any state, on a chain that holds still, upsert the rows of one interval into the table that reconcile left. |
| `IndexerLimits.PollsExactIff` | services/indexer/internal/usecase/worker.go:119-222 | From any state, n successful polls end with the exact table if and only if that interval mends the table that reconcile left. |
| `IndexerLimits.StaleRowsIff` | services/indexer/internal/usecase/worker.go:181-187 | If blocks above a canonical checkpoint that a failed batch had read were replaced, successful polls end exact if and only if every token with a row there is issued again in the blocks they scan. |
| `IndexerLimits.DeepReorgIff` | services/indexer/internal/usecase/worker.go:195-221 | However deep a reorganisation reaches, polls that rewind end exact if and only if the chain issues nothing new up to the rewind point, and what the indexer had seen there is canonical still or issued again above it. |
| `IndexerLimits.TornRewindIff` | services/indexer/internal/usecase/worker.go:205-219 | If a rewind stopped between delete and save and the old fork returned, polls end exact if and only if the blocks between the rewind point and the scan issue nothing. |
| `IndexerLimits.LostSaveIff` | services/indexer/internal/usecase/worker.go:213-220 | If the save of a rewind was carried out and its answer lost, polls end exact if and only if they scan nothing or the blocks between the rewound checkpoint and the position issue nothing. |
| `IndexerLimits.SplitReadIff` | services/indexer/internal/usecase/worker.go:133-158 | If the chain changes after the scan read the logs and before it reads the hash, the saved checkpoint looks canonical either way, and the table is exact if and only if both chains issue the same rows in the batch. |
| `IndexerLimits.WrappedPollIff` | services/indexer/internal/usecase/worker.go:132 | A successful poll whose 64-bit sum wraps, or whose batch size is 0, upserts nothing and sets checkpoint and position at or before its start; its table is exact up to there if and only if it had no row above. |
| `IndexerLimits.SameHashIff` | services/indexer/internal/usecase/worker.go:181-187 | If the stored hash is found on the chain, whether or not the blocks below agree, polls end exact if and only if the chain issues nothing below the scan that was not seen, and each row is canonical there or issued again in the blocks scanned. |
| `IndexerExamples.DeepReorgLeavesOrphan` | services/indexer/internal/usecase/worker.go:195-205 | A concrete reorganisation below the rewind point that misses the condition of DeepReorgIff: an orphaned row stays. |
| `IndexerExamples.TornRewindMissesRow` | services/indexer/internal/usecase/worker.go:205-219 | A concrete stop between delete and save that misses the condition of TornRewindIff: a row stays missing. |
| `IndexerExamples.AmbiguousSaveSkipsBlocks` | services/indexer/internal/usecase/worker.go:213-220 | A concrete lost save that misses the condition of LostSaveIff: later polls succeed and skip the rewound blocks. |
| `IndexerExamples.SwappedTransactionsStall` | services/indexer/internal/usecase/worker.go:138-143 | Two transactions mined in the other order after a failed batch: every stale token is issued again, yet no poll ever succeeds. |
| `IndexerExamples.SplitReadKeepsOldRow` | services/indexer/internal/usecase/worker.go:133-158 | A concrete block replaced between the two reads: an orphaned row stays and reconcile sees nothing. |
| `IndexerExamples.WrappedBatchMovesBack` | services/indexer/internal/usecase/worker.go:132 | A concrete position and batch size whose sum wraps: a successful poll takes the checkpoint back and leaves a row above it. |
| `IndexerExamples.HashCollisionHidesReorg` | services/indexer/internal/usecase/worker.go:181-187 | A concrete block replaced under the same hash: an orphaned row stays after a successful poll. |
| `IndexerExamples.RestartAtGenesisLeavesRowAhead` | services/indexer/internal/usecase/worker.go:109-113 | A concrete restart with the checkpoint at block 0 after which a successful poll leaves a row above the checkpoint. |
| `Outbox.WebhookSweepHandler.ProcessTask` | services/indexer/internal/adapter/asynqjobs/webhook_sweep.go:50-66 | Of the oldest hundred unmarked rows exactly those whose enqueue and mark work get marked; a failing row keeps no other row back; a failing list is an error without effect. The table becomes the one that SweepDrains speaks of. |
| `Outbox.ListedIff` | services/indexer/internal/db/queries.sql.go:220-222 | A row is listed if and only if it is unmarked and fewer than limit older rows are. |
| `Outbox.SweepProgress` | services/indexer/internal/adapter/asynqjobs/webhook_sweep.go:50-66 | A sweep leaves, of the rows that do not fail, only those beyond the first hundred pending ones. |
| `Outbox.SweepDrains` | services/indexer/internal/adapter/asynqjobs/webhook_sweep.go:15-66 | With f < 100 older pending rows that always fail and r that do not, a row that does not fail is marked within ceil((r+1)/(100-f)) sweeps, whatever arrives behind it. |
| `Outbox.SweepStarves` | services/indexer/internal/adapter/asynqjobs/webhook_sweep.go:15-66 | Behind 100 older rows that always fail no number of sweeps reaches a row: the bound on f is exact. |
| `Outbox.InterleavedSweep` | services/indexer/internal/adapter/asynqjobs/webhook_sweep.go:50-66 | Whatever calls run in its midst, a whole sweep marks every row that an undisturbed one would have marked at its start, except those for which one of its calls failed. |
| `Outbox.RoundsDrain` | services/indexer/internal/adapter/asynqjobs/webhook_sweep.go:15-66 | So the drain bound holds of the interleaved machine: whole sweeps one after the other, each in the midst of any other calls. |
| `Outbox.NilMeansAccepted` | services/indexer/internal/adapter/asynqjobs/enqueuer.go:41-47 | A nil answer, even one absorbed as a duplicate, implies that this very row's task is or was in the queue. |
| `Outbox.TasksAfter` | services/indexer/internal/adapter/asynqjobs/enqueuer.go:35-47 | One call stores at most a task with the id and the payload of a row, an id that is newly accepted is stored, and only finishing a task takes it away. |
| `Outbox.AcceptedIsHeld` | services/indexer/internal/adapter/asynqjobs/enqueuer.go:35-47 | In every run, each accepted id of a row is, or was until it was finished, a stored task with the row's payload. |
| `Outbox.SweepIsCalls` | services/indexer/internal/adapter/asynqjobs/webhook_sweep.go:50-66 | Undisturbed, the calls of a sweep leave the outbox and the queue that ProcessTask promises: what it marks it has enqueued. |
| `Outbox.NextKeeps` | services/indexer/internal/usecase/worker.go:259-288 | Each call of any interleaving keeps the invariant, removes no row, undoes no mark and forgets no accepted task. |
| `Outbox.NoWebhookLost` | services/indexer/internal/adapter/asynqjobs/webhook_sweep.go:50-66 | After every interleaving of worker and sweeps with failures, crashes and lost answers, each outbox row is still listed as unmarked, or the queue holds a task with its id and payload, or held it until it was finished. |
| `Outbox.NothingForgotten` | services/indexer/internal/db/queries.sql.go:251-253 | Rows stay where they are, marks stay, accepted tasks stay accepted. |
| `Outbox.OneRowOneFastEnqueue` | services/indexer/internal/usecase/worker.go:264-272 | At most one row and one task id per (chain, tx, token) in any run, and the fast path enqueues each at most once. |
| `Outbox.FastPathIsCalls` | services/indexer/internal/usecase/worker.go:264-287 | What the polling worker does for one certificate is one schedule of the interleaved calls. |
| `EndToEnd.CallsCouple` | services/indexer/internal/usecase/worker.go:246-287 | A poll and any calls that insert the same certificates in the same order leave the same outbox rows, however sweeps and the fast path run between the inserts. |
| `EndToEnd.WholeRunKeeps` | services/indexer/internal/adapter/asynqjobs/webhook_sweep.go:50-66 | In every run of polls, reorganisations, failures, crashes and sweeps in between, the invariants of worker and outbox hold together. |
| `EndToEnd.EveryEventIsHandedOver` | services/indexer/internal/usecase/worker.go:246-287 | In every such run, each canonical event that a canonical checkpoint covers has an outbox row for its chain, transaction and token that is still listed as unmarked, or whose task, with its payload, the queue holds or held until it was finished. |
| `EndToEnd.PayloadsAreFirst` | services/indexer/internal/db/queries.sql.go:88-93 | Each outbox row carries the payload of the certificate first recorded under its key. |
| `EndToEnd.OneRowPerEvent` | services/indexer/migrations/00003_webhook_outbox.sql:2-11 | Two recorded certificates share a row if and only if chain, transaction and token are the same. |
| `EndToEnd.PayloadIff` | services/indexer/internal/usecase/worker.go:259-270 | A stored payload says field by field what the certificate first recorded says. After a transaction was mined again, its row has the payload of the canonical certificate if and only if that agrees with the one first recorded in every delivered field; if only the issue time can differ, if and only if the issue times agree. |
| `EndToEnd.TableMirrorsContract` | contracts/src/SkillPassCertificate.sol:83-90 | In any run that ends in enough successful polls on a chain that the contract wrote, the table holds exactly tokens 1..totalSupply, each with what getCertificate returns, and each row says field by field what the call that issued it said and where it was mined. |
| `EndToEnd.RowIsOfCall` | contracts/src/SkillPassCertificate.sol:54-63 | Each row of a chain that the contract wrote is that of one call which issued its token: the six texts and addresses, the block time, block, hashes and log index. |
| `Calendar.YearLength` | services/indexer/internal/usecase/trend.go:72-94 | Year starts are 366 days apart in Gregorian leap years and 365 otherwise, for all years. |
| `Calendar.MonthLength` | services/indexer/internal/usecase/trend.go:85-94 | Every month has 28 to 31 days. |
| `Calendar.MonthDays` | services/indexer/internal/usecase/trend.go:78-91 | Every month of every year has the length of the Gregorian calendar. |
| `Calendar.GridAnchors` | services/indexer/internal/usecase/trend.go:72-83 | Days start at multiples of 86400 seconds, weeks on Mondays, and January 1970 at 0. |
| `Calendar.MonthOfUnique` | services/indexer/internal/usecase/trend.go:78-79 | A day lies in exactly one month. |
| `Calendar.TruncateIsStart` | services/indexer/internal/usecase/trend.go:72-83 | Truncation of any time finds the start of the one bucket that holds it. |
| `Calendar.IndexOfStart` | services/indexer/internal/usecase/trend.go:72-83 | A bucket start lies in its own bucket and is fixed by truncation. |
| `Calendar.AdvanceIsNext` | services/indexer/internal/usecase/trend.go:85-94 | Advancing the start of a bucket by a day, a week or a month gives the start of the next bucket. |
| `Calendar.IndexMonotone` | services/indexer/internal/usecase/trend.go:72-83 | Later times lie in the same or a later bucket. |
| `Trend.AlignedBuckets` | services/indexer/internal/usecase/trend.go:57-70 | The loop terminates with the starts of all buckets from the one of since to the one of now. |
| `Trend.BucketsAreTheAlignedTimes` | services/indexer/internal/usecase/trend.go:57-70 | The list is strictly increasing and holds exactly the aligned times between the truncated ends. |
| `Trend.TrendQuery` | services/indexer/internal/db/queries.sql.go:377-451 | The grouped rows are strictly increasing, have positive counts, and give every bucket its naive count. |
| `Trend.ZeroFillTrend` | services/indexer/internal/usecase/trend.go:100-110 | Each expected bucket gets the count of the last row in the same second, or zero. |
| `Trend.SecondsSuffice` | services/indexer/internal/usecase/trend.go:96-110 | For whole-second bucket starts, which are all that occur, keying by seconds gives every bucket its own count. |
| `Trend.Compute` | services/indexer/internal/usecase/trend.go:147-160 | Group-by, bucket list and zero fill together give one point per bucket; an unknown bucket is an error. |
| `Trend.TrendCountsEachBucket` | services/indexer/internal/usecase/trend.go:100-157 | Each point is the size of the set of certificates that truncate to it and were issued at since, rounded down to a microsecond, or later. |
| `Trend.TrendCountsEverythingIff` | services/indexer/internal/usecase/trend.go:100-157 | The points sum to all certificates issued since then if and only if none lies in a bucket after the current one; in particular if none is issued in the future. |
| `Trend.CountsAreSizes` | services/indexer/internal/db/queries.sql.go:377-451 | The database's running counts are the sizes of these sets. |
| `Trend.PresetsInNumbers` | services/indexer/internal/usecase/trend.go:28-55 | Each bucket accepts its own presets only, and they reach back by 30, 90, 365, 84, 364, 372 and 744 days. |
| `Trend.DayAndWeekPresetSizes` | services/indexer/internal/usecase/trend.go:28-60 | 30d, 90d, 365d, 12w and 52w yield 31, 91, 366, 13 and 53 points at any time. |
| `Trend.MonthPresetSizes` | services/indexer/internal/usecase/trend.go:28-60 | 12m yields 13 or 14 points and 24m yields 25 or 26, with the exact days of the month that decide. |
| `Pagination.CursorRoundTrip` | services/indexer/internal/adapter/postgres/certificate_repo.go:267-278 | Parsing the decimal form of a token gives the token back. |
| `Pagination.ResolveLimit` | services/indexer/internal/adapter/postgres/certificate_repo.go:256-265 | The page size is 20 if none is asked for, and else the one asked for, up to 100. |
| `Pagination.TrimParts` | services/indexer/internal/domain/address.go:22 | Every text is a bare one with spaces around it. |
| `Pagination.AddressIff` | services/indexer/internal/domain/address.go:19-46 | With spaces around it ignored, a text is an address if and only if it is 0x and 40 hexadecimal digits in either case, and it is read as their lower case. |
| `Pagination.SpacesAreNoAddress` | services/indexer/internal/domain/address.go:19-46 | A text of spaces only is no address. |
| `Pagination.NumericIff` | services/indexer/internal/adapter/postgres/certificate_repo.go:267-278 | Exactly the texts of decimal digits are cursors. |
| `Pagination.BadRowIff` | services/indexer/internal/adapter/postgres/certificate_repo.go:323-330 | A page fails if and only if a row shown has an owner that is no address. |
| `Pagination.ListOutcomes` | services/indexer/internal/adapter/postgres/certificate_repo.go:75-95 | A nonempty owner that is no address gives the empty page, a cursor with another character than a digit an error, and normalised rows never fail. |
| `Pagination.BuildPage` | services/indexer/internal/adapter/postgres/certificate_repo.go:316-342 | Shows the first limit rows, points to the last one shown if there are more, and fails if a row shown has a bad owner. |
| `Pagination.List` | services/indexer/internal/adapter/postgres/certificate_repo.go:75-95 | A bad owner filter gives an empty page, a bad cursor an error, everything else the page of the query. |
| `Pagination.OrderDesc` | services/indexer/internal/db/queries.sql.go:118-123 | The keys in strictly descending order, each once. |
| `Pagination.DispatchSelects` | services/indexer/internal/adapter/postgres/certificate_repo.go:280-314 | Each of the four branches runs the query that its filters mean. |
| `Pagination.OrderSuffix` | services/indexer/internal/db/queries.sql.go:118-123 | What a query finds below the j-th listed token is the listing from j on. |
| `Pagination.ReadBehind` | services/indexer/internal/adapter/postgres/certificate_repo.go:282-342 | A read behind the j-th row sees the rest of the first listing, even in a table that has gained higher tokens. |
| `Pagination.WalkSoFar` | services/indexer/internal/adapter/postgres/certificate_repo.go:76-95 | After n pages the caller has the first n * limit rows of the listing at the start, and hasMore tells whether any is left. |
| `Pagination.WalkGoesOn` | services/indexer/internal/adapter/postgres/certificate_repo.go:76-95 | While there is more, the cursor handed out is accepted and the next read gives a page. |
| `Pagination.CompleteWalk` | services/indexer/internal/adapter/postgres/certificate_repo.go:76-95 | A finished walk has read every matching row once, in strictly descending token order, in max(1, ceil(n / limit)) pages, over a fixed or growing table. |
| `Pagination.WalkReadsWhatWasAsked` | services/indexer/internal/adapter/postgres/certificate_repo.go:76-95 | A finished walk has read a row if and only if its owner is the one asked for, trimmed and in lower case, and its title, issuer or recipient matches the query, each if asked for. |
| `Contract.SkillPassCertificate.Update` | contracts/src/SkillPassCertificate.sol:68-73 | Blocks moves between two holders, lets mints and burns through, and returns the previous holder. |
| `Contract.SkillPassCertificate.IssueCertificate` | contracts/src/SkillPassCertificate.sol:40-66 | The checks in order; success stores the certificate under the next token, failure restores everything. |
| `Contract.SkillPassCertificate.TransferFrom` | contracts/src/SkillPassCertificate.sol:68-73 | An inherited transfer runs through the lock and changes nothing when it reverts. |
| `Contract.CallPreserves` | contracts/src/SkillPassCertificate.sol:40-81 | No call changes or removes an existing token or its data, and the tokens stay exactly 1..totalSupply. |
| `Contract.NoTransferSucceeds` | contracts/src/SkillPassCertificate.sol:68-73 | Every transfer of every token by anyone reverts, with Soulbound if the token exists and the recipient is not zero; every approval reverts too. |
| `Contract.IssueSucceedsIff` | contracts/src/SkillPassCertificate.sol:40-66 | Issuing succeeds if and only if the owner sends it to a nonzero recipient that accepts, with texts of at most 200, 100, 100, 1000 and 300 bytes; the reasons of refusal come in this order. |
| `Contract.OnlyTheOwnerActs` | contracts/src/SkillPassCertificate.sol:40-81 | No call of anybody but the owner succeeds, and no transfer or approval does. |
| `Contract.OwnerAfter` | contracts/src/SkillPassCertificate.sol:40-47 | The owner changes only by a transfer of ownership or a renunciation that the owner sent. |
| `Contract.EventCall` | contracts/src/SkillPassCertificate.sol:54-64 | Each event tells, field by field, of one call that the owner then sent. |
| `Contract.EveryTokenWasIssued` | contracts/src/SkillPassCertificate.sol:47-65 | Each token was issued by whoever owned the contract then, and the contract still holds word for word what that call said. |
| `Contract.RenouncedForGood` | contracts/src/SkillPassCertificate.sol:40-47 | Once the ownership is renounced, nothing changes any more. |
| `Contract.EverythingFits` | contracts/src/SkillPassCertificate.sol:48-53 | No stored text is longer than allowed. |
| `Contract.BlocksPreserve` | contracts/src/SkillPassCertificate.sol:40-90 | The same over whole chains: a state holds everything that any earlier state of the chain held. |
| `Contract.ViewNeverChanges` | contracts/src/SkillPassCertificate.sol:83-86 | getCertificate gives at any later block what it gave at an earlier one that knew the token. |
| `Contract.BlockIssues` | contracts/src/SkillPassCertificate.sol:54-65 | The events of a block carry the tokens it adds, consecutively and in order, each with the data that the contract then serves. |
| `Contract.ChainHasUniqueEvents` | contracts/src/SkillPassCertificate.sol:54-65 | The chain that the contract writes has unique tokens and event keys, as the indexer assumes. |
| `Contract.RowsAreTokens` | contracts/src/SkillPassCertificate.sol:88-90 | Read in chain order, the rows are the tokens one after the other, with the data held at the head. |
| `Contract.ProjectionMirrorsContract` | contracts/src/SkillPassCertificate.sol:83-90 | The indexer's table over the whole chain holds exactly tokens 1..totalSupply, each with what getCertificate returns. |
| `Contract.HeadReadIsTheView` | contracts/src/SkillPassCertificate.sol:83-86 | For every token, issued or not, the node's answer at the head is the contract's view. |
| `Contract.IndexableIff` | services/indexer/internal/domain/certificate.go:37-42 | The chain meets all that the indexer's theorems assume if and only if no certificate was issued with an empty title or issuer, which the contract accepts. |
| `Broadcast.Channel.TrySend` | services/indexer/internal/platform/broadcast/broadcaster.go:56-59 | Appends when there is room and drops otherwise; requires an open channel. |
| `Broadcast.Broadcaster.Subscribe` | services/indexer/internal/platform/broadcast/broadcaster.go:28-47 | Adds a fresh open empty channel. |
| `Broadcast.Broadcaster.Publish` | services/indexer/internal/platform/broadcast/broadcaster.go:49-61 | Offers the event once to every subscriber, whatever the order of iteration, and never to a closed channel. |
| `Broadcast.Subscription.Unsubscribe` | services/indexer/internal/platform/broadcast/broadcaster.go:37-45 | The first call removes and closes the channel, keeping what it buffers; every further call does nothing. |
| `Broadcast.ExecKeeps` | services/indexer/internal/platform/broadcast/broadcaster.go:28-61 | The invariant survives every interleaving of Subscribe, Publish, unsubscribe and receive around the lock. |
| `Broadcast.NeverPanics` | services/indexer/internal/platform/broadcast/broadcaster.go:37-60 | No interleaving sends on a closed channel or closes one twice, and each buffer holds at most 32 events. |
| `Broadcast.StreamIsTheSubscription` | services/indexer/internal/platform/broadcast/broadcaster.go:28-61 | A subscriber was offered exactly the events published between its registration and its removal, once and in order, and got those that found fewer than 32 waiting. |
| `Broadcast.AcceptedIsSubsequence` | services/indexer/internal/platform/broadcast/broadcaster.go:49-60 | What a subscriber gets is a subsequence of what was offered. |
| `Broadcast.NothingMissingIff` | services/indexer/internal/platform/broadcast/broadcaster.go:12-60 | Nothing is missing if and only if no event met a full buffer. |
| `Broadcast.FirstEventsArrive` | services/indexer/internal/platform/broadcast/broadcaster.go:12-60 | The first 32 events of a subscription always arrive. |
| `Broadcast.PublishIsOneBroadcast` | services/indexer/internal/platform/broadcast/broadcaster.go:52-61 | Run on its own, Publish has the effect of offering the event to all subscribers at once, for every order of iteration. |

## Left out

- Frontend, gateway, gRPC mapping, generated bindings, configuration, logging, tickers and wiring: plumbing.
- HTTP delivery and signing in services/notify, and the task queue's retries and lock expiry: the queue is the
  set of stored task ids and of held locks, and both may go at any time (the `Finish` call in `Outbox`).
- TrendCache: stale by design until it expires or is refreshed, so `Trend.Compute` models the uncached path.
- The worker's calls to its publisher and the trend-refresh enqueue: neither touches durable state and the
  errors of the second are ignored.
- Enqueued: keys the uniqueness lock on the payload's content; the real lock hashes the payload's bytes, which
  a JSONB column may rewrite between the fast path and a sweep. A nil answer has the same meaning either way.
- Fetch: a chain read is a function of the chain; the context deadline and the node's own inconsistency are
  network failures.
- EnqueueWebhook: the JSON encoding itself, which cannot fail for these fields; the issue time is kept as a
  number where the payload prints seconds.
- SaveState: block heights are unbounded; the int64 conversions of the adapter are not modelled.
- EveryRunSyncs: a single worker process; two workers on the same tables are not modelled.
- OrderDesc: descending order is defined through the largest key; the index the database would use is not
  modelled, and ILIKE is an arbitrary relation.
- CursorRoundTrip: cursors are the decimal strings that the service hands out; pgx would also read signs,
  fractions and exponents, which `ParseNumeric` refuses.
- List: owner filters with non-ASCII letters or unusual Unicode spaces are not lowered or trimmed as Go would.
- TrendQuery: date_trunc is defined by the same bucket grid as the service's truncation, and rows are counted
  one by one in table order.
- IssueCertificate: a recipient contract's onERC721Received answers yes or no; re-entering the contract from it,
  balances, ERC-165 and tokenURI are not modelled. No function of the contract burns.
- CallPreserves: gas and the block gas limit are not modelled, and strings are byte strings.
- Receive: a receive from a closed and empty channel returns at once and changes nothing, so it is no step.
