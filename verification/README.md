# The batch engine, modelled and proved

This project models the token-budgeted batch service: the ledger, the life of batches and
tasks, the dispatcher with its node pool, the retention job, the ETA estimate and the portal's
login limiter. `dafny verify dfyconfig.toml` checks everything.

**Form.** `Model.Store` is the live database; its operations are methods that change its rows in
place, step by step as the service does, and each is proved against a function on the committed
contents (`Snapshot()`, a value of type `Db`). `Dispatching.Dispatcher` adds the in-flight counters
and, as ghost state, the coroutines of the current pass. `Engine` puts the functions together:
`Step` lists everything that can happen (grant, upload, submit, start of a pass, response,
settlement, cancel, expiry, purge, health results, crash and restart), `Apply` performs one step,
`Run` any number of them from the empty database. Theorems quantify over every run, that is over
every interleaving of steps.

| files | content |
|---|---|
| `Sums` | finite sums; a count is a sum of zeros and ones |
| `Model` | rows, settings, `Store` |
| `Ledger`, `Tokens`, `Parsing`, `BatchOps`, `Retention`, `Eta` | the operations of the modules of the same name |
| `Claiming`, `Placement`, `Dispatching` | the dispatcher: fair-share claiming, greedy placement, passes, settlement, recovery |
| `Engine` | the service as one state machine |
| `Structure`, `Flights`, `Conservation`, `Audit`, `Files`, `Invariants` | what every step keeps, table by table, and the whole invariant |
| `Fairness`, `Submissions`, `Delivery`, `HealthRuns`, `Deadlines` | what each step does in the terms of the tables alone, and what that comes to over runs |
| `BudgetRuns`, `LifecycleRuns`, `Drain`, `Liveness`, `EtaRuns` | budgets, lifecycles, queue and statistics over runs |
| `Overspend`, `Stranding`, `Interleaving` | what goes wrong, with reachable witnesses, and exactly when |
| `Scenario` | the concrete runs those witnesses are built from |
| `LoginLimiter` | the portal's sliding-window limiter |

**Late settlement.** Settling a task looks at neither the task's nor the batch's status
(`src/batchsvc/batch_ops.py:304-348`, `src/batchsvc/dispatcher.py:271-291`). A task that is cancelled
or expired while its request is out is settled again when the response arrives, and its
reservation is released a second time. The model keeps this, as the ordinary settlement step
applied to a CANCELLED task. Theorems about exact equality exclude such steps (`Engine.NeverLate`);
bounds, audit trail, counters, finality and file references hold on all runs.

**Two commits.** A settlement commits the ledger, task and counter changes first and the
finalization of the batch second (`src/batchsvc/batch_ops.py:319-327`, `src/batchsvc/batch_ops.py:435`).
`Engine` performs both in one step; the step `SettleThenCrash` stops between them. `Interleaving`
lets any other steps fall between them. Sessions keep what they have loaded when they commit
(`src/batchsvc/db.py:37`), so the second commit decides by the batch row as the settlement saw it, and
the module models that stale row.

**Where the documentation promises more than the code does.**

- `docs/PLAN.md:24`, `docs/PLAN.md:119` and `src/batchsvc/ledger.py:11-12` say that a budget can never be
  overrun. `Overspend.LateSettlementOverruns` gives a reachable state with 7 tokens granted and 14
  used although no task used more than it had reserved. `BudgetRuns.OverrunExactly` says which
  steps take a budget below zero, `BudgetRuns.BoundedOverspend` how far, and
  `BudgetRuns.BudgetNeverOverrun` that runs without late settlements and overlong answers keep the
  promise.
- `src/batchsvc/batch_ops.py:15-20` describes one atomic commit per state change. A crash between the
  two commits of a batch's last settlement strands the batch (`Stranding.CrashStrands` says exactly
  when, `Stranding.TornSettlementStrands` that it is reachable): however the run goes on, it stays as
  it is, all its tasks settled, until it is cancelled or expires, and it never gets a result file
  (`Stranding.StrandedForever`, `Stranding.StrandedWithoutFiles`).
- A batch that is cancelled or expired between those two commits is completed by the second one
  (`Interleaving.SecondCommitSound`, `Interleaving.CancellationOverwritten`), so the statuses that
  `src/batchsvc/batch_ops.py:270-287` treats as final are final only up to this race. Theorems about
  runs of `Engine` have both commits in one step.

## Model

| member | source | states |
|---|---|---|
| Ledger.Grant | src/batchsvc/ledger.py:52-69 | adds to the granted column and appends one GRANT entry, or refuses a non-positive amount and changes nothing |
| Ledger.Reserve | src/batchsvc/ledger.py:72-104 | reserves and appends one RESERVE entry exactly if the amount is positive and available; otherwise reports which check failed, with both figures |
| Ledger.Release | src/batchsvc/ledger.py:107-136 | gives back the amount capped at what is reserved, and the entry records the capped amount |
| Ledger.Charge | src/batchsvc/ledger.py:139-179 | moves the hold out of reserved, capped, and the whole usage into used, in one entry |
| Ledger.Adjust | src/batchsvc/ledger.py:182-211 | moves every column by the given deltas and appends them as one entry |
| Ledger.GetOrCreateBudget | src/batchsvc/ledger.py:43-49 | a missing row is inserted with zero in every column, an existing one is returned and nothing changes; in either case every user's figures are what they were |
| Ledger.EveryHistoryReconciles | src/batchsvc/ledger.py:3-10 | after any sequence of ledger operations by any users, refused ones and adjustments included, every budget row equals the replay of the ledger |
| Ledger.PerformEffect | src/batchsvc/ledger.py:52-211 | an accepted operation moves exactly its columns, by its amounts, for its user only, in one appended entry; a refused one changes nothing |
| Ledger.SumOfPermutation | src/batchsvc/ledger.py:219-224 | the order in which entries with equal timestamps come back does not change a replayed column |
| Ledger.RecomputeBudget | src/batchsvc/ledger.py:214-229 | the three accumulators end as the user's replayed budget, for every answer order of the query |
| Ledger.ReconcileBudget | src/batchsvc/routers/admin.py:154-166 | afterwards the row equals the replay, no other user and no other table changes, and on a reconciled database nothing changes at all |
| Tokens.CountTextTokens | src/batchsvc/tokens.py:30-33 | the smallest whole number of four-character tokens that covers the text; zero only for empty text |
| Tokens.MessageText | src/batchsvc/tokens.py:36-49 | plain text, or the text parts joined by single blanks, or nothing |
| Tokens.PromptTokens | src/batchsvc/tokens.py:52-60 | an estimate is never below the priming tokens plus four per message |
| Tokens.EstimatePromptTokens | src/batchsvc/tokens.py:52-60 | the loop's total is the estimate defined message by message |
| Tokens.PromptTokensMonotone | src/batchsvc/tokens.py:52-60 | adding messages never lowers an estimate, and each costs at least its overhead |
| Tokens.JoinConcat | src/batchsvc/tokens.py:36-49 | the text of two lists of parts is the two texts with one blank between them; parts without text leave no trace |
| Tokens.PromptTokensAre | src/batchsvc/tokens.py:52-60 | an estimate is two tokens, four per message, and a quarter of the characters of every text and name, each rounded up |
| Parsing.Check | src/batchsvc/batch_ops.py:110-146 | a line passes exactly if it is well formed and its custom_id is new |
| Parsing.ParseBatchInput | src/batchsvc/batch_ops.py:94-169 | the loop over lines computes the parse |
| Parsing.ErrorsSpec | src/batchsvc/batch_ops.py:106-167 | the reported lines are the malformed ones and the repeats of an earlier well formed line, each once, in order |
| Parsing.ParseSpec | src/batchsvc/batch_ops.py:94-169 | parsing succeeds exactly if there is a non-blank line, all are well formed and no custom_id occurs twice; then result i describes line i and reserves at least seven tokens |
| Parsing.ParsedFrom | src/batchsvc/tokens.py:63-73 | a successful parse has one entry for each line that is not blank, in file order, with that line's custom_id and prompt estimate, its max_tokens or else the configured default |
| Parsing.FirstFaultReported | src/batchsvc/batch_ops.py:110-146 | every reported error names the first check its line fails, in the order in which the checks are made |
| Claiming.GroupByUser | src/batchsvc/dispatcher.py:69-74 | one queue per user in row order, users by first appearance |
| Claiming.OrderOfAppearance | src/batchsvc/dispatcher.py:69-74 | users take turns in the order in which their first waiting tasks appear |
| Claiming.ServeRound | src/batchsvc/dispatcher.py:77-82 | one pass of the inner loop serves one task to every user that has one, up to the limit |
| Claiming.ClaimTasks | src/batchsvc/dispatcher.py:51-83 | the nested loops terminate and return the round-robin schedule of the rows cut at the limit, which is a fair claim |
| Claiming.ScheduleIsPermutation | src/batchsvc/dispatcher.py:76-83 | the uncut schedule contains every row exactly once |
| Claiming.FairShare | src/batchsvc/dispatcher.py:51-83 | the schedule cut at any limit is a fair claim: exactly min(limit, pending) rows, none twice, each user's a prefix of that user's queue, cut at one common level k, with the first j users one longer |
| Claiming.NobodyFallsBehind | src/batchsvc/dispatcher.py:52-55 | in a fair claim a user with unclaimed tasks is at most one claim behind every other user, and the limit was used up |
| Claiming.MaxMinFair | src/batchsvc/dispatcher.py:52-55 | no allocation within the limit gives a user more than a fair claim does without taking from one who has at most one more than that user |
| Claiming.EqualShareGuaranteed | src/batchsvc/dispatcher.py:52-55 | in a fair claim every user gets at least limit divided by the number of users, rounded down, or all of their tasks |
| Claiming.BoundedWait | src/batchsvc/dispatcher.py:51-55 | nobody is starved: if every pass has at least f claims per user, the first p tasks of a user's queue have all been claimed after p/f passes, rounded up, whatever anybody submits meanwhile |
| Placement.FirstMaxIs | src/batchsvc/dispatcher.py:228 | the choice has the most free slots, and is the first node that has them |
| Placement.MostFree | src/batchsvc/dispatcher.py:228 | the scan over the capacities finds that node |
| Placement.EveryTaskPlaced | src/batchsvc/dispatcher.py:227-236 | with no more tasks than free slots the break that should not happen does not happen, and every task is assigned |
| Placement.PlacedExactly | src/batchsvc/dispatcher.py:227-236 | in general exactly min(tasks, free slots) are assigned, so the break fires exactly when the slots are used up |
| Placement.NoOverload | src/batchsvc/dispatcher.py:227-231 | no node is given more tasks than it has free slots |
| Placement.UsedNodesLevel | src/batchsvc/dispatcher.py:227-231 | a node used in the pass ends within one slot of the node with the most slots left |
| Placement.GreedyIsOptimal | src/batchsvc/dispatcher.py:227-231 | no way of spreading the same number of tasks over the nodes attains a smaller maximum of free slots |
| BatchOps.CreateBatch | src/batchsvc/batch_ops.py:175-234 | batch, tasks and reservation are committed together, or the reservation is refused and nothing is |
| BatchOps.TotalReserve | src/batchsvc/batch_ops.py:195 | the sum of what the lines reserve |
| BatchOps.AddTasks | src/batchsvc/batch_ops.py:214-226 | one pending task per line, in line order, after the existing ones |
| BatchOps.OnlyBudgetRefuses | src/batchsvc/ledger.py:85-91 | a parsed file reserves at least seven tokens and is refused only for lack of budget, never for its amount |
| BatchOps.TerminateBatch | src/batchsvc/batch_ops.py:242-267 | exactly the pending and running tasks of the batch are cancelled, the batch gets status and timestamp, and the sum they held is released in one entry |
| BatchOps.TasksToStop | src/batchsvc/batch_ops.py:246-251 | the query finds exactly the batch's live tasks and the sum of their reservations |
| BatchOps.StopAll | src/batchsvc/batch_ops.py:252-254 | those rows are cancelled and no other row changes |
| BatchOps.CancelBatch | src/batchsvc/batch_ops.py:270-275 | not found for strangers, conflict outside the two cancellable statuses, otherwise termination as CANCELLED |
| BatchOps.ExpireBatch | src/batchsvc/batch_ops.py:278-287 | conflict outside the two cancellable statuses, otherwise termination as EXPIRED, with no second look at the deadline |
| BatchOps.CompleteTask | src/batchsvc/batch_ops.py:294-326 | result, counter, throughput sample and charge land in one commit, whatever the task's status was |
| BatchOps.FailTask | src/batchsvc/batch_ops.py:332-345 | error, counter and release land in one commit, whatever the task's status was |
| BatchOps.MaybeFinalizeBatch | src/batchsvc/batch_ops.py:351-435 | nothing unless the batch is in progress and the counters have reached the total; then output file, error file if any line failed, both timestamps and COMPLETED |
| BatchOps.CollectLines | src/batchsvc/batch_ops.py:365-391 | the loop over the tasks in line order yields the batch's output and error lines |
| BatchOps.QueryIsRowOrder | src/batchsvc/batch_ops.py:365 | every answer of the query ordered by line_index gives the same files |
| Retention.FindOverdue | src/batchsvc/retention.py:65-73 | the cancellable batches past their deadline, each once |
| Retention.ExpireAll | src/batchsvc/retention.py:74-77 | the found batches are expired one commit at a time, and none is refused |
| Retention.ExpireOverdueBatches | src/batchsvc/retention.py:64-78 | the whole pass, and the number of batches it expired |
| Retention.ExpirePassSpec | src/batchsvc/retention.py:64-78 | a pass expires every overdue batch and changes no other; right after it nothing is overdue and a second pass changes nothing |
| Retention.PurgeBatch | src/batchsvc/retention.py:104-130 | a due batch loses both references and its files and gets purged_at; any other batch stays as it is |
| Retention.PurgeExpiredResults | src/batchsvc/retention.py:91-135 | the whole pass, and the number of batches it purged |
| Retention.PurgeIdempotent | src/batchsvc/retention.py:97-135 | a second pass at the same time changes nothing and purges nothing |
| Deadlines.CancelEffect | src/batchsvc/batch_ops.py:242-275 | a cancel request ends the batch exactly if it is the caller's and open; then its open tasks stop, its owner's hold shrinks by what they had reserved, and nothing else changes |
| Deadlines.ExpireEffect | src/batchsvc/batch_ops.py:278-287 | the same for an expiry, exactly if the batch is open and its deadline has passed |
| Deadlines.ExpirePassEffect | src/batchsvc/retention.py:64-78 | a pass ends exactly the open batches whose deadline lies before now, and stops exactly their open tasks |
| Deadlines.ExpirePassIsRun | src/batchsvc/retention.py:74-77 | the pass is a run of single expiries |
| Deadlines.OpenForADay | src/batchsvc/batch_ops.py:196 | on every run a batch that is still open is ended by an expiry exactly if more than 24 hours have gone by since it was submitted |
| Deadlines.ResultsKeptFor | src/batchsvc/retention.py:91-130 | in every reachable state a purge deletes the results of an ended batch exactly if the retention period since its end is over and they were not deleted before; its input file stays |
| Deadlines.OpenBatchesKept | src/batchsvc/retention.py:97-101 | a batch that has not ended is never purged |
| Dispatching.Dispatcher.constructor | src/batchsvc/dispatcher.py:87-98 | a new dispatcher has nothing in flight |
| Dispatching.Dispatcher.SyncNodesFromConfig | src/batchsvc/dispatcher.py:109-132 | the two loops create, update and re-enable configured nodes and disable the others, touching nothing else |
| Dispatching.Dispatcher.RecoverRunningTasks | src/batchsvc/dispatcher.py:134-146 | exactly the RUNNING tasks go back to PENDING without node and start time; their number is returned |
| Dispatching.Dispatcher.Startup | src/batchsvc/dispatcher.py:148-152 | a restarted process: empty counters, synchronized nodes, nothing RUNNING |
| Dispatching.Dispatcher.ApplyHealthResults | src/batchsvc/dispatcher.py:167-180 | results are applied one after the other, unknown nodes skipped |
| HealthRuns.JudgedByResults | src/batchsvc/dispatcher.py:167-180 | a node's failure count is the number of failed checks since its last success, or those plus the earlier ones; a success puts it into rotation, and only a failure that brings the count to the threshold takes it out |
| HealthRuns.RotationOnRuns | src/batchsvc/dispatcher.py:156-180 | between two restarts every node is judged by all the checks it was given, in whatever portions they arrived |
| HealthRuns.RestartEffect | src/batchsvc/dispatcher.py:109-152 | a restart gives every configured node its configured slots, puts new and disabled ones into rotation, disables the rest, and lets the running tasks wait again |
| Dispatching.Dispatcher.Capacities | src/batchsvc/dispatcher.py:214-215 | free slots per healthy node and the sum of the positive ones |
| Dispatching.Dispatcher.ClaimAndAssign | src/batchsvc/dispatcher.py:208-238 | the assignments of the pass, for every order in which the two queries may answer, and exactly those rows started |
| Dispatching.Dispatcher.AssignAll | src/batchsvc/dispatcher.py:223-236 | task k of the claim goes to the k-th greedy choice |
| Dispatching.Dispatcher.BeginPass | src/batchsvc/dispatcher.py:184-206 | dispatch_once up to the point where its coroutines are started |
| Dispatching.Dispatcher.CountAssignments | src/batchsvc/dispatcher.py:202-203 | one more in flight on the node of every assignment |
| Dispatching.Dispatcher.RunAttempts | src/batchsvc/dispatcher.py:246-256 | the first successful attempt wins; the task fails exactly after max(1, configured) errors, with the last error |
| Dispatching.Dispatcher.FinishRequest | src/batchsvc/dispatcher.py:258 | the node's counter drops by one, clamped at zero |
| Dispatching.Dispatcher.SettleTask | src/batchsvc/dispatcher.py:271-291 | both commits of a settlement, with no look at the status of task or batch |
| Engine.SubmitBatch | src/batchsvc/routers/batches.py:77-112 | the submission request: unsupported endpoint, unsupported window, missing file, wrong purpose, invalid content and insufficient budget are reported in that order, and every error leaves the database alone |
| Submissions.SubmitEffect | src/batchsvc/batch_ops.py:175-234 | a submission is accepted exactly if the file is the user's, parses, and fits the budget; then one batch and one waiting task per line are recorded, with what the line asks for, and the sum is reserved; otherwise nothing happens |
| Submissions.SubmissionAnswer | src/batchsvc/routers/batches.py:77-112 | which answer a request gets, for every request: accepted, not found, invalid, or not covered by the budget, with both figures |
| Submissions.OpenedOnRuns | src/batchsvc/batch_ops.py:193-214 | on every run each batch was opened by one accepted submission, in order, and keeps its user, file and time, and a deadline 24 hours later |
| Submissions.TasksAreLines | src/batchsvc/batch_ops.py:216-228 | in every reachable state the tasks of a batch are its input file line by line: each carries custom_id, prompt estimate and max_tokens of its line, and no line is without a task |
| Structure.CounterTestIsExact | src/batchsvc/batch_ops.py:356-359 | the counters never exceed the total, and reach it exactly when every task of the batch has settled |
| Structure.CreatedOk | src/batchsvc/batch_ops.py:195-232 | submission keeps counters, statuses, line order and custom_id uniqueness |
| Structure.TerminatedOk | src/batchsvc/batch_ops.py:252-260 | cancelling and expiring keep them |
| Structure.SettledOk | src/batchsvc/batch_ops.py:304-346 | settling keeps them, late settlements included |
| Structure.FinalizedOk | src/batchsvc/batch_ops.py:356-435 | finalization keeps them |
| Structure.RecoveredOk | src/batchsvc/dispatcher.py:139-146 | recovery keeps them |
| Structure.PurgedOk | src/batchsvc/retention.py:103-131 | the purge keeps them |
| Flights.ClaimedTasks | src/batchsvc/dispatcher.py:59-83 | a claim returns distinct pending tasks of in-progress batches only |
| Flights.AssignmentsSpec | src/batchsvc/dispatcher.py:208-238 | a pass starts exactly min(free slots, pending) distinct tasks, all claimable, all on healthy nodes |
| Fairness.PassIsFair | src/batchsvc/dispatcher.py:51-55 | a pass gives every owner of waiting tasks, however many batches they are spread over, an equal share of the free slots or all they have waiting, and whoever is left with waiting tasks is at most one behind anybody |
| Fairness.PassIsFifo | src/batchsvc/dispatcher.py:54-65 | if a pass starts a task, it starts every waiting task of the same owner that was submitted earlier, or comes earlier in the same batch |
| Fairness.PassEffect | src/batchsvc/dispatcher.py:208-238 | a pass starts as many waiting tasks as there are free slots, each once and on a healthy node, with node, start time and attempt recorded, and changes no other row |
| Flights.MarkStartedSpec | src/batchsvc/dispatcher.py:232-235 | the rows of the assigned tasks are started once each and no other row changes |
| Flights.AssignedLoad | src/batchsvc/dispatcher.py:214-231 | a pass puts at most its free slots on a node |
| Flights.PassStartFlights | src/batchsvc/dispatcher.py:227-238 | when a pass starts, the RUNNING tasks are exactly its own |
| Flights.PassStartCounters | src/batchsvc/dispatcher.py:202-203 | starting a pass keeps every counter equal to the requests out on the node and within its slots |
| Flights.ClampNeverBinds | src/batchsvc/dispatcher.py:258 | a returning request was counted, so the decrement never meets its clamp |
| Flights.IdleCounters | src/batchsvc/dispatcher.py:194-206 | between passes every counter is zero |
| Flights.NothingRunning | src/batchsvc/dispatcher.py:194-206 | between passes no task is RUNNING |
| Flights.HealthAppliedOk | src/batchsvc/dispatcher.py:173-179 | a node in rotation has fewer consecutive failures than the threshold and an ejected one has not; health checks never disable a node |
| Flights.SyncedNodesOk | src/batchsvc/dispatcher.py:117-131 | after start-up a node is disabled exactly if it is not configured |
| Conservation.TerminatedBudget | src/batchsvc/batch_ops.py:251-265 | termination moves only the owner's reserved column, by what the stopped tasks held, capped |
| Conservation.TerminatedWithin | src/batchsvc/batch_ops.py:242-267 | termination keeps a budget within any drift and overrun it was within |
| Conservation.CreatedWithin | src/batchsvc/batch_ops.py:195-232 | so does a submission |
| Conservation.SettledWithin | src/batchsvc/batch_ops.py:304-346 | a settlement widens the drift by a late task's reservation and the overrun by the usage nobody reserved, and by no more |
| Conservation.ClampsDoNotBind | src/batchsvc/ledger.py:121-123 | while reservations are conserved, no release or charge of live work meets its min clamp |
| Conservation.SettlementConserves | src/batchsvc/dispatcher.py:271-291 | a settlement keeps reservations conserved if and only if the task is still live or its owner has nothing reserved |
| Audit.CreatedAudit | src/batchsvc/batch_ops.py:228-232 | submission keeps one entry per settled task, charges per batch, replay and references |
| Audit.TerminatedAudit | src/batchsvc/batch_ops.py:262-265 | termination keeps them |
| Audit.SettledAudit | src/batchsvc/batch_ops.py:304-346 | settling an unsettled task adds its one entry, and the batch's charges stay the sum of what its completed tasks used |
| Audit.SettledClosed | src/batchsvc/ledger.py:161-176 | a settlement leaves the ledger's hold per batch equal to the live tasks' reservations if and only if the task is still live or its owner has nothing reserved |
| Audit.TerminatedClosed | src/batchsvc/ledger.py:120-133 | terminating leaves nothing held for the batch and every other batch's hold as it was |
| Audit.DashboardAgrees | src/batchsvc/portal/service.py:116-125 | the dashboard's group of a batch is the figure of the batch's own status page |
| Audit.GroupsAddUp | src/batchsvc/portal/service.py:116-125 | the groups of a user's batches add up to everything the user ever used |
| Files.FilesPartitionTheBatch | src/batchsvc/batch_ops.py:365-391 | output and error file together list every custom_id exactly once, each in line_index order |
| Files.FinalizedFiles | src/batchsvc/batch_ops.py:393-431 | finalization keeps every file reference resolved |
| Files.ResultFilesAreUnshared | src/batchsvc/batch_ops.py:393-431 | no result file belongs to two batches, is both output and error file, or serves as an input |
| Files.PurgedFilesOk | src/batchsvc/retention.py:110-128 | the purge leaves no dangling reference |
| Files.PurgeRemovesExactly | src/batchsvc/retention.py:97-131 | a file row is deleted exactly if it is a result file of a due batch; inputs and all other rows are unchanged |
| Invariants.InvStep | src/batchsvc/batch_ops.py:9-20 | every step keeps the whole invariant: tables, audit trail, files, node health, statistics, flights and counters |
| Invariants.RunInv | src/batchsvc/batch_ops.py:9-20 | so every reachable state has it |
| BudgetRuns.BoundedOverspend | src/batchsvc/ledger.py:149-165 | on every run 0 <= reserved <= what live tasks hold, and used plus that hold <= granted + reservations of late-settled tasks + usage nobody reserved; the available amount is bounded below accordingly |
| BudgetRuns.ExactConservation | src/batchsvc/batch_ops.py:242-267 | without late settlements every user's reserved_tokens equals the reservations of that user's pending and running tasks |
| BudgetRuns.BudgetNeverOverrun | docs/PLAN.md:22-24 | in every state reached without late settlements and without an answer beyond its reservation, no budget is negative |
| BudgetRuns.OthersStayAvailable | src/batchsvc/ledger.py:87-92 | no step but a settlement takes a budget below zero |
| BudgetRuns.OverrunExactly | src/batchsvc/ledger.py:161-165 | a step takes a budget below zero if and only if it settles a task of that user whose usage exceeds what is available plus what the settlement releases |
| BudgetRuns.LedgerClosesPerBatch | src/batchsvc/ledger.py:93-133 | without late settlements the net reserved_delta of a batch equals its live tasks' reservations, and is zero once the batch is terminal |
| BudgetRuns.UsageAddsUp | src/batchsvc/routers/batches.py:36-42 | in every reachable state a batch's charged usage is what its completed tasks used, equals the dashboard's figure, sums over a user's batches to used_tokens, and the budget row equals the replay |
| Overspend.LateSettlementOverruns | docs/PLAN.md:119 | a reachable state with 7 tokens granted and 14 used, no task beyond its reservation |
| LifecycleRuns.EndsAreFinal | src/batchsvc/batch_ops.py:270-287 | however a run goes on, settled tasks, the status and timestamps of terminal batches, and ledger entries never change |
| LifecycleRuns.SettledAtMostOnce | src/batchsvc/dispatcher.py:134-146 | however often a task is claimed, lost and recovered, it has one ledger entry with its id if it has settled and none otherwise; what is being executed is RUNNING or CANCELLED, and everything RUNNING is being executed |
| LifecycleRuns.TerminalBatches | src/batchsvc/retention.py:45-50 | a terminal batch has no live task and exactly the timestamp the purge looks up; four of the eight statuses never occur |
| LifecycleRuns.CountersAreExact | src/batchsvc/batch_ops.py:311-312 | the three counters of every batch equal the counts of its tasks, and the finalization test is exact |
| LifecycleRuns.SettlementsAreAccepted | src/batchsvc/ledger.py:118-119 | no settlement is ever refused by the ledger's amount checks |
| LifecycleRuns.CompletedBatches | src/batchsvc/batch_ops.py:356-431 | a completed, unpurged batch has its output file, an error file exactly if a line failed, and each request listed once, in line order |
| Delivery.SettleEffect | src/batchsvc/batch_ops.py:294-348 | a settlement stores the answer, usage or error in the task's row, counts it once, and completes the batch exactly if it was the last result of a batch in progress; no other row changes |
| Delivery.AnswersOnRuns | src/batchsvc/batch_ops.py:304-309 | on every run a task is settled exactly if a settlement for it took place, and its row holds that answer |
| Delivery.ResultsDelivered | src/batchsvc/batch_ops.py:367-391 | the files of a completed batch report for every task the answer that settled it: the body in the output file or the message in the error file, once, under its custom_id; and nothing else |
| Delivery.EveryLineAnswered | src/batchsvc/batch_ops.py:351-391 | from end to end: every line of the uploaded file that is not blank is answered in the result files of its completed batch, under its custom_id, by what a node answered for it |
| LifecycleRuns.ReferencesResolve | src/batchsvc/batch_ops.py:393-431 | every file id of every batch names an existing row of the right kind and owner, and result files are shared by nobody |
| LifecycleRuns.InFlightAccounting | src/batchsvc/dispatcher.py:198-258 | every counter equals the requests out on its node, stays within the node's slots, and is zero between passes |
| LifecycleRuns.NoneDueStep | src/batchsvc/batch_ops.py:319-327 | only a crash between the two commits can leave a finalization outstanding |
| LifecycleRuns.NoneDueOnRuns | src/batchsvc/batch_ops.py:351-359 | on runs without such a crash no in-progress batch has all its tasks settled |
| Stranding.CrashStrands | src/batchsvc/batch_ops.py:319-327 | after a crash between the two commits the batch's finalization is outstanding if and only if the batch is in progress and this was its last open task |
| Stranding.TornSettlementStrands | src/batchsvc/batch_ops.py:319-327 | a reachable state with one batch, in progress, its only task completed and nothing left to run |
| Stranding.StrandedForever | src/batchsvc/batch_ops.py:351-359 | over every run in which nobody cancels or expires a stranded batch, its row does not change |
| Stranding.StrandedWithoutFiles | src/batchsvc/batch_ops.py:351-359 | over every run whatsoever a stranded batch is as it was or cancelled or expired, and has neither output nor error file |
| Interleaving.NothingBetween | src/batchsvc/batch_ops.py:319-327 | with nothing between the two commits they are the settlement step of the engine |
| Interleaving.SecondCommitSound | src/batchsvc/batch_ops.py:351-435 | whatever steps fall between the two commits of a batch's last settlement, the second is the finalization of the committed state, and leaves a consistent row, if and only if the batch is still in progress; otherwise it turns a cancelled or expired batch into a completed one |
| Interleaving.CancellationOverwritten | src/batchsvc/batch_ops.py:351-435 | a reachable state in which an accepted cancellation is overwritten that way |
| Drain.SlotsUnordered | src/batchsvc/dispatcher.py:210-215 | the total of healthy slots does not depend on the order the nodes come back in |
| Drain.PassPending | src/batchsvc/dispatcher.py:208-238 | a pass leaves max(0, pending - healthy slots) tasks pending |
| Drain.PendingAfterPasses | src/batchsvc/dispatcher.py:184-238 | n passes over C healthy slots turn a queue of P pending tasks into what taking C off n times leaves, never below zero, whatever responses, settlements, grants, uploads, purges and health results fall in between |
| Drain.DrainBound | src/batchsvc/dispatcher.py:184-206 | without submissions, cancellations, expiries and crashes, and with C > 0 healthy slots throughout, the queue is empty after n passes if and only if n is at least P/C, rounded up; then everything that was live has settled and every batch that was in progress is completed |
| Drain.PassFinishes | src/batchsvc/dispatcher.py:240-269 | from every reachable state the pass under way can be finished by responses and settlements alone |
| Liveness.ClaimQueryExists | src/batchsvc/dispatcher.py:59-65 | the claim query always has an answer in the required order |
| Liveness.QueueDrains | src/batchsvc/dispatcher.py:184-206 | from every reachable state between passes, with a healthy slot and no torn settlement, a run of exactly P/C passes, rounded up, settles everything and completes every batch |
| Eta.UpdateDispatchStats | src/batchsvc/eta.py:53-87 | only tasks with positive duration and positive weighted tokens count, and move the averages and the sample count |
| Eta.WeightIsGeometric | src/batchsvc/eta.py:75-86 | the weight of a sample decays geometrically; only the first is not discounted by alpha |
| Eta.EwmaClosedForm | src/batchsvc/eta.py:75-79 | the recurrence equals the weighted average of the whole history |
| Eta.EwmaBetween | src/batchsvc/eta.py:75-86 | the average stays between the smallest and the largest sample |
| Eta.RecordedHistory | src/batchsvc/eta.py:53-87 | recording any tasks leaves the averages of exactly the accepted samples, and their number |
| Eta.RecordOk | src/batchsvc/eta.py:59-87 | both averages stay positive, and the first exists exactly once there is a sample |
| Eta.RemainingWeightedTokens | src/batchsvc/eta.py:101-113 | the loop adds the expected work of exactly the batch's live tasks |
| Eta.SampleIs | src/batchsvc/eta.py:59-69 | a task counts exactly if it took time and tokens, and its sample is tokens per second with a prompt token counting a tenth |
| Eta.RemainingNext | src/batchsvc/eta.py:101-113 | a live task adds a tenth of its prompt estimate and the expected completion, capped at its max_tokens |
| Eta.EstimateBalances | src/batchsvc/eta.py:125-157 | in the estimated time the healthy slots get exactly the work ahead of the batch and its own done; the position is the number of open batches created before it, and the confidence depends on the number of samples |
| Eta.BootstrapExactlyBeforeSamples | src/batchsvc/eta.py:128-135 | the bootstrap constants are used exactly while there is nothing recorded |
| Eta.EtaAvailability | src/batchsvc/eta.py:116-138 | an in-progress batch has an estimate exactly if nodes are configured and the healthy nodes' slots add up to more than zero; with no negative slots, exactly if a healthy node with a slot exists |
| Eta.EtaRespectsQueueOrder | src/batchsvc/eta.py:136-157 | a batch created later has a larger queue position and an estimate no earlier than the older one's plus the time of its own work |
| EtaRuns.StatStep | src/batchsvc/batch_ops.py:315-317 | nothing but a completion moves the statistics |
| EtaRuns.ThroughputOfRun | src/batchsvc/eta.py:53-87 | in every reachable state both averages are the exponentially weighted averages of the samples accepted so far, in completion order, and the throughput used is the bootstrap constant before the first sample and the closed form after it |
| LoginLimiter.LoginRateLimiter.constructor | src/batchsvc/portal/routes.py:44-46 | a new limiter has seen nobody |
| LoginLimiter.LoginRateLimiter.Evict | src/batchsvc/portal/routes.py:53-54 | the loop drops exactly the times more than 60 seconds old |
| LoginLimiter.LoginRateLimiter.Allow | src/batchsvc/portal/routes.py:48-58 | allows exactly what the rule on the whole history allows; the client's deque stays its admissions of the last 60 seconds, other clients' deques are untouched, and a limit of zero or less allows everything and records nothing |
| LoginLimiter.AtMostNPerWindow | src/batchsvc/portal/routes.py:53-56 | no closed 60-second window, wherever it starts, holds more than N admissions of a client |
| LoginLimiter.RefusedExactly | src/batchsvc/portal/routes.py:55-58 | an attempt is refused if and only if exactly N admissions of the client lie within the 60 seconds before it |
| LoginLimiter.ForgettingIsSafe | src/batchsvc/portal/routes.py:53-54 | evicting at earlier attempts never loses a time that counts now |

## Left out

- Concurrency inside a step: each committing function is one step, as `src/batchsvc/batch_ops.py:15-20` claims. Two settlements that read the same batch row before either commits, and counter increments outside the ledger lock, are not modelled; a crash, or any other steps, between the two commits of a settlement are.
- LifecycleRuns.NoneDueOnRuns: the state between the two commits of a settlement is not a state of `Engine`; `Interleaving.SecondCommitSound` covers what happens there.
- LifecycleRuns.EndsAreFinal: both commits of a settlement are one step; `Interleaving.SecondCommitSound` says when the second one alone overwrites an end.
- Retention.ExpireAll: the pass runs alone; a cancellation between the query and a later commit of the same pass, whose session still holds the old row, is not modelled. The step `Expire` of `Engine` looks at the committed row.
- Claiming.BoundedWait: takes as given that a user's queue only loses what is claimed and grows at its end, which holds while submission times do not run backwards, equal ones keep their order, and no claimed task is lost in a crash.
- Identifiers: a row's id is its position in its table, which is what a fresh UUID amounts to. File rows can be deleted, other tables only grow.
- Time: timestamps are integers, and each step reads the clock once. Steps may carry any time, so nothing proved over runs depends on a monotone clock; only the login limiter assumes one, as `time.monotonic()` provides.
- Ledger entries carry no note and no creation time; replay is proved for every order of rows.
- Ledger.Adjust: is part of the replay theorem but not a step of `Engine`, because nothing in the service calls it.
- Dispatching.Dispatcher.RunAttempts: the node is a function from attempt to reply; the back-off sleep and the message prefix of a failure are left out.
- Parsing.ParseBatchInput: starts from decoded lines; JSON and UTF-8 decoding, message texts and the five-error preview are left out, and message elements are taken to be objects.
- Claiming.FairShare: holds per claim pass, since the order of users is rebuilt each time; nothing is claimed across passes.
- Eta.EtaRespectsQueueOrder: over exact reals; floating-point rounding and the completion timestamp derived from the seconds are left out.
- Tokens.CountTextTokens: an exact integer ceiling instead of a division of floats.
- Usage reported by a node is non-negative, the default max_tokens is positive, the health threshold is at least one and alpha is between zero and one (`Model.ValidSettings`); other settings are outside the model.
- Batch statuses VALIDATING, BATCH_FAILED and CANCELLING are declared but no step enters them; FINALIZING is not visible in any committed state.
- HTTP routing, schemas, error envelopes, LDAP, sessions, API keys, templates, metrics and the command line: plumbing without lasting state. User rows are left out; a user is an id.
- Blob storage: a file is its records; paths, sizes, checksums, and deletion errors are left out. Deleting an uploaded file is not offered by the service and not modelled.
- Node base URLs and the HTTP clients; request bodies, metadata and endpoint of a batch.
