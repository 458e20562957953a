# A verified model of ForgeTSS

ForgeTSS submits Stellar transactions for its clients. Replicas poll a `transactions` table, lease a
channel account from a `channel_accounts` table, advance its sequence number, submit through a
round-robin router and record the outcome; callers retry failed transactions with a fee bump, and a
start-up job reconciles sequence numbers with the network. The replicas share nothing but the two tables
and the router's two counters, so what they may rely on is a property of every interleaving.

## How the model is laid out

- `Tables` holds the rows and each SQL statement as a function of a table; `Base` and `Division` hold
  generic helpers.
- `Protocol` is the concurrent state machine. Any number of workers (`processBatch`), retriers (`Retry`)
  and syncers (`SyncSequenceNumbers`) carry a program counter and their local variables. Each store or
  router call is one step. A store call is `Done`, `Refused` (an error, no effect) or `Lost` (it took effect
  but its caller saw an error), a process may stop at any program counter, and the state keeps logs of
  router calls, leases, numbers, writes and enqueued rows. The router's answer is any outcome after any
  number of endpoint submissions up to the size of the backend, except that only a Horizon endpoint can
  make it return without an error.
- `Effects` states what one step can do to one row. `Leasing`, `Sequences`, `Fairness`, `Submissions`,
  `Retries`, `Queue`, `Outcomes`, `Confirming`, `Deployment`, `Absorption` and `Syncing` prove safety over whole
  runs from it.
  `Witnesses` holds the runs showing that bounds are attained and that stronger claims fail.
- `Stores`, `Worlds`, `Engines` and `Pools` are the code in its own imperative form: a store updated in
  place, and `processBatch`, `ProcessQueue`, `Enqueue`, `Retry` and `SyncSequenceNumbers` as methods that
  call it. A ghost state machine runs along. Before every call other processes may perform any run of
  actions, and each method's contract says that the whole execution is a run of `Protocol` and which steps
  of it are the method's own, so every theorem about runs is a theorem about the methods. When the store is
  reliable all of its own steps are acknowledged. A method also states its exact effect when it is
  undisturbed as well (`Calm`).
- `Routing` is the failover router, `Migrations` the resumable schema migration (as a concurrent machine,
  and as code proved to be runs of it), `Splitter` the comma splitter, `Backoff` the retry delay and
  `Sleeps` the sleep of consecutive retries.

Clock assumptions are explicit hypotheses, one per clock: `Ticking` (a release reads a time later than
every `last_used_at` stored) for fairness, `InsertsTick` (an insert gets a `created_at` later than every
one stored) for the queue. Nothing relates the replicas' clocks to the database's, and nothing else
depends on time.

Where the code departs from its comments, or from what a caller may expect, the model follows the code:

- `engine.go:116` says the `submitting` mark keeps other workers away. The write is unconditional, so it
  does not: W workers can submit one transaction W times (`Witnesses.DuplicateBoundAttained`).
- `transactions.go:121-122` promises a row lock during retry processing. The query runs outside a
  transaction, so the lock is gone when the statement ends; the retry maximum can be passed by N - 1 with N
  retriers (`Retries.RetryBoundAttained`).
- `router.go:148` reports a successful Soroban send as an error, so no batch confirms a transaction routed
  to Soroban (`Outcomes.SorobanBatchErrs`); `Confirming.ConfirmableIff` says which can be confirmed at all.
- `retry.go:38-53` sleeps before it makes the fee bump and before it counts, so calls that are interrupted or
  whose fee bump fails sleep again and again without using up an attempt (`Sleeps.BoundedIff`).
- `sync.go:35-36` says a sync updates the store only if the network's number is higher. It compares with
  the number it listed, so a late write can lower the stored one; `Syncing.LowersIff` says exactly when.
- `config.go:49-54` checks the multiplier but not the base delay; the delays grow if and only if the base
  is not negative or the multiplier is one (`Backoff.DelaysGrowIff`).

## Model

| member | source | states |
|---|---|---|
| Submissions.DuplicateBound | internal/submission/engine.go:104-139 | under any interleaving, failures and crashes a transaction reaches the router 0 times while pending and at most W + retry_count times ever, at most W times by batches and at most retry_count times by retries; a call that panics counts too |
| Submissions.SendBound | internal/rpc/router.go:106-151 | all router calls together submit a transaction to endpoints 0 times while it is pending and at most (W + retry_count) * n times ever, n being the endpoints of the larger backend |
| Witnesses.DuplicateBoundAttained | internal/store/transactions.go:51-65 | for every W, and every R that the retry bound allows, there is a run in which a transaction with retry_count R reached the router W + R times, each time all endpoints, because the mark is unconditional |
| Sequences.NumbersIncrease | internal/submission/engine.go:123-136 | with any number of workers the numbers computed for one account strictly increase over every run in which sequence writes take effect and no sync write lowers a number |
| Sequences.NumbersFollowWrites | internal/submission/engine.go:131-136 | in every run, with any failures and any number of syncers, the stored number is the initial one moved by the writes that took effect (a worker's by exactly one), and two leases of an account compute the same number if and only if the writes between them cancel out, the later one a larger number if and only if they add up to more than zero |
| Sequences.NumbersCountWrites | internal/store/channelaccounts.go:151-159 | without sync the stored number is the initial one plus the writes that took effect, and two leases of an account compute the same number if and only if no such write fell between them |
| Witnesses.RefusedWriteRepeats | internal/submission/engine.go:134-136 | a run without any sync, in which every call succeeds but one sequence write that is refused, and after which the next lease repeats the number |
| Witnesses.LateSyncRepeats | internal/channelaccounts/sync.go:37-60 | a run in which every call succeeds, whose one sync write, after two lease cycles since its comparison, lowers the stored number, and after which the next lease repeats a number |
| Leasing.LeaseExclusion | internal/store/channelaccounts.go:94-148 | in every reachable state no account is held by two workers, and the leased rows are exactly the held accounts and the leaked ones, disjointly, although release checks no owner |
| Leasing.IdleBetweenBatches | internal/submission/engine.go:123-144 | when no lease was stranded, every account is idle whenever all workers are between batches |
| Leasing.NothingLeaks | internal/submission/engine.go:141-144 | the leaked set grows only by a crash while holding, a release that does not take effect, or a lease whose commit is not acknowledged |
| Leasing.LeakedForever | internal/store/channelaccounts.go:111-148 | a leaked account is never idle again in any continuation |
| Fairness.BypassBound | internal/store/channelaccounts.go:119-126 | when each release reads a time later than the stored ones, under any interleaving with crashes and added accounts, an idle account has been passed over by pairwise different other accounts, so at most n - 1 times |
| Fairness.OneWorkerRotates | internal/channelaccounts/pool.go:71-91 | with one worker, n fixed accounts, no stranded lease and release times as above, any n consecutive leases go to n different accounts |
| Retries.RetryBound | internal/submission/retry.go:17-53 | with N retriers racing, retry_count plus those past the gate never exceeds MaxRetryAttempts - 1 + N; with one retrier the maximum holds; with maximum 0 nothing is retried |
| Retries.RetryBoundAttained | internal/store/transactions.go:123-139 | for every positive maximum and every N there is a run in which retry_count reaches MaxRetryAttempts - 1 + N |
| Deployment.ConfirmedAbsorbs | internal/submission/engine.go:104-159 | with one worker and at most one retrier, a confirmed row never changes again, no router call for it follows, and there are at most 1 + retry_count such calls |
| Absorption.AbsorbingIff | internal/submission/retry.go:17-72 | from any fresh start confirmed is absorbing if and only if no two can race for a row that one may have confirmed: not two workers while some envelope reaches Horizon, nor one worker with two retriers while some fee bump does and retries are on |
| Deployment.SettledForGood | internal/submission/retry.go:23-72 | a confirmed row that no process holds is neither written nor submitted in any continuation, with any number of processes |
| Witnesses.TwoWorkersUnconfirm | internal/submission/engine.go:104-139 | with two workers there is a run that confirms a transaction and a continuation in which it is no longer confirmed |
| Outcomes.ConfirmedFinalIff | internal/submission/engine.go:138-158 | a confirmed row stays confirmed in every continuation if and only if no worker holds it short of an accepted answer and no retrier can still write another status |
| Outcomes.SubmittingStuckIff | internal/store/transactions.go:82-90 | a submitting row stays submitting in every continuation if and only if no worker holds it and no retrier bound for Horizon does |
| Outcomes.SubmittingHasOwner | internal/submission/retry.go:55-64 | when status writes succeed and nobody stops in between, a submitting row is in a worker's or retrier's hands, or was left by a retry whose router call errored and not settled since |
| Outcomes.ConfirmedWasAccepted | internal/submission/engine.go:138-158 | in every reachable state a confirmed row was accepted by Horizon: its own envelope when a batch sent it, its fee bump when a retry did |
| Outcomes.SorobanNeverConfirmed | internal/rpc/router.go:125-151 | a transaction whose envelope and fee bump are routed to Soroban is never confirmed in any run |
| Outcomes.SorobanBatchErrs | internal/submission/engine.go:138-158 | every batch gets an error for an envelope routed to Soroban, wherever its fee bump goes; such a row is confirmed only by an accepted retry whose fee bump reaches Horizon |
| Confirming.ConfirmableIff | internal/rpc/router.go:73-151 | from any fresh start with a worker, some run confirms a row with a given envelope if and only if the envelope is routed to Horizon and there is an endpoint, or retries are possible and the same holds of its fee bump |
| Queue.TableIsQueue | internal/store/transactions.go:82-101 | when each created_at is later than those before it, with any number of workers, the claimed log followed by the pending rows is the enqueue log, and the row the query may return is exactly the head |
| Syncing.HolderOwnsRow | internal/store/channelaccounts.go:94-174 | while a worker holds an account, no run of other workers, retriers and syncers changes its row in any column; in particular sync never changes the sequence of a held account |
| Syncing.OnlyHolderWrites | internal/store/channelaccounts.go:164-174 | no step of a syncer, a retrier or a worker that does not hold it changes a leased row, held or leaked |
| Syncing.LoweringNeedsLease | internal/channelaccounts/sync.go:12-33 | with one syncer, its write can lower a number only for an account leased since the syncer listed it, so a sync before any lease only raises numbers |
| Syncing.LowersIff | internal/channelaccounts/sync.go:37-60 | in every run with any number of syncers, a sync write that takes effect lowers the number if and only if the writes since the listing moved it further than the network was ahead of the number listed |
| Syncing.OneSyncerLowersIff | internal/channelaccounts/sync.go:37-60 | with one syncer that is the case if and only if more workers' writes to the account took effect since the listing than the network was ahead |
| Stores.Store.SaveTransaction | internal/store/transactions.go:38-48 | inserts a pending row; an existing id is refused and nothing changes |
| Stores.Store.UpdateTransactionStatus | internal/store/transactions.go:51-65 | sets status, channel account and error of the row with that id whatever its status; an error when there is no such row |
| Stores.Store.IncrementRetry | internal/store/transactions.go:68-78 | adds one to retry_count of that row only |
| Stores.Store.GetPendingTransactions | internal/store/transactions.go:82-101 | different pending rows, oldest first, at most the limit; a pending row is left out only when the limit is reached by rows no younger |
| Stores.Store.GetTransactionForRetry | internal/store/transactions.go:123-139 | returns the row as stored, in any status, and changes nothing |
| Stores.Store.SaveChannelAccount | internal/store/channelaccounts.go:30-40 | inserts the row; an existing key is refused and nothing changes |
| Stores.Store.ListChannelAccounts | internal/store/channelaccounts.go:60-91 | every row, or every row with the status asked for, exactly once, in key order |
| Stores.Store.LeaseChannelAccount | internal/store/channelaccounts.go:111-148 | picks an idle account that no idle account comes before, never-used ones first, then by time, marks it leased with its number and time unchanged, and returns it as it was; with a reliable store it fails exactly when none is idle |
| Stores.Store.ReleaseChannelAccount | internal/store/channelaccounts.go:94-107 | makes the account idle with the given time, whoever holds it; an error when there is no such row |
| Stores.Store.UpdateSequenceNumber | internal/store/channelaccounts.go:151-159 | writes the number unconditionally |
| Stores.Store.UpdateSequenceNumberIfIdle | internal/store/channelaccounts.go:164-174 | writes the number only while the account is idle |
| Worlds.OthersKeepMine | internal/submission/engine.go:104-159 | in a run without actions of a process, its program counter and local variables stay as they are |
| Engines.Engine.Enqueue | internal/submission/engine.go:56-81 | an empty or unparseable envelope is an error and changes nothing; otherwise an id is returned only when the row was inserted pending, with no retries, account or error, at the tail of the enqueue log; a reliable store refuses only an id that exists |
| Engines.Engine.ProcessBatch | internal/submission/engine.go:104-159 | every execution under any interference is a run of the state machine in which the worker takes exactly the steps of its program in order; a reliable store acknowledges each, and then nothing is claimed only when nothing is pending; one router call, recorded as accepted exactly when the router returned a result without a rejected operation, if it gets an account; undisturbed, the oldest pending row goes through the least recently used account and is confirmed exactly on such a result, failed with its text otherwise |
| Engines.Engine.Process | internal/submission/engine.go:123-159 | the steps of a batch after the mark, with both lease outcomes, and what they do undisturbed |
| Engines.Engine.Deliver | internal/submission/engine.go:131-159 | the steps from the lease to the terminal write; without a router panic the account is freed and the row settled |
| Engines.Engine.CallRouter | internal/submission/engine.go:138-139 | one invocation of the router with the row's envelope, logged with its outcome and its endpoint submissions, a panic included |
| Engines.Engine.Claim | internal/submission/engine.go:105-120 | fetch and mark; undisturbed it claims the oldest pending row, or changes nothing when there is none |
| Engines.Engine.LeaseAccount | internal/channelaccounts/pool.go:71-81 | a lease as a step of the machine, with the number the worker will compute from |
| Engines.Engine.WriteNumber | internal/submission/engine.go:133-136 | writes the leased number plus one and carries on whatever the reply |
| Engines.Engine.ReleaseAccount | internal/channelaccounts/pool.go:84-91 | a step that reads the clock and then the release write, with the time read |
| Engines.Engine.WriteTerminal | internal/submission/engine.go:146-168 | failed with the router's error, failed on a rejected operation, confirmed otherwise, with the account recorded |
| Engines.Judge | internal/submission/engine.go:146-157 | accepted exactly for a result without a rejected operation, rejected exactly for one with |
| Engines.Engine.ProcessQueue | internal/submission/engine.go:86-99 | one batch for each tick unless the process dies, each with exactly its steps, and from a reliable store claiming nothing only when nothing was pending; undisturbed, k ticks take the min(k, pending) oldest rows out of pending into a terminal status and leave all other rows alone; with room in the router's counter no tick ends the process |
| Engines.DrainOne | internal/submission/engine.go:87-120 | one batch reduces the pending count by one until it is zero |
| Engines.Engine.Retry | internal/submission/retry.go:17-75 | every execution under any interference is a run of the state machine in which the retrier takes exactly the steps of its program; interrupted only when the context is cancelled before the wait is over, ended at the fee bump only when there is none, stopped at a gate (reliable store) only when the row says so; Confirmation exactly when the router returned a result without a rejected operation; undisturbed and not cancelled an open row with a fee bump is submitted, with the sleep and the effect on the row as stated |
| Engines.Engine.Wait | internal/submission/retry.go:36-42 | the wait lasts the delay, or until the context is cancelled if that comes first; a negative delay is over at once, one out of 64-bit range may become any duration |
| Engines.Engine.PassGate | internal/submission/retry.go:18-31 | not found, not failed and maximum reached are told apart by the row as read, also under interference |
| Engines.Engine.CountAndMark | internal/submission/retry.go:49-58 | the increment precedes the mark, and either error ends the retry |
| Engines.Engine.Resubmission | internal/submission/retry.go:60-75 | a router error leaves the status submitting; a rejection writes failed and an acceptance confirmed, both clearing the channel account |
| Pools.Pool.SyncSequenceNumbers | internal/channelaccounts/sync.go:12-33 | every execution under any interference is a run of the state machine: one listing, then for exactly the idle accounts listed a query, and a write if and only if the network's number is higher than the one listed; run alone, each row is left or reconciled, and with a reliable store the table becomes exactly the reconciled one |
| Pools.Pool.SyncOne | internal/channelaccounts/sync.go:37-60 | one account, under any interference: the write happens if and only if the network answers a number higher than the one listed, whatever the row holds by then; run alone the row is reconciled or, on an error, left |
| Pools.SyncTakesMax | internal/channelaccounts/sync.go:37-60 | reconciliation gives each idle account whose query succeeds the larger of the stored and the network number, and changes nothing else |
| Pools.SyncIdempotent | internal/channelaccounts/sync.go:12-60 | for fixed answers a second sync changes nothing |
| Routing.Router.TryHorizons | internal/rpc/router.go:86-122 | both Horizon loops, under any interference: each try asks the endpoint at its own counter value, a try is followed by another only after a 5xx answer, a timeout, a cancellation or a dropped connection, the first other answer is returned, "all failed" exactly when all n tries failed so, and a panic only at a counter value that picks no endpoint; undisturbed, the endpoints asked are different and in rotation |
| Routing.Router.SubmitSoroban | internal/rpc/router.go:125-151 | the same for Soroban: each send follows its own successful simulation on the same endpoint, at most one send succeeds and it ends the call as an error, and any other error is that of the last event |
| Routing.Router.TrySoroban | internal/rpc/router.go:130-148 | one endpoint: a simulation, then a send only if it succeeded, with the network's answers |
| Routing.Router.SubmitTransaction | internal/rpc/router.go:73-83 | one invocation is logged, on the backend of the envelope, with picks and tries that explain its result; each backend uses its own counter only, and a call with room in an undisturbed counter asks in rotation and does not panic |
| Routing.IsRetryable | internal/rpc/router.go:164-189 | true exactly for an HTTP status of 500 or more, a timeout, a cancellation and a dropped connection |
| Routing.Bump | internal/rpc/router.go:108 | the 64-bit counter goes to the number one above modulo 2^64, in range |
| Routing.Slot | internal/rpc/router.go:108 | a non-negative counter always selects an endpoint; a negative one panics unless n divides it |
| Routing.RotationDistinct | internal/rpc/router.go:106-109 | n picks in a row go to n different endpoints |
| Routing.RotationCovers | internal/rpc/router.go:106-109 | n picks in a row reach every endpoint |
| Routing.AllFailedMeansAll | internal/rpc/router.go:106-122 | when n tries in rotation failed retryably, every endpoint was asked and failed |
| Routing.PickCount | internal/rpc/router.go:86-109 | the exact number of times an endpoint is picked in k picks from any counter value |
| Routing.Balanced | internal/rpc/router.go:86-109 | under any interleaving of callers each endpoint is picked floor(k/n) or ceil(k/n) times in k picks |
| Routing.InRange | internal/rpc/router.go:86-109 | the i-th pick takes the next endpoint of the rotation, in range, whoever makes it |
| Routing.CallInLog | internal/rpc/router.go:106-109 | the endpoints a call asks are its own entries in the log of all callers' picks, the log that Balanced speaks of, overflow included |
| Routing.OverflowPanics | internal/rpc/router.go:108 | the first pick after the counter overflows is out of range if and only if n does not divide 2^63 |
| Routing.SameEndpointIff | internal/rpc/router.go:106-109 | whoever makes them, two picks land on the same endpoint if and only if n divides their distance, so a call separated by m foreign picks repeats an endpoint exactly when n divides m + 1 |
| Migrations.MigrationsResume | internal/store/migration.go:17-73 | after any crashed, failed or concurrent migrations the committed ids are a prefix of the list, each once, the schema is that prefix in order, and a finished run leaves what one clean run produces |
| Migrations.MigrationsApply | internal/store/migration.go:54-70 | the same of the list itself: with different ids, only files whose name parsed, ending in .sql and with a positive id are applied, each with its own SQL, in list order without gaps, and all of them once a run has finished |
| Migrations.RunAdds | internal/store/migration.go:84-102 | whatever the ids, a run adds nothing but migrations of the list, each row with its own SQL |
| Migrations.FullSchemaIffDistinct | internal/store/migration.go:84-102 | the whole schema can be reached by some runs if and only if no id is repeated |
| Migrations.Database.Migrate | internal/store/migration.go:17-73 | every execution under any interference is a run of the concurrent machine; it adds only migrations (parsed name, .sql, positive id), on success every migration of the list has its id in the table, and if ids differ its SQL at the same position and all in list order; a reliable database makes it fail only at a migration that appeared since the table was read; alone on an empty reliable database it succeeds if and only if ids differ |
| Migrations.Database.RunMigration | internal/store/migration.go:84-102 | SQL and row commit together or not at all; a repeated id is an error without effect |
| Splitter.Split | internal/config/config.go:129-142 | returns the pieces between commas, dropping a trailing empty one |
| Splitter.SplitCsv | internal/config/config.go:119-127 | returns the non-empty pieces |
| Splitter.SplitThenJoin | internal/config/config.go:129-142 | rejoining the pieces gives the string, minus its last comma when it ends in one, and no piece holds a comma |
| Splitter.CsvRoundTrip | internal/config/config.go:119-142 | joining any list of non-empty comma-free strings and splitting gives the list back |
| Splitter.CsvFindsRuns | internal/config/config.go:119-142 | the parts are exactly the maximal non-empty comma-free runs, in order |
| Backoff.DelaysGrowIff | internal/config/config.go:49-54 | with a multiplier of at least one, delays start at or above the base and never shrink if and only if the base is not negative or the multiplier is one |
| Backoff.DelayMonotone | internal/submission/engine.go:171-177 | for a non-negative base the delay is at least the base and monotone in the attempt |
| Backoff.DelayExact | internal/submission/engine.go:171-177 | the delay is the exact product cut towards zero, and the base when there was no retry |
| Backoff.DelayFitsIff | internal/submission/engine.go:175-176 | a delay fits 64 bits if and only if the exact product is below 2^63 |
| Backoff.RunFits | internal/submission/retry.go:27-42 | every delay of a sequential run fits when base * m^(Max-1) is below 2^63 |
| Backoff.SleepBound | internal/submission/retry.go:27-42 | the delays of attempts 0 to Max - 1 add up to at most base * (m^Max - 1) / (m - 1), and exactly Max * base when m is one |
| Sleeps.RetriesSleepAtMost | internal/submission/retry.go:27-53 | consecutive undisturbed calls of Retry that are not interrupted, however many, on a transaction that can be fee bumped sleep together at most the delays of the attempts counted, and so at most the geometric bound; exactly those delays when each fits 64 bits |
| Sleeps.FailedBumpsSleepOn | internal/submission/retry.go:32-48 | calls whose fee bump fails each sleep the same delay and never use up an attempt |
| Sleeps.BoundedIff | internal/submission/retry.go:27-53 | for a failed transaction never retried, all logs of uninterrupted calls keep within the geometric bound if and only if it can be fee bumped, the base is zero or retries are off |
| Sleeps.InterruptibleBoundedIff | internal/submission/retry.go:32-42 | with interrupted calls admitted the bound holds if and only if the base is zero or retries are off |

## Left out

- HTTP handlers, authentication, the Go SDK and its event stream: request plumbing and a network client.
- XDR parsing, fee-bump construction and signing: inside an SDK; any functions may stand for them.
- Horizon and Soroban clients: their answers are arbitrary; error texts stored in `last_error` are shortened.
- Postgres: one statement, or one Begin..Commit block, is one atomic step. That `SKIP LOCKED` also passes over a row locked by a statement still in flight is not captured; a lease that finds nothing may fail at any time.
- NULL columns are empty values; the scan of a NULL column, `updated_at`, `encrypted_secret` and row deletion are not modelled.
- Overflow of the 64-bit sequence number.
- Floating-point rounding: the multiplier and the powers are reals, truncated toward zero at the end; NaN multipliers do not occur.
- Reading the environment, metrics, logging, `Refill` and key generation; a new account appears as one step with number zero.
- Parsing migration file names: a file carries its parsed id; the migration table's creation and the read of applied ids are one step.
- `GetTransaction`, `GetChannelAccountByID` and `parseSeqToInt64`: plain reads and an unused helper.
- The status `submitted`: declared, but never written.
- Sequences.NumbersIncrease: one direction only; Sequences.NumbersFollowWrites has the exact condition for each pair of leases.
- Syncing.LoweringNeedsLease: one direction and for one syncer; Syncing.LowersIff is exact for any number.
- Fairness.BypassBound: one direction only; it assumes that a release reads a time later than the stored ones, since equal stamps leave the choice to the database.
- Queue.TableIsQueue: assumes that created_at strictly increases, for the same reason.
- Sleeps.RetriesSleepAtMost: for a transaction that can be fee bumped, calls that are not interrupted and a base that is not negative; Sleeps.BoundedIff and Sleeps.InterruptibleBoundedIff say exactly when the bound holds.
- Worlds.World.Others: the interference between two calls is whatever its contract allows; its body does nothing (Migrations.Database.Others likewise).
