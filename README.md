# cryptoKeno settlement core in Dafny

A model of the betting core of cryptoKeno, a keno game server written in Go, with proofs
about it. It has three parts.

- **Draw and payout engine** (`keno.dfy`, module `Keno`, from `keno.go`):
  - A ten-number draw taken from a permutation of the 40-number pool.
  - The match count between the player's selection and the draw, built with a count map that is decremented.
  - The fixed payout table, indexed by selection size and match count.
  - The profit rule `stake * multiplier - stake`.
  - The permutation is a parameter, so a draw is a function of its input. Multipliers are integers in hundredths (396 stands for 3.96). Stakes, profits and balances are exact `real`s.
- **Ledger** (`ledger.dfy`, module `Ledger`, from `mysql.go`):
  - The members' balances and the `game_results` table, held as the fields of one `Ledger` object.
  - The balance update, which refuses an unknown member or a balance below the stake and otherwise adds the profit.
  - The history append, which inserts a row and rolls it back when the balance update is refused.
  - The windowed history query.
  - A transaction that rolls back leaves the object's fields as they were. The table's auto-increment counter is the exception: it is not rolled back.
- **Worker and admission handler** (`server.dfy`, module `Server`, from `main.go`):
  - The bet worker settles each job, drops it if it is below the coin's minimum stake, records it, and answers only when the record was kept.
  - The `/cryptokeon` handler keeps a queue-size counter and an active-task counter, taken one request at a time.

The model follows the code wherever the code and its design description differ:

- A job whose balance update is refused is dropped without an answer, so its caller waits for the ten-second timer.
  The history row of such a job still consumes an id.
- Selections are not validated.
  - An empty selection pays 0 and loses the stake.
  - A selection of more than ten numbers with at least one match indexes past the payout row (`PayoutMap` returns `[0]`). That is a panic, modelled as `Failure(PayoutIndexOutOfRange)` and, in the worker, as the outcome `Crashed`.
- The worker builds its history row without a member name. The balance lookup is therefore made with the empty name. Unless a member is registered under that name, every job is refused and never answered (`Server.UnnamedJobNeverAnswered`).
- The workers are started with copies of the two counters (main.go:64-65, 94). Their decrements never reach the handler's counters. After five answered requests the handler refuses every well-formed request (see Findings).
- A request whose body does not decode raises the queue size and never lowers it again.

## Model

| member | source | states |
|---|---|---|
| Keno.DrawOf | keno.go:69-77 | the draw of a permutation of 0..39 is ten pairwise distinct numbers in 1..40 |
| Keno.RandomList | keno.go:64-78 | filling the ten-slot list from the permutation, stopping after index 9, yields exactly `perm[i]+1` for i in 0..9, a valid draw |
| Keno.Matches | keno.go:92-98 | the match count never exceeds the selection size or the draw size |
| Keno.MatchesIsIntersection | keno.go:86-98 | the match count is the size of the multiset intersection of selection and draw |
| Keno.RepeatedPick | keno.go:93-97 | a number selected k times scores min(k, its occurrences in the draw) |
| Keno.RepeatedPickScoresAtMostOnce | keno.go:86-98 | duplicate selections of a number never score more than once against a real draw |
| Keno.PayoutMap | keno.go:125-149 | for 1..10 numbers the row has length len+1, starts at 0 and never decreases with the match count; any other length gives `[0]` |
| Keno.CalProfit | keno.go:106-118 | profit is -stake at multiplier 0 and 0 at multiplier 1, never below -stake for a non-negative stake, and, for a positive stake, positive exactly when the multiplier exceeds 1 |
| Keno.Settle | keno.go:80-104 | settlement fails exactly when more than ten numbers are selected and at least one matches; otherwise it returns the table's multiplier for (selection size, match count), the draw unchanged as win fields, and the profit the profit rule gives for the stake and that multiplier |
| Keno.SettleKeno | keno.go:80-104 | the count-map loops compute exactly `Settle`: same multiplier, win fields, profit and failure cases |
| Keno.FiveNumberExample | keno.go:99-102 | five numbers of which two are drawn pay 1.40, so a stake of 10 nets 4 |
| Ledger.ApplySettlement | mysql.go:158-178 | unknown member and balance below stake are refused; otherwise the member's balance moves by exactly the profit and no other balance or member changes |
| Ledger.SettledBalanceNonNegative | mysql.go:170-175 | for a non-negative stake, a successful update with an engine-computed profit never leaves the balance negative |
| Ledger.ReplayAddsCommittedProfits | mysql.go:170-178 | over any sequence of wagers a member's final balance is the initial one plus the profits of exactly the accepted wagers |
| Ledger.ReplayKeepsBalancesNonNegative | mysql.go:170-178 | settling any sequence of engine-computed wagers keeps every balance non-negative |
| Ledger.Ledger.constructor | mysql.go:17-18 | an empty table whose auto-increment counter starts at 1 |
| Ledger.Ledger.UpdatePlayerBalance | mysql.go:147-186 | the balance field changes exactly as `ApplySettlement` says, and an error is returned exactly when it refuses |
| Ledger.Ledger.AppendBetHistory | mysql.go:104-138 | one id is consumed; on success one row with that id is appended and the balance updated; on refusal history and balances are as before; ids stay strictly increasing |
| Ledger.Reverse | mysql.go:214 | reversal keeps length and rows and reads the rows backwards |
| Ledger.ReverseDecreasing | mysql.go:214 | reversing increasing ids gives descending id order |
| Ledger.Between | mysql.go:213 | a row is selected exactly when its id lies in (lo, hi] |
| Ledger.RangeHoldsFewRows | mysql.go:213 | rows with distinct increasing ids in (lo, hi] number at most hi - lo |
| Ledger.LatestPage | mysql.go:216-221 | the fallback page holds min(rows, 20) rows in descending id order, and every row left out has a lower id than every row on the page |
| Ledger.BigFloatAdd | mysql.go:188-196 | the new balance differs from each addend by exactly the other |
| Ledger.GetAllBetHistoryFromDB | mysql.go:207-224 | at most 20 rows, all from the table, in descending id order; id 0 gives the latest page |
| Ledger.WindowQuery | mysql.go:212-215 | with a positive id whose window is not empty, the result holds exactly the rows with id in (id, id+20] |
| Ledger.EmptyWindowFallsBack | mysql.go:216-218 | a positive id with an empty window yields the latest page |
| Ledger.WrappedBoundFallsBack | mysql.go:209-218 | for ids within 20 of 2^64 the unsigned bound wraps, the window is empty and the latest page comes back |
| Server.PassesCoinFilter | main.go:98-110 | ETH passes exactly from 0.0001, USDT exactly from 1.0, every other coin never; a passing stake is positive |
| Server.RecordFor | main.go:115-120 | the history row names no member and carries the same payout, win fields, profit and coin as the answer for the same settlement |
| Server.ResponseFor | main.go:123-128 | the answer carries the settlement's payout, win fields and profit unchanged, and the request's coin |
| Server.JobStepSettled | main.go:98-135 | given the job's settlement: it crashes exactly when settlement failed; an id is used exactly when a settled job passes the coin filter; it answers exactly when, in addition, the balance update under the empty name succeeds, and then with the settlement, the updated balances and one unnamed row with the counter's id; otherwise balances and history are unchanged |
| Server.JobStep | main.go:95-136 | an answer is sent only for a job that passed the filter, and it carries the engine's settlement; a job is answered exactly when it settles, passes the filter and the ledger's balance update accepts it, and then the balances are that update's and the one new row is the job's record with the counter's id; an unanswered job leaves history and balances alone; an id is consumed exactly when the job reaches the ledger; the job crashes exactly when settlement panics |
| Server.UnnamedJobNeverAnswered | main.go:115-133 | with no member under the empty name, no job is answered and nothing is recorded |
| Server.HandleBetJob | main.go:95-136 | one pass of the worker loop on the ledger has exactly the effect `JobStep` describes |
| Server.SettlementAt | main.go:95-96 | the settlement the worker uses for job i is the engine's settlement of that job under its own permutation |
| Server.JobStepSettledSteps | main.go:98-135 | the worker's step answers only as settled, appends a row exactly when it answers, writes only unnamed rows of an accepted coin with increasing ids taken from the counter, crashes exactly on a failed settlement, and otherwise applies the ledger's balance rule |
| Server.FoldEndsAtCrash | main.go:95-136 | a run of the loop that handles fewer jobs than were queued ends with a crash |
| Server.FoldCrashesLast | main.go:95-136 | no crash comes before the last outcome of a run |
| Server.FoldAnswersAsSettled | main.go:111-133 | with a step that answers only as settled, every answer of the run carries its own job's settlement, for a job that passed the coin filter |
| Server.FoldRowPerAnswer | main.go:130-133 | with a step that records exactly the answered jobs, the run appends exactly one row per answer |
| Server.FoldRowsUnnamed | main.go:115-120 | with a step that writes unnamed rows of an accepted coin, so does the whole run |
| Server.FoldRowIdsBounded | main.go:130 | every row of the run has an id from the counter's start up to, not including, its final value |
| Server.FoldRowIds | main.go:130 | the rows of the run have strictly increasing ids |
| Server.FoldIsReplay | main.go:96-133 | with a step that follows the balance rule, the run's final balances are those of replaying its wagers through the ledger |
| Server.WorkerWagersFromEngine | main.go:96-130 | every wager the worker puts to the ledger has a non-negative stake and an engine-computed profit |
| Server.WorkerRunIsReplay | main.go:96-133 | the worker's final balances are those of replaying its wagers through the ledger's balance rule |
| Server.WorkerRunKeepsBalances | main.go:96-133 | the worker never drives a balance below zero, and a member ends at the starting balance plus the profits of exactly the wagers the ledger accepted |
| Server.WorkerRunShape | main.go:94-137 | a worker run stops exactly at its first crash, answers only as settled, and appends one unnamed row per answer, with strictly increasing ids from the counter's start below its final value |
| Server.WorkerRunSummary | main.go:94-137 | over a queue with each job's engine settlement, the run stops exactly at its first crash, answers only as the engine settled, records one unnamed row per answer, and leaves no balance negative that was not negative before |
| Server.WorkerRunOnLedger | main.go:94-137 | a ledger whose state is the run's: its history keeps its earlier rows and grows by one unnamed row per answer, the outcomes stop at the first crash and answer only as settled, and no balance turns negative |
| Server.WorkerRunNonNegative | main.go:96-133 | a worker run leaves no balance negative that was not negative before |
| Server.RunBetWorker | main.go:94-137 | the loop leaves the ledger in exactly the state the fold of the worker's step over the queue gives (`WorkerRun` on each job's engine settlement): the outcomes, the balances, the rows appended after the earlier history and the id counter; the ledger stays valid and no balance turns negative |
| Server.Handle | main.go:199-261 | the token, method, queue-full, too-many-active and bad-body replies each happen exactly under their conditions; an accepted request is served with the worker's answer when it arrives and times out otherwise; a served request raises both counters by one, an undecodable one the queue size only, and every other reply leaves both as they were |
| Server.Admission.constructor | main.go:53-56 | both counters start at zero |
| Server.Admission.CryptoKeon | main.go:199-261 | the handler's counter updates and reply are those of `Handle` |
| Server.RunCounters | main.go:213-259 | after any run, queue size = start + served + undecodable, and active tasks = start + served |
| Server.ServesAtMostMaxWorkers | main.go:237-245 | from idle counters, at most five requests are ever served |
| Server.AdmitsAtMostMaxQueue | main.go:212-226 | at most fifty requests, served or undecodable, ever pass the queue check |
| Server.SixthRequestRefused | main.go:237-245 | six well-formed answered requests from idle: five are served and the sixth is refused for too many active tasks |
| Server.CorrectedHandle | main.go:134-135 | with the worker's decrements in effect, a served request leaves the counters where they were and the reply is unchanged |
| Server.CorrectedNeverRefusesForActiveTasks | main.go:237-242 | with the decrements in effect, the active-task count never moves and no request is refused for too many active tasks |

## Left out

- Keno.CalProfit: exact arithmetic. The conversion from `big.Float` to `float64` and the rounding to 8 fractional digits (keno.go:114-123) are binary floating point.
- Ledger.BigFloatAdd: exact addition, with the same rounding left out (mysql.go:192-193).
- Payouts as strings are not modelled. `SettleKeno` returns the multiplier already formatted as a two-decimal string (keno.go:80, 103). The history row stores it as a `float64` (mysql.go:19), and the answer formats it once more (main.go:96, 116, 124). The model keeps the integer number of hundredths in the settlement, the row and the answer alike, so neither the formatting nor a conversion between string and number is modelled.
- The randomness. `rand.Perm` with a clock seed and `GetSefeRandomSeed`/`GetRandom` are replaced by an injected permutation, which is a parameter.
- Goroutines, channels, the `select` against the ten-second timer, and atomic operations are not modelled.
  - What a waiting handler receives is a parameter (`Wait`).
  - Requests are taken one at a time, so interleavings of the counter checks and updates are not covered.
  - A worker blocked sending on a conduit that no handler reads any more is not covered.
- The worker's panics (a failed draw index) end the worker loop as `Crashed`. The process exit that follows is not modelled.
- Database faults other than a missing member are not modelled: a failing `Create` or `Commit` panic. As written, a failing final commit in `appendBetHistory` would leave the balance updated without its history row.
- The `bool` wrapper `AppendBetHistory` called at main.go:130 is not part of this model. It is taken to report `false` exactly when `appendBetHistory` returns an error or panics.
- gorm and MySQL specifics are not modelled: row locks, `AutoMigrate`, `BeforeSave`, `TableName`, `InitSQLConnect`, and the `getUser*FromDB` and `getPlayerBalanceFromDB` lookups.
- JSON encoding and decoding are not modelled. The win fields are kept as a sequence, and a body that does not decode is `None`.
- Timestamps (`CreatedAt`, `UpdatedAt`) are not modelled.
- Ledger.Ledger.AppendBetHistory: the auto-increment counter is unbounded. The uint64 limit of `GameId` is not modelled on insert, though the history query does model the unsigned wrap of `game_id + 20`.
- The `/testrand` handler, `handleRequest`, `initSampleTaskQueue`, and the balance, history and login HTTP handlers are not modelled. Neither is `crosSettings`.
- login.go (token checks) and wallet.go (HD-wallet derivation) are not part of this model. The token check is a boolean of the request.

## Findings

| source | as written | input that shows it | evidently intended | confidence | as-written member | corrected member |
|---|---|---|---|---|---|---|
| main.go:64-65, 94, 134-135 | the workers receive the counters by value, so their decrements after answering never reach the handler's counters; each answered request leaves both counters one higher for good | six well-formed requests, each answered, from idle counters: the sixth is refused with "Too many active tasks", and so is every later one | an answered request releases its queue slot and its active task | high, not executed | Server.SixthRequestRefused | Server.CorrectedNeverRefusesForActiveTasks |
