# Verification of the MT5 execution bridge

The bridge takes trading signals over HTTP, keeps them in SQLite and lets a single worker turn each
one into at most one market order at a MetaTrader 5 terminal. This project models the part that
decides whether money moves: the durable signal queue, the worker, the execution pipeline with its
risk gates, the send, and the recovery after a crash. It proves the model's properties for every run.

## How the model is built

* **State machine** (`Types`, `Risk`, `Sizing`, `AccountKeys`, `Pipeline`, `Machine`). A `World` holds
  the three tables, any number of workers with their program counters and locals, and logs of what
  was submitted, claimed, checked, ordered and looked up. An event is one locked database method, one
  broker call, or something the environment does: a submission between any two steps, a closed position,
  an exception (`Raise`), a death of the process (`Kill`) that drops all locals and keeps the tables, a
  start with recovery. `claim_next_pending` is split into its SELECT and its guarded UPDATE, and
  `order_check` is a step of its own that logs the request it asks about. What the host clock, the
  terminal and the broker answer is arbitrary and comes with the event; whether an order was really
  filled is known only to the broker's log.
* **Invariants** (`Safety`, `Certified`, `Audit`, `Effects`, `Intake`) hold in every run with any number
  of workers. `SingleConsumer` holds with one, as the bridge is deployed, with crashes at any point.
* **Guarantees** (`Guarantees`, `DailyLimits`, `Positions`, `Progress`, `Recovery`, `Isolation`) are
  the theorems a maintainer would want to quote. `Reachable(cfg, n, w)` says that some run of `n`
  workers on an initially empty database leads to `w`; `ReachableUnder(tag, n, w)` says it of a run in
  which every event has settings of its own, as they are read anew at each start, and only the tag of a
  signal stays the same. `Witness` holds two concrete runs that show where the daily limit gives way.
* **What is said** (`Dialogue`). Every call to the terminal and every reading of the host's clock is an
  `Exchange` of arguments and answer. `Told` says which exchanges an event may stand for, `Heard` what
  an attempt's observations must rest on, and `RunIsHeard` that in every run they do.
* **Objects** (`Gateway`, `Storage`, `Service`, `Worker`) are the source's classes: a gateway over a
  terminal that answers what it likes and a host clock, both of which put each answer on a ghost tape; a
  database whose methods update tables in place; the service with its early returns; and the worker
  with its loops. Every gateway method states its result as a function of what the tape gained. The
  service carries a ghost history of machine events; `Valid` says that the database and the terminal's
  log are those of the run of that history and that the tape is a transcript of it. So every guarantee
  holds of the objects, and every observation in it was really an answer. `Stages` is the glue: a
  stage's early return is the step that the ordered gates give.

Instants are microseconds since the epoch, money and volumes are `real`, and `round(x, 8)` and
`math.floor` are written out. A row of `signals` or `executions` is identified by its position, which is
its id: rows are never deleted.

## Where the code differs from what is written about it

* The gates run in the order of the code: action enablement comes before symbol mapping.
* Recovery updates `signals` only (`app/services/execution_service.py:76`), so the `RECOVERED_EXECUTED` in
  the SQL of the daily count (`app/storage/database.py:203`) never matches, although the comment above it
  says that it counts (`DailyLimits.RecoveryStaysOutOfExecutions`). An order whose signal is recovered
  takes a slot if and only if the attempt had made the final update of its execution row before it died
  and the broker had reported a fill (`DailyLimits.RecoveredTradeCounts`); `Witness.RecoveredTradeUncounted`
  is a run in which a filled and recovered trade is not counted.
* The daily count compares host time (`started_at`) with the broker's midnight, so "at most the cap per
  broker day" fails for attempts that started, on the host's clock, before the day they were gated
  under. That takes a broker clock ahead of the host's, or, with identical clocks, a midnight between the
  two readings of one attempt: `Witness.TwoTradesUnderACapOfOne` is such a run. A trade takes a slot of its
  broker day if and only if it started in that day on the host's clock
  (`DailyLimits.SlotTakenExactlyWhenTimely`); the cap is exceeded at most by the trades that did not
  (`DailyLimits.CapPerBrokerDay`), and it is kept when no trade of the day read a broker time later
  than its start (`DailyLimits.CapWhenBrokerNotAhead`).
* "Never rounds up beyond the intended risk" holds exactly for volume steps that are multiples of 1e-8
  (`Sizing.GridStepsAreTheSafeOnes`); for others the excess is at most half of 1e-8 lots.
* With `require_stop_loss` off, a signal without a stop raises in the volume calculation and its row stays
  PROCESSING until the next start.
* `TERMINAL_STATUSES` omits FAILED_MT5_UNAVAILABLE, yet no step leaves that status. "Settled" here means
  neither PENDING nor PROCESSING.

## Model

| member | source | states |
|---|---|---|
| Guarantees.AtMostOnceSend | app/services/execution_service.py:311-314 | in every reachable world, any number of workers, crashes, duplicates and settings that change between starts included, no two orders in the broker's log are for one signal id, and each order's row was claimed exactly once |
| Guarantees.ClaimIsDurableBeforeSend | app/worker/execution_worker.py:52-61 | when an order goes out the claim and an open execution row are already in the tables, and the row had no order before |
| Guarantees.ClaimsAreFifo | app/storage/database.py:84-105 | claims follow id order without gap or repetition, the non-pending rows form a prefix, and a row is pending exactly when it was not claimed, whatever the settings were at each start |
| Guarantees.ClaimTakesLeastPending | app/storage/database.py:88-102 | a guarded claim, however long after its select and whoever else claimed meanwhile, takes the least pending row or nothing |
| Guarantees.NoLostExposure | app/services/execution_service.py:312-352 | a signal whose order was filled settles only as EXECUTED, EXECUTED_PARTIAL, RECOVERED_EXECUTED or REVIEW_REQUIRED, wherever the process died and whatever settings it came back with |
| Guarantees.ExposureIsReal | app/services/execution_service.py:59-92 | with honest fill codes, honest history and injective tags, the three executed statuses mean a fill of that very signal |
| Guarantees.SettledByResult | app/services/execution_service.py:331-352 | EXECUTED, EXECUTED_PARTIAL and FAILED_ORDER_SEND occur only with an order for that signal and the matching broker code |
| Guarantees.ReceiptKept | app/services/execution_service.py:320-350 | for every order ever sent, in every reachable world, its execution row holds the tickets and amounts of the broker's result that its code calls for once it is closed, and none before; only no result and PLACED lead to review |
| Guarantees.TablesAreCoupled | app/services/execution_service.py:164-172 | PENDING means untouched, every other signal has one attempt and at most one execution row, a settled one has exactly one, and a mismatch occurs only in progress or after recovery |
| Guarantees.OrdersAreCertified | app/services/execution_service.py:174-314 | every order was preceded in its attempt by all gates on the observed data, live mode, a stop strictly on the losing side, and a logged `order_check` of exactly the request that was sent, with code 0 or DONE; its filling mode is one the symbol allows |
| Guarantees.CheckedBeforeSend | app/services/execution_service.py:298-312 | at the very event that sends an order, the check log already holds one and only one check of that attempt, its request is the one sent, and its code is good |
| Effects.RunIsEffected | app/services/execution_service.py:263-314 | in every run, a live attempt past the baseline steps, a stopped one included, has left a baseline under its account and day; the check log holds its request once it has asked and nothing of it before or when it stopped earlier; no attempt is in the log twice, and every order is there with its request |
| Effects.BaselinesAreLeft | app/services/execution_service.py:263-268 | every order, and every attempt that has come past the baseline steps or was stopped behind them, has left a baseline stored under server, bar and login of its account and the whole days of the broker's time |
| Guarantees.IdentityHolds | app/services/execution_service.py:174-213 | freshness window in microseconds, enabled action, mapped symbol, connection, an account whose server name has a visible character and whose login is not zero, its key text, broker time and check code of every order |
| Guarantees.MarketHolds | app/services/execution_service.py:215-243 | usable symbol, sane quote, the side of the quote that the order is priced at, spread within the limit, the stop strictly beyond the entry price, and the filling mode by the bits of the symbol's mask |
| Guarantees.LimitsHold | app/services/execution_service.py:245-295 | trades, positions, daily loss of the account's equity and risk within their limits, and the volume is the calculation on the symbol's own step, minimum and maximum or their defaults |
| Guarantees.SendsExactlyWhenCleared | app/services/execution_service.py:297-314 | at the boundary an order goes out if and only if the check code is 0 or DONE and live execution is on, and it is the derived one |
| Guarantees.OrdersAreOptimallySized | app/services/execution_service.py:278-299 | the volume of every order is the largest multiple of the symbol's volume step within its limits (or their defaults) whose planned loss is within equity times the signal's risk percentage; whatever the step, it is the most whole steps within that budget, rounded to eight decimals with ties to even and cut at the maximum |
| Guarantees.OrdersCarryFirstSubmission | app/services/execution_service.py:371-396 | an order carries action, stop, target and tag of the first submission of its id |
| Guarantees.SettledByFirstFailingGate | app/services/execution_service.py:166-305 | an attempt that settles short of the send leaves in both tables the status of the first gate in order that fails on what it observed, with exactly the columns of the gates before it; a baseline is stored under its key if it passed the position gates, and its request was checked if and only if it passed the volume gate |
| Guarantees.AttemptsDecidedByDemands | app/services/execution_service.py:174-352 | in every reachable world, an attempt that stopped meets the stated demand of every gate before the one that stopped it and violates that one; its status is that of a single top-to-bottom reading of the nineteen demands, which gives none exactly when the order is out |
| Certified.RunIsCertified | app/services/execution_service.py:174-305 | in every run each attempt's locals satisfy all gates behind it, and a stopped one stopped at the first failing gate |
| Certified.DecideCertified | app/services/execution_service.py:174-352 | no single step loses a gate: the next locals satisfy every gate up to the next step |
| Audit.RunKeepsTrail | app/services/execution_service.py:140-164 | in every run an execution row holds exactly what the steps reached have recorded, a sent order's row is frozen but for its result, and a counted trade has an order |
| Safety.RunIsSafe | app/storage/database.py:84-182 | the inductive invariant over tables, program counters and the broker's log holds in every run |
| Safety.EventKeepsSafe | app/services/execution_service.py:137-352 | every event of any worker and of the environment keeps that invariant |
| Safety.DecideLegal | app/services/execution_service.py:137-352 | what a step of an attempt may do to the shared state: its own rows only, in the order insert, update, send, final updates |
| Intake.RunDeduplicates | app/storage/database.py:40-76 | the payload columns of the table are the order-preserving de-duplication of the submissions, in every run |
| Intake.CreatedExactlyOnFirst | app/storage/database.py:68-76 | a submission creates a row if and only if its id was never submitted before, and otherwise changes nothing |
| Intake.FirstOccurrencesMeaning | app/storage/database.py:40-76 | what the de-duplication keeps: exactly the submissions that no earlier one shares its id with |
| SingleConsumer.RunKeepsLedger | app/services/execution_service.py:245-271 | with one worker and crashes anywhere, an attempt's trade count and baseline still agree with the tables when it sends and when it closes its row |
| DailyLimits.DailyTradeCap | app/storage/database.py:191-208 | every counted trade has an order, and for each the trades of its account up to it and since the midnight of the broker time that it was gated with, a multiple of 86400 seconds, are within the cap |
| DailyLimits.CapPerBrokerDay | app/services/execution_service.py:245-250 | counted trades of an account and of the broker day that begins at a given midnight exceed the cap at most by those whose attempt started before that midnight on the host's clock |
| DailyLimits.CapWhenBrokerNotAhead | app/services/execution_service.py:245-250 | if no counted trade of the account and day read a broker time later than its own start on the host's clock, its trades are within the cap |
| Witness.TwoTradesUnderACapOfOne | app/services/execution_service.py:140-250 | a run with identical clocks and a cap of one in which an attempt straddles midnight and two trades of one broker day go out |
| DailyLimits.FillsPerBrokerDay | app/services/execution_service.py:76-83 | true fills of a broker day exceed the cap at most by those early trades and the filled attempts whose row was left PROCESSING or REVIEW_REQUIRED |
| DailyLimits.SlotTakenExactlyWhenTimely | app/services/execution_service.py:166-172 | closing an executed attempt raises the account's count since the midnight of its broker time by one if and only if it started at or after that midnight on the host's clock |
| DailyLimits.RecoveryStaysOutOfExecutions | app/storage/database.py:194-206 | no run ever writes RECOVERED_EXECUTED into the executions table |
| DailyLimits.RecoveredTradeCounts | app/services/execution_service.py:74-78 | for every order in every reachable world, whatever became of its signal, its row counts as a trade if and only if its final update was made and the broker's code was DONE or DONE_PARTIAL |
| Witness.RecoveredTradeUncounted | app/services/execution_service.py:74-78 | a run in which an order is filled and reported as DONE, recovery finds it, and the daily count of its account is zero from any instant on |
| DailyLimits.PlannedLossBound | app/services/execution_service.py:273-295 | one order whose symbol's volume step is a multiple of 1e-8 plans at most its equity's share of the maximal risk |
| DailyLimits.RiskPerBrokerDay | app/services/execution_service.py:273-312 | the planned stop losses of the trades of an account and broker day sum to at most the cap, plus early trades if any, times the largest such share among those trades |
| DailyLimits.BaselineWrittenOnce | app/storage/database.py:220-229 | no event of any run changes or removes a stored baseline |
| DailyLimits.BaselineOnlyBehindTheGates | app/services/execution_service.py:263-268 | a baseline appears only by an attempt that passed the fourteen gates before it, under its own account's name and the broker's day, where none was stored, with that account's equity |
| DailyLimits.LossGuardUsesStoredBaseline | app/services/execution_service.py:263-271 | for every order the baseline stored under its account's name and the broker's day is positive and the loss of the account's equity against it is below the limit |
| Positions.OpenPositionsCapped | app/services/execution_service.py:252-261 | if every answered query shows the bridge's positions, n workers never hold more than the cap plus n - 1 open, and one worker never more than the cap |
| Positions.OpenIsConserved | app/services/execution_service.py:312 | open positions are always those at the start and those that orders opened, less those closed |
| Positions.DecideBounded | app/services/risk_service.py:63-66 | an attempt gets behind the position gate only while the positions are below the cap, and its send takes it out again |
| Recovery.RecoveryIsTotalAndIdempotent | app/worker/execution_worker.py:28-32 | however often recovery is cut short and restarted with the same broker answers, once it ends no row is stuck, each stuck row is settled by the broker's answer, and nothing else changed or was sent |
| Recovery.SettleFirst | app/storage/database.py:129-133 | settling the first stuck row takes exactly it off the list of stuck rows |
| Recovery.SettleCommutes | app/services/execution_service.py:59-83 | settling one row by the broker's answer does not change the table recovery ends in |
| Progress.PendingAndClaimsAddUp | app/storage/database.py:84-105 | waiting rows and claims always add up to the table |
| Progress.WorkNeverRises | app/worker/execution_worker.py:52-65 | without a submission, twice the waiting plus the in-progress rows never rises, and every claim lowers it |
| Progress.SettledIsFinal | app/models/enums.py:40-63 | with one worker a settled status is the same at every later point of the run |
| Isolation.AccountsAreIsolated | app/storage/database.py:191-229 | an event changes an account's trade count or baselines only as a step of an attempt that acts for that very server and login |
| AccountKeys.AccountKeysSeparate | app/services/execution_service.py:37-47 | two accounts have one key if and only if server and login agree |
| AccountKeys.KeyOfKnown | app/services/execution_service.py:37-47 | there is a key if and only if the server name has a character that is not white space and the login is not zero, and it is server, bar and login |
| AccountKeys.IntTextIsDecimal | app/services/execution_service.py:47 | the login in the key is its decimal notation |
| AccountKeys.KeyTextInjective | app/services/execution_service.py:47 | the key text determines server and login even when the server name contains the separator |
| IsoTime.TextOrderIsTimeOrder | app/storage/database.py:203-204 | byte order of `isoformat()` texts of UTC datetimes is the order of the instants, with fractions of no digit or six |
| IsoTime.MidnightIsDayStart | app/services/risk_service.py:78-85 | the midnight built from calendar fields is the arithmetic day start, and day keys agree exactly when dates do |
| IsoTime.IsoTextFields | app/services/execution_service.py:140 | the text of a UTC datetime is `YYYY-MM-DDTHH:MM:SS+00:00` in decimal digits, with six decimals if there are microseconds |
| IsoTime.DayNumbersCount | app/services/risk_service.py:78-85 | days are numbered along the Gregorian calendar without gap, from the first day of year 1 |
| Storage.TextCountIsInstantCount | app/storage/database.py:191-208 | the SQL count by text equals the count by instant |
| Risk.DayStartAndKeyAgree | app/services/risk_service.py:78-85 | a day start is the one midnight at or before the time and less than a day away, and determines the day key |
| Risk.DayStartIsMidnight | app/services/risk_service.py:78-85 | of all instants exactly the day start is a multiple of 86400 seconds and at most that far before the time, and the day key counts such days |
| Sizing.OptimalSizing | app/services/volume_calculator.py:43-64 | on grid steps, with a volume_max that is a multiple of the step, the result is the largest multiple in the broker's range within the risk budget, and the below-minimum rejection occurs if and only if there is none |
| Sizing.SizedByWholeSteps | app/services/volume_calculator.py:53-64 | for any positive step the result is the greatest step count within the budget, rounded to the nearest 1e-8 lots with ties to even, rejected below the minimum and cut at the maximum |
| Sizing.OvershootBound | app/services/volume_calculator.py:51-64 | for any positive step the planned loss exceeds the budget by at most half of 1e-8 lots' loss, and on grid steps not at all |
| Sizing.GridStepsAreTheSafeOnes | app/services/volume_calculator.py:58 | the budget is kept on every input if and only if the step is a multiple of 1e-8 |
| Sizing.SizingRefusals | app/services/volume_calculator.py:38-55 | which inputs raise and which are unusable, both directions |
| Sizing.WholeStepsGreatest | app/services/volume_calculator.py:57 | a step count is within the floor of the division if and only if its loss is within the budget |
| Pipeline.FirstIn | app/services/execution_service.py:174-305 | the first failing gate of a slice: it fails, and none before it does |
| Machine.RowsWith | app/storage/database.py:129-133 | exactly the rows with a status, in ascending order |
| Machine.LeastPending | app/storage/database.py:88-91 | the least pending row, or none if there is none |
| Stages.StopsHere | app/services/execution_service.py:174-305 | an early return after passed tests is the step that the ordered gates give |
| Stages.PassesAll | app/services/execution_service.py:174-305 | when all tests of a stage pass the machine goes on to the next step with the stage's record |
| Stages.SizeIs | app/services/volume_calculator.py:38-39 | the sizing step raises if and only if the loss and risk gates pass and the calculation raises |
| Storage.Database.constructor | app/storage/migrations.py:1-62 | empty tables |
| Storage.Database.InsertSignalIfNew | app/storage/database.py:40-76 | appends a pending row if and only if the id is new, keeps ids unique, and returns the row of the id |
| Storage.Database.ClaimNextPending | app/storage/database.py:84-105 | claims the least pending row and counts the attempt, or changes nothing |
| Storage.Database.UpdateSignalStatus | app/storage/database.py:107-119 | sets the status of the row with the id and leaves all others alone |
| Storage.Database.SetSymbolNormalized | app/storage/database.py:135-143 | sets the mapped symbol of the row with the id and leaves all others alone |
| Storage.Database.FindStuckProcessing | app/storage/database.py:129-133 | exactly the rows in progress, ascending |
| Storage.Database.InsertExecution | app/storage/database.py:147-171 | appends the record and returns its id |
| Storage.Database.UpdateExecution | app/storage/database.py:173-182 | assigns the given columns of one row, and every other column and row stays |
| Storage.Database.CountExecutedTradesSince | app/storage/database.py:191-208 | the loop's count is the specified count of the account's trades |
| Storage.Database.GetDailyLossBaseline | app/storage/database.py:212-218 | the stored baseline or nothing |
| Storage.Database.SetDailyLossBaseline | app/storage/database.py:220-229 | stores a first baseline and never overwrites one |
| Storage.ByIdIsByRow | app/storage/migrations.py:5 | under the unique constraint an update by signal id is the update of one row |
| Gateway.MT5Gateway.Connected | app/services/mt5_gateway.py:57-75 | a cached connection is believed only if the one probe on the tape was answered, and is dropped otherwise; without one there is no probe |
| Gateway.MT5Gateway.Initialize | app/services/mt5_gateway.py:77-92 | the connection state is the answer on the tape of the one initialize call, and nothing happens without the SDK |
| Gateway.MT5Gateway.Shutdown | app/services/mt5_gateway.py:94-97 | disconnected afterwards, with one shutdown call if and only if it was connected |
| Gateway.MT5Gateway.EnsureSymbol | app/services/mt5_gateway.py:112-126 | a symbol that is listed and not marked invisible is returned as the terminal gave it and nothing else is asked; a missing or invisible one is selected exactly once and, unless that fails, looked up again, and the result is that second answer or nothing |
| Gateway.MT5Gateway.ServerTime | app/services/mt5_gateway.py:131-145 | the broker's clock is the time of the tick that the terminal gave for this symbol, or nothing if there is no tick or no valid time; the host's clock is not read |
| Gateway.MT5Gateway.PositionsGet | app/services/mt5_gateway.py:147-160 | the terminal's own answer: an unanswered query stays None and is never an empty list |
| Gateway.MT5Gateway.HistoryDealsGet | app/services/mt5_gateway.py:172-176 | the terminal's own answer, where an unanswered query is an empty list |
| Gateway.MT5Gateway.OrderCalcProfit | app/services/mt5_gateway.py:178-182 | the loss that the terminal answered for this action, symbol and these prices |
| Gateway.MT5Gateway.OrderCheck | app/services/mt5_gateway.py:184-185 | one check of this very request, with the answer the terminal gave |
| Gateway.MT5Gateway.OrderSend | app/services/mt5_gateway.py:187-188 | exactly one request reaches the terminal, none without the SDK, and the result is the terminal's answer to it |
| Service.ExecutionService.ProcessSignal | app/services/execution_service.py:137-352 | an attempt that returns has closed both tables with one status explained by the first failing gate or by the send, all of it by answers that were given during the attempt; it sent at most its own request, which the broker had checked with a good code, and changed only its own rows; it raises only without a stop that is not required |
| Service.ExecutionService.CheckIntake | app/services/execution_service.py:174-193 | freshness by the one reading of the host's clock, action and mapping tests with their early returns are the machine's first slice of gates |
| Service.ExecutionService.IdentifyAccount | app/services/execution_service.py:198-213 | connection and account tests are the machine's second slice, over a connection that was probed or tried at most three times and the account that the terminal then named; an attempt goes on only with a visible server name and a login, and their key is recorded |
| Service.ExecutionService.QuoteSymbol | app/services/execution_service.py:215-226 | symbol and tick tests are the machine's third slice, over the terminal's answers for the mapped symbol, which was selected first if it was missing or invisible; the entry price is recorded |
| Service.ExecutionService.CheckMarket | app/services/execution_service.py:230-243 | broker time, stop and spread tests are the machine's fourth slice, and the broker time is that of a tick of the mapped symbol |
| Service.ExecutionService.CheckTradeCount | app/services/execution_service.py:245-250 | the trades of the account since the midnight of the broker's time, counted in the rows that the database holds at that moment; the attempt stops if and only if they have reached the cap |
| Service.ExecutionService.CheckPositions | app/services/execution_service.py:252-261 | the positions are the one answer of the terminal; an unanswered query is rejected as unknown and never counted as none |
| Service.ExecutionService.CountMagic | app/services/execution_service.py:258 | the loop's count is the number of positions with the bridge's magic number |
| Service.ExecutionService.LoadBaseline | app/services/execution_service.py:263-268 | the baseline used is the one stored under the account's name and the broker's day; only if there is none it is stored first, with the account's equity |
| Service.ExecutionService.SizePosition | app/services/execution_service.py:269-295 | loss, risk and volume tests are the machine's slice, the loss of one lot is the terminal's answer for the mapped symbol, the action, the entry price and the stop, asked only with sane prices; a missing stop that gets here raises |
| Service.ExecutionService.BuildOrderRequest | app/services/execution_service.py:371-408 | the request filled field by field is the one derived from the observations: fill-or-kill exactly if bit 0 of the symbol's mask is set, immediate-or-cancel exactly if there is no mask or only bit 1 is set, else the rest of the order stays |
| Service.ExecutionService.CheckOrder | app/services/execution_service.py:297-302 | the broker is asked once, about the request that will be sent, and its code is what the attempt goes by and records |
| Service.ExecutionService.CheckLive | app/services/execution_service.py:302-309 | check code and dry run are the last gates before the send |
| Service.ExecutionService.Transmit | app/services/execution_service.py:311-313 | exactly this one request goes out, and the result is the terminal's answer to it |
| Service.ExecutionService.RecordResult | app/services/execution_service.py:313-314 | the code of that answer, and no other, goes into the attempt's execution row |
| Service.ExecutionService.Finish | app/services/execution_service.py:166-172 | both final updates, after which both tables explain the attempt by what was said during it |
| Service.ExecutionService.EnsureConnected | app/services/execution_service.py:356-369 | no try while the probe is answered; else initialize is called until one call succeeds, at most three times, and it gives up only after three failures |
| Service.ExecutionService.FindDealByComment | app/services/execution_service.py:85-92 | found if and only if a deal of the history that the terminal gave carries the tag |
| Service.ExecutionService.ReconcileStuckSignal | app/services/execution_service.py:59-83 | RECOVERED_EXECUTED if and only if the connection was made and the history that the terminal gave has the tag, else REVIEW_REQUIRED; one row's status changes and nothing is sent |
| Service.ExecutionService.Submit | app/services/signal_service.py:12-27 | the duplicate flag is true if and only if the id is already in the table, and the table is as specified |
| Service.SentAtMostOnce | app/services/execution_service.py:311-314 | the terminal's log holds one request per order, no two for one signal, and each order rests on answers that are on the tape, a good check of that very request among them |
| Dialogue.RunIsHeard | app/services/execution_service.py:137-314 | in every run with a transcript, whatever a live attempt or an order ever sent has observed was answered: the account, the symbol, the tick, the broker's time, the positions, the loss of one lot and the check, each for its own arguments |
| Dialogue.DecideHeard | app/services/execution_service.py:137-314 | no single step makes an attempt believe what was not said to it |
| Worker.ExecutionWorker.RecoverOnStartup | app/worker/execution_worker.py:28-32 | afterwards no row is in progress, each that was is settled, every other row and both other tables are unchanged |
| Worker.ExecutionWorker.Start | app/worker/execution_worker.py:34-37 | recovery is complete before the loop may run |
| Worker.ExecutionWorker.Stop | app/worker/execution_worker.py:39-46 | the loop no longer runs |
| Worker.ExecutionWorker.Round | app/worker/execution_worker.py:52-65 | one round claims the least waiting row, processes it, leaves all other rows alone and survives an exception |
| Worker.ExecutionWorker.RunLoop | app/worker/execution_worker.py:52-65 | in each of the given rounds one waiting row comes off the queue whatever becomes of the attempt, and rows that were not waiting are untouched |
| Worker.DieDuring | app/services/execution_service.py:137-352 | wherever between its stages an attempt is cut off, the order being out or the tables half closed, the database, the terminal's log and the tape are those of a run that ends in a death |
| Worker.Lifetimes | app/main.py:52-66 | over any number of starts, loads, orderly stops and deaths in the middle of an attempt the broker gets at most one order per signal |

## Left out

- HTTP routes, middleware, application factory, snapshots of account, positions and orders, logging, the PowerShell scripts and `SymbolMapper.from_file`: input and output only.
- Validation of settings and payloads by Pydantic: the theorems hold without its bounds, except for the few that name one as a precondition.
- The MetaTrader5 SDK: every answer is arbitrary. SHA-256: the tag is an uninterpreted function of the signal id, assumed injective on submitted ids only where a theorem says so.
- SQLite internals: each locked method is one atomic and durable step.
- IEEE floats: prices, money and volumes are reals, so overflow, NaN and representation error are not modelled; `round(x, 8)` is the real rounding with ties to even.
- Asyncio and threads: replaced by free interleaving of events in the machine. The classes themselves run sequentially; interleaved submissions and further workers are covered by the machine only.
- Exceptions of SDK and database calls: `Raise` and `Kill` may strike the machine between any two steps; in the classes only the exception that the volume calculation itself raises is written out, and a crash is possible between any two stages of the service.
- Columns that nothing reads: `strategy`, `comment`, `result_message`, `rejection_reason`, `received_at`, `last_attempt_at`, `created_at`, `updated_at`; the request fields `action` and `type_time`, which are constant.
- `requeue_signal` has no caller and is not a step; with it a signal could be sent twice.
- The three-day window of the history query: an answer may miss any deal, which then leads to review.
- Service.ExecutionService.BuildOrderRequest: without the constant fields `action` and `type_time`.
- Settings that change between starts: AtMostOnceSend, ClaimsAreFifo, NoLostExposure and TablesAreCoupled hold with them; the theorems that speak of a limit or a mode take one setting for the whole run, and the service object has one.
- Worker.Lifetimes: a death strikes between two stages of the service; at any finer point it is covered by the machine only.
- Worker.ExecutionWorker.RunLoop: the loop runs a given number of rounds instead of until it is stopped, and the pause between polls is not modelled.
- DailyLimits.CapPerBrokerDay: the early trades are counted separately, because without them the statement is false (see above).
- DailyLimits.FillsPerBrokerDay: a fill whose row was left in progress or for review takes no slot in the code, so the bound counts those separately.
- Progress.SettledIsFinal: one worker, because a second worker's recovery may settle a row that the first one still closes.
