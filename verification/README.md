# Daybreak: a verified model

Daybreak is a fail-closed paper-trading pipeline: it replays an evaluator's scores, sizes the approved setups, submits
their orders once, and flattens the account at the end of the day. This project models the kernels in which its safety
claims live and proves those claims for every input, every run and every behaviour of the environment.

| file | models |
|---|---|
| `Replay`, `Ranking` | scores, hard gates and the anchored two-point ranking of `daybreak_contracts/logic/replay.py` |
| `Validator`, `Determinacy` | the output checks of `daybreak_contracts/validation/invariants.py`, and that together they fix the output |
| `Rounding`, `Sizing`, `Batch` | exact rounding, position sizing and the batch loop of `daybreak_risk` |
| `Execution` | the order coordinator, its repository and the two order builders of `daybreak_execution` |
| `NetFills`, `Flatten` | target reconstruction and the end-of-day polling loop of `daybreak_orchestration` |
| `Leases` | the two leadership repositories, in memory and as guarded row updates |
| `KillSwitch`, `Orchestrator` | the persistent kill switch and the session run, over whole runs and histories of runs and emergency commands |
| `Pivots`, `Clusters`, `Resistance` | pivot highs, greedy clustering and nearest-resistance selection of `daybreak_features` |
| `TradeLedger` | correction-aware trade materialization |
| `Analytics` | drawdown, attribution and the two aggregation paths of `daybreak_analytics` |
| `Orders`, `Results` | sorting, filtering, distinctness and sums, and optional values and results, shared by the others |

Conventions. Money is counted in quanta of 1e-10 as integers where the source quantizes it (`Sizing`, `Analytics`) and
is a `real` elsewhere; all arithmetic is exact. Objects whose methods update fields are classes; dictionaries and lists
are `map` and `seq` fields or locals; loops are loops. Brokers, clocks, hooks, health probes, lease services and alert
sinks are adversarial: their methods choose any answer, and every theorem covers every choice. Hashes and derived
identifiers are arbitrary functions. An insertion-ordered dictionary keyed by hash is a sequence with distinct hashes.

## Model

| member | source | states |
|---|---|---|
| Replay.ExpectedRiskFlags | daybreak_contracts/logic/replay.py:158-174 | the six tests in a row collect exactly the flags in force, each once, in the canonical order |
| Replay.RiskFlagsAreExactly | daybreak_contracts/logic/replay.py:158-174 | a list is the risk flags if and only if it holds exactly the flags in force and ascends in the canonical order |
| Replay.ExpectedFailedGates | daybreak_contracts/logic/replay.py:216-297 | the collected reasons are the failing gates in gate order with their observed values |
| Replay.GatesAreExactly | daybreak_contracts/logic/replay.py:216-297 | a reason is listed if and only if its gate fails, and then with that gate's evidence |
| Replay.PassingMeansNoGateFails | daybreak_contracts/logic/replay.py:216-297 | a ticker passes exactly when no gate fails |
| Replay.PassingScoreFloor | daybreak_contracts/logic/replay.py:177-207 | whatever the bucket, the conviction is within 0..100, and a passing ticker was not zeroed, is not graded C and has at least 50 |
| Replay.UncorroboratedSecondaryNeverPasses | daybreak_contracts/logic/replay.py:95-118 | an uncorroborated secondary source fails the gates under every bucket |
| Replay.PassesExactly | daybreak_contracts/logic/replay.py:216-297 | a ticker passes all gates if and only if its catalyst is neither disqualified, unconfirmed, stale nor without a driver, is corroborated or quantified as its source demands, it is not halted, gap is at least 4, premarket volume 500,000, relative volume 5 and resistance one range away, and the chart is not capped |
| Replay.CatalystExactly | daybreak_contracts/logic/replay.py:95-118 | the catalyst is zeroed for the first reason that applies; otherwise it is four times the source and magnitude points |
| Replay.PointTables | daybreak_contracts/logic/replay.py:95-137 | which source, bucket and volume earns which points |
| Replay.TechnicalExactly | daybreak_contracts/logic/replay.py:140-155 | which chart earns which grade and points, and when the parabolic cut of six applies |
| Replay.FlagsExactly | daybreak_contracts/logic/replay.py:158-174 | each risk flag by the field that raises it |
| Replay.PerfectConviction | daybreak_contracts/logic/replay.py:177-207 | the conviction is 100 exactly for a credible primary major catalyst, clean volume above ten times, blue sky one range away and no parabolic cut |
| Ranking.ExpectedPassingOrder | daybreak_contracts/logic/replay.py:321-342 | the loop terminates and returns the tickers of the group-peeling order |
| Ranking.RankingIsBandSort | daybreak_contracts/logic/replay.py:321-342 | for distinct tickers, peeling anchored two-point groups is one sort by score band, then within a band by the order FresherRanksFirst spells out, a permutation of the input |
| Ranking.RankingIsUnique | daybreak_contracts/logic/replay.py:321-342 | any permutation meeting the band order is the ranking |
| Ranking.FresherRanksFirst | daybreak_contracts/logic/replay.py:321-342 | within a band an earlier record is never older; at equal age its catalyst is never lower, then its volume points, then its technical points, then its ticker never later |
| Ranking.TopScoresShareABand | daybreak_contracts/logic/replay.py:321-342 | records within two points of the highest score are in one band |
| Ranking.RankingForgetsInputOrder | daybreak_contracts/logic/replay.py:321-342 | permuting the records does not change the ranking |
| Ranking.RankingIsIdempotent | daybreak_contracts/logic/replay.py:321-342 | ranking a ranking changes nothing |
| Ranking.RankingRespectsScores | daybreak_contracts/logic/replay.py:321-342 | a record precedes another only with a score at most two points lower |
| Ranking.RankingKeepsAllExactly | daybreak_contracts/logic/replay.py:321-342 | for scores up to 100, also with repeated tickers: the loop ranks every record if and only if records of one ticker lie in one score band, and then in band order; otherwise its result is shorter |
| Ranking.RepeatedTickerIsDropped | daybreak_contracts/logic/replay.py:335-339 | for example, a ticker scored 90 and again 80 is ranked once |
| Validator.Invariant001 | daybreak_contracts/validation/invariants.py:70-87 | reports nothing exactly when no terminal ticker occurs twice, schema failures included |
| Validator.Invariant003 | daybreak_contracts/validation/invariants.py:112-156 | reports nothing exactly when every exclusion lists the replayed failing gates, primary first |
| Validator.Invariant004 | daybreak_contracts/validation/invariants.py:159-193 | reports nothing exactly when every approved and qualified ticker passes every replayed gate |
| Validator.Invariant017 | daybreak_contracts/validation/invariants.py:342-418 | reports nothing exactly when all scores, flags and echoed trade parameters replay |
| Validator.Invariant067 | daybreak_contracts/validation/invariants.py:1461-1501 | reports nothing exactly when the passing order replays, its first three are approved and the rest carry their ranks |
| Determinacy.TerminalPartition | daybreak_contracts/validation/invariants.py:70-215 | checks 1, 3, 4 and 5 make approved, qualified and excluded a partition of the input tickers |
| Determinacy.ChecksPinTheOutput | daybreak_contracts/validation/invariants.py:70-87 | the six checks 1, 3, 4, 5, 17 and 67 hold if and only if the output is the one built from the replay, up to the order of exclusions |
| Determinacy.OutputsAgree | daybreak_contracts/validation/invariants.py:1461-1501 | two outputs passing the six checks with the same buckets and echoed ages agree on approved, qualified and excluded entries, on min(3, n) approvals and, with check 14, on the status |
| Determinacy.BuildPasses | daybreak_contracts/validation/invariants.py:290-317 | the built output exists for every input and passes all six checks and check 77; it passes check 14 if and only if the market is normal and the payload at most 180 seconds old |
| Sizing.SizePosition | daybreak_risk/engine.py:136-462 | rejects with exactly the failing reasons, each once, or grants the quantity, reported cap and reservation of the specification; which requests fail, and what a grant reserves, is spelled out on the fields by the lemmas that follow |
| Sizing.AdmittedExactly | daybreak_risk/engine.py:181-375 | a request is admitted if and only if its account, market data and session are sound, its prices ordered, marketable and within the spread and drift limits, and a cent of every capacity is left, all on the request's own fields |
| Sizing.RemainingHardLossExactly | daybreak_risk/engine.py:336-341 | what is left of the daily loss: the cents that fit under the hard limit together with the open risk, alone, with the broker's profit or loss, and with the session's own |
| Sizing.NoLossLeavesTheLimit | daybreak_risk/engine.py:336-341 | without a loss on either account the whole hard limit less the open risk is left, floored to the cent |
| Sizing.UsableBuyingPowerExactly | daybreak_risk/engine.py:254-262 | usable buying power: the cents that fit, with the reserved notional, into both buying powers less the reserve |
| Sizing.KillSwitchAskedExactly | daybreak_risk/engine.py:184-238 | a rejection asks for the kill switch exactly when it is on or either account has lost the hard limit |
| Sizing.GrantReserves | daybreak_risk/engine.py:398-462 | a grant reserves, per share, the entry as notional and the distance to the stop plus the execution buffer as risk, for a planned entry rounded up and a stop rounded down to the tick |
| Sizing.BufferIs | daybreak_risk/engine.py:300-318 | the execution buffer is the larger of a share of the average range and a share of the spread, to the nearest quantum |
| Sizing.MultiplierByFlag | daybreak_risk/engine.py:320-325 | one half with a parabolic or low-float flag, else six tenths with spiky volume, else three quarters with a secondary source, else one |
| Sizing.UniqueReasons | daybreak_risk/engine.py:50-57 | keeps exactly the given reasons, each once |
| Sizing.Multiplier | daybreak_risk/engine.py:320-325 | the least multiplier among the flags, one without flags, never below one half |
| Sizing.FinalQuantity | daybreak_risk/engine.py:377-396 | the quantity is at most every cap and equals one of them |
| Sizing.Binding | daybreak_risk/engine.py:398 | the reported cap equals the quantity and no earlier cap in the fixed order does |
| Sizing.CapIsLimit | daybreak_risk/engine.py:377-390 | a quantity is within a floor-division cap if and only if it respects the exact limit behind it |
| Sizing.QuantityIsGreatest | daybreak_risk/engine.py:377-398 | the quantity is the greatest integer respecting all eight exact limits, and one more share breaks the reported one |
| Rounding.FloorToCentIsGreatest | daybreak_risk/rounding.py:9-10 | the floor is a whole number of cents and the greatest one not above the exact value |
| Rounding.IncrementsBracket | daybreak_risk/rounding.py:17-28 | rounding down and up to an increment bracket the value within one increment |
| Rounding.HalfEvenIsNearest | daybreak_risk/rounding.py:31-32 | half-even rounding errs by at most half a unit and is even on ties |
| Batch.SizeApprovedBatch | daybreak_risk/engine.py:465-490 | every request is decided against the initial session plus exactly the reservations approved before it; the ending session is the initial one plus all reservations and nothing else; an empty batch fails |
| Batch.ApprovalIsSafe | daybreak_risk/engine.py:332-390 | one approval leaves open risk within its cap and the hard limit, and the broker's profit or loss as well as the session's own, less all the open risk, above the negative hard limit; the reserved notional within both buying powers less the reserve, gross exposure within its cap, and the position count within its limit |
| Batch.BatchIsSafe | daybreak_risk/engine.py:465-490 | for a batch of any length, from its first approval on, every intermediate session and the ending one satisfy all these bounds, so losing everything at risk would not breach the daily limit |
| Batch.SafeWithinShares | daybreak_risk/engine.py:332-348 | and with it the exact shares of the reference equity behind the floored limits |
| Batch.SizingIsMonotone | daybreak_risk/engine.py:332-398 | adding reservations can only lower the quantity or reject |
| Batch.BatchNeverGivesMore | daybreak_risk/engine.py:465-490 | a batch never gives a request more than it gets alone, and gives the first exactly that |
| Execution.MatchedBracketIsProtected | daybreak_execution/service.py:125-162 | an order is accepted as matching a bracket entry if and only if its fields are the command's and it carries exactly one take-profit and one stop-loss leg, selling the full quantity at the decided prices |
| Execution.OnceMeansAtMostOne | daybreak_execution/service.py:286-299 | with the invariant every call keeps, at most one broker order exists per client order id |
| Execution.Repository.SaveCommand | daybreak_execution/persistence.py:47-51 | a stored command is never replaced: a different one for its id fails |
| Execution.Repository.AppendEvent | daybreak_execution/persistence.py:62-68 | only the next sequence number is appended |
| Execution.Repository.ClaimTradeUpdate | daybreak_execution/persistence.py:85-92 | an update is claimed once; the same id with another hash fails |
| Execution.ExecutionService.PostOnce | daybreak_execution/service.py:358-391 | a POST after a truthful empty lookup keeps one order per id, even when it fails after taking effect |
| Execution.ExecutionService.Submit | daybreak_execution/service.py:205-446 | every call keeps: at most one order per id, every order's command stored before its POST, contiguous events, nothing recorded ever changed; of what a call posts only the first may buy, and it is a limit bracket under the reservation's id for exactly the decision's shares of its ticker, with its entry limit, target and stop; everything else posted sells. A request that is not admissible, among them one whose decision is unapproved, unreserved, late or differs in quantity, is rejected for its first reason and reaches no broker call, a conflicting command no POST; success means the order exists, shows the decided shares and prices, and is neither rejected nor in a state to be reconciled, and is partially filled only if that fill was acted on before |
| Execution.EntryCommand | daybreak_execution/order_builder.py:23-64 | an entry is built if and only if the decision is approved, reserved for the same shares, in time and priced as a bracket, and then for exactly its shares and prices |
| Execution.StandingShowsDecided | daybreak_execution/service.py:125-179 | an order stands for the decision's entry if and only if it is a live buy limit bracket over the decided shares, with one leg at the target and one at the stop |
| Execution.ExecutionService.HandleTradeUpdate | daybreak_execution/service.py:471-605 | an update is acted on once, and only if it is a partial fill of a known order, which is then canceled; only a stop for exactly the fill of that order, read back as canceled, is ever posted; it is reconciled without protection only if it needs none or the order read back is filled as commanded |
| Execution.ExecutionService.Protect | daybreak_execution/service.py:521-595 | the update's order is canceled and read back by its own id, after the cancellation was requested, before its replacement stop is built |
| NetFills.DiscoverTargets | daybreak_orchestration/alpaca_ops.py:122-170 | for every listing representing the owned one-level brackets, the targets are exactly the positive nets of buys minus sells over distinct owned ids |
| NetFills.NetIsBoughtLessSold | daybreak_orchestration/alpaca_ops.py:122-170 | a symbol's net is what was filled on its buys less what was filled on its other orders, over orders carrying the session prefix and legs of such orders |
| NetFills.TargetsAreUnique | daybreak_orchestration/alpaca_ops.py:122-170 | so listing order, repetition and nesting make no difference |
| Flatten.MergeTargets | daybreak_orchestration/flatten.py:114-139 | one target per claimed symbol, in symbol order, with the largest claim of the ledger and the reconstruction and their sources |
| Flatten.Broker.ListPositions | daybreak_orchestration/alpaca_ops.py:204-233 | every listed position is what some target shows in a state since the call, the shares held clamped to the target; a target is passed over only if its holding was zero |
| Flatten.FlattenService.Flatten | daybreak_orchestration/flatten.py:27-111 | against an account that fills and executes between polls. The calls are one discovery, one cancellation, and listings of exactly the targets merged from that discovery: one, then one per clock reading before the earlier deadline until a poll raises or is empty. Closes per symbol total the largest successfully closed observation, never above the target; they are the orders the broker accepted, and the account receives them, and nothing else if raising closes have no effect. Every listed position is covered, before the next listing begins and at the end, or its close raised. The report is the first listing, the last one that did not raise, and the calls that raised, in order; `complete` means none raised, the last listing is empty, and since it began every target was flat. Without outstanding closes at the start and with raising closes inert, every reachable account state keeps outstanding closes within the live position |
| Flatten.FlattenService.CloseUncovered | daybreak_orchestration/flatten.py:60-73 | every position is asked for in full, in one or several closes, or its close raised; the orders recorded are those the broker accepted and the errors those that raised |
| Flatten.FlattenService.CloseOne | daybreak_orchestration/flatten.py:62-73 | one position asks for exactly its uncovered part, or for nothing; the broker gets that order at most once, and it is recorded as asked for only if the call did not raise |
| Flatten.BackedIsNeverShort | daybreak_orchestration/flatten.py:57-104 | outstanding closes stay within the live position exactly when fills cover submissions and submissions cover executions |
| Flatten.LargestClosedIsObserved | daybreak_orchestration/flatten.py:60-73 | the total closed in a symbol is one of the observed quantities |
| Flatten.RaisingCloseSafeExactly | daybreak_orchestration/flatten.py:66-73 | a close that raises after taking effect leaves the next poll asking for the same shares, which is safe if and only if the position covers the outstanding closes and the order twice |
| Flatten.RaisingCloseOversells | daybreak_orchestration/flatten.py:66-73 | so a first close of a whole position, raised and repeated, oversells |
| Flatten.FreshRunSafeExactly | daybreak_orchestration/flatten.py:57-65 | the first close of a held target in a new run, clamped to the target, is safe if and only if no earlier close is outstanding in the symbol or the target leaves room for it |
| Flatten.LateFillClosedExactly | daybreak_orchestration/flatten.py:62-65 | a poll never closes more than the shares under no close, and closes all of them if and only if there are none, or none of the run's own closes has executed and the target covers the position |
| Flatten.LateFillLeftOpen | daybreak_orchestration/flatten.py:62-65 | for example, of six shares filled after four were closed and sold, a poll asks for two |
| Leases.MemoryLeadershipRepository.Acquire | daybreak_orchestration/leadership.py:31-50 | the in-memory acquire is the guarded transition of the specification |
| Leases.MemoryLeadershipRepository.Renew | daybreak_orchestration/leadership.py:52-71 | so is the in-memory renewal |
| Leases.MemoryLeadershipRepository.Release | daybreak_orchestration/leadership.py:73-84 | so is the in-memory release |
| Leases.PostgresLeadershipRepository.Acquire | daybreak_orchestration/leadership.py:116-153 | the guarded upsert is the row transition of the specification |
| Leases.PostgresLeadershipRepository.Renew | daybreak_orchestration/leadership.py:155-182 | so is the guarded row renewal; one before the acquisition fails the table's check and leaves the row |
| Leases.PostgresLeadershipRepository.Release | daybreak_orchestration/leadership.py:184-197 | so is the soft release; one before the acquisition fails likewise |
| Leases.AcquireTokensIncrease | daybreak_orchestration/leadership.py:31-50 | over any operation sequence a successful acquire's token exceeds every token issued before |
| Leases.LaterAcquireFencesOut | daybreak_orchestration/leadership.py:52-84 | after a later successful acquire, renewing or releasing the earlier lease is refused and changes nothing |
| Leases.GrantLastsItsLifetime | daybreak_orchestration/leadership.py:31-71 | after any run a granted acquire or renewal carries exactly the lifetime asked for: an acquire right after it is refused for exactly that long, and the holder's renewal is granted for exactly that long |
| Leases.ReleaseFreesTheSession | daybreak_orchestration/leadership.py:73-84 | after the holder's release the session can be acquired at once |
| Leases.LeasesExclude | daybreak_orchestration/leadership.py:31-84 | with a nondecreasing clock and any lifetimes, two tokens of a session are never live at the same time unless a granted renewal set an earlier expiry than the stored one |
| Leases.FixedTtlNeverShortens | daybreak_orchestration/leadership.py:52-71 | one lifetime throughout never does |
| Leases.ExclusionIsExactlyNoShortening | daybreak_orchestration/leadership.py:31-84 | on a chronological run, an acquire after any prefix keeps exclusion if and only if no granted renewal shortened a lease |
| Leases.ShorteningOverlaps | daybreak_orchestration/leadership.py:52-71 | after a shortening renewal, an acquire by anyone between the new expiry and the stored one is granted and overlaps |
| Leases.ShorterRenewalOverlaps | daybreak_orchestration/leadership.py:52-71 | for example, acquired for longer, renewed for shorter and taken over in between |
| Leases.LatestGrantsExclude | daybreak_orchestration/leadership.py:31-84 | on every chronological run, with any lifetimes and shortening renewals included, no two tokens of a session hold it at one time when a token's latest grant or release decides |
| Leases.RepositoriesAgree | daybreak_orchestration/leadership.py:116-197 | on every chronological operation sequence both repositories accept and reject the same operations and emit the same event kinds in the same order |
| Leases.TokensAreIsomorphic | daybreak_orchestration/leadership.py:116-153 | and issue tokens in the same order per session |
| Leases.RowLeasesExclude | daybreak_orchestration/leadership.py:116-197 | the rows exclude if and only if the in-memory leases do, hence whenever no renewal shortens a lease; so does their event table |
| Leases.LatestRowGrantsExclude | daybreak_orchestration/leadership.py:116-197 | nor do they in the rows |
| Leases.StoredExcludes | daybreak_orchestration/leadership.py:199-220 | the event table, which keeps each event once, promises exactly what the events emitted do |
| Leases.RenewDisagreesExactly | daybreak_orchestration/leadership.py:155-182 | off a chronological clock, a renewal differs exactly when its time precedes the acquisition of an otherwise renewable lease |
| Leases.ReleaseDisagreesExactly | daybreak_orchestration/leadership.py:184-197 | and a release raises and leaves the row active exactly when its time precedes the acquisition of the lease held |
| KillSwitch.HealthyExactly | daybreak_orchestration/kill_switch.py:42-66 | there is no reason to kill if and only if configuration, clock, skew, database, recorder, market data, trade updates and broker are in order, the account is active and blocked in neither way, and the market is normal |
| KillSwitch.FirstFaultWins | daybreak_orchestration/kill_switch.py:42-66 | each reason is given exactly when its fault is present and no fault before it in the fixed order is |
| KillSwitch.ReasonSurvivesExactly | daybreak_orchestration/kill_switch.py:42-66 | a failed health check's reason, the first fault of FirstFaultWins, survives into the stored state, through the text of its error, exactly when it is not an unhealthy broker, which is stored as an unknown failure |
| KillSwitch.ReadBackExactly | daybreak_orchestration/service.py:391-415 | the ordered containment tests on the upper-cased message of a failed preflight find the reason's own name first, for every health reason but the unhealthy broker |
| KillSwitch.OwnErrorsAreRead | daybreak_orchestration/service.py:391-396 | the messages of lost leadership and of the two cutoffs are read as what they are |
| KillSwitch.LatchBreaksExactly | daybreak_orchestration/persistence.py:56-64 | a save makes an active latest state inactive exactly when it inserts a new inactive state of the session |
| KillSwitch.SavingActiveLatches | daybreak_orchestration/persistence.py:56-64 | storing an active state leaves the latest active if and only if the state is new or the latest was active already; always, when the session has no inactive state after an active one |
| KillSwitch.OtherSessionsStay | daybreak_orchestration/persistence.py:56-64 | a save for one session leaves every other session's latest state alone |
| Orchestrator.MemoryOrchestrationRepository.AppendPhase | daybreak_orchestration/persistence.py:48-54 | phases of a session are numbered contiguously from one, anything else is refused |
| Orchestrator.MemoryOrchestrationRepository.SaveKillSwitch | daybreak_orchestration/persistence.py:56-60 | a colliding hash fails; a present key keeps its position |
| Orchestrator.SessionOrchestrator.RenewLeadership | daybreak_orchestration/service.py:353-368 | no renewal is asked for before the interval has passed since the reading of the last grant; when it has, the lease is renewed at this reading or the call fails; success means leadership was not lost and the lease held was granted less than the interval ago |
| Orchestrator.SessionOrchestrator.WaitUntil | daybreak_orchestration/service.py:370-377 | returning means a reading at or after the target was seen |
| Orchestrator.SessionOrchestrator.RunPhase | daybreak_orchestration/service.py:285-303 | a hook is called at most once, with a reading taken since, under a lease that was not lost and was granted less than the renewal interval before that reading; without a call the phase fails or has no hook |
| Orchestrator.SessionOrchestrator.Execute | daybreak_orchestration/service.py:147-168 | at most one execution, and exactly the positions it reports, up to an invalid quantity, are kept for the flatten; success means all its quantities were valid, it asked for no kill switch, and the reading after it was not past the entry cutoff |
| Orchestrator.SessionOrchestrator.Conclude | daybreak_orchestration/service.py:170-201 | the mandatory flatten is tried with exactly the managed positions, not before a reading at or past its time; incomplete means a stored active kill switch, complete means the closing phases recorded |
| Orchestrator.SessionOrchestrator.Run | daybreak_orchestration/service.py:71-262 | for every clock, hook, health, lease, alert and flatten behaviour: no hook is called and no health check made after leadership was lost, and each of them under the last grant, less than the renewal interval old at its reading; `size_and_execute` runs at most once and only behind an inactive kill switch, two health checks whose recorded snapshots show the planned configuration, a clock in step, every service up, an active and unblocked account and a normal market, an evaluation approved right after a reading within the evaluator cutoff, and an open-to-cutoff reading; a returned run that had leadership tried a flatten after any execution, handed exactly the positions of the recorded execution phase; a session without failure waited for the flatten time, and its execution asked for no kill switch and was followed by a reading within the entry cutoff, so a requested kill switch ends the run KILLED; COMPLETED means that flatten was complete; the outcome is the evaluator's verdict and fits the final phase; a session without failure recorded exactly its phases in order; an active kill switch means no hook call and KILLED or BLOCKED |
| Orchestrator.HooksAreUnderLiveLeases | daybreak_orchestration/models.py:62-63 | so, the renewal interval being below the lease's lifetime, every hook of a run is called under the last lease granted, unexpired at the reading the hook is given, and never after leadership was lost |
| Orchestrator.SteadyClockExecutesInWindow | daybreak_orchestration/service.py:144-149 | with a clock that never goes back, the execution follows a reading between open and entry cutoff |
| Orchestrator.KillSwitchLatches | daybreak_orchestration/service.py:74-105 | from any repository and over any sequence of runs and emergency commands of any sessions: once a session's state is active it stays active, and every later run of that session calls no hook and, if it returns, ends KILLED or BLOCKED |
| Orchestrator.KilledStaysKilled | daybreak_orchestration/service.py:221-233 | where the session had no inactive state after an active one, in particular none at all, a run that ends killed or with an incomplete flatten, or the emergency command, brings the session down for good |
| Orchestrator.EmergencyKill | daybreak/cli.py:1007-1023 | the emergency command's own save of an active manual state latches and takes no session's active state away |
| Pivots.PivotCandidates | daybreak_features/resistance.py:39-66 | the candidates are exactly the bars strictly above five neighbours on each side and, marked, the latest bar at the highest high |
| Pivots.ConfirmedExactly | daybreak_features/resistance.py:45-50 | a bar is confirmed exactly when the five bars before and the five after it exist and have lower highs |
| Pivots.ConfirmedFarApart | daybreak_features/resistance.py:45-50 | confirmed pivots are more than five bars apart |
| Pivots.ExactlyOneLookbackHigh | daybreak_features/resistance.py:52-65 | exactly one pivot carries the lookback-high mark and its price is the highest high |
| Clusters.Gather | daybreak_features/resistance.py:82-93 | the inner loop gathers exactly the contiguous run within the tolerance of its anchor |
| Clusters.FindClusters | daybreak_features/resistance.py:69-114 | the nested loops produce the greedy runs of the price order, described in sequence |
| Clusters.ClustersForgetOrder | daybreak_features/resistance.py:76 | the order in which pivots are listed does not matter |
| Clusters.ClustersPartition | daybreak_features/resistance.py:69-114 | every pivot is in exactly one cluster; zones are no taller than the tolerance, pairwise disjoint and strictly descending, their tops more than the tolerance apart |
| Clusters.NoFewerGroups | daybreak_features/resistance.py:82-93 | no grouping of the pivots into groups no wider than the tolerance uses fewer groups |
| Clusters.LookbackHighLeads | daybreak_features/resistance.py:82-111 | the first cluster, and no other, holds the lookback high and tops out there |
| Clusters.MedianSplits | daybreak_features/resistance.py:98 | at least half of a zone's prices are at or above its center and at least half at or below |
| Resistance.DailyPivotCluster | daybreak_features/resistance.py:117-220 | the errors in their order; otherwise the lowest valid zone reaching the price, else the all-time high above it, else blue sky, with rounded distance, structure and counts |
| Resistance.ValidExactly | daybreak_features/resistance.py:135-143 | a zone counts with three touches always, and with two, or as the lookback high, when touched within 120 bars |
| Resistance.DistanceExactly | daybreak_features/resistance.py:145-151 | the zones reaching the price are the eligible ones, and price plus distance times the average range is the zone's bottom, or the price lies in the zone |
| Resistance.RecentExactly | daybreak_features/resistance.py:130 | the lookback is the last 180 bars, or all of them |
| Resistance.ZonesWithinTolerance | daybreak_features/resistance.py:69-114 | zones are no taller than the configured multiple of the average range, and their tops more than that apart |
| Resistance.ZonesAreAged | daybreak_features/resistance.py:99-100 | the age a zone is judged by is the number of lookback bars after its latest touch |
| Resistance.DistancesDiffer | daybreak_features/resistance.py:145-165 | eligible distances strictly decrease down the zones, so no tie-break key ever decides |
| Resistance.FirstIsNearest | daybreak_features/resistance.py:153-166 | the first candidate of the five-key sort is the lowest valid zone whose top is at or above the price |
| Resistance.NearestIsUnique | daybreak_features/resistance.py:153-166 | there is at most one such zone |
| Resistance.NoResistanceMeansNewHigh | daybreak_features/resistance.py:167-189 | unless the first cluster is stale, some zone is eligible exactly up to the lookback high |
| Resistance.FallbackReachableExactly | daybreak_features/resistance.py:167-170 | some positive price meets the all-time-high fallback exactly when the first cluster is stale or the all-time high predates the lookback |
| Resistance.StructureThresholds | daybreak_features/resistance.py:191-200 | on the exact distance the structure changes at 2.0000005 (exclusive) and 0.9999995 (inclusive) |
| TradeLedger.MaterializeTrades | daybreak_features/ledger.py:11-66 | duplicate sequence numbers fail; otherwise the first failing event's error, or the active trades in time order, each once |
| TradeLedger.ListedTrades | daybreak_features/ledger.py:22-66 | every listed trade carries the id, time, price, size and sequence of an eligible event that states them, and the trades ascend in time and then in sequence |
| TradeLedger.TakenInSequence | daybreak_features/ledger.py:12 | the events are taken by ascending sequence number |
| TradeLedger.InputOrderIsIrrelevant | daybreak_features/ledger.py:12-16 | the same events in any order give the same trades or the same error |
| TradeLedger.StepRefines | daybreak_features/ledger.py:21-60 | with a fresh replacement id, one event keeps the two dictionaries in step with the chains, or fails alike |
| TradeLedger.LedgerIsChains | daybreak_features/ledger.py:11-66 | without reused replacement ids the pass yields the chains' error or exactly their live trades: a reference reaches only the live trade of its own chain, through it or the id it replaced |
| TradeLedger.DeadChainsStayDead | daybreak_features/ledger.py:39-60 | a chain once cancelled or disqualified is never revived |
| TradeLedger.CountConservedExactly | daybreak_features/ledger.py:22-60 | an event changes the number of active trades by its net exactly when it overwrites no other active trade |
| TradeLedger.SizeConservedExactly | daybreak_features/ledger.py:22-60 | every accepted event changes the total active size by what it brings in less what it refers to, if and only if it overwrites no trade; an overwritten trade is the only loss |
| TradeLedger.SizeOfRun | daybreak_features/ledger.py:11-66 | so over any run without error the total size is what was brought in less what was taken out and the overwritten trades |
| TradeLedger.FreshRunConserves | daybreak_features/ledger.py:11-66 | without reused ids the active trades number the eligible originals minus the cancelled or disqualified |
| TradeLedger.FreshRunConservesSize | daybreak_features/ledger.py:11-66 | and without reused ids nothing is lost: the total is what was brought in less the live trades the references reached, chain by chain |
| TradeLedger.ReusedIdDropsTrade | daybreak_features/ledger.py:47-60 | a correction under another active trade's id silently drops that trade |
| Analytics.MaximumDrawdown | daybreak_analytics/analytics.py:86-92 | the one-pass loop computes the largest fall from any prefix sum, the empty one included, to a later one |
| Analytics.Summarize | daybreak_analytics/analytics.py:62-110 | counts, sums, rounded ratios, drawdown and slippage of the trades; what each amount means on the trades' own prices, shares and fees is stated by the lemmas that follow |
| Analytics.NetIsGrossLessFees | daybreak_analytics/analytics.py:41-80 | the reported net is the reported gross less the reported fees: exactly for whole-quantum amounts, otherwise to one quantum per trade |
| Analytics.CountsExactly | daybreak_analytics/analytics.py:68-80 | wins are the trades earning more than half a quantum after fees, losses those losing more than half a quantum |
| Analytics.FlatTradesLose | daybreak_analytics/analytics.py:41-80 | trades sold at their entry price with at least one quantum of fees are all losses |
| Analytics.RatesOfTrade | daybreak_analytics/analytics.py:41-59 | R times the planned risk is the net, zero without one; the slippage rate times the planned price is the slippage in basis points, both to the rounding |
| Analytics.RatiosAreMeans | daybreak_analytics/analytics.py:74-85 | win rate, expectancy, average win, loss and R are the means of their own counts and amounts |
| Analytics.ProfitFactorMeans | daybreak_analytics/analytics.py:76-79 | there is a profit factor exactly when there is a loss; it is won over lost, one at break-even and on the side of the net otherwise |
| Analytics.SummaryIsUnique | daybreak_analytics/analytics.py:62-110 | the specification admits one summary and a nonnegative drawdown |
| Analytics.WinsAndLosses | daybreak_analytics/analytics.py:68-80 | the net is what was won less what was lost, and wins and losses never exceed the trades |
| Analytics.Attributions | daybreak_analytics/analytics.py:113-135 | one bucket per label in use, in label order, each the summary of exactly its trades |
| Analytics.BucketsInOrder | daybreak_analytics/analytics.py:122 | chart structures, then exit reasons, then risk flags, then source types, each by ascending key |
| Analytics.BucketsAddUp | daybreak_analytics/analytics.py:113-135 | the source, structure and exit buckets each sum to the session's net and trade count |
| Analytics.SummarizeSessions | daybreak_analytics/analytics.py:173-219 | the two aggregation paths: over all trades, and over the session summaries |
| Analytics.BothNetsAreGrossLessFees | daybreak_analytics/analytics.py:173-219 | on both paths the net is the gross less the fees: exactly for whole-quantum amounts, otherwise to one quantum per trade |
| Analytics.SessionDrawdownIsNoLarger | daybreak_analytics/analytics.py:201-207 | the drawdown by session is at most the drawdown over the concatenated trades |
| Analytics.PathsAgree | daybreak_analytics/analytics.py:173-219 | both paths agree on sessions, count, gross, net, win rate and expectancy, and the drawdown by session is no larger |
| Analytics.AverageRNearlyAgrees | daybreak_analytics/analytics.py:199-200 | their average R differs by one quantum at most, and agrees if and only if the total over the trades rounds to what the sessions' averages give |
| Analytics.AverageRDiffers | daybreak_analytics/analytics.py:199-200 | it does differ: two trades with one quantum together and one trade with one more |
| Analytics.FeesAgreeExactly | daybreak_analytics/analytics.py:173-219 | both paths report the same fees if and only if what the sessions' rounding leaves out in total is below half a quantum, or half a quantum at an even sum |
| Analytics.FeesNearlyAgree | daybreak_analytics/analytics.py:173-219 | so their fees differ by at most half a quantum per session and one half more, and not at all for whole quanta |
| Analytics.SmallFeesDisagree | daybreak_analytics/analytics.py:173-219 | for example, two reported sessions with half a quantum each: no fees by session, one quantum by trade |

## Left out

- HTTP and database clients, command lines, dashboards, recorder streams, recovery table, acceptance and release reviews: input, output and single-pass condition lists.
- Invariants that always pass or only read orchestrator trace booleans, and the schema, time-zone and hash validators: they become preconditions or are dropped.
- Python's 28-digit decimal context: arithmetic is exact, so a quotient that would be rounded at the 28th digit is not.
- Rendered text: observed values and messages stay structured, except the error texts a kill-switch reason is read from; their upper case is that of ASCII letters. A failed entry build keeps the reason the service reads off its message.
- Sizing.SizePosition: the order of rejection reasons is left open, their set is exact; the calculations copied into a rejected decision and its hashes are not modelled; the stop and target multiples are the fixed one and two.
- Batch.BatchIsSafe: does not bound entries per day, because the loop does not advance the completed-entry count that the daily limit reads.
- Execution.ExecutionService.HandleTradeUpdate: updates about the protective order itself carry no protection claim; a client-id lookup is taken as truthful.
- Flatten.FlattenService.Flatten: fills of protective legs and foreign sells are not moves of the account; the poll interval is not modelled, the clock is any sequence of readings that finally stays past the deadline.
- NetFills.DiscoverTargets: brackets deeper than one level and records of one id that disagree are outside the claim.
- Leases.PostgresLeadershipRepository.Release: the release event reports the caller's lease, so its expiry may differ from the in-memory event; lifetimes are positive, holders' names are not empty, and the session of an acquire is stored.
- Leases.LatestRowGrantsExclude: speaks of the events emitted; of two equal renewals with another one between them at the same instant the event table keeps only the first.
- Orchestrator.SessionOrchestrator.Run: a run that raises out of its handlers (a failing alert, kill-switch collision or lease release) promises no flatten; positions returned by an execution hook whose phase then fails to be recorded are not handed to the flatten, as in the code; hooks are taken not to raise the two exceptions the run uses internally; which reason an arbitrary exception text is read as is any reason; alerts' deduplication and stored results are not modelled.
- Orchestrator.EmergencyKill: the command opens an in-memory repository of its own, or the relational one; histories that mix runs and commands over one in-memory repository are those of a caller that shares it.
- Orchestrator.SessionOrchestrator.RenewLeadership: a renewal that raises counts as leadership lost; that waiting and the ends of phases renew in between is not stated, only that every hook and every health check finds a fresh lease.
- Orchestrator.MemoryOrchestrationRepository.SavePlan: the relational session repository is not part of this model, only the in-memory one.
- Resistance.DailyPivotCluster: a negative clustering tolerance, which the configuration type does not forbid, is excluded.
- Pivots.PivotCandidates: the order of the candidates is left open, since clustering sorts them.
