# Verified models of the money-maker research engine

This project models seven parts of the repository in Dafny 4.11 and proves what they keep over whole runs. Every
operation that the source performs step by step is a method or a class here, proved equal to a specification
function; the laws are lemmas about those functions.

- **Worker leases, ledger and the exactly-once runner** (`Leases`, `LeaseRuns`, `LeaseStores`, `Ledgers`,
  `ExactlyOnce`). One persistent lease with fences, expiry, completion markers and a kill switch; an append-only
  ledger; and any number of `run_once` workers interleaved step by step, with crashes, failed and torn writes, and
  arbitrary clock readings.
- **Economic simulation** (`Portfolios`, `Simulations`, `SimulationLaws`, `CausalityLaws`, `Drawdowns`,
  `DrawdownLaws`). The bar loop with fee-aware rebalancing, pending decisions, running peak and latched stop.
- **All-in backtest** (`AllIn`, `AllInLaws`). One position at a time, conservative stops, terminal liquidation.
- **Shadow journal and its replay** (`Shadow`, `ShadowReplay`, `ShadowLaws`, `ShadowRepeats`, `ShadowScoring`,
  `ShadowStanding`, `ShadowStores`, `ShadowClock`, `ShadowWitness`, `ShadowRejection`). The four operations that append
  to the journal, interruption between any two records, research in between, and the independent replayer.
- **Diagnostics and their validators** (`Calendar`, `Sampling`, `SamplingValidator`, `WalkForwards`,
  `WalkForwardValidator`).
- **Evidence over time** (`FeedStores`, `ForwardScores`). The merged market history, and the score and availability
  chains of matured forecasts.
- **Learning** (`Learning`). Purged chronological splits, fits by state, candidate selection, and the plan.

Conventions: an instant is an integer of microseconds and a day is its proleptic Gregorian ordinal; a decimal or
floating-point number is an exact real; a digest is injective, so a digested value stands for its digest and a
journal event is identified by its place; a lock makes what it covers one atomic step.

What the models show that a reader might not expect:

- The ledger append keeps earlier records readable exactly when the file ends with a newline. A write that lost only
  its newline still reads as clean, and the next append spoils the line before it, which leaves a completion marker
  without its record (`Ledgers.AppendKeepsEarlierRecords`, `ExactlyOnce.LostNewlineUnbacksMarker`). Markers stay backed
  along a run exactly when no append starts behind an unterminated line that a marker, or a run about to write one,
  needs, no run that goes on to its commit appends behind any unterminated line, and nobody else completes a lease
  (`ExactlyOnce.MarkersAreBacked`).
- A key retried with a different record, as after a restart with a new start time, has two effects
  (`ExactlyOnce.TwoRecordsForOneKey`). A key has at most one effect in every run of a set of jobs exactly when the jobs
  of each key share an identity (`ExactlyOnce.OneEffectPerKey`).
- A lease that one caller saw expire is live again to a caller whose clock runs behind
  (`LeaseRuns.ExpiredCanLookLiveAgain`), exactly when the lease is still the caller's own
  (`LeaseRuns.ExpiredIsLiveAgainWhen`). On readings that do not fall behind expiry is final (`LeaseRuns.ExpiryIsFinal`).
- A shadow decision replays exactly when its record is not created before the decision instant. A clock that steps
  back inside one call makes the call fail after it wrote a decision that the replay rejects for good
  (`ShadowLaws.DecisionReplays`, `ShadowClock.SteppingBackBreaksReplay`). A score replays under every scoring exactly
  when its creation time sees the rows that the scoring saw; a scoring call on a clock that steps back completes and
  leaves a score that does not (`ShadowLaws.ScoreReplays`, `ShadowWitness.EarlyScoreBreaksReplay`).
- A repeated checkpoint call changes nothing exactly when the newest score does not qualify on a withdrawn date.
  Otherwise every further call, however many there are, promotes the model and retracts it again. A withdrawn
  observation that is older than the decision does it (`ShadowRepeats.RepeatChangesNothing`,
  `ShadowRepeats.RepeatsKeepFlapping`, `ShadowWitness.CheckpointKeepsFlapping`, `ShadowWitness.JudgedIsReached`).
- An active model stands on a qualified checkpoint all along a run exactly when no checkpoint call that rejects it is
  stopped before its retraction. After such a call a new score of equal material makes the reference count as sound
  again (`ShadowStanding.RunIsEarned`, `ShadowRejection.UnearnedIsReached`, `ShadowStanding.EqualScoreHidesRejection`).
- The producer of walk-forward reports takes any ascending date texts, and the validator accepts its report exactly when the
  borders of the folds are days (`WalkForwardValidator.ProducedIsConsistent`, `WalkForwardValidator.OtherTextIsRefused`).
- An availability event is accepted by its own validator exactly when it carries the retention terms of its forecast,
  which the scoring pass does not check (`ForwardScores.EventNeedsForecastTerms`, `ForwardScores.OtherTermsSpoilJournal`).

## Model

| member | source | states |
|---|---|---|
| LeaseStores.ValidateState | src/money_maker_3000/worker_leases.py:1252-1339 | The validation loop accepts exactly the states of the full predicate: counters, switch, lease, release, and markers unique, fenced and in persisted order. |
| LeaseStores.LeaseStore.Initialize | src/money_maker_3000/worker_leases.py:116-145 | The first call creates anchor and state; a later call validates and changes nothing; a deleted state is never recreated. |
| LeaseStores.LeaseStore.Acquire | src/money_maker_3000/worker_leases.py:147-200 | Writes exactly the state of the acquire step, or leaves the file alone when it refuses or cannot write. |
| LeaseStores.LeaseStore.Authorize | src/money_maker_3000/worker_leases.py:202-224 | Answers the authorization reason for the stored state and writes nothing. |
| LeaseStores.LeaseStore.Renew | src/money_maker_3000/worker_leases.py:226-264 | Writes exactly the renewed state; a renewal that changes nothing keeps the revision. |
| LeaseStores.LeaseStore.FinishActive | src/money_maker_3000/worker_leases.py:375-453 | Release and complete: the generation moves past the fence, and a repeated call is answered from its marker. |
| LeaseStores.LeaseStore.FindMarker | src/money_maker_3000/worker_leases.py:320-338 | Finds whether a key has a marker, and whether it belongs to the credential. |
| LeaseStores.LeaseStore.CompleteFenced | src/money_maker_3000/worker_leases.py:298-373 | The callback runs only for an authorized credential without marker; state and reply are those of the fenced step. |
| LeaseStores.LeaseStore.SetKillSwitch | src/money_maker_3000/worker_leases.py:464-494 | Engaging drops the lease, re-enabling does not bring it back; both move the generation. |
| Leases.CompletionStaysValid | src/money_maker_3000/worker_leases.py:343-373 | A state with one more completion passes the whole validation and keeps completion fences at least two apart. |
| LeaseRuns.StepFollows | src/money_maker_3000/worker_leases.py:147-494 | No call of any kind writes a state that the validation rejects; generations never fall and markers are never lost. |
| LeaseRuns.RunKeepsInv | src/money_maker_3000/worker_leases.py:1252-1339 | Every state that any sequence of calls reaches passes the full validation. |
| LeaseRuns.MarkersCostTwoGenerations | src/money_maker_3000/worker_leases.py:343-373 | From an initialized store, twice the number of markers never exceeds the fence generation. |
| LeaseRuns.RevisionCounts | src/money_maker_3000/worker_leases.py:249-263 | Over any run the revision grows by the generations plus the renewals that rewrote the state. |
| LeaseRuns.FencesIncrease | src/money_maker_3000/worker_leases.py:175-200 | Fences handed out by acquire strictly increase over any run, on any clock. |
| LeaseRuns.FencedForever | src/money_maker_3000/worker_leases.py:668-684 | Once the generation has passed a fence, no later call with that credential changes state, runs a callback or is authorized. |
| LeaseRuns.WhatKillsACredential | src/money_maker_3000/worker_leases.py:178-191 | A live credential dies by takeover, release, completion or the kill switch, and by nothing else. |
| LeaseRuns.OneAuthorizedCredential | src/money_maker_3000/worker_leases.py:668-684 | On one state at most one credential is authorized. |
| LeaseRuns.AcquireGrantsItsTerm | src/money_maker_3000/worker_leases.py:147-200 | A fresh lease is authorized for exactly its term and keeps every other caller out for as long. |
| LeaseRuns.RenewalGrantsItsTerm | src/money_maker_3000/worker_leases.py:226-264 | A renewal is good for a full term from its own time. |
| LeaseRuns.ReleaseIsIdempotent | src/money_maker_3000/worker_leases.py:375-453 | A repeated release changes nothing at any clock reading, and the credential is not authorized again. |
| LeaseRuns.CompletionIsRemembered | src/money_maker_3000/worker_leases.py:320-373 | After a completion the same credential is told so, the callback is not run again, and the key is never leased. |
| LeaseRuns.CompletedKeyIsClosed | src/money_maker_3000/worker_leases.py:320-338 | A key with a marker keeps it, holds no lease and runs no callback in any later call of any run. |
| LeaseRuns.ExpiredCanLookLiveAgain | src/money_maker_3000/worker_leases.py:802-805 | A concrete store on which an expired credential is authorized again at an earlier reading. |
| LeaseRuns.ExpiredIsLiveAgainWhen | src/money_maker_3000/worker_leases.py:668-684 | A credential that was told it is expired is authorized at some reading if and only if the lease has its holder, key and fence. |
| LeaseRuns.ExpiryIsFinal | src/money_maker_3000/worker_leases.py:668-684 | When no later reading falls behind the one that saw it expire, a credential stays inert for the rest of any run. |
| Ledgers.LedgerFile.Read | src/money_maker_3000/ledger.py:266-336 | The scanner returns the records in order and no errors exactly when the file is clean. |
| Ledgers.LedgerFile.Append | src/money_maker_3000/ledger.py:225-250 | Appends one record, or refuses an invalid record, an unclean file or a duplicate identity; a fault tears at most the last line. |
| Ledgers.LedgerFile.HasDuplicateIdentity | src/money_maker_3000/ledger.py:603-613 | Finds a shared run, correlation or trade-log identity exactly when there is one. |
| Ledgers.LedgerFile.AppendOrConfirm | src/money_maker_3000/offline_runner.py:303-311 | The runner's callback: an equal record is confirmed, otherwise appended. |
| Ledgers.LedgerFile.ConfirmExisting | src/money_maker_3000/offline_runner.py:314-321 | Succeeds exactly on a clean file that holds the record. |
| Ledgers.AppendKeepsSound | src/money_maker_3000/ledger.py:240-250 | No append, whole or torn, puts an identity on two lines. |
| Ledgers.AppendKeepsEarlierRecords | src/money_maker_3000/ledger.py:246-249 | An append keeps every earlier record readable if and only if the file ended with a newline. |
| Ledgers.AppendedMeansHeld | src/money_maker_3000/offline_runner.py:303-311 | A callback that reports success has its record in the file if and only if it was there or the file ended with a newline. |
| ExactlyOnce.EffectsAreFencedAndUnique | src/money_maker_3000/offline_runner.py:58-142 | For every interleaving, crash and clock: no identity is in the ledger twice, at most one run is in its callback, its key has no marker and its fence is current. |
| ExactlyOnce.AgreeingJobsHaveOneEffect | src/money_maker_3000/offline_runner.py:104-125 | When the spawned jobs of each key share an identity, a key has at most one effect in any run. |
| ExactlyOnce.OneEffectPerKey | src/money_maker_3000/offline_runner.py:104-125 | A key has at most one effect in every run of a set of runnable jobs if and only if the jobs of each key share an identity. |
| ExactlyOnce.StepKeepsDurable | src/money_maker_3000/worker_leases.py:339-373 | A step keeps every marker, and every run about to write one, backed by its record if and only if it appends nothing behind an unterminated line that they need, or before a commit, and is no completion by someone else. |
| ExactlyOnce.MarkersAreBacked | src/money_maker_3000/worker_leases.py:339-373 | All along a run the markers are backed if and only if every step of it spares those lines. |
| ExactlyOnce.RetryFinishesInterruptedRun | src/money_maker_3000/offline_runner.py:303-311 | A run that died between its append and its marker is finished by a retry: the marker is written and the ledger is not. |
| ExactlyOnce.TwoRecordsForOneKey | src/money_maker_3000/offline_runner.py:104-125 | A key retried with a different record after a crash has both records in the ledger. |
| ExactlyOnce.LostNewlineUnbacksMarker | src/money_maker_3000/ledger.py:246-249 | A run that ends with a marker whose record the next append has spoiled. |
| ExactlyOnce.TheseRunsExist | src/money_maker_3000/offline_runner.py:58-142 | The two runs above start from an initialized store and an absent ledger. |
| Portfolios.ValidateRows | src/money_maker_3000/economic_portfolio.py:48-57 | The row loop accepts exactly the histories of valid rows in order. |
| Portfolios.RebalanceIsExact | src/money_maker_3000/economic_portfolio.py:101-115 | A rebalance ends exactly at its weight of the equity left after the fee; neither clamp binds and nothing goes negative. |
| Portfolios.ExactEnds | src/money_maker_3000/economic_portfolio.py:105-113 | The position is the weight of the final equity, and at least the reserve stays in cash. |
| Portfolios.ZeroWeightSells | src/money_maker_3000/economic_portfolio.py:110-113 | A rebalance to weight zero sells everything. |
| Simulations.ExecuteOpen | src/money_maker_3000/economic_portfolio.py:97-121 | The fill at an open is the one of the specification: due decision, latch, trade, checks, ledger entry. |
| Simulations.ObserveClose | src/money_maker_3000/economic_portfolio.py:122-138 | The close of a bar updates peak, drawdown, exposure, latch, pending decision and curve as specified. |
| Simulations.Simulate | src/money_maker_3000/economic_portfolio.py:60-154 | Invalid inputs are refused in order; otherwise the loop computes the specified run. |
| Simulations.Prefix | src/money_maker_3000/economic_portfolio.py:114-115 | After any number of bars the book is solvent, and only an arithmetic overflow ever stops a run: the conservation check cannot fail. |
| SimulationLaws.RunConserves | src/money_maker_3000/economic_portfolio.py:103-152 | Final cash is initial cash less buys plus sells less fees; fees are the cost rate of the turnover; the units sum to zero; every fill ended exactly at its target with the reserve kept. |
| SimulationLaws.FillsAreAtOpens | src/money_maker_3000/economic_portfolio.py:101-121 | Every fill is at the open of its bar and a bar fills at most once. |
| SimulationLaws.StillMarketCostsOnlyFees | src/money_maker_3000/economic_portfolio.py:103-152 | When all opens and the last close are one price, final cash plus fees is the initial cash. |
| CausalityLaws.EveryFillIsCaused | src/money_maker_3000/economic_portfolio.py:97-138 | Every fill of a candidate run but the terminal one executes the decision pending at its bar: made by a forecast, stop or drift of an earlier index, available by the start of the bar, and filled as the rebalance of the book to the decided weight, or to zero once stopped. |
| CausalityLaws.NoLookahead | src/money_maker_3000/economic_portfolio.py:97-138 | Two inputs that agree on the first bars and their forecasts have identical books after them. |
| CausalityLaws.FillSeesOnlyTheOpen | src/money_maker_3000/economic_portfolio.py:98-121 | The fill of a bar depends on nothing of that bar but its start and open. |
| CausalityLaws.NoBuyAfterStop | src/money_maker_3000/economic_portfolio.py:102-113 | Once the stop has latched the rest of the run only sells, and an empty book stays empty, for every history. |
| CausalityLaws.StopLiquidatesAtNextBar | src/money_maker_3000/economic_portfolio.py:127-129 | When each row is available by the next row's start, a stop has sold everything by the end of the next bar, for good. |
| DrawdownLaws.RunIsWatched | src/money_maker_3000/economic_portfolio.py:122-129 | The peak is the highest level so far, the drawdown the deepest drop between any two bars in order, and the latch is set exactly when some bar breached a stop. |
| DrawdownLaws.ReportedDrawdown | src/money_maker_3000/economic_portfolio.py:139-152 | The report's drawdown and stop flag say the same of its own equity curve. |
| AllIn.EnterPosition | src/money_maker_3000/profit_hypothesis.py:184-190 | A pending signal buys with all the cash at the open, fee included. |
| AllIn.LeavePosition | src/money_maker_3000/profit_hypothesis.py:191-205 | The exit is the gap stop, the intrabar stop or the maximum holding, in this order. |
| AllIn.Backtest | src/money_maker_3000/profit_hypothesis.py:170-236 | Refuses bad cash and prices; otherwise the loop computes the specified run. |
| AllInLaws.AllOrNothing | src/money_maker_3000/profit_hypothesis.py:184-214 | At every bar exactly one of cash and quantity is zero. |
| AllInLaws.BacktestTelescopes | src/money_maker_3000/profit_hypothesis.py:178-236 | Entries and exits alternate with matching ids, each exit at the first bar that fired a rule; profits sum to final equity less initial cash; the money grew by the product of the round trips; costs are the rate of the turnover. |
| AllInLaws.HoldingsAreBounded | src/money_maker_3000/profit_hypothesis.py:197-205 | No round trip outlasts the maximum holding. |
| AllIn.MaximumDrawdown | src/money_maker_3000/profit_hypothesis.py:229-231 | The loop with the running peak gathers the specified drawdown. |
| AllInLaws.ReportedDrawdown | src/money_maker_3000/profit_hypothesis.py:229-234 | The reported drawdown is the deepest fall between any two levels, in order, of the reported equity. |
| AllInLaws.RoundTripPays | src/money_maker_3000/profit_hypothesis.py:239-244 | One round trip multiplies the money by the ratio that the buy-and-hold benchmark uses. |
| AllInLaws.PastDecides | src/money_maker_3000/profit_hypothesis.py:211-214 | A run up to a bar depends on nothing later than the start of that bar. |
| Shadow.RecordedCheckpoint | src/money_maker_3000/shadow_portfolio.py:295-301 | Whether it was written or found, the recorded event is a checkpoint of the journal. |
| ShadowStores.LatestAvailability | src/money_maker_3000/shadow_portfolio.py:14-17 | The dictionary loop keeps the latest event of every date. |
| ShadowStores.UnavailableDates | src/money_maker_3000/shadow_portfolio.py:28-32 | Exactly the dates whose latest event withdrew them. |
| ShadowStores.RelevantDates | src/money_maker_3000/shadow_portfolio.py:54-63 | Exactly the dates of the score's inputs and of its bound outcomes. |
| ShadowStores.IsInvalid | src/money_maker_3000/shadow_portfolio.py:44-64 | Decides the evidence condition of the active model. |
| ShadowStores.Store.Append | src/money_maker_3000/autonomous_research.py:195-210 | Returns the first equal event, refuses a reversed clock, otherwise writes the event last. |
| ShadowStores.Store.RepairReference | src/money_maker_3000/shadow_portfolio.py:40-67 | Appends the retraction exactly when the active model's evidence is invalid. |
| ShadowStores.Store.SetDatesAvailable | src/money_maker_3000/shadow_portfolio.py:9-25 | Writes one event for each date whose latest word differs, then repairs. |
| ShadowStores.Store.ScoreNow | src/money_maker_3000/shadow_portfolio.py:229-247 | Records the input, a new score for each model whose evidence changed, then repairs. |
| ShadowStores.Store.CheckpointModel | src/money_maker_3000/shadow_portfolio.py:250-306 | Judges the newest score, records the verdict once, promotes on qualification, then repairs. |
| ShadowStores.Store.DecideNow | src/money_maker_3000/shadow_portfolio.py:70-123 | Records the input, a first reference, the repair, and the due decisions. |
| ShadowReplay.Replay | src/money_maker_3000/autonomous_recovery.py:32-165 | The replay loop accepts exactly the journals each of whose records is accepted against its prefix. |
| ShadowReplay.ChainEventIsNew | src/money_maker_3000/autonomous_research.py:199-201 | The next event of any supersession chain is never swallowed by the deduplicating append. |
| ShadowReplay.CheckpointsAreChained | src/money_maker_3000/autonomous_recovery.py:140-152 | In a replayable journal without repeated events every checkpoint supersedes the model's previous one. |
| ShadowReplay.AvailabilityAlternates | src/money_maker_3000/autonomous_recovery.py:128-131 | Successive events of one date alternate and are linked. |
| ShadowReplay.ReferencesAreOneChain | src/money_maker_3000/autonomous_recovery.py:153-155 | All references form a single chain. |
| ShadowReplay.PromotionIsEarned | src/money_maker_3000/autonomous_recovery.py:156-159 | A promoted model has its own qualified checkpoint, which judged its newest, scored, genuine result on current availability and passed the gate. |
| ShadowLaws.ScoreReplays | src/money_maker_3000/autonomous_recovery.py:132-139 | Scores replay under every scoring if and only if their creation time sees exactly the rows that the scoring saw. |
| ShadowLaws.DecisionReplays | src/money_maker_3000/autonomous_recovery.py:117-126 | A decision replays if and only if it was not created before it was decided. |
| ShadowLaws.RepairKeeps | src/money_maker_3000/shadow_portfolio.py:40-67 | A repair that succeeds leaves a sound reference in a replayable journal. |
| ShadowLaws.ActiveIsResearched | src/money_maker_3000/autonomous_recovery.py:109-126 | The active model of a replayable journal belongs to completed research. |
| ShadowLaws.OperationKeeps | src/money_maker_3000/shadow_portfolio.py:9-306 | Every operation only adds records, leaves a replayable journal even when it fails, and a sound reference when it completes. |
| ShadowLaws.RunIsReplayable | src/money_maker_3000/autonomous_recovery.py:22-29 | Any calls, each interrupted between any two of its records, and any research between them leave a journal that the replay accepts. |
| ShadowLaws.NextCallRestoresReference | src/money_maker_3000/shadow_portfolio.py:40-67 | After any interruptions the next call that completes leaves a sound active reference. |
| ShadowRepeats.RepeatChangesNothing | src/money_maker_3000/shadow_portfolio.py:250-306 | A checkpoint call after a completed one for the same model changes nothing if and only if the newest score does not qualify on a withdrawn date. |
| ShadowRepeats.RepeatPromotesAndRetracts | src/money_maker_3000/shadow_portfolio.py:302-306 | Otherwise one call adds a promotion and the reference to cash that supersedes it. |
| ShadowRepeats.RepeatsKeepFlapping | src/money_maker_3000/shadow_portfolio.py:250-306 | Then any number of calls, on clocks that do not step back, add exactly that pair each. |
| ShadowRepeats.InvalidByWithdrawal | src/money_maker_3000/shadow_portfolio.py:40-67 | A model whose newest score is the one its qualified checkpoint judged can become invalid only by a withdrawn date. |
| ShadowScoring.ScoredIsAvailable | src/money_maker_3000/shadow_portfolio.py:152-196 | A scored result rests on no decision of which the origin, or a date up to the target, is withdrawn. |
| ShadowWitness.CheckpointKeepsFlapping | src/money_maker_3000/shadow_portfolio.py:250-306 | For every history of at least 420 days: a replayable journal with a sound reference, whose score knew of a withdrawn older observation, on which any number of further checkpoint calls add a promotion and its retraction each. |
| ShadowWitness.JudgedIsReached | src/money_maker_3000/shadow_portfolio.py:9-306 | That journal is reached from the empty one by research, a decision, a withdrawal, a score, and a checkpoint call that is interrupted before its promotion. |
| ShadowWitness.EarlyScoreBreaksReplay | src/money_maker_3000/shadow_portfolio.py:229-247 | A scoring call on eligible packets and a clock that steps back completes and leaves a journal that the replay rejects. |
| ShadowStanding.StepIsEarned | src/money_maker_3000/shadow_portfolio.py:295-306 | From a journal whose active model stands on a qualified checkpoint, one interrupted call leaves such a journal if and only if it is not a checkpoint call that rejects the active model and is stopped before it retracts it. |
| ShadowStanding.CompletedIsEarned | src/money_maker_3000/shadow_portfolio.py:9-306 | A call that completes leaves the active model on a qualified checkpoint. |
| ShadowStanding.RunIsEarned | src/money_maker_3000/shadow_portfolio.py:9-306 | All along a run the active model stands on a qualified checkpoint if and only if no call is stopped like that. |
| ShadowStanding.EqualScoreHidesRejection | src/money_maker_3000/shadow_portfolio.py:40-67 | After a rejection without retraction, a new scored result of equal material on no withdrawn date makes the reference sound, and not earned. |
| ShadowRejection.UnearnedIsReached | src/money_maker_3000/shadow_portfolio.py:295-306 | A run from the empty journal that ends with an active model whose newest checkpoint does not qualify it. |
| ShadowClock.SteppingBackBreaksReplay | src/money_maker_3000/shadow_portfolio.py:118-119 | For every history of at least 420 days: a call on an eligible packet and a clock that steps back fails and leaves a journal that the replay rejects. |
| Calendar.ClosedFormCounts | src/money_maker_3000/sampling_quality.py:55-64 | The closed form counts the weekdays strictly between two days one by one. |
| Sampling.BuildReport | src/money_maker_3000/sampling_quality.py:67-129 | Refuses dates that are not canonical and increasing; otherwise the loops compute the specified report. |
| SamplingValidator.WalkIntervals | src/money_maker_3000/sampling_quality.py:197-222 | The reconstruction fails exactly when a date leaves the calendar, and gathers the totals of the reconstructed dates. |
| SamplingValidator.ValidateReport | src/money_maker_3000/sampling_quality.py:132-257 | Accepts a report if and only if some chronological dates build it. |
| SamplingValidator.AcceptsExactlyBuilt | src/money_maker_3000/sampling_quality.py:132-257 | The validator's checks hold exactly on the image of the producer. |
| SamplingValidator.AcceptedIsBuilt | src/money_maker_3000/sampling_quality.py:197-233 | An accepted report is the build of the dates that its intervals stand for. |
| SamplingValidator.WeekdaysAreConserved | src/money_maker_3000/sampling_quality.py:84-95 | Observed and missing weekdays are all the weekdays of the span. |
| SamplingValidator.CoveredMeansEveryWeekday | src/money_maker_3000/sampling_quality.py:97-106 | The covered state means that the dates are exactly the weekdays of their span. |
| WalkForwards.ObserveBand | src/money_maker_3000/history_signals.py:61-86 | The loop with the running peak computes the specified state. |
| WalkForwards.BuildFolds | src/money_maker_3000/history_signals.py:188-211 | The fold loop computes the specified folds. |
| WalkForwards.FoldFits | src/money_maker_3000/history_signals.py:188-194 | Every fold is non-empty, starts where the one before it ends, and the last ends at the last observation. |
| WalkForwards.BuildWalkForward | src/money_maker_3000/history_signals.py:140-222 | The producer computes the specified report for every history and strategy. |
| WalkForwardValidator.PeakIsHighest | src/money_maker_3000/history_signals.py:69-72 | The peak is the highest close of the window. |
| WalkForwardValidator.ConfirmedMeansAll | src/money_maker_3000/history_signals.py:116-128 | A trend is confirmed exactly when every confirmation bar confirms it. |
| WalkForwardValidator.StateIsLocal | src/money_maker_3000/history_signals.py:61-137 | The state of a history is the state of its last required bars. |
| WalkForwardValidator.TransitionBounds | src/money_maker_3000/history_signals.py:183-186 | Transitions number at least the distinct states less one, and at most the observations less one. |
| WalkForwardValidator.FoldsAddUp | src/money_maker_3000/history_signals.py:192-211 | Fold histograms and sizes add up to the totals, and the total of the transitions lies between the fold sum and the fold sum plus the borders. |
| WalkForwardValidator.CheckFolds | src/money_maker_3000/backtest.py:955-1014 | The fold loop accepts exactly the folds that pass every check and follow each other, and gathers their totals. |
| WalkForwardValidator.ValidateWalkForward | src/money_maker_3000/backtest.py:838-1056 | Accepts a report exactly when its checks hold and it equals the recomputed report. |
| WalkForwardValidator.ProducedIsConsistent | src/money_maker_3000/backtest.py:866-1026 | For every history: the checks hold of the report that the producer builds if and only if it covers nothing or the first and last date of each of its folds are days, which dates that are days ensure. |
| WalkForwardValidator.OtherTextIsRefused | src/money_maker_3000/history_signals.py:43-58 | For any length of history and either strategy: a last bar whose date text is no day leaves a history that the producer covers and a report that the validator refuses. |
| FeedStores.ValidateRows | src/money_maker_3000/feed_collection.py:91-129 | The row loop accepts exactly rows whose dates are those of their timestamps and strictly increase, and whose numbers pass the checks of a row. |
| FeedStores.ValidatePrices | src/money_maker_3000/feed_collection.py:106-127 | The field loops accept exactly a close, positive prices, a volume that is not negative, and a range that holds open and close. |
| FeedStores.FeedStore.PersistVersion | src/money_maker_3000/feed_collection.py:497-579 | Refuses in the order of the source, answers a repeated request from its record, otherwise publishes the merged version and its retrieval. |
| FeedStores.MergeTellsHistory | src/money_maker_3000/feed_collection.py:560-568 | A merge of a version that tells its history with one more request tells the longer history. |
| FeedStores.PersistKeepsReliable | src/money_maker_3000/feed_collection.py:548-579 | A request never changes an earlier retrieval or version, and adds itself to the history exactly when it is accepted and new. |
| FeedStores.StoreTellsHistory | src/money_maker_3000/feed_collection.py:560-579 | After any requests and crashes the store tells exactly the taken requests of the run, in order: each stored row is the one of the latest of them with its date, no date is dropped, and a date is unresolved exactly when the latest of them that covers it since it was first seen left it out. |
| FeedStores.CountsAddUp | src/money_maker_3000/feed_collection.py:571-574 | Added, revised and unchanged rows are all the new rows. |
| ForwardScores.ValidateScores | src/money_maker_3000/forward_evaluation.py:460-492 | Accepts exactly the chains whose revisions count from zero and supersede each other, with valid windows and clocks. |
| ForwardScores.ValidateEvents | src/money_maker_3000/forward_evaluation.py:403-432 | Accepts exactly the chains that start with a withdrawal, alternate, and strictly increase in time. |
| ForwardScores.EvidenceStore.ScoreMatured | src/money_maker_3000/forward_evaluation.py:101-175 | Refuses an inadmissible pass or an invalid journal; otherwise completes the pass for every forecast. |
| ForwardScores.NextEventIsOk | src/money_maker_3000/forward_evaluation.py:412-429 | An event that turns the availability around is accepted if and only if it carries the forecast's retention terms. |
| ForwardScores.EventNeedsForecastTerms | src/money_maker_3000/forward_evaluation.py:133-143 | A completed pass that writes an event keeps the track valid if and only if its retention terms are those of the forecast. |
| ForwardScores.OtherTermsSpoilJournal | src/money_maker_3000/forward_evaluation.py:133-143 | For any length of history: two admissible passes in order over a forecast created after its last day, the second under other retention terms, leave a journal that the validators refuse. |
| ForwardScores.RestorationFollowsScore | src/money_maker_3000/forward_evaluation.py:138-173 | A restoration is written only once the score of the current rows is in the track. |
| ForwardScores.PassSettles | src/money_maker_3000/forward_evaluation.py:122-174 | After a pass the track's last word on the outcome is the current one. |
| ForwardScores.CompletedPassSettles | src/money_maker_3000/forward_evaluation.py:101-175 | A completed pass settles every forecast of its series, and the same rows write nothing more. |
| ForwardScores.RunKeepsJournal | src/money_maker_3000/forward_evaluation.py:403-492 | Passes on a strictly increasing clock, each stopped after any record, leave a journal that both validators accept. |
| Learning.SplitEndpoints | src/money_maker_3000/learning.py:226-244 | The split loop on dates yields the three ranges of endpoints and purges the rest. |
| Learning.EndpointsAreCounted | src/money_maker_3000/learning.py:337-357 | Counts, warm-up, purged endpoints and horizon add up to the rows, and at most two horizons are purged. |
| Learning.LabelsPrecedeFeatures | src/money_maker_3000/learning.py:340-354 | Every label of one split comes before every feature of the next. |
| Learning.PlanPredictsTraining | tools/money-maker-learn/scripts/learn.py:149-156 | The plan's three counts meet 20, 10 and 10 if and only if the training splits do, and then they are equal. |
| Learning.SelectLabels | src/money_maker_3000/learning.py:187-197 | The loop gathers the labels of one state and their sum. |
| Learning.EveryFitAddsUp | src/money_maker_3000/learning.py:295-309 | Every fit passes the count checks of the artifact validator: state supports and positives add up to the totals. |
| Learning.FirstSmallest | src/money_maker_3000/learning.py:256 | The winner is the first candidate with the smallest score. |
| Learning.Winner | src/money_maker_3000/learning.py:363 | No score is smaller than the winner's, and every earlier one is larger. |
| Learning.SelectCandidate | src/money_maker_3000/learning.py:246-256 | The loop over the grid computes the specified fits, scores and winner. |
| Learning.HoldoutIsIndependent | src/money_maker_3000/learning.py:245-258 | Two histories that agree through the validation cutoff get the same fits, scores and winner. |
| Learning.GridsAreValid | src/money_maker_3000/learning.py:164-172 | Every candidate of both grids meets its strategy's ranges, and the longest warm-ups are 40 and 202 bars. |
| Learning.TrainingIgnoresHoldout | src/money_maker_3000/learning.py:221-258 | So training on either grid never depends on rows after the validation cutoff. |

## Left out

- Operating-system plumbing: files, descriptors, `flock`, inodes, permissions, hard links and `fsync`. A lock is step atomicity, and a write happens whole or, in the ledger, torn as `Ledgers.Torn` lists.
- The lease store's `report`, its lock waiting, its size cap, and the JSON shape checks of stored documents.
- Rounding, underflow and the limits of decimal and floating-point numbers: numbers are exact reals, and the overflow bound of a run is a parameter, so a result holds for the source's bound of ten to the hundredth as for any other.
- Simulations.Simulate: does not model the identity and provider labels of a report, which are constants, and models the sorted adjacent forecast check as a check on pairs in index order.
- AllIn.Backtest: requires a cost that is not negative; its callers admit at most twenty percent. `AllInLaws.AllOrNothing`, `AllInLaws.BacktestTelescopes` and `AllInLaws.HoldingsAreBounded` need one below one hundred percent, because a sale that brings nothing leaves neither cash nor a position; `AllInLaws.ReportedDrawdown` and `AllInLaws.PastDecides` do not.
- Scoring of shadow forecasts (`_score_payload`), the economic gate with its bootstrap, and model forecasts: deterministic parameters of the shadow model. A score may depend on the instant only through the rows that are available by then, which is how the source uses it. All decisions of one score see one reading of the clock, where the source reads it for each.
- ShadowStores.Store.ScoreNow: does not model the comparison of symbol and source; the score is the parameter, of which `ShadowScoring` models the selection of decisions for a model with no earlier score.
- ShadowScoring.ScoredIsAvailable: is about the scoring of a model with no earlier score.
- ShadowStores.Store.DecideNow: does not model the comparison of symbol, source and currency; the forecast is a parameter.
- ShadowStores.Store.CheckpointModel: the economic gate is a parameter.
- ShadowReplay.Replay: the recomputation of research records is a parameter.
- ShadowWitness.CheckpointKeepsFlapping: the confirmation window is five rows instead of 105, and the gate passes every score that fills it.
- ShadowRepeats.RepeatChangesNothing: assumes that the gate reads no checkpoint, and no reference but the one it compares with, as the source's gate does.
- Research events of the shadow journal (protocols, models, trials, results): their recomputation is one parameter; only the links that the shadow operations rely on are modelled.
- Ledgers.LedgerFile.Read: takes parsed lines; every line that costs the file its clean verdict is one case.
- The order of texts is a parameter of the walk-forward and learning models; used of it is only that days are in order, that the empty text is first and, in one example, that letters come after digits.
- ShadowLaws.RunIsReplayable: assumes that no clock reading within one call precedes the reading at its start; `ShadowLaws.DecisionReplays` and `ShadowLaws.ScoreReplays` say exactly what happens otherwise.
- Order of models by digest: the shadow operations take the models in any order.
- The metrics part of the strategy-history validator, which compares values rounded to six digits. Rounding enters the walk-forward states as an arbitrary function.
- FeedStores.FeedStore.PersistVersion: does not model the checks that a stored retrieval record is well formed, nor retention and interpretation policy checks, which read one document each.
- ForwardScores.ValidateScores: does not model the score's metric fields, which the validator recomputes with the producer's own formula, nor the model and probability checks of forecasts.
- Forecast recording, fixed checkpoints and reference repair of the forward evaluation; replay, split and snapshot code of the other modules, which repeats ideas covered here.
- The eToro client, collection, credentials, redaction, risk, contracts, readiness and reconciliation: input and output, or flat field checks with a blocked result.
