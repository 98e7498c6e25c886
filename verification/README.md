# Verification model of the trading bot and its backtester

A Dafny model of the parts of the repository where state is carried from step to step, or where a
fast form must agree with a simple one, and proofs about whole runs of them.

* **Simulators.** `Engine` is the single-symbol bar loop of `deltabt/engine.py`; `Portfolio` and
  `PortfolioRun` are the shared account of `deltabt/portfolio.py` over a merged event stream, with
  positions as objects that funding and promotion change in place. `Execution`, `Positions`, `Exits`
  and `Costs` hold what they share: exits, settlement, entry planning, the stop ratchet, ticks and fees.
* **Latch.** `WprLatch` holds the three forms of the Williams %R machine; `Engine` drives one of them
  from its own positions.
* **Signals.** `Indicators`, `RuleCore` and `Resampling` are the pipeline from bars to entries.
* **Polling.** `Fade` and `Learning` are the two computations done in stages over partial data.
* **Real money.** `Client` and `Broker` send one intent; `FadeLive` is the account protocol over a
  durable row table, a venue, crashes and other processes, and `FadeLog` is what its log promises.

Prices are exact reals, times and contracts integers, and a reading that may be NaN is an `Option`.
Where the source loops and assigns, the model is a method proved against a function, and the theorems
are about that function. The venue, the clock and failures are nondeterministic choices: what is proved
holds for every answer. In `FadeLive` every await may be the last of its pass, raised or crashed, and a
write may be lost before or after it took effect; `Valid()` is therefore an invariant of every crash point.
At every await positions may shrink, stops may come and go, and `resume` and `record_off`, processes of their
own, may read and write the status. What a pass has read is remembered in ghost maps (`stopSeen`, `closeSeen`,
`found`, `answers`, `bought`), and the contracts say what those readings lead to. A success may also hold no size
or no list of positions where one is expected; it then reads as flat or as empty, and is remembered in `misread`
and `blind`. `Guarded()` means the account is shut, or an owner has resumed over a shut account during this pass.
`quiet` is a run in which nothing happens but its passes; there the contracts also say what completes.

`dafny verify dfyconfig.toml` checks the whole project.

## Where the code and its promise differ

* `latch_fires_vectorised` equals the scan on every series exactly when the expiry is at least 1 or the
  levels do not overlap (`WprLatch.VectorisedAgreesIff`).
* `_broadcast_confirmed` never looks ahead, but shows the *last* closed bar only while the base bar opens
  inside the newest higher bar's own bucket; across a gap it is one bar stale
  (`Resampling.BroadcastShowsLastClosedIff`, `Resampling.BroadcastStaleAcrossGap`).
* A mask not aligned to the complete bars' times fits them exactly when no bucket was dropped
  (`Resampling.UnalignedMaskFitsIff`).
* A stop walked minute by minute fills at a price already moved by slippage; its fee is then free of slippage
  exactly when stops are configured as `ltp_close` or there is none (`Portfolio.WalkedStopSlipsOnceIff`). Under
  the default `at_stop` it is charged twice (`Portfolio.WalkedStopSlipsTwice`).
* A gap between the optimistic and the real outcome of an ambiguous bar is never negative exactly when leaving
  as a maker is no dearer than as a taker with slippage and neither rate exceeds the whole price
  (`Engine.GapNonNegativeIff`).
* On one-minute bars the tradability mask is never aligned to `times`; it fits the complete bars exactly when
  every bar opens on the minute (`Resampling.OneMinuteMaskFitsIff`).
* Takeable signals never overlap when rows are in bar order, with no condition on `free_from`
  (`Learning.TakenNeverOverlap`).
* "No position can result" is true of every submission exactly of an intent that is neither able to open nor
  pending (`Broker.LiveBroker.SubmitReported`, `SubmitOnce`). Of any other, a refusal carries the flag although
  the order can open or is pending (`ResubmitUnderKillSwitch`); and without any refusal the venue declines a
  live order's known client id, which is reported the same way and forgets what attributes its fill
  (`ResubmitLive`).
* A returned row is that order's own, except that a success that is no order, of the POST or of the lookup's own
  route, is returned as if it were the row, and nothing else is (`Client.LiveClient.PlaceOrder`,
  `GetOrderByClientId`; `Client.UnreadLookup` at that lookup).
* A filled entry is therefore skipped exactly when its POST is answered so, and never failed by `_enter_one`
  (`FadeLive.LiveFade.Send`). The account then runs on over a position no row has (`UnheardEntry`).
* In `_reconcile` a filled order is failed exactly when its own route answers with no order or with nothing, or is
  refused and the pages scanned do not list it (`FadeLive.LiveFade.CheckSending`, `MissedFill`,
  `Client.FilledOrderMissed`). Such an order, such an entry, and a size or a list read off an answer that is none
  are the only ways a completed pass leaves a position without an active row while the account runs
  (`FadeLive.LiveFade.Reconcile`, `Pass`); the next list that is read shuts the account (`CheckPositions`).
* A buy-back tells of a fill exactly when it has read the row of one of its two orders and that row holds one
  (`FadeLive.LiveFade.BuyBack`). Bought in full on an answer that is no order, it tells of none
  (`FadeLive.UnreadDeal`), and the row goes the way of one closed at the venue.
* "Only once the coin is flat" is true of a position that was read: a stop is cancelled, and a row closed, over a
  flat position or one whose size was read off an answer that is none (`FadeLog.UndoneOnlyWhenFlat`).
* "Entries only in RUNNING" is true of the status the pass last read. An account switched off between that reading
  and the order is posted for while OFF (`FadeLog.PostedOnlyWhileRunning`, `PostedWhileOff`).
* `resume` reads HALTED and later writes RUNNING without looking again. While no two resumes are in flight
  together STOPPED is absorbing (`FadeLog.StoppedIsAbsorbing`, whose other hypothesis, that no STOP is written
  over a HALT, every run meets by `FadeLive.LiveFade.Life`); two in flight can undo a STOP
  (`FadeLog.TwoResumesReopenAStop`).
* A position found without a stop is bought back, or the account is shut, whenever the pass completes. But the
  client ids of a buy-back are made of the row, the reason and the leg alone. While nothing else happens and every
  answer is read, the pass ends before either exactly when the position is held and its limit order would go out
  under an id the venue knows, or leaves something for a market order whose id it knows
  (`FadeLive.LiveFade.CheckOpen`, `FadeLive.DealDiesIff`); and whatever else happens, an order declined for a known
  id is never followed by a halt or by a completed pass over a position still held and not seen behind a stop
  (`Spent`). Two passes reach that state and leave the account running (`FadeLive.LiveFade.Strand`,
  `FadeLive.TwoWaysToStrand`). With no such id in use, no long position and nothing else happening, the pass
  completes (`Reconcile`, `Pass`).

## Model

| member | source | states |
|---|---|---|
| Numbers.AccumulatedIndexIsLastTrue | deltabt/wpr_latch.py:197-208 | A running maximum over masked indices is the last true index, or -1 when there is none. |
| Numbers.SearchRight | deltabt/rulecore.py:274-274 | The position found is the number of sorted entries at most the target. |
| WprLatch.StepState | deltabt/wpr_latch.py:127-167 | Expiry, arming and firing of one bar, branch by branch, are the machine's single step. |
| WprLatch.Scan | deltabt/wpr_latch.py:31-88 | The forward loop's pulses are the machine run over the series with the resets that follow each bar. |
| WprLatch.ArmIsLastZoneUnlessSpent | deltabt/wpr_latch.py:170-215 | Without resets the carried arm is the last bar in the zone, unless a later cross spent it or it expired. |
| WprLatch.VectorisedAgreesAt | deltabt/wpr_latch.py:170-215 | With expiry at least 1, or levels that do not overlap, the branch-free form fires on the same bars as the scan, NaN holes included. |
| WprLatch.VectorisedMissesSameBarFire | deltabt/wpr_latch.py:170-215 | With expiry below 1 and overlapping levels there is a series on which the two forms differ. |
| WprLatch.VectorisedAgreesIff | deltabt/wpr_latch.py:170-215 | Exactly which levels and expiry make the branch-free form equal the scan on every series. |
| WprLatch.ArmReadsOnlyThePast | deltabt/wpr_latch.py:31-88 | The arm carried into a bar depends only on resets recorded before it. |
| WprLatch.ArmSurvivedEveryReset | deltabt/wpr_latch.py:31-88 | A live arm was set in the zone, has not expired, and saw no reset since. |
| WprLatch.FireHasCleanTraverse | deltabt/wpr_latch.py:31-88 | Every fire ends a traverse that began in the zone within the expiry with no reset on the way. |
| WprLatch.MapHtfFiresToLtf | deltabt/wpr_latch.py:218-249 | A base bar carries a pulse when it opens a slot whose previous higher bar fired. |
| WprLatch.FireMapsToAtMostOneBaseBar | deltabt/wpr_latch.py:218-249 | One fire gives at most one base pulse, strictly after the bar that fired. |
| WprLatch.FireIsDelivered | deltabt/wpr_latch.py:218-249 | A fire is delivered whenever any base bar lies in the following higher bar. |
| Costs.RoundPriceBounds | deltabt/costs.py:80-91 | Directed rounding moves a price by less than a tick, to the chosen side. |
| Costs.RoundPriceMonotone | deltabt/costs.py:80-91 | Directed rounding keeps the order of prices. |
| Costs.ContractsForIsLargest | deltabt/costs.py:93-107 | A count is returned or exceeded exactly when it fits the units asked for and the position limit. |
| Costs.FundingStampsExact | deltabt/costs.py:187-198 | The settlement instants are exactly the interval's multiples in the window. |
| Exits.EarnedStopR | deltabt/exits.py:30-43 | The loop over rungs and the trail compute the earned stop. |
| Exits.LadderStopIsHighestReached | deltabt/exits.py:30-43 | On a valid ladder the earned stop is that of the highest rung reached, and none exactly when none is. |
| Exits.EarnedMonotone | deltabt/exits.py:30-43 | A larger excursion never earns a looser stop. |
| Exits.EarnedLiesBehind | deltabt/spec.py:313-342 | A valid rule only earns stops strictly behind the excursion that earned them. |
| Positions.ValidProtectionIsMonotone | deltabt/portfolio.py:267-284 | Every valid ladder or trail, tick rounding included, never loosens with a better price. |
| Positions.PromotionLiesBehindPrice | deltabt/portfolio.py:267-284 | A promoted stop lies strictly behind the price that promoted it. |
| Positions.PromotedTwice | deltabt/portfolio.py:267-284 | Two promotions in either order are one promotion at the better price. |
| Positions.RatchetIsPeak | deltabt/portfolio.py:267-284 | Promotion price by price leaves what one promotion at the peak leaves. |
| Positions.LadderOrTrailTracksPeak | deltabt/exits.py:30-48 | The same for any valid ladder or trail. |
| Positions.RatchetNeverLoosens | deltabt/exits.py:46-48 | The stop only ever moves in the position's favour. |
| Positions.WalkStopsAtFirstHit | deltabt/portfolio.py:287-322 | The minute walk stops at the first minute hitting a stop that is a function of strictly earlier minutes. |
| Positions.WalkComposes | deltabt/portfolio.py:287-322 | An exit found is untouched by later minutes, and a survived stretch hands its stop on. |
| Positions.PlainWalkFillsAtCross | deltabt/portfolio.py:235-259 | With no rule configured the walk and the crossing-minute fill read the same stop out of the same minute. |
| Positions.Position.Accrue | deltabt/portfolio.py:403-408 | Funding is added to the position and nothing else of it changes. |
| Positions.Position.PromoteRungs | deltabt/portfolio.py:267-284 | In place, the stop tightens to what the price has earned, or nothing changes. |
| Positions.Position.LadderWalk | deltabt/portfolio.py:287-322 | In place, the loop over minutes leaves the position and verdict of the walk, and declines only an empty bar. |
| Execution.SettlesExactlyOnTheGrid | deltabt/engine.py:111-131 | A bar settles exactly when its time is a multiple of the interval and the latest sample is a number. |
| Execution.RatedBarPaysItsSample | deltabt/engine.py:111-131 | A bar whose rate was looked up pays the sample in force at its time, at multiples of the interval and nowhere else. |
| Execution.EntryTakesAllItMay | deltabt/engine.py:381-416 | With stop and cost passed, an entry is refused exactly when not one contract is within risk, leverage and limit, and otherwise takes as many as are, with the stop rounded away from the market. |
| Execution.EntryIsWithinBudget | deltabt/engine.py:386-416 | The loss at the stop is within the risk budget and the notional within the leverage, for a positive number of contracts. |
| Execution.TargetIsBeyondReward | deltabt/engine.py:420-429 | The rounded target is at least the reward multiple of the risk away. |
| Engine.Manage | deltabt/engine.py:210-332 | Funding and exits of a bar, as branches, are the managed state. |
| Engine.DriveLatches | deltabt/engine.py:335-365 | The two latches and the wanted side of a bar, as branches, are the latched state. |
| Engine.RunBacktest | deltabt/engine.py:133-441 | The bar loop's trades, curve and optimistic result are those of the state after every bar. |
| Engine.RunIsCausal | deltabt/engine.py:206-436 | The first bars alone decide everything up to there. |
| Engine.ArmsAreReplayed | deltabt/engine.py:335-357 | The arms the loop carries are those of the machine over the recorded resets. |
| Engine.ClosedLoopLatchIsReplay | deltabt/engine.py:335-362 | For every run, the fires driven by its own positions equal a scan run afterwards on what it recorded, both sides. |
| Engine.ReplayLong | deltabt/wpr_latch.py:91-124 | The scan loop over the recorded arrays returns those fires. |
| Engine.EquityIsConserved | deltabt/engine.py:209-436 | At every bar equity is capital plus closed results less what is sunk into the open position. |
| Engine.FundingIsPaidInFull | deltabt/engine.py:210-220 | Each trade's funding is the sum over the settlement bars after its entry up to and including its exit. |
| Engine.FundingFollowsTheSamples | deltabt/engine.py:162-220 | With the rates looked up, each trade has paid the samples in force at the settlement instants after its entry up to its exit. |
| Engine.TradesNeverOverlap | deltabt/engine.py:369-380 | Positions open after the warmup, close on a later bar, and wait out the cooldown. |
| Engine.OptimismIsFundingPlusGaps | deltabt/engine.py:290-304 | The optimistic account leads by exactly the funding charged plus the gaps of ambiguous trades. |
| Engine.RunIsSound | deltabt/engine.py:229-257 | Every position keeps its stop one R behind and its target ahead, and every stop fills at least one R behind. |
| Engine.GapNonNegativeIff | deltabt/engine.py:290-302 | No sound trade has a negative gap exactly when leaving as maker is no dearer than as taker with slippage and neither rate exceeds the price. |
| Engine.OptimisticIsAnUpperBound | deltabt/engine.py:438-441 | Under exactly those rates the optimistic account, once it too pays the funding, is never behind. |
| Engine.StopAtItsPriceLosesOneR | deltabt/engine.py:303-318 | A stop filled at its own price loses exactly one R before costs. |
| Portfolio.RunIsCausal | deltabt/portfolio.py:380-676 | Later timestamps change nothing earlier. |
| Portfolio.EquityIsConserved | deltabt/portfolio.py:545-575 | At every timestamp equity is capital plus closed results less entry fees and funding sunk into everything open. |
| Portfolio.NeverOverCapacity | deltabt/portfolio.py:588-590 | Open positions never exceed the limit, and a latched halt means flat. |
| Portfolio.HaltIsTerminal | deltabt/portfolio.py:599-620 | With no resume policy a latched halt leaves the account flat, with no further trade and constant equity. |
| Portfolio.HaltHoldsUntilItsTime | deltabt/portfolio.py:599-609 | With a policy, nothing happens to a halted account before its time is up. |
| Portfolio.NeverOverDailyLimit | deltabt/portfolio.py:387-393 | On no UTC day are more positions entered than the limit, closed since or not. |
| Portfolio.RunIsAccounted | deltabt/portfolio.py:403-408 | Every trade has paid exactly the settlements in its window, and every open stop is the rule ratcheted through every favourable price since entry. |
| Portfolio.FundingFollowsTheSamples | deltabt/portfolio.py:325-408 | With the rates looked up, every trade has paid the samples in force at its symbol's settlement instants, and nothing else. |
| Portfolio.StopIsEarnedByPeak | deltabt/portfolio.py:522-538 | For any valid ladder or trail an open position's stop is the one its best price so far has earned. |
| Portfolio.SurvivedBarIsRatchet | deltabt/portfolio.py:410-415 | A survived bar moves the stop exactly along that bar's favourable prices, walked or not. |
| Portfolio.NoSymbolHoldsTwo | deltabt/portfolio.py:581-582 | One symbol's positions never overlap and the next waits out the cooldown. |
| Portfolio.WalkedStopIsSlipped | deltabt/portfolio.py:287-322 | Every walked stop fills at a minute's close moved by the slippage, and its fee adds it again unless `ltp_close`. |
| Portfolio.WalkedStopSlipsOnceIff | deltabt/portfolio.py:541-547 | With open contracts and positive prices the slippage of a walked stop is charged once exactly under `ltp_close` or when there is none. |
| Portfolio.WalkedStopSlipsTwice | deltabt/portfolio.py:541-547 | A concrete exit under the default fill, slipped in its price and again in its fee. |
| PortfolioRun.MergedStreamIsValid | deltabt/portfolio.py:355-385 | Grouping a merged, sorted stream by timestamp loses nothing and meets every assumption of the run's theorems. |
| PortfolioRun.Judge | deltabt/portfolio.py:410-458 | The exit test of one bar, walking the position in place, is the resolved verdict. |
| PortfolioRun.ManageOne | deltabt/portfolio.py:396-575 | Funding, exit or promotion of one symbol, on position objects, is the managed account. |
| PortfolioRun.PassGates | deltabt/portfolio.py:588-632 | The gates in order, with the resume and the halt they may leave behind, decide the entry. |
| PortfolioRun.EnterOne | deltabt/portfolio.py:578-673 | One symbol's entry, with its new position object, is the entered account. |
| PortfolioRun.RunTick | deltabt/portfolio.py:387-676 | Day roll, every exit, then every entry of a timestamp is one step. |
| PortfolioRun.RunPortfolio | deltabt/portfolio.py:378-683 | The whole loop ends in the account after every timestamp. |
| Indicators.RmaKernel | deltabt/indicators.py:30-64 | The smoothing loop computes the recursive smoother. |
| Indicators.RmaCausal | deltabt/indicators.py:30-64 | Appending values changes no earlier smoothed value. |
| Indicators.SmootherStaysInBounds | deltabt/indicators.py:30-64 | A smoother over bounded values, NaN skipped, stays in the bounds. |
| Indicators.SmoothingForgetsItsSeed | deltabt/indicators.py:30-64 | Two histories of any length followed by the same values, NaN among them, give smoothed values that draw together by the same factor at every reading. |
| Indicators.TrueRangeKernel | deltabt/indicators.py:75-93 | The loop computes the true ranges. |
| Indicators.AtrCausal | deltabt/indicators.py:104-109 | Appending bars changes no earlier average range. |
| Indicators.ExtremesOfWindow | deltabt/indicators.py:127-136 | The window's extremes are attained and bound every bar in it. |
| Indicators.WprKernel | deltabt/indicators.py:113-145 | The window loop computes %R. |
| Indicators.WprCausal | deltabt/indicators.py:113-145 | Appending bars changes no earlier %R. |
| Indicators.WprInRange | deltabt/indicators.py:113-145 | %R lies in [-100, 0] on coherent bars. |
| Indicators.DmiKernel | deltabt/indicators.py:161-203 | The loops compute +DI, -DI and ADX. |
| Indicators.DmiCausal | deltabt/indicators.py:161-203 | Appending bars changes no earlier +DI, -DI or ADX. |
| Indicators.MovementWithinRange | deltabt/indicators.py:170-182 | On coherent bars at most one directional movement is positive and both fit in the true range. |
| Indicators.SmoothingKeepsDominance | deltabt/indicators.py:30-64 | Smoothing keeps a pointwise sum below a pointwise bound. |
| Indicators.DirectionalIndicesBounded | deltabt/indicators.py:183-198 | +DI and -DI are non-negative and sum to at most 100. |
| Indicators.AdxBounded | deltabt/indicators.py:183-203 | DX and ADX lie in [0, 100] through NaN skipping. |
| Indicators.SupertrendKernel | deltabt/indicators.py:221-302 | The band loop computes line and direction. |
| Indicators.SupertrendCausal | deltabt/indicators.py:221-302 | Appending bars changes no earlier line or direction. |
| RuleCore.IndicatorRows | deltabt/rulecore.py:78-124 | The kernels together give the indicator rows. |
| RuleCore.ReadingsCausal | deltabt/rulecore.py:78-124 | Appending bars changes no earlier indicator row, the leg start included. |
| RuleCore.RecentIsWindowed | deltabt/rulecore.py:127-134 | The difference of cumulative sums is true exactly when the event happened in the window. |
| RuleCore.Gate | deltabt/rulecore.py:137-256 | Narrowing the two masks in place computes both gates. |
| RuleCore.GateCausal | deltabt/rulecore.py:137-256 | A gate on one bar is unchanged by later rows. |
| RuleCore.FadeMirrorsBanded | deltabt/rulecore.py:195-226 | The fade rule is the banded rule with the sides exchanged. |
| RuleCore.AlignIsLastClosed | deltabt/rulecore.py:259-275 | The chosen confirmation bar is exactly the last one closing at or before the primary close. |
| RuleCore.AlignUnmovedIff | deltabt/rulecore.py:259-275 | Later confirmation bars leave the choice alone exactly when none of them closes by the primary close. |
| RuleCore.Compute | deltabt/rulecore.py:328-439 | The pipeline computes the signal rows, and fails exactly on an invalid spec, its ladder and trail included, an empty frame or a missing confirmation frame. |
| RuleCore.ComputeIsCausal | deltabt/rulecore.py:328-439 | Later closed bars on either frame change no earlier entry, setup, stop, target or rejection. |
| Resampling.GroupedIsStreamed | deltabt/strategy.py:51-74 | Grouping and aggregating is the same as absorbing bar by bar. |
| Resampling.ResamplingComposes | deltabt/strategy.py:51-74 | To `a` and then to `a * b` minutes is straight to `a * b`. |
| Resampling.KeptBarsAreComplete | deltabt/strategy.py:82-111 | Exactly the bars whose bucket holds enough minutes are kept. |
| Resampling.AlignedMaskIsExact | deltabt/strategy.py:114-144 | From two minutes up, aligned to the complete bars, the mask is true for a bar iff all its recorded minutes are tradable. |
| Resampling.OneMinuteMaskFitsIff | deltabt/strategy.py:114-144 | At one minute the mask is the minutes' own and fits the complete bars exactly when every bar opens on the minute. |
| Resampling.UnalignedMaskFitsIff | deltabt/strategy.py:114-144 | Unaligned, the mask fits the complete bars exactly when no bucket was dropped. |
| Resampling.BroadcastConfirmed | deltabt/strategy.py:147-161 | Shifting and filling shows each base bar the higher bar before its slot. |
| Resampling.BroadcastShowsOnlyClosedBars | deltabt/strategy.py:147-161 | The shown bar's bucket has ended by the base bar's open. |
| Resampling.BroadcastShowsLastClosedIff | deltabt/strategy.py:147-161 | It is the last bar to have ended exactly when the base bar opens inside the newest bar's bucket. |
| Resampling.BroadcastStaleAcrossGap | deltabt/strategy.py:147-161 | A gap with a concrete stale answer. |
| Resampling.OwnFrameShowsLastClosed | deltabt/strategy.py:147-161 | Projected onto the frame it came from, it is always the last recorded bar that has ended. |
| Fade.Position.Walk | live/fade.py:114-141 | In place, the loop over minutes leaves the walked position. |
| Fade.PollOne | live/fade.py:420-440 | In place, one poll with its end-of-day fallback leaves the polled position. |
| Fade.PollReachesOutcome | live/fade.py:406-440 | One poll over any overlapping window leaves the position waiting or ends it as the whole day does, and always ends it once the day is over. |
| Fade.ChunkedPollingIsOnePass | live/fade.py:406-449 | Any sequence of polls, overlapping, late or lost to crashes, exits at the time, price and reason of the day read once, never for lack of data. |
| Fade.DayEndAlwaysCloses | live/fade.py:426-449 | The first poll past the day's end that reaches its write closes the row, once and for all. |
| Fade.WholeDayWalkIsOutcome | live/fade.py:114-141 | One walk over the day gives the reference outcome whenever a minute traded after entry. |
| Fade.SizeIsLargestAllowed | live/fade.py:84-90 | The size is the largest whole number of contracts within the risk and the leverage. |
| Learning.DecideTakeable | live/learning.py:270-294 | The loop decides exactly the undecided rows before the first unlabelled one, and counts the rows left waiting. |
| Learning.StagedAgreesWithBatch | live/learning.py:270-294 | However labels arrive, whatever is stored is what one batch decides. |
| Learning.StagedReachesBatch | live/learning.py:270-294 | Once the first rows are labelled, all of them are decided as the batch decides. |
| Learning.TakenNeverOverlap | live/learning.py:270-305 | Taken signals open at or after every earlier taken one is over. |
| Learning.RefusedIffHeld | live/learning.py:284-293 | An acceptable signal is refused exactly when an earlier taken one still holds the coin. |
| Client.LiveClient.ReadByCid | live/client.py:182-194 | Asked again only while unavailable and at most the retries, posting nothing, the last reply is returned. |
| Client.LiveClient.GetOrderByClientId | live/client.py:252-300 | It hits exactly when an exchange shows something under the id: the venue's row, or, exactly when its own route ended it with a success that is no order, that answer. It misses only when its own route says nothing or, that refused, both pages were answered (a refusal included) without the order, and fails otherwise. |
| Client.LiveClient.PlaceOrder | live/client.py:322-365 | Exactly one POST, logged with its answer; the result is read off that answer, and off the lookup made exactly when nothing was heard. A success that is no order is returned exactly when the POST's answer is one, or an unheard POST's lookup ends on one; a rejection leaves the order as able to open as it was, and neither silence nor a missing order is a rejection. |
| Client.UnreadLookup | live/client.py:279-290 | A POST nobody answered, and a lookup answered with no order, on the first try or after an outage: returned as the row. |
| Client.FilledOrderMissed | live/client.py:279-300 | A concrete filled order is not found when its route is refused and neither page lists it, nor when its route answers with nothing; listed, it is. |
| Broker.SafeLeverageIsLargest | live/broker.py:459-461 | The safe leverage is the largest whole one keeping liquidation the buffer away. |
| Broker.PlannedLeverageIsSafeAndLargest | live/broker.py:428-479 | A returned plan keeps the buffer and the margin headroom at the largest whole leverage within the product's cap. |
| Broker.RefusedIffNoLeverageFits | live/broker.py:462-465 | With usable terms and enough balance, refusal means exactly that no leverage fits. |
| Broker.LiveBroker.Forget | live/broker.py:614-616 | The attribution of this order, and of no other, is taken out. |
| Broker.LiveBroker.SubmitOrder | live/broker.py:506-627 | At most one order is sent; a refusal changes nothing; what is raised of a sent order is its answer's reading; something that is no order is returned exactly when the POST or the lookup of an unheard one was answered so; declined, it is as able to open as it was; said to leave no position, it keeps no attribution. |
| Broker.LiveBroker.SubmitReported | live/broker.py:532-627 | No position can result is true exactly after a death seen at the venue, a decline of an order unable to open, or a refusal of one neither able to open nor pending. |
| Broker.LiveBroker.SubmitOnce | live/broker.py:532-627 | For an intent not live and not pending, no position can result means nothing can open and nothing is pending. |
| Broker.LiveBroker.ResubmitUnderKillSwitch | live/broker.py:536-539 | Submitted again while able to open or pending, the refusal carries the flag and it still is. |
| Broker.LiveBroker.ResubmitLive | live/broker.py:601-617 | A live order submitted again is declined exactly when an answer is heard that is not a success without an order; reported unable to open, it is as able as before and its attribution is gone. |
| FadeLog.EntitledStatus | live/fade_live.py:310-318 | A pass that read RUNNING and has judged nothing since sees RUNNING, or OFF if switched off meanwhile. |
| FadeLog.PostedOnlyWhileRunning | live/fade_live.py:310-318 | In every log, an entry is posted only by a pass that read RUNNING and has judged nothing since, and while RUNNING unless it was switched off in between. |
| FadeLog.PostedWhileOff | live/fade_live.py:310-318 | For any pick, a legal log that posts it while OFF. |
| FadeLog.UndoneOnlyWhenFlat | live/fade_live.py:277-287 | In every log a stop is cancelled, and a row closed, only over a position that is flat or was read off an answer that is none. |
| FadeLog.AtMostOnePostPerPick | live/fade_live.py:497-510 | In every log no two posts are for the same day and symbol. |
| FadeLog.StopEndsOnlyByResume | live/fade_live.py:299-307 | In every log STOPPED is left only through a resume that wrote over it. |
| FadeLog.HaltEndsOnlyByResume | live/fade_live.py:633-650 | In every log a shut account is reopened only through a resume that wrote over it. |
| FadeLog.ResumeIsOverHalt | live/fade_live.py:633-650 | While no two resumes are in flight together, the one in flight is over a HALT. |
| FadeLog.StoppedIsAbsorbing | live/fade_live.py:299-307 | In every log without two resumes in flight together, nor a STOP written over a HALT, STOPPED is never left and nothing more is posted. |
| FadeLog.TwoResumesReopenAStop | live/fade_live.py:633-650 | A log with two resumes in flight that ends RUNNING after a STOP. |
| FadeLive.ContractsAreLargestAllowed | live/fade_live.py:140-147 | The size is the largest whole number within the risk and the share, and two such notionals fit the balance. |
| FadeLive.LiveFade.State | live/fade_live.py:290-297 | First use or a return from OFF starts the run; the answer was the status at that moment, and a shut account is never answered RUNNING unless an owner reopened it. |
| FadeLive.LiveFade.SetState | live/fade_live.py:299-307 | From any status: STOPPED stays and anything else becomes the one asked for, unless an owner resumed over it. |
| FadeLive.LiveFade.RecordOff | live/fade_live.py:544-548 | Switching off, at any await of a pass, leaves HALTED and STOPPED alone and turns anything else OFF, keeping the invariant. |
| FadeLive.LiveFade.ResumeWrites | live/fade_live.py:633-650 | The write of a resume, at any await of a pass, makes whatever the status is by then RUNNING, keeping the invariant; it alone reopens a shut account. |
| FadeLive.LiveFade.BuyBack | live/fade_live.py:250-275 | Filled is reported exactly when one of its two orders' rows was read and holds a fill; with unused ids and every answer read, exactly when something was bought. Nothing left open means the coin was read flat. With an order declined for a known id it completes only so, and with the limit order declined buys nothing. While nothing else happens and no answer is lost it leaves the position, the ids and the report of the two-leg deal, and ends its pass exactly when that does. |
| FadeLive.DealDiesIff | live/fade_live.py:250-275 | With every answer read, a buy-back ends the pass exactly when the position is held and the limit order is sent under a known id, or leaves something for a market order under a known id; and then something is still held. With both ids unused, a fill is told exactly when something was bought. |
| FadeLive.UnreadDeal | live/fade_live.py:250-275 | Bought in full by an order whose success is no order: flat, and no fill told. |
| FadeLive.TwoWaysToStrand | live/fade_live.py:392-398 | A buy-back that dies on a partly filled limit order, and one without an ask partly filled at market, each leave a held position and a known id on which the next buy-back ends its pass. |
| FadeLive.LiveFade.CancelLeftovers | live/fade_live.py:277-287 | Stops are cancelled only once a reading of its own says flat; while nothing else happens it completes and positions are untouched. |
| FadeLive.LiveFade.ClosedAtVenue | live/fade_live.py:366-390 | Completed, the row is closed, by its stop or with the account guarded, or no closing order was found and it waits. |
| FadeLive.LiveFade.Close | live/fade_live.py:392-413 | Completed, the coin reads flat or the account is guarded; for want of a stop, a closed row was stopped out or guards the account; with unused ids and every answer read, what was bought closes the row or guards the account. With an order declined for a known id it never completes on a position still held, and the status is as it was. While nothing else happens and no answer is lost it ends its pass exactly when the deal does, with the status and the stops as they were. |
| FadeLive.LiveFade.Opened | live/fade_live.py:525-532 | Completed, the row is open, or closed over a coin read flat, and the coin reads flat, is seen behind a stop, or the account is guarded; while nothing else happens, with no long position, every answer read and its ids unused, it completes. |
| FadeLive.LiveFade.CheckOpen | live/fade_live.py:358-364 | Completed, the coin reads flat, is seen behind a stop, or the account is guarded. With no stop seen and an order declined for a known id it never completes while held, and nothing shuts the account. While nothing else happens and no answer is lost, a row without a stop ends the pass exactly when its buy-back's deal does, leaving that deal's position and the status as it was; behind a stop it completes. |
| FadeLive.LiveFade.Strand | live/fade_live.py:358-364 | Two passes over an open position without a stop: the first dies on a limit order that filled one contract, the second is declined for its id; the rest is held, without a stop, with the account RUNNING. |
| FadeLive.LiveFade.CheckSending | live/fade_live.py:345-357 | Completed, the row is what its lookup's answer calls for: failed, open or closed and protected, or still unknown and guarded. A filled order is failed exactly when its route answers with no order or with nothing, or the page scanned does not list it. |
| FadeLive.LiveFade.MissedFill | live/fade_live.py:354-356 | While nothing else happens, a filled order on any such route leaves its row FAILED, the position held and the status as it was. |
| FadeLive.LiveFade.CheckPositions | live/fade_live.py:335-343 | Completed, every position the venue holds belongs to an active row, or the account is guarded, or the list was read off an answer that is none; while nothing else happens it completes. |
| FadeLive.LiveFade.Reconcile | live/fade_live.py:330-364 | Completed and not guarded: every position belongs to a row active now, or its order's lookup did not see the fill, or its size or the list was read off an answer that is none; every open position was seen behind a stop or reads flat, and whatever was read without one is flat but for those orders and that list; every row of unknown outcome has its answer's status. While nothing else happens, with no long position and no active row's buy-back ids in use, it completes. |
| FadeLive.LiveFade.Exits | live/fade_live.py:415-418 | Completed, no position due yesterday is still held as far as it was read, unless the account is guarded, and no other row has changed; while nothing else happens, with no long position and its ids unused, it completes. |
| FadeLive.LiveFade.Size | live/fade_live.py:470-489 | An entry that passes the checks has a positive size, a stop beyond bid and mark, and liquidation beyond the buffer. |
| FadeLive.LiveFade.Send | live/fade_live.py:501-522 | One POST of this row's key at most. Completed, the row is what the answer calls for: failed, skipped, open and protected, or still SENDING with the account guarded; a filled order is never failed, and is skipped exactly when the answer was a success that is no order. |
| FadeLive.LiveFade.UnheardEntry | live/fade_live.py:511-522 | While nothing else happens, a filled entry answered with no order: its row SKIPPED, the account RUNNING, the position held and no active row its own. |
| FadeLive.LiveFade.WriteThenSend | live/fade_live.py:497-522 | The row is there before the POST. Completed, this key was posted; every protected coin still is and every new position has an active row or the account is guarded, unless its entry was answered with no order or its size misread. |
| FadeLive.LiveFade.EnterOne | live/fade_live.py:449-523 | Below the floor it posts nothing and stops, on a wrong wallet it posts nothing and halts, and it posts only with a free slot, safe leverage and at least one contract; what an entry keeps, it keeps. |
| FadeLive.LiveFade.Entries | live/fade_live.py:420-440 | Posts happen only inside the entry window of a day whose picks are entered, and old rows are untouched. |
| FadeLive.LiveFade.Pass | live/fade_live.py:310-328 | Completed and not guarded: every position has an active row, or its order's lookup did not see the fill, or its entry was answered with no order, or its size or the list was read off an answer that is none; every open one was seen behind a stop or reads flat in this very pass; no outcome is unknown. A shut account posts nothing and stays shut unless an owner reopens it. With nothing to enter, nothing else happening, no long position and no buy-back ids in use, it completes. |
| FadeLive.LiveFade.Life | live/fade_live.py:310-328 | Over any run of passes dying anywhere, with switching off and owners resuming at any await: the invariant holds, no pick is posted twice, at most two rows are active, and STOPPED is absorbing while no two resumes are in flight together. |

## Left out

- Floating point: prices, fees and readings are exact reals; infinities appear only where the source tests for them (an unlimited position size or leverage, an infinite cost per R).
- Stops taken from the leg's extreme, the percentile thresholds and `build_signals`: the causality theorem is for ATR and fixed-percentage stops.
- Indicators.WprCausal: does not model NaN inside a bar's high, low or close, because bars are complete candles; NaN in derived series is modelled.
- `stop_limit`, `breakeven_at_r` and the fill bracketing of a limit stop in the portfolio: fixed off.
- Reject counters, `notional`, `leverage` and `bars_held` of a trade: derived values that feed nothing back.
- Engine.RunIsSound: closes are positive and the reward multiple and fill fraction non-negative, as every configuration has them.
- Portfolio.WalkedStopSlipsOnceIff: asks for open contracts, a positive contract value, a slippage below the whole price and positive minute closes, under which the condition is the configuration's alone; `WalkedStopIsSlipped` asks for none.
- Resampling.OneMinuteMaskFitsIff: asks for a completeness fraction of at most 1; the timeframe is at least one minute, as the source's zero divides by zero.
- RuleCore.Compute: names outside the enumerations (trigger, stop, sides, price that triggers a stop) cannot be written, so their errors are not modelled.
- Loading frames, the mark fallback to last-traded, and the merge of the symbols' frames into one stream: the stream is an input, required to be in time order with each symbol's bars in their own order.
- Fade.ChunkedPollingIsOnePass: the day's candles do not change between polls and the entry bar is among them; sorting is omitted because the served window is sorted. Funding, fees and the write of the closed row are not modelled.
- Learning: storage, labelling and grading; keys of one coin's rows are unique, as the table enforces.
- HTTP, signing, rate limiting, retry sleeps and payload shapes: a response is a status and one of four bodies: an order, a failure, an object that is neither, nothing. A body of another shape, on which the source raises, is an await that dies. The venue declines a client id it already knows.
- Broker.LiveBroker.SubmitOrder: the book check is one input, rounding of the bracket prices is omitted, and `poll`, `close_position` and `expire_stale_entries` are not modelled.
- Client.LiveClient.PlaceOrder: nothing is promised of the order behind a success that is no order: it may stand, or never have been taken.
- FadeLive.LiveFade.Life: one pass at a time, as one runner makes them; an entry order lands when sent or never; a buy-back whose answer is read either fills or is declined; during a pass positions only move toward flat, and between passes positions and stops are arbitrary.
- FadeLive.LiveFade.StoppedOut: the newest closing order is whatever the venue answers; that it belongs to this position is not modelled.
- FadeLive.LiveFade.Pass: of an aborted pass only the invariant and what every step keeps is claimed; that an abort can leave a position unprotected with the account running is stated in `CheckOpen`.
- FadeLive: prices, fees, pnl, balance snapshots and the events table are not stored; the client order id is the row's day and symbol.
- The catalogue, command lines, metrics, sweeps, model training, universe picking, options account and scripts: data, statistics or easy members.
