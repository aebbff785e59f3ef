# poly_realman in Dafny

A verified model of the decision and accounting logic of poly_realman. poly_realman is a set of paper and live trading bots for short-dated binary ("Up or Down") prediction-market contracts. The model has five layers.

- **Pricing and sizing.**
  - `ProbabilityEngine` prices a contract as the risk-neutral probability that the spot ends above the strike. It computes the edge and the confidence of that price, and nudges the price by trend and RSI signals.
  - `KellySizing` turns an edge into a fractional-Kelly stake with caps.
- **Position ledgers.**
  - `EvStrategy.EVStrategy` is the expected-value bot. It picks, sizes and enters one market per coin, settles expired positions against the oracle and halts on drawdown.
  - `WhaleCopyBot.WhaleCopyBot` copies the buys of tracked wallets. It covers dedup, screens, slippage limits, pending orders, mirror exits and the exit triggers.
  - `ShadowRunner.AntiStrategy` takes the opposite side of every trade the main bot logs.
- **Market data.**
  - `BinanceFeed` covers the candle buffer, nearest-candle lookup, volatility, drift, RSI, EMA and the expert signals.
  - `ClientWrapper` covers outcome normalisation, the winner of a market, time-block alignment, order arguments and the balance retries.
- **Whale scoring and backtesting.**
  - `WhaleScorer` scores wallets.
  - `WhaleManager` evaluates, prunes and discovers wallets.
  - `DeepBacktester` simulates compounding capital.
  - `WhaleDb` holds the wallet record.
- **Log aggregation.**
  - `PlotPerformance` synthesises the reverse "[R]" strategy and the per-strategy metrics.
  - `Dashboard` tallies each strategy.

The shared modules are `Wrappers` (Option), `Numerics` (clipping, rounding, sums), `Text` (ASCII case and substrings) and `Collections`. `Collections` provides insertion-ordered dictionaries as a key sequence plus a map, a stable sort and order-independent sums.

Conventions:

- Prices, sizes and money are `real`. Python's `round(x, n)` is modelled as round-half-up on the exact value (`Numerics.Round`); see "## Left out" for how that differs from Python.
- `ln`, `sqrt`, `exp` and the normal CDF are function parameters (a `Transcendentals` record). Where a property needs it, they come with the monotonicity or range facts it uses.
- Everything the bots fetch is a parameter of the operation that uses it: order books, oracle answers, candles, activity feeds, leaderboards and market prices. So are wall-clock times (`now`).
- Where a dictionary's iteration order matters, it is a key sequence in insertion order plus a map.

Where comments or docstrings disagree with the code, the model follows the code:

- Drift and volatility are annualised with 525960 minutes per year (binance_feed.py), although the docstring says 525600.
- The maximum drawdown of plot_performance.py takes its running peak from the first cumulative profit, not from an initial 0 as its comment says.

## Model

| member | source | states |
|---|---|---|
| KellySizing.KellyStake | kelly_sizing.py:61-100 | a stake is produced only for a positive bankroll, a win probability and a price strictly inside (0, 1), positive odds and a positive full-Kelly fraction |
| KellySizing.StakeIsFractional | kelly_sizing.py:70-100 | once the guards pass, the stake is the bankroll times the full-Kelly fraction scaled by the Kelly fraction and capped |
| KellySizing.FractionalStakeCaps | kelly_sizing.py:87-100 | a stake that is placed clears the minimum bet, never exceeds the bankroll share cap nor 95% of the bankroll, and is non-negative when the minimum is |
| KellySizing.KellyStakeCaps | kelly_sizing.py:61-100 | any placed stake implies a fee below 100%, clears the minimum bet and stays under both caps |
| KellySizing.KellyBetSize | kelly_sizing.py:30-102 | returns 0 for a non-positive bankroll or a win probability or price outside (0, 1) |
| KellySizing.KellyZeroWhenFeeAtLeastOne | kelly_sizing.py:70-74 | a fee of 100% or more makes the odds non-positive, so the bet is 0 |
| KellySizing.FullKellySignIsEdgeSign | kelly_sizing.py:70-83 | with a fee below 100% the odds are positive, and the full-Kelly fraction is positive exactly when the expected edge is positive |
| KellySizing.KellyZeroWithoutEdge | kelly_sizing.py:80-84 | no bet is ever placed without a positive expected edge |
| KellySizing.KellyStakeWithEdge | kelly_sizing.py:80-97 | conversely, a positive edge whose capped fractional amount clears the minimum bet does produce a stake |
| KellySizing.KellyBetWithinCaps | kelly_sizing.py:90-102 | the rounded bet never exceeds the bankroll share cap or 95% of the bankroll by more than the half-cent of rounding |
| KellySizing.KellyMonotoneInWinProb | kelly_sizing.py:76-102 | a higher win probability never lowers the bet |
| KellySizing.StakeMonotone | kelly_sizing.py:76-100 | a higher win probability keeps a placed stake placed and never lowers it |
| KellySizing.FractionalStakeMonotone | kelly_sizing.py:87-100 | a larger full-Kelly fraction keeps a placed stake placed and never lowers it |
| KellySizing.StakeNonNegative | kelly_sizing.py:87-100 | a placed stake is non-negative when the minimum bet is |
| KellySizing.FullKellyMonotone | kelly_sizing.py:80 | the full-Kelly fraction grows with the win probability at fixed positive odds |
| KellySizing.KellyExamples | kelly_sizing.py:30-102 | at a 70% model probability against a 55-cent price the quarter-Kelly bet on 100 USDC is positive and at most 10; at 40% it is 0 |
| KellySizing.KellyInfoAsWritten | kelly_sizing.py:105-149 | the diagnostic record as written: all zeros for a price outside (0, 1) or a non-positive win probability; None where the logarithm would raise |
| KellySizing.KellyInfoAsWrittenRaisesAtCertainty | kelly_sizing.py:139-140 | at win probability 1 the growth term takes the logarithm of 0, so the record as written cannot be produced |
| KellySizing.LogArgumentsPositive | kelly_sizing.py:139-140 | for every win probability below 1 both logarithm arguments are positive, so the record as written exists |
| KellySizing.KellyInfoOf | kelly_sizing.py:105-149 | the corrected record: all zeros whenever the win probability or the price is outside (0, 1) |
| KellySizing.KellyInfoOfAgrees | kelly_sizing.py:105-149 | below certainty the corrected record equals the record as written |
| KellySizing.KellyInfoEdge | kelly_sizing.py:135-148 | the reported edge is the probability engine's expected edge rounded to 4 places |
| KellySizing.CalculateEdgeIsNetWinEdge | kelly_sizing.py:135 | the probability engine's edge is the win probability times the net win less the loss probability times the price |
| KellySizing.AsWrittenEdge | kelly_sizing.py:124-135 | the edge as written is p times the net win minus q times the price, rounded to 4 places |
| KellySizing.FullKellyBelowOne | kelly_sizing.py:132 | below certainty the full-Kelly fraction is below 1 |
| KellySizing.OddsPositiveMeansFeeBelowOne | kelly_sizing.py:70-74 | positive odds at a price inside (0, 1) imply a fee below 100% |
| KellySizing.OddsNonPositive | kelly_sizing.py:70-74 | a fee of 100% or more gives non-positive odds |
| ProbabilityEngine.SettledOutcome | probability_engine.py:79-87 | the settled probability is 1 exactly when spot is above strike and 0 exactly when it is not |
| ProbabilityEngine.CalculateBinaryProbability | probability_engine.py:40-102 | always a probability; 0.5 for a non-positive spot or strike; the settled outcome at or past expiry or when the scaled volatility is at most 1e-10; otherwise clipped to [0.001, 0.999] |
| ProbabilityEngine.ZeroDriftUsesRiskFreeRate | probability_engine.py:92 | a zero drift is replaced by the risk-free rate |
| ProbabilityEngine.D2MonotoneInSpot | probability_engine.py:94-95 | d2 grows with the spot price when the logarithm is monotone |
| ProbabilityEngine.ProbabilityMonotoneInSpot | probability_engine.py:40-102 | the YES probability never falls when the spot price rises (given monotone logarithm and normal CDF) |
| ProbabilityEngine.CalculateEdge | probability_engine.py:131-132 | a price outside (0, 1) yields the sentinel edge -1 |
| ProbabilityEngine.EdgeBreakEven | probability_engine.py:135-143 | the edge is positive exactly when p times (net win plus price) exceeds the price |
| ProbabilityEngine.EdgeMonotoneInProb | probability_engine.py:141 | the edge grows with the fair probability |
| ProbabilityEngine.EdgeExamples | probability_engine.py:105-143 | a 70% fair probability against a 55-cent price is +EV, 40% is -EV |
| ProbabilityEngine.CalculateImpliedProbability | probability_engine.py:146-157 | both branches return the market price unchanged |
| ProbabilityEngine.GetProbabilityConfidence | probability_engine.py:160-198 | the confidence is in [0, 1] |
| ProbabilityEngine.FullConfidenceIff | probability_engine.py:176-198 | full confidence exactly when there are at least 20 candles, at least 60 s to expiry and a volatility within [0.05, 5] |
| ProbabilityEngine.ConfidenceMonotoneInCandles | probability_engine.py:179-184 | more candles never lower the confidence |
| ProbabilityEngine.AdjustProbByExpertSignals | probability_engine.py:199-244 | the adjusted probability is in [0.001, 0.999] |
| ProbabilityEngine.AdjustNormalState | probability_engine.py:209-243 | in the normal state only the trend shift applies, and the log reads "Neutral" exactly when the trend is neutral |
| ProbabilityEngine.AdjustOverbought | probability_engine.py:233-235 | when overbought, 3% is taken off exactly when the trend-adjusted probability exceeds 0.85 |
| ProbabilityEngine.AdjustOversold | probability_engine.py:236-238 | when oversold, 3% is added exactly when the trend-adjusted probability is below 0.15 |
| ProbabilityEngine.AdjustNeutralIff | probability_engine.py:206-243 | no reason is logged exactly when the trend is neutral, there is no strong-trend state, and no overheat or oversold correction fires |
| EvStrategy.ExtractCoin | ev_strategy.py:111-117 | the coin is always one of BTC, ETH, SOL, XRP or empty |
| EvStrategy.ParsingIgnoresCase | ev_strategy.py:111-171 | coin extraction and the above/below test give the same answer on the upper- or lower-cased question |
| EvStrategy.MinPositive | ev_strategy.py:637-638 | the least positive price of the levels, present among them and below every positive level; None exactly when no level has a positive price |
| EvStrategy.MaxPositive | ev_strategy.py:648-649 | the greatest positive price of the levels, present among them and above every positive level; None exactly when no level has a positive price |
| EvStrategy.BestAsk | ev_strategy.py:631-640 | non-negative; when positive it is a listed ask no greater than any positive ask; 0 exactly when a level is malformed or no ask is positive |
| EvStrategy.BestBid | ev_strategy.py:642-651 | non-negative; when positive it is a listed bid no smaller than any positive bid; 0 exactly when a level is malformed or no bid is positive |
| EvStrategy.OrderImbalance | ev_strategy.py:261-263 | with asks on the book the imbalance times the ask depth is the bid depth; without asks it is 999 when bids are present and 1 otherwise |
| EvStrategy.ImbalanceThreshold | ev_strategy.py:263 | with asks on the book the imbalance reaches a threshold exactly when the bid depth is at least that multiple of the ask depth |
| EvStrategy.SpreadRatio | ev_strategy.py:256-258 | the ratio times the ask is the non-negative spread, and it lies in [0, 1] for a non-negative bid |
| EvStrategy.ThetaPremium | ev_strategy.py:267 | non-negative; positive exactly when the probability is below 10% and the ask above it, and then it is the ask less the probability |
| EvStrategy.SidedProb | ev_strategy.py:245-246 | a probability stays a probability after the NO-token and "below" flips |
| EvStrategy.SidedProbComplement | ev_strategy.py:245-246 | the above and below readings of a question sum to 1, and a NO token below equals the YES token above |
| EvStrategy.Analyse | ev_strategy.py:213-271 | a market is skipped exactly when no coin is named, the spot is not positive, less than 10 s remain or there is no ask; otherwise the candidate keeps the market's fields, prices at the best ask, has a positive strike, zero velocity, a probability in [0.001, 0.999] and the fee-adjusted edge of that probability at that ask |
| EvStrategy.UnparsedStrikeIsSpot | ev_strategy.py:224-230 | a strike that does not parse is replaced by the spot price |
| EvStrategy.PickStep | ev_strategy.py:274-285 | one scanned market replaces the coin's pick exactly when the coin has none yet or its edge is strictly higher |
| EvStrategy.PickFoldCoins | ev_strategy.py:274-285 | the fold of the pick loop lists each picked coin once, and exactly the coins with a pick |
| EvStrategy.ScanVelocityZero | ev_strategy.py:271-285 | when the analysis never reports a velocity, no pick has one |
| EvStrategy.SniperNeverEnters | ev_strategy.py:271-345 | so the Imbalance_Sniper persona, which needs a velocity, never enters on a pick of the scan |
| EvStrategy.SelectBestPicks | ev_strategy.py:198-285 | the picked coins are distinct, in first-seen order, equal to the pick fold over the markets, and each pick is the first eligible market with the highest edge for its coin |
| EvStrategy.UpdateTracker | ev_strategy.py:309-315 | only the market's own entry changes; it is tracked afterwards exactly when its imbalance is at least 2, or it was tracked and the imbalance is at least 1.5 |
| EvStrategy.TrackerKeepsFirstSighting | ev_strategy.py:309-311 | a market still tracked keeps its first-seen time |
| EvStrategy.EntryDecision | ev_strategy.py:317-349 | only the three named strategies enter; all but Spread_Fisher enter at the pick as found |
| EvStrategy.EntryThresholds | ev_strategy.py:319-345 | Theta_Reaper enters only at probability >= 0.85 and edge >= 1.5%; Spread_Fisher only at spread ratio >= 10% and probability in [0.40, 0.60] with a price of at least 1 cent; Imbalance_Sniper only after 15 s of sustained imbalance, at probability in [0.20, 0.80] and a non-negative edge |
| EvStrategy.SpreadFisherEdge | ev_strategy.py:332-335 | Spread_Fisher bids 5 cents under its probability and recomputes the edge at that price |
| EvStrategy.StakeFor | ev_strategy.py:352-368 | the stake is never below the minimum bet |
| EvStrategy.ZeroKellyStillBets | ev_strategy.py:365-370 | a zero Kelly size is still raised to the minimum bet, so every accepted pick is entered |
| EvStrategy.StakeWithinCaps | ev_strategy.py:360-368 | the stake respects the bankroll-share and absolute caps whenever the minimum bet does, and a Kelly size within the bounds is used unchanged |
| EvStrategy.EntrySize | ev_strategy.py:396-407 | the recorded size is always positive |
| EvStrategy.EntrySizeClose | ev_strategy.py:396-407 | the recorded size is the requested size, or 95% of the bankroll when the request exceeds it, within rounding to cents |
| EvStrategy.SettleWin | ev_strategy.py:536-553 | a win adds one win, adds the net payout minus the stake to the profit, raises the peak to the new bankroll, leaves the drawdown |
| EvStrategy.SettleLoss | ev_strategy.py:568-584 | a loss leaves the bankroll, adds one loss, subtracts the stake from the profit, keeps the peak and raises the maximum drawdown to the current equity drawdown |
| EvStrategy.DrawdownInUnit | ev_strategy.py:579-581 | with positive equity the drawdown lies in [0, 1) |
| EvStrategy.SettleOne | ev_strategy.py:499-531 | settling one position keeps every position key and removes at most that one |
| EvStrategy.SettleOneRemoves | ev_strategy.py:500-531 | a position is removed only when it is due and the oracle answered, and no other position changes |
| EvStrategy.SettleFrom | ev_strategy.py:499-531 | the pass over the positions only appends to the removal list |
| EvStrategy.SettleCounts | ev_strategy.py:526-531 | wins plus losses grow by exactly the number of removed positions |
| EvStrategy.SettleMonotone | ev_strategy.py:552-584 | settlement never lowers the peak bankroll or the maximum drawdown |
| EvStrategy.SettleRemovesOnlyDecided | ev_strategy.py:499-534 | every removed position was due and decided by the oracle, and none is removed twice |
| EvStrategy.HaltAtHalfOfPeak | ev_strategy.py:607-627 | the bot halts exactly when equity is at most half of the greatest of peak, equity and initial bankroll |
| EvStrategy.InitialBankroll | ev_strategy.py:52-78 | paper mode starts from the configured bankroll; live mode from a wallet balance above 0.05 when there is one |
| EvStrategy.AfterBet | ev_strategy.py:385-491 | placing a bet leaves the tracker, adds at most the bet's own tid to the positions and keeps the insertion order consistent |
| EvStrategy.EnterStep | ev_strategy.py:296-378 | one pick of the entry loop keeps the ledger consistent, never drops a position and adds at most one |
| EvStrategy.EnterFromBounded | ev_strategy.py:294-378 | the entry loop keeps the ledger consistent, never drops a position, and never takes the book past the concurrent-bet limit unless it already was |
| EvStrategy.LastQuote | ev_strategy.py:200-211 | a quote found for a tid is the best bid of a listed market with that tid |
| EvStrategy.Refreshed | ev_strategy.py:200-211 | refreshing prices keeps exactly the same held tids |
| EvStrategy.RefreshedIsLastQuote | ev_strategy.py:200-211 | after the refresh a held position differs only in its current price, which is the best bid of the last listed market with its tid, or unchanged when none lists it |
| EvStrategy.EVStrategy.constructor | ev_strategy.py:44-101 | starts with no positions, no tracked imbalance, zero counters and the peak at the initial bankroll |
| EvStrategy.EVStrategy.FindOpposite | ev_strategy.py:388-394 | reports exactly whether another token on the same question is already held |
| EvStrategy.EVStrategy.PlaceBet | ev_strategy.py:385-491 | a bet on an already-held question, or a live bet without a client or with a failed order, changes nothing; otherwise the position is recorded with its rounded price and size, the bet count rises, and the paper bankroll is debited with 0.5% slippage or the live bankroll re-synced |
| EvStrategy.EVStrategy.SettleAsWin | ev_strategy.py:536-553 | the bankroll and statistics become SettleWin of the old ones; positions are untouched |
| EvStrategy.EVStrategy.SettleAsLoss | ev_strategy.py:568-584 | the bankroll and statistics become SettleLoss of the old ones with the stakes currently held; positions are untouched |
| EvStrategy.EVStrategy.SumStakes | ev_strategy.py:610 | the sum of the stakes of all held positions |
| EvStrategy.EVStrategy.SettleExpiredPositions | ev_strategy.py:495-534 | the book is the settlement pass over the positions in insertion order, and exactly the settled positions are removed |
| EvStrategy.EVStrategy.CheckOne | ev_strategy.py:501-531 | one position of that loop: stamp a due position, book a decided answer as a win or a loss and list it for removal, exactly as SettleOne |
| EvStrategy.EVStrategy.CheckExpired | ev_strategy.py:499-531 | the first loop of the settlement: book and removal list follow SettleFrom |
| EvStrategy.EVStrategy.RemoveSettled | ev_strategy.py:533-534 | drops exactly the listed positions and nothing else |
| EvStrategy.EVStrategy.CheckDrawdownHalt | ev_strategy.py:607-627 | halts exactly under the 50% equity drawdown condition |
| EvStrategy.EVStrategy.RefreshHeldPrices | ev_strategy.py:200-211 | the ledger becomes the old one with the positions refreshed by the markets, each held one re-priced at its last listed best bid (RefreshedIsLastQuote); nothing else changes |
| EvStrategy.EVStrategy.EnterPicks | ev_strategy.py:294-378 | the ledger becomes the entry fold over the coins, which stops at the concurrent-bet limit and never drops a position (EnterFromBounded) |
| EvStrategy.EVStrategy.EnterOne | ev_strategy.py:296-378 | one pick of the loop moves the ledger by exactly one EnterStep |
| EvStrategy.EVStrategy.RunEvStep | ev_strategy.py:175-381 | a halted bot changes nothing; otherwise the ledger is the settlement, then the re-pricing of held positions, then the entry fold over the picks of the analysed scan |
| WhaleCopyBot.SlippageModifier | whale_copy_bot.py:238-248 | the slippage allowance lies between 0.5% and 6% |
| WhaleCopyBot.SlippageMonotone | whale_copy_bot.py:238-248 | a larger whale trade or a higher score never lowers the allowance |
| WhaleCopyBot.TargetPrice | whale_copy_bot.py:250 | the target never exceeds 0.99 and never falls below a whale price within [0, 0.99] |
| WhaleCopyBot.CopyBetSize | whale_copy_bot.py:253-255 | between 0 and the smaller of 5% of the bankroll and 100 USDC; the full base at score 100 or more, 0 at score 0 or less |
| WhaleCopyBot.CopyBetMonotone | whale_copy_bot.py:253-255 | a higher score never lowers the bet |
| WhaleCopyBot.ScreenFilters | whale_copy_bot.py:154-235 | a seen transaction is skipped; a buy is copied only if new, timestamped after start-up and within 30 minutes, priced below 0.95, under the position limit and accepted by the market check; a sell is mirrored only for a held position with the same key |
| WhaleCopyBot.BuyStep | whale_copy_bot.py:250-278 | the trade is copied now exactly when the simulated fill is at most the target, at that fill price; otherwise a 60-second pending order for the target price and bet size is queued |
| WhaleCopyBot.FreshBuyPassesScreen | whale_copy_bot.py:154-235 | a concrete fresh 0.40 buy, 30 s old, passes every screen and reaches the fill simulation |
| WhaleCopyBot.KeptOrdersMembers | whale_copy_bot.py:308-326 | an order stays pending exactly when it has not expired and does not fill |
| WhaleCopyBot.KeptOrdersIdempotent | whale_copy_bot.py:308-326 | processing the pending queue twice at the same moment keeps the same orders |
| WhaleCopyBot.KeepAll | whale_copy_bot.py:308-326 | a queue of live, unfillable orders is kept unchanged |
| WhaleCopyBot.FilledAndKeptWithinQueue | whale_copy_bot.py:318-324 | filled plus kept orders never exceed the queue |
| WhaleCopyBot.DrainKeeps | whale_copy_bot.py:301-326 | the pass over the queue keeps exactly the live unfilled orders, the seen ids, every position, and grows positions and bets by at most the number of fills, keeping the book consistent |
| WhaleCopyBot.NewPosition | whale_copy_bot.py:341-372 | a new position's current and peak prices start at the fill price and its shares are worth the bet at that price |
| WhaleCopyBot.EarlyExitBook | whale_copy_bot.py:471-484 | an early exit returns the stake to capital, settles one more trade, and counts a win exactly when the slipped payout covers the stake |
| WhaleCopyBot.WinBook | whale_copy_bot.py:498-503 | a win pays one dollar per share, adds a win and returns the stake to capital |
| WhaleCopyBot.LossBook | whale_copy_bot.py:508-511 | a loss leaves the bankroll, adds a loss and writes the stake off against capital |
| WhaleCopyBot.Remark | whale_copy_bot.py:420-427 | the current price is updated and the peak only rises |
| WhaleCopyBot.TriggerThresholds | whale_copy_bot.py:434-463 | take profit exactly at +30%; trailing stop exactly when below that, after a +10% peak and a 15% fall from it; stop loss only at -20%; timeout only after 3 days; hold exactly when none applies |
| WhaleCopyBot.TriggerByPriceAgrees | whale_copy_bot.py:434-463 | the exits decided by comparing prices, as the review applies them, are exactly the exits the ROI thresholds give |
| WhaleCopyBot.ReviewUsesTriggers | whale_copy_bot.py:420-463 | an open market with a known price re-marks the copy at that price and exits exactly as the ROI thresholds say |
| WhaleCopyBot.Review | whale_copy_bot.py:398-463 | a market with a winner or closed settles, won as the outcome matching rules say, leaving the position as it was; an early exit only on a known price that becomes the current price; the peak never falls |
| WhaleCopyBot.ClosedWithoutWinnerIsLoss | whale_copy_bot.py:402-410 | a closed market with no winner settles as a loss |
| WhaleCopyBot.SettlementBeforeTriggers | whale_copy_bot.py:402-412 | a declared winner settles before any exit trigger is looked at |
| WhaleCopyBot.ReviewOne | whale_copy_bot.py:386-463 | reviewing one position removes at most it, keeps its stake, never lowers its peak, adds one settled trade per removal and returns its stake to capital on removal |
| WhaleCopyBot.ReviewOneTouchesOnlyIt | whale_copy_bot.py:386-463 | reviewing one position leaves every other position as it was |
| WhaleCopyBot.ReviewFrom | whale_copy_bot.py:386-466 | the review pass keeps every key and only appends removals |
| WhaleCopyBot.ReviewKeepsPeaksAndStakes | whale_copy_bot.py:420-427 | across the pass, peaks never fall and stakes never change |
| WhaleCopyBot.ReviewCounts | whale_copy_bot.py:407-461 | settled trades grow by exactly the number of removals and the bet count is unchanged |
| WhaleCopyBot.StakesAgree | whale_copy_bot.py:364 | the stake total depends only on the stakes |
| WhaleCopyBot.ReviewOneConservesCapital | whale_copy_bot.py:386-463 | reviewing one copy keeps capital minus the stakes of removed copies unchanged |
| WhaleCopyBot.ReviewConservesCapital | whale_copy_bot.py:386-466 | capital minus the stakes of removed positions is conserved by the review pass |
| WhaleCopyBot.WhaleCopyBot.constructor | whale_copy_bot.py:15-41 | nothing seen, held or pending, zero counters |
| WhaleCopyBot.CopiedEffect | whale_copy_bot.py:328-381 | a copy changes the book exactly when the bet is at least 1 USDC and the key is not held; then it debits the bet, counts it and holds shares worth the bet at the fill price under the new key |
| WhaleCopyBot.HandledEffects | whale_copy_bot.py:154-278 | skipped activity changes nothing and every other id is marked seen; a mirror exits the held position at its current price; a buy copies at the fill price or queues its pending order |
| WhaleCopyBot.HandledOnce | whale_copy_bot.py:154-278 | handling the same activity twice is the same as handling it once |
| WhaleCopyBot.HandledBounded | whale_copy_bot.py:154-278 | one activity keeps the book consistent and never takes it past the position limit unless it already was |
| WhaleCopyBot.HandledAllBounded | whale_copy_bot.py:137-281 | the pass over a reply keeps the book consistent and never takes it past the position limit unless it already was |
| WhaleCopyBot.WhaleCopyBot.ExecuteCopyTrade | whale_copy_bot.py:328-381 | the state becomes Copied of the old one: a bet below 1 USDC or an already-held key changes nothing; otherwise the bet is debited, counted and the new position appended (CopiedEffect) |
| WhaleCopyBot.WhaleCopyBot.MirrorExit | whale_copy_bot.py:165-173 | the state becomes Exited of the old one: the mirrored position is removed and settled as an early exit at its current price |
| WhaleCopyBot.WhaleCopyBot.HandleActivity | whale_copy_bot.py:154-278 | the state becomes Handled of the old one, whose cases HandledEffects states; handling is idempotent (HandledOnce) and bounded by the position limit (HandledBounded) |
| WhaleCopyBot.WhaleCopyBot.TrimSeen | whale_copy_bot.py:151-152 | above 10000 remembered ids the oldest 5000 are forgotten; the state is Trimmed of the old one and nothing else changes |
| WhaleCopyBot.WhaleCopyBot.CheckWhaleActivity | whale_copy_bot.py:137-281 | a failed request changes nothing; otherwise the state is the pass over the reply after trimming the seen ids, which never grows the book past the position limit |
| WhaleCopyBot.WhaleCopyBot.CheckWhaleActivityAsWritten | whale_copy_bot.py:137-281 | as written, the missing fill simulation aborts every buy: no bet is placed and no order queued, only mirror exits shrink the book |
| WhaleCopyBot.WhaleCopyBot.ProcessPendingOrders | whale_copy_bot.py:301-326 | the state is the pass over the old queue, the queue becomes exactly the kept orders, no position is dropped, and positions and bets grow by at most the number of fills |
| WhaleCopyBot.WhaleCopyBot.HandleOrder | whale_copy_bot.py:308-324 | one order of the pass moves the state by exactly AfterOrder: an expired order is dropped, a fillable one is copied, and an unexpired unfilled one stays queued |
| WhaleCopyBot.WhaleCopyBot.ReviewPositions | whale_copy_bot.py:385-466 | the book and removal list follow the review pass in insertion order |
| WhaleCopyBot.WhaleCopyBot.ReviewStep | whale_copy_bot.py:386-463 | one iteration follows ReviewOne |
| WhaleCopyBot.WhaleCopyBot.RemoveSettled | whale_copy_bot.py:468-469 | exactly the listed positions are dropped |
| WhaleCopyBot.WhaleCopyBot.SettlePositions | whale_copy_bot.py:383-469 | the book is the review pass and exactly its removed positions are gone |
| ShadowRunner.AntiSide | shadow_runner.py:27-28 | the fade side is NO exactly when the original side is YES, and YES otherwise |
| ShadowRunner.AntiSideInvolution | shadow_runner.py:27-28 | fading a fade gives back the original side |
| ShadowRunner.AntiPrice | shadow_runner.py:30-34 | always below 1; original and fade prices sum to 1.02 above the 2-cent spread, and the fade is capped at 0.99 at or below it |
| ShadowRunner.AntiPriceAntitone | shadow_runner.py:33 | above the spread a dearer original makes a cheaper fade |
| ShadowRunner.AntiPriceJumpsAtCap | shadow_runner.py:33-34 | the cap is not monotone: the fade of 0.021 is dearer than the capped fade of 0.02 |
| ShadowRunner.FadeLost | shadow_runner.py:85-103 | when the original wins the fade loses its stake: one more loss, bankroll unchanged, the stake leaves the open book |
| ShadowRunner.FadeWon | shadow_runner.py:91-103 | when the original loses the fade is paid one dollar per share with no fee and counts a win |
| ShadowRunner.FadeStake | shadow_runner.py:36-40 | the stake is the requested size, capped at the bankroll |
| ShadowRunner.FadeNeverOverdraws | shadow_runner.py:38-42 | a non-negative bankroll never goes negative when a fade opens |
| ShadowRunner.StaleTids | shadow_runner.py:66-71 | exactly the positions open for more than an hour are listed |
| ShadowRunner.CleanedEffect | shadow_runner.py:61-74 | cleanup keeps the book and the processed ids, keeps exactly the positions open at most an hour, unchanged, and a second cleanup at the same moment changes nothing |
| ShadowRunner.Fade | shadow_runner.py:47-55 | the fade is on the opposite side at the fade price with the given stake, its shares are worth the stake at that price, and it keeps the trade's coin, market and time |
| ShadowRunner.SharesWorthStake | shadow_runner.py:52 | shares bought as stake over price are worth the stake at that price |
| ShadowRunner.OpenedEffect | shadow_runner.py:20-58 | opening records the id, replaying it changes nothing, a processed id changes nothing, and a new id debits the capped stake and counts it |
| ShadowRunner.OpenedFade | shadow_runner.py:36-58 | a fade that can be built is held exactly when it is at most an hour old, and then it is the Fade of the trade; one that cannot be built leaves the positions |
| ShadowRunner.OpenedKeepsOthers | shadow_runner.py:20-58 | when a fade is built every other position left is an earlier one, unchanged and not stale |
| ShadowRunner.ClosedEffect | shadow_runner.py:77-106 | closing an unknown id changes nothing; closing a held one books the fade's result, returns its stake to capital and drops it with every stale position, and a second close changes nothing |
| ShadowRunner.AfterRecordReplay | shadow_runner.py:184-191 | handling the same log line twice is the same as handling it once, and the processed ids only grow |
| ShadowRunner.AntiStrategy.constructor | shadow_runner.py:7-18 | the mirror is named with the [R] prefix and starts with 4000 USDC and nothing open or processed |
| ShadowRunner.AntiStrategy.CleanupStalePositions | shadow_runner.py:61-74 | the state becomes Cleaned of the old one: exactly the stale positions are dropped; the others and the book are unchanged |
| ShadowRunner.AntiStrategy.CollectStale | shadow_runner.py:64-71 | the collected tids are exactly the positions older than an hour, in insertion order |
| ShadowRunner.AntiStrategy.DropTids | shadow_runner.py:73-74 | exactly the named positions are deleted and dropped from the order; the book and the processed tids are unchanged |
| ShadowRunner.AntiStrategy.OpenPosition | shadow_runner.py:20-58 | the state becomes Opened of the old one: a processed trade id is ignored; otherwise the capped stake is debited and counted, the id is recorded, and the position, if kept, is the Fade of the trade (OpenedFade) |
| ShadowRunner.AntiStrategy.ClosePosition | shadow_runner.py:77-106 | the state becomes Closed of the old one: an unknown id changes nothing; otherwise the book settles the fade and the position and all stale ones are gone |
| ShadowRunner.AntiStrategy.HandleRecord | shadow_runner.py:184-191 | the state becomes AfterRecord of the old one; only OPEN, WIN and LOSS lines change the mirror, and replaying a line changes nothing (AfterRecordReplay) |
| ShadowRunner.OpenTwiceIsOnce | shadow_runner.py:23-46 | replaying the same OPEN line twice counts one trade |
| BinanceFeed.Converted | binance_feed.py:119-127 | every kline becomes exactly one candle, in order |
| BinanceFeed.LastN | binance_feed.py:118-127 | a bounded buffer keeps the newest items, and all of them when they fit |
| BinanceFeed.PyTail | binance_feed.py:160 | a negative-index slice is a suffix, of length k when k is within the sequence, and the whole sequence for k = 0 |
| BinanceFeed.DequeAppendKeepsLast | binance_feed.py:36 | appending to a full 120-candle deque is the same as keeping the newest 120 of the extended history |
| BinanceFeed.SpotPricesQuoted | binance_feed.py:58-61 | a coin gets a spot price exactly when it is tracked and its symbol is in the reply, and the price is the quoted one |
| BinanceFeed.CoinsAreSymbols | binance_feed.py:28-32 | the tracked coins are exactly the keys of the symbol table |
| BinanceFeed.BinancePriceFeed.constructor | binance_feed.py:27-44 | empty candle buffers and zero fetch times for every tracked coin, an empty spot cache |
| BinanceFeed.BinancePriceFeed.FetchSpotPrices | binance_feed.py:48-64 | within the 1-second cooldown or on a failed reply nothing changes; otherwise the quoted coins are overwritten and the fetch time advances; candles are untouched |
| BinanceFeed.SpotFetchedOnce | binance_feed.py:48-64 | a second fetch at the same moment with the same reply changes neither the cache nor the fetch time |
| BinanceFeed.BinancePriceFeed.GetSpotPrice | binance_feed.py:66-69 | the cached price or 0, which is the fresh quote after a successful fetch and the old cache otherwise |
| BinanceFeed.BinancePriceFeed.FetchCandles | binance_feed.py:93-130 | outside the 30-second cooldown, for a tracked coin and a successful reply, the buffer is replaced by the newest 120 converted klines and the fetch time advances; otherwise nothing changes |
| BinanceFeed.BufferOf | binance_feed.py:117-127 | appending the converted klines one by one to an emptied 120-slot deque leaves the newest 120 of them |
| BinanceFeed.BinancePriceFeed.EnsureCandles | binance_feed.py:132-135 | the coin's buffer becomes Ensured of the old one (refetched only when short and outside the cooldown), a buffer with enough candles is left alone, and other coins' buffers never change |
| BinanceFeed.EnsuredOnce | binance_feed.py:132-135 | after one ensure the same call at the same moment never fetches again |
| BinanceFeed.BinancePriceFeed.GetHfVolatility | binance_feed.py:139-157 | the buffer is first ensured; the volatility is then the high-frequency estimate of the buffer, 1.0 with fewer than 3 candles |
| BinanceFeed.BinancePriceFeed.GetParkinsonVol | binance_feed.py:185-201 | the buffer is first ensured; the volatility is then the Parkinson estimate of the buffer, 1.0 with fewer than 3 candles |
| BinanceFeed.BinancePriceFeed.GetBlendedVolatility | binance_feed.py:224-233 | the blend of the two estimators over the same ensured buffer (the second ensure does not fetch again); the spot cache is untouched |
| BinanceFeed.BinancePriceFeed.GetDrift | binance_feed.py:237-251 | the buffer is first ensured; the drift is then the annualised mean log-return of the buffer, 0 with fewer than 3 candles |
| BinanceFeed.BinancePriceFeed.GetEma | binance_feed.py:299-317 | with fewer candles than the period the EMA is the spot price after a spot fetch; otherwise the EMA fold seeded at the period-th last close over the closes after it, with the spot cache untouched |
| BinanceFeed.BinancePriceFeed.GetExpertSignals | binance_feed.py:319-358 | the signals are those of the old buffer's RSI, its 10- and 20-period EMAs (or spot) and the drift of the ensured buffer; when produced, the state is the RSI band and the RSI is in [0, 100] |
| BinanceFeed.PriceAtTime | binance_feed.py:71-89 | 0 when no candle closes within 120 s of the target; otherwise the close of the first candle nearest to it |
| BinanceFeed.LogReturnsCount | binance_feed.py:163-168 | at most one log-return per consecutive pair, exactly one when all closes are positive |
| BinanceFeed.CollectLogReturns | binance_feed.py:163-168 | the loop collects exactly the log-returns of consecutive positive closes |
| BinanceFeed.SampleVarianceNonNegative | binance_feed.py:174-177 | the sample variance is non-negative, so its square root is defined |
| BinanceFeed.HfVolatility | binance_feed.py:153-183 | 1.0 on too little data; otherwise the annualised (525960 minutes) square root of the sample variance of the recent log-returns |
| BinanceFeed.ParkinsonTermsShape | binance_feed.py:207-211 | at most one non-negative squared log range per recent candle |
| BinanceFeed.ParkinsonVol | binance_feed.py:197-222 | 1.0 on too little data; otherwise the annualised Parkinson estimate over the valid high/low ranges |
| BinanceFeed.ParkinsonVariance | binance_feed.py:217 | the Parkinson variance is non-negative |
| BinanceFeed.SumParkinsonTerms | binance_feed.py:205-211 | the loop sums exactly the valid squared log ranges and counts them |
| BinanceFeed.BlendedVolatility | binance_feed.py:233 | the blend lies between the two estimators and equals them when they agree |
| BinanceFeed.Drift | binance_feed.py:247-268 | 0 on too little data; otherwise the annualised mean log-return, positive exactly when the log-returns sum to a positive value |
| BinanceFeed.RsiInRange | binance_feed.py:272-297 | the RSI is always in [0, 100] |
| BinanceFeed.RsiWithoutLosses | binance_feed.py:293-294 | without a falling close the RSI is 100 |
| BinanceFeed.RsiWithoutGains | binance_feed.py:290-297 | when every close falls the RSI is 0 |
| BinanceFeed.Alpha | binance_feed.py:313 | the smoothing factor lies in (0, 1] |
| BinanceFeed.EmaWithinRange | binance_feed.py:313-317 | the EMA stays within any bounds that hold its seed and every later price |
| BinanceFeed.EmaOf | binance_feed.py:309-317 | the loop computes the EMA fold seeded at the period-th last close |
| BinanceFeed.Ema | binance_feed.py:305-317 | the spot price when there are fewer candles than the period, the EMA fold otherwise |
| BinanceFeed.EmaWithinCloses | binance_feed.py:309-317 | the EMA lies within the range of the closes |
| BinanceFeed.StateOf | binance_feed.py:346-350 | overbought exactly at RSI >= 80, oversold at <= 20, strong up in [60, 80), strong down in (20, 40], normal in (40, 60) |
| BinanceFeed.ReportedRsiInRange | binance_feed.py:353 | the RSI reported after rounding to one decimal still lies in [0, 100] |
| BinanceFeed.ExpertSignalsFrom | binance_feed.py:330-358 | undefined exactly when the 20-period EMA is 0 (the gap divides by it); otherwise the state is the RSI band |
| BinanceFeed.TrendFollowsEmas | binance_feed.py:336-343 | bull exactly when EMA10 is above EMA20, bear exactly when below, and a neutral trend has strength 0 |
| BinanceFeed.StrengthInUnit | binance_feed.py:339-355 | the trend strength is in [0, 1] |
| ClientWrapper.NormalizeOutcome | client_wrapper.py:147-152 | no outcome exactly for the empty string; otherwise YES, NO or the upper-cased text |
| Text.ContainsAnyIsSome | client_wrapper.py:150-151 | the keyword test holds exactly when some keyword occurs in the text |
| ClientWrapper.KeywordFacts | client_wrapper.py:150-151 | YES contains a YES keyword, NO contains none of them but contains a NO keyword |
| ClientWrapper.NormalizeOutcomeIdempotent | client_wrapper.py:147-152 | normalising a normalised outcome changes nothing |
| ClientWrapper.FirstSettled | client_wrapper.py:167-172 | the first outcome index whose price exceeds 0.99, or none when no such index has an outcome |
| ClientWrapper.FirstWinningToken | client_wrapper.py:181-189 | the first token flagged as winner or priced above 0.99, or none |
| ClientWrapper.GetMarketWinner | client_wrapper.py:133-194 | a failed request yields no answer |
| ClientWrapper.PricesTakePriority | client_wrapper.py:167-172 | once a price above 0.99 is found, the winner field and the tokens are never consulted |
| ClientWrapper.WinnerFieldBeforeTokens | client_wrapper.py:174-177 | without a settled price, a non-empty winner field decides and the tokens are ignored |
| ClientWrapper.WaitingWithoutEvidence | client_wrapper.py:167-191 | with no settled price, no winner field and no winning token the answer is WAITING |
| ClientWrapper.UpDownExample | client_wrapper.py:150-171 | an Up/Down market priced [1, 0] resolves to YES |
| ClientWrapper.BlockStart | client_wrapper.py:217 | the block start is the last multiple of the interval at or before now |
| ClientWrapper.BlockStartUnique | client_wrapper.py:217 | it is the only multiple of the interval in the window (now - interval, now] |
| ClientWrapper.NatToString | client_wrapper.py:218 | the decimal text of a number is never empty |
| ClientWrapper.FindActiveMarkets | client_wrapper.py:196-280 | the list is exactly `ActiveMarkets`: the slug hunt over the four series in order, then the global scan only when fewer than 2 were hunted; hunted markets carry the slug and end time of their current block (ending within one interval), every market has token ids, and the scan never adds a market id already found |
| ClientWrapper.HuntSeries | client_wrapper.py:215-243 | the hunt's entries are `Hunted` over all four series, each stamped with the slug and end time of its series' current block |
| ClientWrapper.HuntOne | client_wrapper.py:216-243 | one series appends exactly the token-bearing markets of the reply to its current slug |
| ClientWrapper.HuntReply | client_wrapper.py:230-241 | the markets of one reply with token ids, in order, stamped with the slug and the block end |
| ClientWrapper.HuntedMarketsMembers | client_wrapper.py:230-241 | a hunted reply contributes exactly its markets with token ids, and nothing else |
| ClientWrapper.HuntedIncludes | client_wrapper.py:215-241 | every market with token ids in the reply to a hunted slug is in the hunt's result, with that series' slug and block end |
| ClientWrapper.HuntedShape | client_wrapper.py:215-241 | every hunted entry has token ids and the slug and end time of the current block of one of the hunted series, ending within one interval after now |
| ClientWrapper.ScanEvents | client_wrapper.py:257-273 | the scan's result is `Scanned` over the events; it keeps the hunted list as its prefix, every appended entry has token ids, and no appended id repeats an earlier one |
| ClientWrapper.ScanEvent | client_wrapper.py:260-273 | one event's markets are appended exactly as `ScannedMarkets` says |
| ClientWrapper.ScannedMarketsEffect | client_wrapper.py:260-273 | scanning one event keeps what was found, appends only its token-bearing markets with new ids, and leaves none of them unfound |
| ClientWrapper.ScannedEffect | client_wrapper.py:257-273 | the global scan keeps the hunted prefix, appends only token-bearing markets of events whose title names BTC, ETH or SOL with ids not found before, and leaves no such market unfound |
| ClientWrapper.HasIdScan | client_wrapper.py:262 | reports exactly whether a market with the id was already found |
| ClientWrapper.SafeRound | client_wrapper.py:300-305 | the rounded value is always positive and is the cent rounding whenever that is positive |
| ClientWrapper.SafeRoundClose | client_wrapper.py:300-305 | above half a cent the rounding is within half a cent of the value |
| ClientWrapper.SafeRoundWholeCents | client_wrapper.py:300-305 | a whole number of cents is left unchanged |
| ClientWrapper.PlaceLimitOrder | client_wrapper.py:283-317 | paper trading is reported exactly in paper mode |
| ClientWrapper.LiveOrderArguments | client_wrapper.py:294-317 | a live order posts the positive cent-rounded price and size with the upper-cased side, and fails exactly when posting fails |
| ClientWrapper.BalanceUsesThreeAttempts | client_wrapper.py:99-120 | the balance depends only on the first three replies |
| ClientWrapper.GetUsdcBalance | client_wrapper.py:93-120 | 0 without a client; otherwise the first dictionary reply scaled by 10^6 within three attempts, or 0 |
| WhaleScorer.FreqScore | whale_scorer.py:126 | the frequency score is in [0, 100] and full at 30 or more recent buys |
| WhaleScorer.WinScore | whale_scorer.py:129 | the win-rate score is in [0, 100], 0 at 50% or below and full at 80% or above |
| WhaleScorer.RoiScore | whale_scorer.py:132 | the ROI score is in [0, 100], 0 at 0% or below and full at 50% or above |
| WhaleScorer.WeightsSumToOne | whale_scorer.py:134-138 | the three weights sum to 1 |
| WhaleScorer.FinalScore | whale_scorer.py:134-138 | the weighted score is in [0, 100], 100 for a whale full on all three, and only the frequency part remains for a losing whale |
| WhaleScorer.FinalScoreMonotone | whale_scorer.py:126-138 | more trades, a higher win rate or a higher ROI never lower the score |
| WhaleScorer.Score | whale_scorer.py:141 | the reported score is the weighted score rounded to one decimal, still in [0, 100] |
| WhaleScorer.TagsFor | whale_scorer.py:102-103 | a buy always carries at least one tag, Unknown when its event has none |
| WhaleScorer.Bump | whale_scorer.py:111-114 | bumping a tag adds one to its count (from 0 when new) and leaves every other count |
| WhaleScorer.AddTags | whale_scorer.py:111-114 | tagging does not change the trade count |
| WhaleScorer.AddTagsValid | whale_scorer.py:111-114 | tagging keeps the tally consistent: every tag listed once, and exactly the listed tags have counts |
| WhaleScorer.TallyStepValid | whale_scorer.py:66-114 | one activity keeps the tally consistent |
| WhaleScorer.TallyOfValid | whale_scorer.py:62-114 | a completed tally is consistent |
| WhaleScorer.RecentBuysSnoc | whale_scorer.py:67-80 | one more activity adds one recent buy exactly when it is a buy stamped after the cutoff |
| WhaleScorer.TallyCountsRecentBuys | whale_scorer.py:62-80 | the trade count is the number of buys stamped after the 30-day cutoff |
| WhaleScorer.TallyFailsOnMissingStamp | whale_scorer.py:76-152 | the whole score fails exactly when some buy has no timestamp |
| WhaleScorer.TallyStopsAtMissing | whale_scorer.py:150-152 | a buy without a timestamp anywhere makes the tally fail |
| WhaleScorer.ArgMaxIsFirstMax | whale_scorer.py:117 | the picked tag has the largest count and every tag before it a strictly smaller one, as a stable sort puts first |
| WhaleScorer.TopK | whale_scorer.py:117 | at most k distinct tags of the input, exactly min(k, number of tags) when the tags are distinct, in non-increasing count order, and no tag left out counts more than a tag kept |
| WhaleScorer.TopCategories | whale_scorer.py:117-118 | at most three categories, each with its own count |
| WhaleScorer.CalculateScore | whale_scorer.py:50-152 | the score of a successful reply is in [0, 100], carries at most three categories and the recent buy count |
| WhaleScorer.CountTags | whale_scorer.py:111-114 | the loop counts exactly as AddTags |
| WhaleScorer.Run | whale_scorer.py:154-173 | the same whales afterwards; inactive ones and those whose scoring fails are unchanged, the others get the new score and metrics |
| WhaleManager.Buys | whale_manager.py:61 | exactly the TRADE/BUY activities, in order |
| WhaleManager.EntryCost | whale_manager.py:76 | our slipped entry never exceeds 0.99, never undercuts a whale price within [0, 0.99], and is positive for a positive whale price |
| WhaleManager.AddTrade | whale_manager.py:71-90 | an unpriced buy is skipped; a priced one counts at most one win or loss |
| WhaleManager.TotalsOf | whale_manager.py:66-90 | wins plus losses never exceed the priced buys, which never exceed all buys |
| WhaleManager.EdgeOf | whale_manager.py:50-105 | a produced edge has a win rate in [0, 100] and at least 10 analysed trades |
| WhaleManager.RoiBar | whale_manager.py:169 | the ROI bar of 0.5% holds exactly when the current value is at least 1.005 times the amount invested |
| WhaleManager.WinRateBar | whale_manager.py:169 | the 75% win-rate bar holds exactly when wins are at least three times losses |
| WhaleManager.CountBuy | whale_manager.py:71-90 | one iteration of the replay adds exactly what AddTrade adds |
| WhaleManager.ReplayBuys | whale_manager.py:66-90 | the replay loop computes TotalsOf |
| WhaleManager.EvaluateWhaleEdge | whale_manager.py:50-105 | no edge exactly when the request fails, there are fewer than 10 buys, or nothing could be priced |
| WhaleManager.EdgeMeetsBar | whale_manager.py:169-200 | an edge passes both bars exactly when current value is at least 1.005 times invested and there is a settled trade with wins at least three times losses |
| WhaleManager.Rechecked | whale_manager.py:155-176 | a re-checked whale stays active exactly when its fresh edge passes both bars, and then carries that ROI and win rate |
| WhaleManager.Pruned | whale_manager.py:150-176 | the pruned database has the same wallets, pruning never makes a wallet active, and every wallet still active passes both bars |
| WhaleManager.RecheckOne | whale_manager.py:155-176 | one wallet of the pass: an active wallet becomes its re-checked record, any other wallet and every other entry stay as they were |
| WhaleManager.PruneWhales | whale_manager.py:150-176 | the result is Pruned of the database: every whale is kept; inactive ones are untouched, active ones are re-checked on their last 30 activities, and any whale still active passes both bars |
| WhaleManager.Addresses | whale_manager.py:184-185 | exactly the addresses of the candidates |
| WhaleManager.AddedCount | whale_manager.py:180-216 | the discovery pass adds at most one wallet per candidate |
| WhaleManager.DiscoverAllSnoc | whale_manager.py:184-214 | one more candidate is one more discovery step, counted exactly when it adds |
| WhaleManager.DiscoverOne | whale_manager.py:184-214 | a candidate is added exactly when its address is not active and its last 50 trades give an edge that passes both bars; the new record is the active whale with that edge, stamped now; nothing else changes |
| WhaleManager.DiscoverWhales | whale_manager.py:180-216 | the database and key order are the discovery fold over the candidates and the count is its number of additions; no whale is dropped, active whales are untouched, and every newly active whale passes both bars |
| WhaleManager.DiscoveredStep | whale_manager.py:184-216 | one more candidate keeps the discovery invariant: nothing dropped, active whales untouched, every change an active candidate passing both bars |
| WhaleManager.RunManager | whale_manager.py:143-218 | the candidates are the top 300 of the leaderboard (`Leaderboard(LeaderboardLimit, page)`), and the database is the discovery fold over them applied to the pruned database; every active whale passes both bars, no whale is removed, and an inactive whale that is not a candidate is left as it was |
| WhaleManager.RowCandidates | whale_manager.py:130-134 | the candidates of one page have non-empty addresses, at most one per row |
| WhaleManager.PagesFrom | whale_manager.py:118-139 | every candidate gathered from the pages has a non-empty address |
| WhaleManager.Leaderboard | whale_manager.py:107-141 | at most limit candidates, all with an address, and a prefix of the candidates of the pages |
| WhaleManager.EmptyFirstPage | whale_manager.py:127-128 | a first page that fails or is empty gives no candidates |
| WhaleManager.NextPage | whale_manager.py:118-134 | a non-empty page below the limit contributes its rows and hands on to the next offset |
| WhaleManager.FetchPage | whale_manager.py:118-139 | one request: an empty or failed page stops the scan, any other adds its candidates and moves on by 50 |
| WhaleManager.PageCandidates | whale_manager.py:130-134 | the row loop turns the page into exactly its candidates |
| WhaleManager.FetchTopLeaderboard | whale_manager.py:107-141 | the result is the Leaderboard of the pages: at most limit whales, all with a non-empty address, from at most ceil(limit / 50) pages |
| DeepBacktester.BuysOf | deep_backtester.py:43-51 | exactly the TRADE/BUY activities and those whose action is Buy |
| DeepBacktester.Tagged | deep_backtester.py:94-114 | at most one trade per buy, each tagged with the whale's name and score (50 when it has none) |
| DeepBacktester.GatheredFromActive | deep_backtester.py:26-31 | every gathered trade comes from an active whale and carries its name and score |
| DeepBacktester.CollectTrades | deep_backtester.py:91-115 | the collection loop gathers exactly the tagged buys of the active whales in database order |
| DeepBacktester.PriceIn | deep_backtester.py:69-79 | no price exactly when no market matches the condition with a price at the outcome index; otherwise the price of a matching market |
| DeepBacktester.Lookup | deep_backtester.py:56-82 | a cached key answers from the cache; an uncached one asks the feed; the cache only grows, by the key exactly when a price was found, and never changes existing entries |
| DeepBacktester.LookupIdempotent | deep_backtester.py:58-60 | a second lookup of a found price returns it from the cache and changes nothing |
| DeepBacktester.BetSize | deep_backtester.py:143-145 | between 0 and the smaller of 5% of capital and 100; the full base at score 100 or more, 0 at score 0 or less |
| DeepBacktester.TradeProfit | deep_backtester.py:150-164 | a trade loses at most its bet, and with a positive bet it gains exactly when the resolution price exceeds our entry |
| DeepBacktester.Settle | deep_backtester.py:163-182 | capital moves by the trade profit, one timeline line is appended, and the trade is classified as exactly one of win (>= 0.99), loss (<= 0.01) or open |
| DeepBacktester.SimStep | deep_backtester.py:133-182 | an unaffordable trade or bad price changes nothing; an unresolved one only updates the cache; otherwise the trade settles |
| DeepBacktester.RunCounts | deep_backtester.py:133-182 | each timeline line is one classified trade, and there is at most one line per trade |
| DeepBacktester.LookupNonNegative | deep_backtester.py:56-82 | with non-negative feed prices the cache stays non-negative and so do the answers |
| DeepBacktester.StepKeepsCapital | deep_backtester.py:143-167 | one step loses at most 5% of capital |
| DeepBacktester.RunKeepsCapital | deep_backtester.py:126-182 | capital never becomes negative during the simulation |
| DeepBacktester.DeepBacktester.constructor | deep_backtester.py:21-24 | the cache starts empty |
| DeepBacktester.DeepBacktester.GetMarketResolutionPrice | deep_backtester.py:56-82 | answer and new cache are those of Lookup on the old cache |
| DeepBacktester.DeepBacktester.SimulateTrade | deep_backtester.py:133-182 | one loop iteration follows SimStep on the old cache |
| DeepBacktester.DeepBacktester.Replay | deep_backtester.py:124-182 | the compounding loop from $1000 ends in exactly the state Run computes over the trades, cache included |
| DeepBacktester.DeepBacktester.Simulate | deep_backtester.py:84-201 | no report when no trade was gathered; otherwise the report is the run over the gathered trades stably sorted by time, and the cache is the run's |
| PlotPerformance.NoOpenNoEntry | plot_performance.py:49-73 | a trade id never opened has no remembered entry, so the 0.5 price and zero size defaults apply |
| PlotPerformance.LatestOpenWins | plot_performance.py:58-62 | the remembered entry of a trade id is that of its latest OPEN row |
| PlotPerformance.AntiRecord | plot_performance.py:64-110 | the mirrored row keeps timestamp, id and size, is credited to the [R] strategy at the fade price, turns a WIN into a LOSS of the whole stake and a LOSS into a WIN, and leaves other actions with zero profit |
| PlotPerformance.SyntheticVersusShadow | plot_performance.py:82-99 | the synthesised loss equals the live mirror's loss, and the synthesised win is the live mirror's win less a 2% fee on the payout |
| PlotPerformance.ReverseRow | plot_performance.py:64-110 | the loop body builds exactly AntiRecord |
| PlotPerformance.SynthesizeReverse | plot_performance.py:49-110 | one mirrored row per log row, each built from the entries remembered up to and including that row |
| PlotPerformance.Strategies | plot_performance.py:117 | every strategy of the frame, and only those, listed once |
| PlotPerformance.RowsOf | plot_performance.py:129 | exactly the rows of the given strategy |
| PlotPerformance.Pnls | plot_performance.py:132 | the profit column, row for row |
| PlotPerformance.CountAction | plot_performance.py:137-139 | a count of rows never exceeds the rows |
| PlotPerformance.DrawdownPeak | plot_performance.py:145-147 | the running maximum is the largest cumulative profit so far, and it is attained |
| PlotPerformance.MaxDrawdownBound | plot_performance.py:145-148 | the maximum drawdown is at most any later cumulative profit minus an earlier one |
| PlotPerformance.MaxDrawdownAttained | plot_performance.py:145-148 | and it equals such a difference for some pair |
| PlotPerformance.MaxDrawdownNonPositive | plot_performance.py:145-148 | the maximum drawdown is never positive |
| PlotPerformance.MetricsOf | plot_performance.py:129-157 | win rate in [0, 100] (0 without closed trades), drawdown at most 0, total profit equal to final equity, trades counted as WIN plus LOSS rows |
| PlotPerformance.MetricsTable | plot_performance.py:120-157 | one metrics row per strategy, in order of first appearance |
| PlotPerformance.PlotPerformance | plot_performance.py:42-157 | the frame is the log followed by one mirrored row per log row, each built from the entries remembered so far, and the metrics are those of the whole frame |
| PlotPerformance.EveryStrategyHasReverse | plot_performance.py:113-117 | every strategy in the log appears in the metrics together with its [R] mirror |
| Dashboard.CountRecord | dashboard.py:36-54 | a record adds at most as many wins plus losses as it adds trades |
| Dashboard.TallyOf | dashboard.py:19-56 | the counters are keyed once per strategy in order of first appearance, and no strategy has more wins plus losses than trades |
| Dashboard.TallyMatchesSums | dashboard.py:36-48 | a strategy's PnL is the sum of the PnL of its settled records and its trade count their number; a strategy with no record has neither |
| Dashboard.RecordEffect | dashboard.py:44-52 | only WIN, LOSS and EXPIRED records move PnL and trades; such a record adds one trade, counts a win exactly when its PnL is positive and a loss exactly when negative; only OPEN records add to the total bet, by their size |
| Dashboard.ReadLog | dashboard.py:19-56 | the loop over the log builds exactly TallyOf of the lines |
| Dashboard.CountLine | dashboard.py:36-54 | the loop body builds exactly CountRecord |
| Dashboard.Items | dashboard.py:66 | the items of the counters, one per strategy, in key order |
| Dashboard.WinRateOf | dashboard.py:70 | the win rate lies in [0, 100] and is 0 for a strategy without trades |
| Dashboard.SummaryRows | dashboard.py:68-73 | one row per item, in order, each the row of its item, and the total is the sum of the items' PnL |
| Dashboard.RowsSound | dashboard.py:66-73 | each row of a reordering of the items shows its own strategy's counters, with a win rate in [0, 100] that is 0 without trades |
| Dashboard.RowsByPnl | dashboard.py:66-68 | rows of items sorted by descending PnL list the PnL highest first |
| Dashboard.ListsEach | dashboard.py:66-73 | every strategy of the tally has a row |
| Dashboard.NamesOnce | dashboard.py:66-73 | no strategy has two rows |
| Dashboard.LineSums | dashboard.py:36-48 | one line adds to a strategy's PnL and trade count exactly when it is a settled record of that strategy with a numeric PnL |
| Dashboard.Summarize | dashboard.py:66-73 | the rows are those of the strategies sorted by PnL from highest; each strategy of the tally has exactly one row, showing its own counters with a win rate in [0, 100], and the total is the sum of all strategies' PnL |
| Dashboard.Refresh | dashboard.py:15-83 | one refresh lists every strategy of the log once, by PnL from highest, each row with the PnL and trade count summed over that strategy's settled records, and the total profit over all of them |
| Collections.SortBy | deep_backtester.py:122 | sorting keeps exactly the elements given, each as often |
| Collections.SortByOrders | deep_backtester.py:122 | the sorted sequence is in ascending key order |
| Collections.SumByPermutation | dashboard.py:66-71 | a sum over a reordering of the items equals the sum in the original order |
| Collections.PermutationNoDuplicates | dashboard.py:66 | reordering a sequence without repetitions leaves none |
| Collections.RemoveOnce | whale_scorer.py:117 | removing an element present once shortens a sequence without repetitions by one |

## Left out

- HTTP and venue calls: the requests, CLOB client, Binance, Gamma and data-api calls. Their decoded answers are parameters.
- `get_order_book` (client_wrapper.py): a network call. Its decoded books are parameters.
- `fetch_whale_stats` (whale_scorer.py): its body is empty.
- File I/O is left out: `_log_trade`, `_save_snapshot`, `save_status`, the wallet database load and save, `trade_history.jsonl` reading, and `backtest_results.json`. The dashboard and the plots take the decoded log lines as input.
- Terminal output and charts are left out: `_render`, `show_status`, `get_market_summary` (binance_feed.py, a logging summary), every `print` (including the backtester's progress and ROI lines), the console clearing, and the matplotlib/seaborn drawing.
- The dashboard's `while True` refresh loop and its 5-second sleep. One refresh is modelled (`Dashboard.Refresh`).
- Threads and locks: the whale bot's maintenance thread and the candle-feed lock. The model is sequential.
- Timestamp parsing (`strptime`, ISO strings): times are given as seconds.
- `extract_strike_price` (ev_strategy.py): it parses the strike with regular expressions and a live spot lookup. The model reads the parsed strike from the `strike` field of the `FeedView` given to `EvStrategy.Analyse`.
- EvStrategy.Analyse: the Binance feed's spot, blended volatility, drift and expert signals are read from a `FeedView` fixed for the scan. The candle and spot fetches that `run_ev_step` makes coin by coin during the scan are modelled in `BinanceFeed`, not replayed here.
- EvStrategy.Analyse: `config.VOL_SCALE_FACTOR` and `config.STRATEGY_NAME` are read by ev_strategy.py but not defined in config.py. They are parameters of the model (`volScale`, `Settings.strategyName`).
- EvStrategy.Depth: a book level whose size is missing or not a number makes `run_ev_step` raise (the sum at ev_strategy.py:261-262 is not guarded). The model counts such a level as size 0.
- The scan's `analysis_results` list, the `strength` and `alpha_log` fields of a pick, and the `conditionId` it carries only feed the terminal display, so they are not modelled.
- The live-mode balance sync that overwrites the bankroll from the venue, and its timer in `run_ev_step`. These are external assignments.
- Binary floating point: every quantity is an exact real.
- Numerics.Round: Python's `round` rounds half to even on the binary value (`round(0.125, 2)` is 0.12), while the model rounds half up on the exact value. The figures of ClientWrapper.SafeRound, BinanceFeed.ExpertSignalsFrom, KellySizing.KellyInfoOf and WhaleScorer.Score can therefore differ from Python's in the last digit at exact halves.
- The real values of `ln`, `sqrt`, `exp` and the normal CDF. They are uninterpreted, so the numeric ATM/ITM/OTM test values are not reproduced.
- PlotPerformance.PlotPerformance: `sort_values` in pandas is not stable, so the log rows are taken to be already in timestamp order. The metrics table is kept in order of first appearance; the display sort by PnL is left out.
- WhaleCopyBot.WhaleCopyBot.TrimSeen: Python's `list(set)` order is unspecified. The model drops the 5000 ids seen first and keeps the rest.
- WhaleCopyBot.WhaleCopyBot.CheckWhaleActivity: the fill price returned by the VWAP parameter is assumed positive (`PositiveFills`).
- The whale bot's `peak_bankroll` and `max_drawdown` fields are never updated by its code, so they are not modelled.
- The `roi` counter of the dashboard is never read, so it is not modelled.
- DeepBacktester.DeepBacktester.Simulate: a score stored as null would make the bet-size arithmetic raise in Python. The model treats it like a missing score, which defaults to 50.
- WhaleManager.FetchTopLeaderboard: the leaderboard answer is a sequence of pages of decoded entries. The several JSON shapes the code accepts are not distinguished.
- Collections.SortBy: the contract states the permutation and the ascending order but not stability. Stability holds by construction (ties are inserted after their equals) and is not stated.

## Findings

| source | as written | input that shows it | evidently intended | confidence | as-written member | corrected member |
|---|---|---|---|---|---|---|
| kelly_sizing.py:136-140 | with a positive full-Kelly fraction the growth rate takes `log(1 - f_star)`, and a win probability of exactly 1 makes `f_star` 1, so the log of 0 raises ValueError | win_prob 1.0, market_price 0.5, fee_rate 0.02 | a certain win should return the all-zero record like the other out-of-range probabilities, or the growth of a full stake | not executed | KellySizing.KellyInfoAsWrittenRaisesAtCertainty | KellySizing.KellyInfoOf |
| whale_copy_bot.py:257 | the copy path calls `simulate_market_buy_vwap`, which the client class does not define; the AttributeError is caught at lines 280-281, so no whale buy is ever copied or queued | a fresh BUY at 0.40 from a tracked wallet that passes every screen (WhaleCopyBot.FreshBuyPassesScreen) | fill the order at the book's VWAP for the stake and copy it when within the target price, else queue it | not executed | WhaleCopyBot.WhaleCopyBot.CheckWhaleActivityAsWritten | WhaleCopyBot.WhaleCopyBot.CheckWhaleActivity |
