# Paper-trading bot core, modelled in Dafny

This project models the decision-making core of a paper-trading bot for crypto perpetuals, and proves properties of it.

- **Virtual portfolio.** The bot keeps one leveraged position at a time in a virtual portfolio with a cash balance. It enters with slippage, a 95% commitment and a 0.04% fee. It exits fully or partially against a 5% liquidation floor. It ratchets a 2% trailing stop and logs every trade to a trade table.
- **Position monitor.** A monitor ticks on the latest price. It fires target, trailing-stop and partial-take-profit tags and handles each tag under a 300-second cooldown.
- **Signal detector.** This detector scans indicator series for crossovers, oscillator reversals, band breakouts, volume surges and multi-indicator consensus. It keeps at most three of the strongest signals per symbol, under a 60-minute cooldown.
- **Decision layer.**
  - A master agent applies an AI decision (ENTER, EXIT or HOLD) to the portfolio.
  - A scheduler verifies earlier recommendations, ranks signals, resets the portfolio and flips positions manually.
  - Around these sit a fear/greed and sentiment scorer, a symbol normalizer, and the Notion agent-configuration cache.

Money and prices are `real`, so there is no float rounding. Time is integer seconds, passed in as a parameter. Everything the bot fetches is an input to the model: exchange prices, indicator series, AI answers, Notion query results and the fear/greed API.

Module layout (one file per module):

| module | models |
|---|---|
| `Wrappers` | `Option` |
| `Config` | `normalize_symbol`, `get_symbol_display_name` |
| `TradeLog` | the `virtual_trades` table: insert and statistics |
| `Ledger` | the portfolio's operations as functions on a `Ledger` value |
| `LedgerFacts`, `LedgerInvariant` | accounting facts and the invariant every operation keeps |
| `Portfolio` | class `VirtualPortfolio`; each method is proved equal to its `Ledger` function |
| `MonitorRules`, `Monitor` | one monitor tick as a function, and class `PositionMonitor` |
| `Indicators`, `Signals`, `SignalDetection` | indicator series, the seven detectors, ranking, and class `SignalDetector` |
| `Technical` | `TechnicalAnalyzer._generate_signals` and `_calculate_overall_signal` |
| `Schedule`, `Collector` | next scheduled minute; the collector's active-symbol set |
| `MasterAgent`, `Scheduler` | decision dispatch and defaults; verification, ranking, reset and manual flip |
| `MarketData` | fear/greed cache, volatility classes, sentiment score |
| `Notion` | agent-page parsing, the agent cache, rich-text extraction, pending verifications |

## Model

| member | source | states |
|---|---|---|
| Config.ToUpper | config.py:83 | upper-casing keeps the length and maps each character through the ASCII letter mapping |
| Config.Strip | config.py:83 | the stripped string neither starts nor ends with white space and holds only characters of the input |
| Config.BaseOf | config.py:91-92 | `split("/")[0]` is the prefix before the first slash and contains no slash |
| Config.WithQuote | config.py:93-100 | `f"{base}/USDT"` contains a slash, ends in USDT and starts with the base |
| Config.NormalizeSymbol | config.py:78-102 | the empty input gives SOL/USDT; of the upper-cased, stripped input `s`: BASE/USDT is kept, "X" gives X/USDT, "XUSDT" gives X/USDT, "B/Q" gives B/USDT; every result contains "/" and ends in "USDT" |
| Config.NormalizeGivesNormalForm | config.py:83-102 | every result is upper-case, stripped, BASE/USDT |
| Config.NormalFormIsFixed | config.py:86-87 | a symbol already in that form takes the early return unchanged |
| Config.NormalizeIdempotent | config.py:78-102 | normalizing twice equals normalizing once |
| Config.DisplayName | config.py:49-76 | no slash: the input unchanged; otherwise the table name of the base, or the base itself |
| Config.DisplayNameDropsQuote | config.py:51-74 | a pair's display name never contains the slash |
| TradeLog.KeepTruthy | database.py:497-498 | a missing or zero target/stop is stored as NULL; any other value is kept |
| TradeLog.RowOf | database.py:488-500 | each column of the stored row: symbol SOL/USDT, size, invested and PnL 0, leverage 1.0 when missing |
| TradeLog.TradeTable.Insert | database.py:477-502 | the table grows by exactly the stored row, and the id returned is its position |
| TradeLog.ExitCount | database.py:596-597 | at most the number of rows |
| TradeLog.ProfitableCount | database.py:599-600 | at most the number of EXIT rows |
| TradeLog.WinRate | database.py:609 | within 0..100; profitable/total·100, or 0 with no trades |
| TradeLog.Mean | database.py:617 | sum/count, or 0 for none |
| TradeLog.PortfolioStatistics | database.py:590-630 | total counts EXIT rows; losing = total − profitable; NULL sum read as 0; win rate and average as above |
| TradeLog.NonExitRowKeepsStatistics | database.py:596-617 | logging an ENTER row changes no statistic |
| TradeLog.ExitRowCounts | database.py:596-617 | logging an EXIT adds one trade and its PnL; it is profitable iff its PnL > 0, so a PnL of exactly 0 counts as losing |
| Ledger.Slippage | virtual_portfolio.py:275-286 | the fill is price·1.001 when buying (LONG entry, SHORT exit) and price·0.999 when selling, so it always moves against the trader |
| Ledger.LeveragedValue | virtual_portfolio.py:311-318 | the value is max(inv·(1 + rate·leverage), 5% of inv): at least both, and equal to one of them |
| Ledger.PnlPct | virtual_portfolio.py:321-322 | PnL% · invested = PnL · 100, and 0 when the investment is not positive |
| Ledger.Metrics | virtual_portfolio.py:288-324 | `None` exactly on the divisions by zero; PnL = value − invested share; the value respects the floor |
| Ledger.OpenSpec | virtual_portfolio.py:99-159 | fails without change below 100 balance or at a zero price; otherwise fill = Slippage(price, ENTER), invested = 0.95·b·(1 − 0.0004), fee = 0.0004·0.95·b, size = invested·leverage/fill (zero iff the leverage is), leverage, target and stop as given, balance = 5% of the old, stop unset, flag false, and exactly one ENTER row with these values |
| Ledger.Opened | virtual_portfolio.py:102-133 | the new position's fill, investment, fee, size, leverage, target, stop and fresh flags |
| Ledger.ExitSpec | virtual_portfolio.py:190-273 | no position gives `None` and no change; a failure never touches the position or the log; success closes the position iff ratio ≥ 1 |
| Ledger.TrailingSpec | virtual_portfolio.py:347-368 | a LONG fires iff the price is a strict new high, which becomes the watermark with the stop at price·0.98; any other direction fires iff the price is below the low watermark (or none is set), which becomes the watermark with the stop at price·1.02; otherwise nothing changes |
| Ledger.SignalsSpec | virtual_portfolio.py:370-399 | no position gives []; `None` iff the metrics raise; TARGET_REACHED, TRAILING_STOP and PARTIAL_TAKE_PROFIT (PnL% ≥ 10 and not yet taken) each present iff its condition holds; every tag appears at most once, in that order |
| Ledger.RaisedTags | virtual_portfolio.py:380-397 | each tag present iff its condition, in the fixed order, without repeats |
| Ledger.PartialTakeProfitSpec | virtual_portfolio.py:401-407 | a successful half exit leaves the position marked as partially taken |
| Ledger.PositionSummary | virtual_portfolio.py:409-436 | no position iff the "no position" summary; a held position is valued at the quote or, failing that, at its entry price |
| Ledger.PortfolioStatus | virtual_portfolio.py:24-51 | total return·initial = (total value − initial)·100; the value is the balance when flat or unquoted; statistics come from the trade log; an initial balance of 0 raises |
| LedgerFacts.ShareOfRatio | virtual_portfolio.py:301-302 | selling a ratio of the size attributes that ratio of the investment |
| LedgerFacts.WholeShare | virtual_portfolio.py:293-302 | the whole size carries the whole investment |
| LedgerFacts.ExitShape | virtual_portfolio.py:194-267 | a successful exit yields exactly the ledger `ExitLedger` describes |
| LedgerFacts.ExitRaisesEarly | virtual_portfolio.py:199-207 | an exit whose metrics divide by zero returns `None` and changes nothing |
| LedgerFacts.ExitRaisesLate | virtual_portfolio.py:217-230 | an exit whose invested share is 0 raises after crediting its (zero) proceeds |
| LedgerFacts.ExitSucceeded | virtual_portfolio.py:190-273 | a successful exit reached neither division by zero |
| LedgerFacts.ExitFailureKeepsLedger | virtual_portfolio.py:190-273 | any failed exit leaves the ledger exactly as it was |
| LedgerFacts.ExitAccounting | virtual_portfolio.py:202-228 | the balance rises by value − 0.04% fee, and the released investment is the ratio of the invested amount |
| LedgerFacts.PiecesAccounting | virtual_portfolio.py:205-217 | the realized PnL = value − invested share − fee |
| LedgerFacts.ExitFees | virtual_portfolio.py:210-235 | the exit fee is 0.04% of the value sold and is added to the fees paid |
| LedgerFacts.ExitLogsOneRow | virtual_portfolio.py:241-251 | a successful exit logs exactly one EXIT row with its PnL and reason |
| LedgerFacts.PartialExitKeepsRemainder | virtual_portfolio.py:258-267 | a partial exit keeps (1 − ratio) of the size and the investment |
| LedgerFacts.SameSideRefused | virtual_portfolio.py:87-89 | same symbol, same side, no force: `False` and no change |
| LedgerFacts.FlipIsExitThenOpen | virtual_portfolio.py:91-93 | a flip is a full "Position Flip" exit followed by an entry on the exited symbol |
| LedgerFacts.SwitchClosesFirst | virtual_portfolio.py:95-100 | a switch closes the old position first, so a failed entry after it is not all-or-nothing |
| LedgerFacts.ForcedEntryDropsPosition | virtual_portfolio.py:82-136 | a forced entry over a live position replaces it without crediting it or logging an exit |
| LedgerFacts.LowBalanceBlocksEntry | virtual_portfolio.py:64-72 | below 100 balance nothing is entered and nothing changes |
| LedgerFacts.RoundTripLoses | virtual_portfolio.py:99-217 | entering and exiting at the same quote always ends with less money |
| LedgerFacts.ExitAtQuoteReturnsAtMost | virtual_portfolio.py:194-267 | closing at the quote a position was entered at returns at most its investment |
| LedgerFacts.MetricsAtEntry | virtual_portfolio.py:288-324 | valued at its own entry price, a position shows PnL 0 and PnL% 0 |
| LedgerFacts.SummaryWithoutQuote | virtual_portfolio.py:414-417 | without a stored quote the summary shows PnL 0 |
| LedgerFacts.MetricsMonotone | virtual_portfolio.py:305-321 | a LONG gains weakly as the price rises; any other direction as it falls |
| LedgerFacts.ValueMonotone | virtual_portfolio.py:311-318 | the floored leveraged value is monotone in the rate |
| LedgerInvariant.OpenKeepsValid | virtual_portfolio.py:99-155 | an entry keeps the ledger invariant |
| LedgerInvariant.ProceedsNonNegative | virtual_portfolio.py:210-217 | an exit never debits the balance |
| LedgerInvariant.RemainderValid | virtual_portfolio.py:258-267 | what a partial exit leaves is a valid position |
| LedgerInvariant.ExitKeepsValid | virtual_portfolio.py:190-273 | every exit with a ratio in [0, 1] keeps the invariant |
| LedgerInvariant.EnterKeepsValid | virtual_portfolio.py:74-159 | every entry, including flips, switches and forced entries, keeps it |
| LedgerInvariant.FlipKeepsValid | virtual_portfolio.py:161-184 | a flip keeps it |
| LedgerInvariant.TrailingKeepsValid | virtual_portfolio.py:347-368 | a trailing update keeps it |
| LedgerInvariant.PartialTakeProfitKeepsValid | virtual_portfolio.py:401-407 | a partial take-profit keeps it |
| LedgerInvariant.StopOnlyTightens | virtual_portfolio.py:355-368 | a LONG stop never falls and a SHORT stop never rises |
| LedgerInvariant.RunningMax | virtual_portfolio.py:355-359 | the running maximum bounds every observed price |
| LedgerInvariant.LongWatermarkIsRunningMax | virtual_portfolio.py:355-359 | after any price sequence a LONG's highest price is the running maximum, with nothing else changed |
| LedgerInvariant.RunningMin | virtual_portfolio.py:360-365 | the running minimum bounds the starting watermark and every observed price |
| LedgerInvariant.ShortWatermarkIsRunningMin | virtual_portfolio.py:360-365 | after any price sequence a non-LONG position's lowest price is the running minimum, with nothing else changed |
| LedgerInvariant.PartialTakeProfitOnce | virtual_portfolio.py:263-264 | after a half is taken the PARTIAL_TAKE_PROFIT tag never fires again |
| Portfolio.VirtualPortfolio.constructor | virtual_portfolio.py:9-22 | balance = initial, no position |
| Portfolio.VirtualPortfolio.CanEnterPosition | virtual_portfolio.py:64-72 | `True` iff the balance is at least 100 |
| Portfolio.VirtualPortfolio.EnterPosition | virtual_portfolio.py:74-159 | the result and new state are `EnterSpec` of the old state; the invariant holds |
| Portfolio.VirtualPortfolio.Open | virtual_portfolio.py:96-159 | the result and new state are `OpenSpec` of the old state |
| Portfolio.VirtualPortfolio.FlipPosition | virtual_portfolio.py:161-188 | the result and new state are `FlipSpec` of the old state; the invariant holds |
| Portfolio.VirtualPortfolio.ExitPosition | virtual_portfolio.py:190-273 | the result and new state are `ExitSpec` of the old state |
| Portfolio.VirtualPortfolio.UpdateTrailingStop | virtual_portfolio.py:347-368 | the result and new state are `TrailingSpec` of the old state |
| Portfolio.VirtualPortfolio.CheckPositionSignals | virtual_portfolio.py:370-399 | builds the tag list of `SignalsSpec`; changes nothing |
| Portfolio.VirtualPortfolio.ExecutePartialTakeProfit | virtual_portfolio.py:401-407 | the result and new state are `PartialTakeProfitSpec` of the old state |
| MonitorRules.TargetActionOf | position_monitor.py:149-169 | no analysis: half; SELL or confidence < 0.6 (missing = 0): full; HOLD: half; anything else: nothing |
| MonitorRules.TargetReachedSpec | position_monitor.py:133-175 | no position or cooling: nothing at all; otherwise the action is applied and the cooldown stamped now |
| MonitorRules.TrailingStopSpec | position_monitor.py:177-189 | a full "Trailing Stop" exit, with no consultation |
| MonitorRules.PartialSpec | position_monitor.py:191-203 | no-op once half has been taken; otherwise the half exit |
| MonitorRules.HandleSpec | position_monitor.py:108-131 | without a position nothing happens; only TARGET_REACHED writes stamps |
| MonitorRules.CheckSpec | position_monitor.py:71-106 | no price or position: nothing; otherwise trail first, compute the tags, count one signal iff there are tags, dispatch in order |
| MonitorRules.ClosedPositionIgnoresTags | position_monitor.py:102-113 | after a full exit the remaining tags of the tick do nothing |
| MonitorRules.NoPositionNoDispatch | position_monitor.py:111-113 | dispatching without a position changes nothing |
| MonitorRules.DispatchStampsNow | position_monitor.py:140-172 | dispatch writes only the TARGET_REACHED key, and only with the current time |
| MonitorRules.HandleKeepsValid | position_monitor.py:108-203 | every handler keeps the ledger invariant |
| MonitorRules.DispatchKeepsValid | position_monitor.py:102-103 | the whole dispatch keeps it |
| MonitorRules.TickKeepsValid | position_monitor.py:71-106 | a whole tick keeps it |
| MonitorRules.RaisedStopNotHitAtOnce | virtual_portfolio.py:355-392 | a stop just raised by this price is not hit by the same price |
| Monitor.PositionMonitor.constructor | position_monitor.py:12-22 | not running, counters zero, no stamps |
| Monitor.PositionMonitor.StartMonitoring | position_monitor.py:26-37 | `False` iff already running; running afterwards |
| Monitor.PositionMonitor.StopMonitoring | position_monitor.py:39-45 | not running afterwards, nothing else changed |
| Monitor.PositionMonitor.CanRequestAnalysis | position_monitor.py:205-214 | `True` iff there is no stamp for `symbol_reason` or 300 s have passed |
| Monitor.PositionMonitor.HandleTargetReached | position_monitor.py:133-175 | ledger and stamps become `TargetReachedSpec` of the old ones |
| Monitor.PositionMonitor.HandleTrailingStop | position_monitor.py:177-189 | the ledger becomes `TrailingStopSpec` of the old one |
| Monitor.PositionMonitor.HandlePartialTakeProfit | position_monitor.py:191-203 | the ledger becomes `PartialSpec` of the old one |
| Monitor.PositionMonitor.HandlePositionSignal | position_monitor.py:108-131 | ledger and stamps become `HandleSpec` of the old ones |
| Monitor.PositionMonitor.CheckPosition | position_monitor.py:71-106 | ledger, stamps and signal count become `CheckSpec` of the old ones |
| Monitor.PositionMonitor.LoopIteration | position_monitor.py:51-58 | check count +1, last check time now, and the position checked only when one exists |
| Monitor.PositionMonitor.ForcePositionCheck | position_monitor.py:314-333 | reports `checked` iff a position existed, and then performs a tick |
| Indicators.Present | market_analyzer.py:1902-1903 | the present values only, and every one of them |
| Indicators.PresentConcat | market_analyzer.py:1902-1903 | the filter distributes over concatenation, so it keeps the samples' order |
| Indicators.PresentAppend | market_analyzer.py:1902-1903 | a new sample adds its value at the end, or nothing when it is missing |
| Indicators.Tail | market_analyzer.py:1909-1910 | Python's `s[-n:]`: the last n items or all of them |
| Indicators.LastPresent | market_analyzer.py:1196-1202 | `None` iff no value is present; otherwise the last present value |
| Indicators.LastPresentBelow | market_analyzer.py:1196-1202 | among the first n samples: `None` iff none is present, otherwise the last present one |
| Indicators.SafeGetLastValue | market_analyzer.py:1196-1202 | the backward scan returns `LastPresent` |
| Indicators.Abs | market_analyzer.py:1915 | the absolute value |
| Signals.StrengthScore | market_analyzer.py:1880-1888 | VERY_HIGH 4, HIGH 3, MEDIUM 2, anything else 1 |
| Signals.Crossing | market_analyzer.py:1920-1941 | upward iff prev ≤ 0 < curr, downward iff prev ≥ 0 > curr; a current 0 crosses nothing |
| Signals.RecentDiffs | market_analyzer.py:1900-1910 | defined only with at least five samples of each series |
| Signals.GapStrength | market_analyzer.py:1915-1926 | VERY_HIGH above 1%, HIGH above 0.5%, else MEDIUM |
| Signals.MaCrossover | market_analyzer.py:1890-1946 | at most one signal; golden/dead cross by `Crossing`; priority 4 iff VERY_HIGH |
| Signals.MacdCrossover | market_analyzer.py:1948-1999 | at most one signal, by the same crossing rule |
| Signals.RecentReading | market_analyzer.py:2005-2013 | defined only with at least ten samples |
| Signals.RsiReversal | market_analyzer.py:2001-2047 | BUY only at ≤ 35 rising above the previous three's mean; SELL only at ≥ 65 falling below it; never both |
| Signals.CciReversal | market_analyzer.py:2157-2203 | the same rule at −80 and 80 |
| Signals.BollingerBreakout | market_analyzer.py:2049-2103 | fires only when the width exceeds 1.2× the mean of the nine before; UP above the previous upper, DOWN below the previous lower |
| Signals.SurgeReadings | market_analyzer.py:2109-2124 | defined only with thirty candles and a non-zero previous close |
| Signals.VolumeSurge | market_analyzer.py:2105-2155 | volume > 2.5× the mean of twenty and a move beyond 2%; direction by the sign; VERY_HIGH iff beyond 5% |
| Signals.Votes | market_analyzer.py:2210-2245 | four votes in −1..1; falsy readings abstain |
| Signals.CountOf | market_analyzer.py:2252-2253 | at most the number of votes |
| Signals.CountsDisjoint | market_analyzer.py:2252-2253 | bullish + bearish ≤ the number of votes |
| Signals.Consensus | market_analyzer.py:2205-2275 | emits iff ≥ 3 agree, bullish first; value = agreeing count; VERY_HIGH iff 4 |
| Signals.OfStrength | market_analyzer.py:1862-1863 | only signals of that strength |
| Signals.ReportableOnly | market_analyzer.py:1859 | only MEDIUM, HIGH and VERY_HIGH signals |
| Signals.TopThree | market_analyzer.py:1862-1863 | at most three |
| Signals.RankedSorted | market_analyzer.py:1862 | the ranking is non-increasing in strength score |
| Signals.RankedIsPermutation | market_analyzer.py:1859-1862 | the ranking holds exactly the reportable signals, with multiplicities |
| Signals.RankedIsStable | market_analyzer.py:1862 | within one strength the original order is kept |
| Signals.OfStrengthConcat | market_analyzer.py:1862 | filtering distributes over concatenation |
| Signals.OnlyOneStrength | market_analyzer.py:1862 | a one-strength run filters to itself or to nothing |
| Signals.TopThreeIsStrongest | market_analyzer.py:1862-1863 | no signal left out outranks one kept |
| Signals.ReportableOnlyIsSub | market_analyzer.py:1859 | every kept signal was given and is reportable |
| Signals.TopThreeFacts | market_analyzer.py:1859-1863 | what is kept was given, is reportable, and comes strongest first |
| SignalDetection.DetectSpec | market_analyzer.py:1795-1878 | [] while cooling or without data; the stamp is written whenever a raw signal was found; at most three signals |
| SignalDetection.DetectedAreRanked | market_analyzer.py:1855-1867 | the result is the top three of the raw signals |
| SignalDetection.HighPriorityCount | market_analyzer.py:2303-2304 | at most the number of signals |
| SignalDetection.VeryHighCount | market_analyzer.py:2306-2307 | at most the number of signals |
| SignalDetection.KindCount | market_analyzer.py:2299-2301 | at most the number of signals |
| SignalDetection.TypeCountsAreCounts | market_analyzer.py:2299-2301 | the type tally lists exactly the types that occur, with their counts |
| SignalDetection.GetSignalSummary | market_analyzer.py:2292-2317 | totals, symbol count, high-priority and VERY_HIGH counts and the type tally of the flattened signals |
| SignalDetection.SignalDetector.constructor | market_analyzer.py:1790-1793 | empty history |
| SignalDetection.SignalDetector.DetectSignalsForSymbol | market_analyzer.py:1795-1878 | result and new history are `DetectSpec` of the old history |
| SignalDetection.SignalDetector.DetectSignalsForAllSymbols | market_analyzer.py:2277-2290 | result and new history are `SweepSpec` |
| SignalDetection.SweepSpec | market_analyzer.py:2277-2290 | only requested symbols with a non-empty list of at most three |
| SignalDetection.RepeatedSymbolCools | market_analyzer.py:1801-1807 | a symbol that just produced signals produces none on an immediate second request |
| Technical.Items | market_analyzer.py:1383 | at most five voting items |
| Technical.Zone | market_analyzer.py:1320-1353 | OVERBOUGHT above the high band, OVERSOLD below the low one, else NEUTRAL |
| Technical.Trend | market_analyzer.py:1330-1334 | BULLISH iff strictly above |
| Technical.IndicatorSignals | market_analyzer.py:1312-1368 | each indicator's label is present iff its readings are, under the thresholds 70/30, ±100 and the bands |
| Technical.Weight | market_analyzer.py:1372-1378 | oscillators: +1 oversold, −1 overbought, 0 neutral; trends: +1 bullish, −1 bearish; every other pair unlisted |
| Technical.Counted | market_analyzer.py:1383-1386 | at most the number of items |
| Technical.ScoreWithinCount | market_analyzer.py:1383-1386 | the score lies within ± the count |
| Technical.OverallLabel | market_analyzer.py:1388-1408 | 0 counted: HOLD; under three: BUY/SELL only at \|score\| ≥ 2; otherwise STRONG at ≥ 3 and BUY/SELL at ≥ 1 |
| Technical.CalculateOverallSignal | market_analyzer.py:1370-1408 | the loop's result is `OverallLabel` of the count and score |
| Technical.AllListedCounted | market_analyzer.py:1383-1386 | when every item is listed, every item is counted |
| Technical.IndicatorItemsAllCounted | market_analyzer.py:1312-1390 | every label `_generate_signals` writes is one the weight table lists |
| Technical.GenerateSignals | market_analyzer.py:1312-1368 | an empty frame gives {}; otherwise the labels and the overall vote over them |
| Technical.FullReadingsVoteFive | market_analyzer.py:1312-1390 | with every reading present all five indicators vote |
| Schedule.Insert | market_analyzer.py:709 | inserting keeps a sorted permutation |
| Schedule.SortMinutes | market_analyzer.py:709 | `sorted`: sorted, and a permutation of the input |
| Schedule.Min | market_analyzer.py:716 | `min`: a member, and no greater than any member |
| Schedule.NextRunTime | market_analyzer.py:704-723 | the least listed minute after the current one, this hour; or the least minute next hour; `None` on an empty list or a minute the clock rejects; the scheduler's `_get_next_execution_time` (main.py, lines 350-369) is the same code |
| Schedule.SortKeepsMembers | market_analyzer.py:709 | sorting keeps exactly the members |
| Schedule.ChosenWhenNoneAbove | main.py:363-366 | with nothing above the current minute, the minimum is chosen, uniquely |
| Schedule.ChosenFirstAbove | main.py:356-360 | the first sorted minute above the current one is chosen, uniquely |
| Collector.ActiveSet | market_analyzer.py:466-470 | the default symbol and the normalized form of every requested symbol |
| Collector.ActiveSetNormalized | market_analyzer.py:466-470 | every member is a stored-form symbol |
| Collector.ActiveSetStable | market_analyzer.py:472-484 | asking again with the collector's own set changes nothing |
| Collector.DataCollector.constructor | market_analyzer.py:383 | the set starts as {SOL/USDT} |
| Collector.DataCollector.UpdateActiveSymbols | market_analyzer.py:458-484 | the set becomes `ActiveSet` of the request |
| MasterAgent.ClampLeverage | master_agent.py:344-346 | within [1, 10]; unchanged inside; clamped outside |
| MasterAgent.FillDefaults | master_agent.py:337-364 | missing decision HOLD, confidence 0.5; leverage = max(1, min(10, leverage or 1.0)); a parse failure gives HOLD at 0.3 |
| MasterAgent.ExecuteSpec | master_agent.py:368-556 | HOLD and unknown decisions never change the ledger; an ERROR result never changes it |
| MasterAgent.ExitWithoutPositionFails | master_agent.py:405-411 | EXIT with nothing open fails and changes nothing |
| MasterAgent.ExitIsFullExit | master_agent.py:388-397 | EXIT with a position is a full exit at the price, reason "Master Agent Decision" |
| MasterAgent.SameSideRejected | master_agent.py:420-429 | ENTER on the held symbol and side fails with no change |
| MasterAgent.OppositeSideFlips | master_agent.py:432-460 | ENTER on the held symbol, other side, is `enter_position` and reports POSITION_FLIP |
| MasterAgent.SwitchSuccessIsEntry | master_agent.py:463-499 | a switch exits at the new symbol's price ("Symbol Switch") then enters; success is the entry's |
| MasterAgent.HoldNeverMutates | master_agent.py:530-547 | HOLD never touches the ledger |
| MasterAgent.MissingDirectionIsLong | master_agent.py:374 | an order without a direction enters LONG |
| MasterAgent.ExecuteKeepsValid | master_agent.py:368-556 | dispatch keeps the ledger invariant |
| MasterAgent.ExecuteTradingDecision | master_agent.py:368-556 | outcome and new state are `ExecuteSpec` of the old state |
| Scheduler.Abs | main.py:734-735 | the absolute value |
| Scheduler.VerificationResult | main.py:714-743 | BUY/SELL by target, stop, then direction of the move; HOLD iff the move is within 2%; anything else fails |
| Scheduler.HoldWithinBand | main.py:734-737 | the 2% band without the division: \|Δ\|·100 ≤ 2·\|original\| |
| Scheduler.SellMirrorsBuy | main.py:718-732 | SELL is BUY on negated prices |
| Scheduler.PriorityScore | main.py:609-621 | strength score × priority, so between priority and 4 × priority, the top iff VERY_HIGH |
| Scheduler.Strongest | main.py:448 | `max` by priority score: a maximum, and the first one |
| Scheduler.DirectionCount | main.py:595-596 | at most the number of signals |
| Scheduler.DirectionBias | main.py:595-603 | bullish iff more BUY, bearish iff more SELL, else neutral |
| Scheduler.Mirror | main.py:595-603 | swapping BUY and SELL keeps the length |
| Scheduler.MirrorSwapsCounts | main.py:595-596 | the swap exchanges the BUY and SELL counts |
| Scheduler.BiasMirrors | main.py:595-603 | the swap exchanges bullish and bearish bias |
| Scheduler.ResetSpec | main.py:1794-1802 | balance = initial, no position, the log extended by at most one row |
| Scheduler.ExitAppendsAtMostOne | virtual_portfolio.py:241-251 | an exit adds at most one row to the log |
| Scheduler.ResetLogsExit | main.py:1795-1798 | the closing exit at the quote (or the entry price) is logged iff it succeeded |
| Scheduler.ResetPortfolio | main.py:1790-1810 | the new state is `ResetSpec` of the old |
| Scheduler.ManualFlipSpec | main.py:2180-2215 | 400 iff the direction is bad and 404 iff there is no quote, both without change; otherwise the ledger is the forced entry's, and the reply is success iff the entry succeeded and the new position's summary can be computed, else 500 |
| Scheduler.FlipReplyFollowsLeverage | main.py:2195-2215 | after a successful forced entry the reply is success iff the leverage is non-zero; a zero leverage gives a zero size, the summary divides by it, and the reply is 500 |
| Scheduler.ManualFlipDropsPosition | main.py:2194-2198 | a successful manual flip replaces the old position without crediting it |
| Scheduler.ManualPositionFlip | main.py:2180-2215 | reply and new state are `ManualFlipSpec` of the old state |
| MarketData.FearGreedSpec | market_data.py:17-53 | the cache while under an hour old; else the fetched value, cached now; else the default, not cached |
| MarketData.CacheHitIgnoresFetch | market_data.py:21-23 | within the hour after a fetch, every call returns that value |
| MarketData.MarketDataCollector.constructor | market_data.py:11-15 | empty cache |
| MarketData.MarketDataCollector.GetFearGreedIndex | market_data.py:17-53 | result and cache are `FearGreedSpec` of the old cache |
| MarketData.Classify | market_data.py:88-97 | Very High > 5, High > 3, Medium > 1.5, Low > 0.5, else Very Low |
| MarketData.ClassifyMonotone | market_data.py:88-97 | higher volatility never gets a lower class |
| MarketData.DefaultVolatilityIsMedium | market_data.py:118-131 | the default 2.0% is Medium |
| MarketData.VolatilitySentiment | market_data.py:146-155 | one of 20, 35, 50, 70, 85 |
| MarketData.VolatilitySentimentAntitone | market_data.py:146-155 | non-increasing in volatility |
| MarketData.SentimentFollowsClass | market_data.py:146-155 | depends on volatility only through its class |
| MarketData.Combined | market_data.py:158 | 0.7·fg + 0.3·vs, within [0, 100] for inputs in [0, 100] |
| MarketData.Label | market_data.py:161-170 | thresholds 75, 55, 45, 25 |
| MarketData.Recommend | market_data.py:189-200 | thresholds 80, 60, 40, 20 |
| MarketData.RecommendationAgreesWithLabel | market_data.py:161-200 | the two scales agree at their extremes and in the middle |
| MarketData.MarketSentiment | market_data.py:133-183 | the combined score is 0.7·fear/greed + 0.3·volatility points (`Combined`), within [0, 100]; label and recommendation follow it |
| MarketData.DefaultsAgree | market_data.py:202-213 | default inputs score the default sentiment, 50.0 Neutral |
| MarketData.CombinedMonotone | market_data.py:146-158 | more greed or calmer markets never lower the score |
| Notion.Join | notion_integration.py:84 | empty iff every part is empty |
| Notion.ParseAgentPage | notion_integration.py:76-134 | `None` when the name is not a title, or name, strategy or timeframes are empty; symbol normalized; active only for a ticked checkbox |
| Notion.ParsedSymbolNormalized | notion_integration.py:110-114 | every parsed symbol is in the stored form |
| Notion.Put | notion_integration.py:62 | `cache[name] = agent`: the agent is in, every other name's agent stays, names stay unique |
| Notion.ParseAll | notion_integration.py:58-60 | each page parsed in order |
| Notion.CacheFrom | notion_integration.py:56-62 | names unique; every cached agent came from a parsed page |
| Notion.CacheOf | notion_integration.py:56-62 | the same, stated on the pages |
| Notion.LastOfANameWins | notion_integration.py:58-62 | an agent with no later namesake is cached |
| Notion.LastPageOfANameWins | notion_integration.py:56-62 | the same, stated on the pages |
| Notion.WithSymbol | notion_integration.py:153-158 | exactly the cached agents with that symbol |
| Notion.WithSymbolConcat | notion_integration.py:154-156 | the lookup distributes over concatenation, so it keeps the cache's order and multiplicity |
| Notion.SymbolsMatchLookup | notion_integration.py:149-165 | a symbol is listed iff a lookup of it finds an agent |
| Notion.LookupOfStoredForm | notion_integration.py:152 | looking up a stored-form symbol is looking up the symbol itself |
| Notion.NotionConfigManager.constructor | notion_integration.py:18-28 | empty cache |
| Notion.NotionConfigManager.LoadAllAgents | notion_integration.py:38-74 | `False` and no change when unavailable or the query fails; otherwise the cache is rebuilt from the pages, and every cached symbol is in the stored form |
| Notion.NotionConfigManager.GetAgentsBySymbol | notion_integration.py:149-158 | the loop's result is `WithSymbol` of the normalized symbol |
| Notion.NotionConfigManager.GetAllSymbols | notion_integration.py:160-165 | each cached symbol once |
| Notion.RichTextSpec | notion_integration.py:1038-1046 | the non-empty contents joined; `None` iff there are none |
| Notion.Contents | notion_integration.py:1041-1044 | the non-empty contents only |
| Notion.ExtractRichText | notion_integration.py:1038-1046 | the loop's result is `RichTextSpec` |
| Notion.Pending | notion_integration.py:956-977 | kept iff recommendation, original, target and stop are all present and non-zero |
| Notion.PendingConcat | notion_integration.py:956-977 | the filter distributes over concatenation, so it keeps the pages' order and multiplicity |
| Notion.GetPendingVerifications | notion_integration.py:904-988 | [] when unavailable or failed; otherwise `Pending` of the extracted pages |

## Left out

- Threads, sleeps and the `schedule` library are not modelled. Each is modelled as one call or one loop iteration.
- The following are not modelled: HTTP, SQLite, the Notion and Gemini clients, and the exchange. Their answers are parameters.
- Prompt and table builders, Notion page and block builders, log messages and `_calculate_holding_duration` are text formatting. They are not modelled.
- The pandas indicator math and rolling standard deviations are floating-point library numerics. Series come in as given values.
- trading_engine.py holds only stubs, and ai_system.py only wraps a client. They are not part of this model.
- The first `SignalDetector` (market_analyzer.py:15-367) is shadowed by the later definition, so it is not part of this model.
- The FastAPI endpoints are modelled only for the ledger effects of reset and manual flip. Their response bodies are not.
- Timestamps written into rows and records are not modelled, apart from the cooldown stamps.
- Config.ToUpper: upper-cases ASCII letters only. Python's Unicode case mapping is not modelled.
- Ledger.PortfolioStatus: `None` stands for the exception a zero initial balance raises.
- MarketData.MarketSentiment: does not model `round(..., 1)` of the combined score. The score is exact.
- Signals.VolumeSurge: a previous close of 0 gives no signal. The source would compute an infinite change there.
- Schedule.NextRunTime: models only the minute and the hours ahead. It does not return a datetime.
- SignalDetection.GetSignalSummary: does not model the timestamp field.
- Notion.ParseAgentPage: assumes a well-formed page. A missing key inside a property is not modelled; the source catches it and returns None.
- Notion.GetPendingVerifications: the time filter and sort of the query run on the server, so the extracted pages are an input. `_extract_select`, `_extract_number` and `_extract_date` are plain lookups and are not modelled. The `or "SOL/USDT"` symbol default is applied before the input.
- Collector.DataCollector.UpdateActiveSymbols: uses a `set`. The order `get_active_symbols` lists it in is not modelled.
