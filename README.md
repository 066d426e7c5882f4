# Stock-market digital twin backend, modelled in Dafny

The backend keeps a "digital twin" of each stock symbol: a summary of the
latest indicator values (EMAs, RSI, MACD and the like) computed from its price
history. A rule engine and a small agent turn those summaries into buy, sell
and hold decisions. Alert rules watch the twins and fire each alert at most
once. A backtesting simulator and a portfolio ledger replay decisions bar by
bar. The options helpers choose contracts, expirations and strategies and
compute max pain. A storage layer builds SQL queries and normalises
downloaded price columns. A loader reads `.env` files into the process
environment.

This project models that logic. Each Python module becomes one Dafny module.
Pure computations are functions with contracts and lemmas. Objects that update
their own fields are classes, and their loops are methods proved against
specification functions. Indicator values come in as inputs: a number that
may be missing (`Num`, an optional real, with `None` for NaN). Today's date,
the contents of files and the answers of remote services are parameters.

Python's `round(x, 2)` on floats is modelled as rounding half to even on
exact reals (`Round2`). Python raising an exception is modelled as a
`Failure` result, or as a precondition where the calling code guarantees the
case never arises.

## Model

| member | source | states |
|---|---|---|
| Agent.RunEnd | modeling/agent.py:17 | the end of a run of capitals starting at a position: every letter before it is a capital and the one at it is not |
| Agent.TokenStartIsWholeWord | modeling/agent.py:17 | a match of `\b[A-Z]{1,5}\b` starts exactly where a whole word of one to five capitals starts, and is that word |
| Agent.TokensFromWholeWords | modeling/agent.py:17 | the tokens found from a position on are exactly the whole capital words starting there or later |
| Agent.TokensAreWholeWords | modeling/agent.py:17 | `re.findall` returns exactly the whole words of one to five capitals in the goal |
| Agent.Tokens | modeling/agent.py:17 | every token found is one to five capital letters |
| Agent.TokensFromInOrder | modeling/agent.py:17 | the matches of the scan are the whole capital words of the goal, in order of occurrence and with repeats |
| Agent.KnownOnly | modeling/agent.py:18 | the list comprehension keeps exactly the known words, so a word is kept iff it is listed and known |
| Agent.GoalAction | modeling/agent.py:19-23 | the action is buy iff the lower-cased goal contains "buy", sell iff it contains "sell" but not "buy", none otherwise |
| Agent.Symbols | modeling/agent.py:17-18 | the symbols are the whole-word capital tokens of the goal that are known, kept in the order and with the repeats in which they occur; a word is among them iff it is known and occurs as a whole word |
| Agent.ParseGoalAsWrittenAlwaysRaises | modeling/agent.py:15 | as written, `get_symbols` is not defined in the module, so every call raises before any symbol is read |
| Agent.SignalLabels | modeling/agent.py:71 | the labels of the twin's signals, one per signal |
| Agent.EmaBounceNeverFires | modeling/agent.py:71-72 | no signal label is "EMA bounce", so that bullish reason can never fire |
| Agent.ReasonCounts | modeling/agent.py:63-86 | at most five bullish and five bearish reasons fire |
| Agent.AboveFires | modeling/agent.py:63-74 | the "above EMAs and VWAP" reason is among the bullish reasons only when the price is above EMA 9, EMA 20 and VWAP |
| Agent.BelowFires | modeling/agent.py:77-86 | the "below EMAs and VWAP" reason is among the bearish reasons only when the price is below EMA 9, EMA 20 and VWAP |
| Agent.AboveBelowExclusive | modeling/agent.py:63-78 | the "above EMAs and VWAP" and "below EMAs and VWAP" reasons never both fire |
| Agent.SqueezeBalanced | modeling/agent.py:73-86 | the squeeze adds one reason to each side, so it never changes the balance |
| Agent.MacdOneSided | modeling/agent.py:65-80 | the MACD cross moves exactly one reason from the bearish side to the bullish side |
| Agent.Confidence | modeling/agent.py:88-110 | the confidence is 0.0 with no reasons, otherwise the larger side's share rounded, between one half and one, and one when a side is empty |
| Agent.ShareBounds | modeling/agent.py:94 | the larger of two parts is between half and all of their total |
| Agent.Reason | modeling/agent.py:55-110 | buy iff at least three bullish reasons outnumber the bearish, sell symmetrically, else wait; the explanation is the winning list joined by "; " or one of the two fixed wait messages |
| Agent.ReasonAlwaysFires | modeling/agent.py:65-94 | every state fires at least one reason, so the confidence is always between one half and one |
| Agent.StockAgent.constructor | modeling/agent.py:9-11 | the agent keeps the database path; the known symbols are loaded by ParseGoal |
| Agent.StockAgent.ParseGoal | modeling/agent.py:13-24 | the known symbols are reloaded from the database and the result is the known whole-word tokens and the goal's action |
| Agent.StockAgent.GetTwinState | modeling/agent.py:26-31 | no state for a symbol with no rows, else the state of the twin built on its frame |
| Agent.StockAgent.Records | modeling/agent.py:37-52 | the loop leaves one entry per distinct symbol, each the no-data record or the reasoned record of that symbol |
| Agent.StockAgent.Decide | modeling/agent.py:33-53 | no symbol gives the fixed no-symbol record; one distinct symbol gives its record bare; several give a map keyed by the distinct symbols |
| Twin.GetSignals | modeling/twin_state.py:48-60 | a signal is listed iff its condition holds on the latest row, in the fixed order golden cross, MACD, oversold, overbought, squeeze |
| Twin.OversoldOverboughtExclusive | modeling/twin_state.py:54-57 | RSI oversold and RSI overbought are never both listed |
| Twin.ConfirmDirectionThreeOfFour | modeling/twin_state.py:62-72 | confirmation holds iff some three of close above EMA 9, close above VWAP, MACD above signal and golden cross hold |
| Twin.ConfirmDirection | modeling/twin_state.py:62-72 | a confirmed direction needs the close above the 9-EMA or the VWAP, and the MACD above its signal or a golden cross; without a close nothing is confirmed |
| Twin.BuildState | modeling/twin_state.py:28-46 | the state's MACD, golden-cross and squeeze flags agree with its signal list, a missing squeeze column reads as false, and confirmation needs a price test and a momentum test |
| Twin.AboveIsStrict | modeling/twin_state.py:31-35 | every "above" flag (EMA 9, EMA 20, EMA 50, SMA 20, VWAP) is strict: a close equal to the level, a missing level or a missing close is not above |
| Twin.EmaColumnNames | modeling/indicators.py:9-12 | the EMA columns are named EMA_9, EMA_20 and EMA_50 |
| Twin.AddDefaultEmas | modeling/twin_state.py:16 | adding the three default EMAs adds exactly those three columns to the frame |
| Twin.WithIndicators | modeling/twin_state.py:15-21 | the indicator step keeps the frame well formed and its height |
| Twin.PatternMap | modeling/twin_state.py:23-26 | the pattern step computes exactly the golden-cross, support, resistance and trend columns, one cell per row |
| Twin.WithPatterns | modeling/twin_state.py:23-26 | the pattern step keeps the frame well formed and its height |
| Twin.PriceCells | modeling/twin_state.py:15-21 | the indicator step leaves the price columns as they were |
| Twin.IndicatorKeys | modeling/twin_state.py:15-21 | after the indicator step every indicator column is present |
| Twin.EmaCells | modeling/twin_state.py:16 | the EMA columns hold the given EMA series |
| Twin.LineCells | modeling/twin_state.py:17-20 | the SMA, VWAP, MACD, MACD-signal and RSI columns hold the given series |
| Twin.SqueezeCells | modeling/twin_state.py:21 | the Squeeze_On column is the squeeze predicate applied to the band series |
| Twin.PatternKeeps | modeling/twin_state.py:23-26 | the pattern step leaves every non-pattern column unchanged |
| Twin.IndicatorsKept | modeling/twin_state.py:23-26 | the pattern step keeps every indicator column and the close |
| Twin.PatternCells | modeling/twin_state.py:24-26 | the pattern columns are the golden cross of EMA 50 over EMA 20, the 20-row rolling low and high, and the trend against EMA 20 |
| Twin.LastRowOfCells | modeling/twin_state.py:29 | the last row of a frame holding those columns is the latest reading of the inputs |
| Twin.LastRowOfEnriched | modeling/twin_state.py:9-29 | the last row of the enriched frame is the latest reading of the price and indicator inputs |
| Twin.TwinState.constructor | modeling/twin_state.py:9-13 | the twin's frame is the input enriched by both steps and its state is built from that frame's last row |
| Twin.TwinState.CalculateIndicators | modeling/twin_state.py:15-21 | the frame becomes the frame with indicators; the state is unchanged |
| Twin.TwinState.DetectPatterns | modeling/twin_state.py:23-26 | the frame becomes the frame with patterns; the state is unchanged |
| Twin.TwinState.BuildStateOfFrame | modeling/twin_state.py:28-46 | the state built from the current frame's last row |
| Twin.TwinState.GetState | modeling/twin_state.py:74-75 | returns the stored state |
| Patterns.GoldenCross | modeling/patterns.py:7 | one flag per row |
| Patterns.GoldenCrossFirstRow | modeling/patterns.py:7 | the first row never crosses, its shifted values being NaN |
| Patterns.GoldenCrossNeedsValues | modeling/patterns.py:7 | a row with a missing value today or yesterday never crosses |
| Patterns.GoldenCrossNotConsecutive | modeling/patterns.py:7 | two consecutive rows never both cross |
| Patterns.GoldenCrossIsUpwardChange | modeling/patterns.py:7 | with all four values present, a row crosses iff the fast line was not above the slow one yesterday and is above it today |
| Patterns.DetectGoldenCross | modeling/patterns.py:6-9 | with both columns present, the frame gains exactly the Golden_Cross column and keeps its height; without them it raises |
| Patterns.WindowStart | modeling/patterns.py:12-13 | the rolling window ending at a row holds at most `window` rows |
| Patterns.MinPresent | modeling/patterns.py:12 | the minimum skips NaN: it is a present value no larger than any present value, and NaN only when none is present |
| Patterns.MaxPresent | modeling/patterns.py:13 | the maximum skips NaN: it is a present value no smaller than any present value, and NaN only when none is present |
| Patterns.RollingMin | modeling/patterns.py:12 | one support value per row |
| Patterns.RollingMax | modeling/patterns.py:13 | one resistance value per row |
| Patterns.SupportBelowLow | modeling/patterns.py:12 | support is at most the row's low and is the low of a row inside the window |
| Patterns.ResistanceAboveHigh | modeling/patterns.py:13 | resistance is at least the row's high and is the high of a row inside the window |
| Patterns.SupportBelowResistance | modeling/patterns.py:11-13 | when every low is at most its high, support never exceeds resistance |
| Patterns.DetectSupportResistance | modeling/patterns.py:11-14 | with Low and High present, the frame gains exactly the Support and Resistance columns and keeps its height |
| Patterns.TrendLabel | modeling/patterns.py:18-20 | "Trending Up" iff close is above the EMA, "Trending Down" iff below, "Consolidating" otherwise |
| Patterns.TrendMissingEma | modeling/patterns.py:18-20 | a missing EMA leaves the row consolidating |
| Patterns.Trend | modeling/patterns.py:18-20 | one label per row |
| Patterns.DetectTrend | modeling/patterns.py:16-21 | with Close and the EMA present, the frame gains exactly the Trend column and keeps its height |
| Patterns.DefaultArguments | modeling/patterns.py:6-16 | with their default arguments the detectors need EMA_50 and EMA_200, Low and High, and Close and EMA_20, and the support/resistance window looks back at most twenty rows |
| Indicators.SqueezeExclusive | modeling/indicators.py:37-38 | Squeeze_On and Squeeze_Off never hold together |
| Indicators.SqueezeNeither | modeling/indicators.py:37-38 | equal lower bands, bands moving the same way, or a missing band give neither squeeze flag |
| Indicators.SqueezeOnColumn | modeling/indicators.py:37 | row by row, the flag is the squeeze-on predicate of the bands |
| Indicators.SqueezeOffColumn | modeling/indicators.py:38 | row by row, the flag is the squeeze-off predicate of the bands |
| Indicators.SqueezeMap | modeling/indicators.py:31-38 | the squeeze step computes exactly the band, channel and squeeze columns, one cell per row |
| Indicators.AddTtmSqueeze | modeling/indicators.py:31-39 | the frame gains exactly those columns, keeps its height, and no row has both squeeze flags |
| Indicators.EmaName | modeling/indicators.py:11 | the column name is `EMA_` followed by the length |
| Indicators.EmaNameInjective | modeling/indicators.py:11 | different lengths give different column names |
| Indicators.AddEma | modeling/indicators.py:9-12 | the frame gains one EMA column per length and nothing else; a repeated length keeps the series of its last occurrence |
| AlertRules.Get | modeling/alerts/rules.py:5 | `state.get(key, default)`: the stored value when the key is present, else the default |
| AlertRules.GreaterEq | modeling/alerts/monitor.py:57 | `a >= b` succeeds iff both are numbers and then compares them; any other pair raises |
| AlertRules.MacdBullishCrossover | modeling/alerts/rules.py:4-5 | the rule returns the state's MACD_Cross value, or False when it is missing |
| AlertRules.MacdConfidence | modeling/alerts/rules.py:6-7 | 0.8 iff the MACD_Cross value is truthy, else 0.0 |
| AlertRules.RsiOversold | modeling/alerts/rules.py:10-11 | succeeds iff the RSI (100 when missing) is a number, and is then true iff it is below 30 |
| AlertRules.RsiConfidence | modeling/alerts/rules.py:12-19 | succeeds iff the RSI is a number, and is then 1.0, 0.8 or 0.0 |
| AlertRules.RsiMissingNeverFires | modeling/alerts/rules.py:11-13 | a missing RSI reads as 100: not oversold, confidence 0.0 |
| AlertRules.RsiConfidenceMatchesOversold | modeling/alerts/rules.py:10-19 | the confidence is positive exactly when the oversold rule fires |
| AlertRules.RsiConfidenceNonIncreasing | modeling/alerts/rules.py:12-19 | a higher RSI never gives a higher confidence |
| AlertRules.RsiConfidenceBands | modeling/alerts/rules.py:14-19 | below 20 gives 1.0, from 20 to below 30 gives 0.8, from 30 on gives 0.0 |
| AlertRules.Resolve | modeling/alerts/monitor.py:26-44 | a configured name resolves to the rule function of that name, and to nothing when no public function has it |
| AlertRules.MacdRuleOnTwin | modeling/alerts/rules.py:4-7 | on a twin state the MACD rule fires iff the twin's MACD cross holds, with confidence 0.8, else 0.0 |
| AlertRules.RsiRuleOnTwin | modeling/alerts/rules.py:10-11 | on a twin state the RSI rule fires iff the twin's RSI is below 30 |
| AlertRules.MacdSummaryOnTwin | modeling/alerts/rules.py:8-9 | the twin state has no MACD keys, so the summary always reads "MACD: None, Signal: None" |
| AlertLog.IdsOf | modeling/alerts/log.py:11-18 | the ids read from the file are exactly those of its readable entry lines; unreadable lines are skipped |
| AlertLog.IdsOfAppend | modeling/alerts/log.py:13-24 | appending an entry line adds exactly its id |
| AlertLog.AlertLogger.constructor | modeling/alerts/log.py:8-18 | the logger starts from the file's lines, or none when there is no file, and knows their ids |
| AlertLog.AlertLogger.IsDuplicate | modeling/alerts/log.py:19-20 | an id is a duplicate iff it was logged |
| AlertLog.AlertLogger.LogAlert | modeling/alerts/log.py:21-24 | the id joins the logged set and exactly one entry line is appended |
| Monitor.StateDictFor | modeling/alerts/monitor.py:28-32 | a state is built iff the symbol has a non-empty frame |
| Monitor.LatestDate | modeling/alerts/monitor.py:34-40 | the last Date cell, else the last index label when the index name starts with "date" in any case, else today |
| Monitor.Scored | modeling/alerts/monitor.py:51-52 | an unresolved confidence or summary function gives the default |
| Monitor.CheckRuleSpec | modeling/alerts/monitor.py:41-58 | an alert fires only when the condition holds and its id was not logged, carries the symbol, rule and date, defaults to confidence 1.0 and an empty summary, and a trade is simulated only when the rule asks for it and the confidence reaches the minimum (0.7 by default) |
| Monitor.LoggedNeverFires | modeling/alerts/monitor.py:46-47 | an id already logged never fires again |
| Monitor.FromRulesFiredBy | modeling/alerts/monitor.py:27-58 | an alert raised by a rule of a configured symbol is one the tick can fire |
| Monitor.EntriesConcat | modeling/alerts/log.py:23-24 | the log lines of two runs of alerts are the lines of the first then of the second |
| Monitor.AlertMonitor.constructor | modeling/alerts/monitor.py:14-17 | a monitor starts with nothing sent or simulated and a logger loaded from its file |
| Monitor.AlertMonitor.CheckRule | modeling/alerts/monitor.py:41-58 | one rule: sends, logs and maybe simulates exactly the alert the rule step fires, and stops the tick when a rule raises |
| Monitor.AlertMonitor.CheckSymbol | modeling/alerts/monitor.py:41-58 | one symbol: every alert sent and logged comes from one of its rules and was new when the tick began |
| Monitor.AlertMonitor.CheckSymbolAt | modeling/alerts/monitor.py:27-58 | one configured symbol: nothing when it has no data, else its rules on its latest date |
| Monitor.AlertMonitor.CheckAllSymbols | modeling/alerts/monitor.py:24-58 | one tick: every alert sent is logged once and was fired by some configured rule on new data |
| Monitor.DispatchedAtMostOnce | modeling/alerts/monitor.py:46-56 | no two alerts a monitor has sent share an id |
| Strategies.EmaBounce | modeling/simulation/strategies.py:4-13 | "buy" exactly when Close is above the EMA and RSI below the threshold, "sell" exactly when Close is below the EMA and RSI above 70, otherwise "hold"; a missing column that is read raises (a failure) |
| Strategies.EmaBounceFlat | modeling/simulation/strategies.py:8-13 | a price equal to its EMA, or a NaN on either side, always holds |
| Strategies.EmaBounceNeutralRsi | modeling/simulation/strategies.py:8-13 | an RSI between the buy threshold and 70 always holds, whatever the price does |
| Strategies.EmaBounceDefaults | modeling/simulation/strategies.py:5-9 | with no parameters the strategy buys exactly when Close is above EMA_20 and RSI is below 30 |
| Simulator.Step | modeling/simulation/simulator.py:23-34 | one bar: a buy signal while flat opens at the close and logs a buy; a sell while long closes, books the profit into cash and logs a sell with its pnl; anything else changes neither position nor log; the equity appended is cash plus the open position's gain, NaN when a NaN close or cash enters it; reading the close of a row without a Close column raises KeyError, exactly on a buy while flat or any bar while long |
| Simulator.Replay | modeling/simulation/simulator.py:21-34 | the run over all bars appends exactly one equity point per bar |
| Simulator.ReplaySnoc | modeling/simulation/simulator.py:21-34 | the run over one more bar is the run so far followed by one step |
| Simulator.StepPrefix | modeling/simulation/simulator.py:23-34 | a step only appends to the trade log and the equity curve, whatever they already hold |
| Simulator.RealisedPnlSnoc | modeling/simulation/simulator.py:29-32 | realised profit grows by the pnl of each appended sell and by nothing for a buy |
| Simulator.AppendConsistent | modeling/simulation/simulator.py:23-32 | appending a buy while flat, or a sell with pnl equal to exit minus the last entry, keeps the log alternating and cash equal to initial cash plus realised profit |
| Simulator.StepConsistent | modeling/simulation/simulator.py:23-34 | every step keeps the invariant: trades alternate buy/sell starting with a buy, the position is long exactly after a buy, the entry is the last buy's price, and cash is initial cash plus the sells' pnl |
| Simulator.ReplayConsistent | modeling/simulation/simulator.py:17-34 | a whole run keeps that invariant |
| Simulator.MarkToMarket | modeling/simulation/simulator.py:33-34 | the last equity point is initial cash plus realised profit plus, when long, the close minus the open entry price |
| Simulator.ReplayPrefix | modeling/simulation/simulator.py:21-34 | the equity curve of the first i bars is the first i points of the full curve: later bars never rewrite earlier equity |
| Simulator.ReplayFailureSticks | modeling/simulation/simulator.py:21-34 | once a bar raises KeyError on its missing close, the run over more bars is the run that stopped there |
| Simulator.RealisedNaN | modeling/simulation/simulator.py:29-31 | the realised profit is NaN exactly when some sell in the log has a NaN profit |
| Simulator.NaNCashSticks | modeling/simulation/simulator.py:31-34 | once cash is NaN it stays NaN and every later equity point is NaN |
| Simulator.NaNCashNext | modeling/simulation/simulator.py:31-34 | one bar on a NaN cash keeps the cash NaN, keeps the earlier equity points and appends only NaN points |
| Simulator.Signals | modeling/simulation/simulator.py:21-22 | the strategy's signal for each bar in order, stopping at the first bar on which the strategy raises |
| Simulator.SignalsUnique | modeling/simulation/simulator.py:21-22 | any signal list meeting that description is that list |
| Simulator.Simulate | modeling/simulation/simulator.py:16-34 | the run ends without error exactly when every bar appended an equity point; an error names the bar after the last point, where the strategy raised or the close was missing; the tape always keeps the trade and cash invariant |
| Simulator.StepFailsRun | modeling/simulation/simulator.py:21-34 | when the bars replayed so far stop on a missing close, the whole run is that stopped replay |
| Simulator.RaisedAt | modeling/simulation/simulator.py:21-22 | a strategy raising on the bar after the replayed ones ends the run with that error and the tape so far |
| Simulator.Completed | modeling/simulation/simulator.py:21-34 | when the strategy answers on every bar and the replay completes, the run is that replay without error |
| Simulator.StrategySimulator.constructor | modeling/simulation/simulator.py:8-14 | keeps the bars, the strategy, the parameters and the initial cash, with an empty trade log and equity curve |
| Simulator.StrategySimulator.Advance | modeling/simulation/simulator.py:23-34 | the loop body: the new position and the appended trades and equity are one Step |
| Simulator.StrategySimulator.RunBars | modeling/simulation/simulator.py:16-34 | the loop appends exactly the trades and equity points of the run function to the lists and returns its error: none when every bar was processed, else the exception raised by the strategy or by a missing close |
| Simulator.StrategySimulator.Run | modeling/simulation/simulator.py:16-36 | run succeeds exactly when no bar raised and the report can be computed; it then returns the report, the trade log and the equity curve |
| Report.WinsPlusLosses | modeling/simulation/report.py:5-7 | every sell is exactly one of a win, a loss and a sell whose profit is NaN (which neither list counts) |
| Report.Peak | modeling/simulation/report.py:12-15 | the running peak is at least the initial cash and every equity point |
| Report.PeakMonotone | modeling/simulation/report.py:12-15 | the running peak never falls |
| Report.Drawdown | modeling/simulation/report.py:11-18 | the maximum drawdown, when the division is defined, is never negative |
| Report.DrawdownAtMostOne | modeling/simulation/report.py:11-18 | with positive initial cash and non-negative equity the drawdown is defined and at most 1 |
| Report.DrawdownNoDrop | modeling/simulation/report.py:11-18 | a curve that never falls below its running peak has zero drawdown |
| Report.NoDropPrefix | modeling/simulation/report.py:11-18 | so does every prefix of such a curve |
| Report.NoDropStep | modeling/simulation/report.py:11-18 | a new high keeps a zero drawdown zero |
| Report.DrawdownFailureSticks | modeling/simulation/report.py:14-15 | once a zero peak raises ZeroDivisionError, longer curves raise too |
| Report.MaxDrawdown | modeling/simulation/report.py:11-18 | the loop computes the drawdown function, including its ZeroDivisionError |
| Report.TotalReturn | modeling/simulation/report.py:8 | zero for an empty curve; otherwise defined exactly when initial cash is non-zero, and positive exactly when the last equity exceeds positive initial cash |
| Report.WinRate | modeling/simulation/report.py:9 | between 0 and 1, and 0 when no trade was closed |
| Report.ReportOf | modeling/simulation/report.py:4-24 | succeeds exactly when the return and the drawdown are defined; then holds the sell count, the return, the drawdown and the win rate |
| Report.GenerateReport | modeling/simulation/report.py:4-24 | the report computed step by step is the report function, failing exactly where the return or the drawdown raises |
| Report.ReportTotal | modeling/simulation/report.py:4-24 | with positive initial cash and non-negative equity the report never raises |
| Ledger.Find | modeling/portfolio.py:29 | the index of the position holding a symbol, or none exactly when no position holds it |
| Ledger.StockValueAppend | modeling/portfolio.py:88-91 | opening a position adds its shares times last price to the stock value |
| Ledger.StockValueUpdate | modeling/portfolio.py:88-91 | replacing one position changes the stock value by the difference of the two positions' worth |
| Ledger.StockValueRemove | modeling/portfolio.py:88-91 | deleting a position removes exactly its worth from the stock value |
| Ledger.MeanCostBetween | modeling/portfolio.py:31-33 | for two positive lots the new average cost lies between the old average cost and the buy price |
| Ledger.Summarize | modeling/portfolio.py:103-106 | pnl is current value minus cost basis; the percentage is pnl over a positive cost basis times 100 and 0 otherwise; for a long position bought at a positive cost it is positive exactly when the last price exceeds the average cost |
| Ledger.PnlSign | modeling/portfolio.py:103-106 | the sign of the pnl percentage follows the comparison of last price and average cost |
| Ledger.FindDistinct | modeling/portfolio.py:14 | with one position per symbol, looking up a position's symbol finds that position |
| Ledger.Opened | modeling/portfolio.py:37-42 | a new position at the buy price adds shares times price to the stock value, is found under its symbol and leaves every other position alone |
| Ledger.Added | modeling/portfolio.py:29-36 | buying into a held position adds the shares, takes the share-weighted mean cost, keeps the last price and leaves the other positions unchanged |
| Ledger.Sold | modeling/portfolio.py:67-69 | selling keeps the symbols distinct and the holdings positive, drops the position when no shares are left and leaves the other positions unchanged |
| Ledger.SoldValue | modeling/portfolio.py:67-69 | selling lowers the stock value by the shares sold times the last price |
| Ledger.RemoveProperties | modeling/portfolio.py:68-69 | deleting a position keeps symbols distinct and holdings positive, and the symbol is then no longer found |
| Ledger.Portfolio.constructor | modeling/portfolio.py:11-15 | a new portfolio holds the initial cash, no positions and no transactions |
| Ledger.Portfolio.Value | modeling/portfolio.py:86-92 | with no positions the portfolio is worth its cash |
| Ledger.Portfolio.TotalReturn | modeling/portfolio.py:94-97 | defined exactly when initial cash is non-zero; for positive initial cash it is positive exactly when the value exceeds it and zero exactly when they are equal |
| Ledger.Portfolio.PositionsSummary | modeling/portfolio.py:99-118 | one summary per position, in order, with its symbol and shares |
| Ledger.Portfolio.Buy | modeling/portfolio.py:18-51 | a cost above the cash raises ValueError with nothing changed; otherwise the cost leaves the cash, a new symbol opens a position at the price, a held one takes the mean cost (a zero share total raises ZeroDivisionError after the cash is taken), and one buy transaction is appended; other symbols are untouched |
| Ledger.Portfolio.Sell | modeling/portfolio.py:53-78 | an unheld symbol or more shares than held raises ValueError with nothing changed; otherwise the proceeds join the cash, the shares drop, an emptied position is deleted and one sell transaction is appended |
| Ledger.Portfolio.UpdatePrices | modeling/portfolio.py:80-84 | each position whose symbol is priced takes that last price, every other field and position stays, cash and transactions unchanged |
| Ledger.Others | modeling/portfolio.py:29-42 | the positions of every other symbol, none of which is the symbol |
| Ledger.OthersConcat | modeling/portfolio.py:29-42 | the other symbols' positions of a concatenation are the concatenation of theirs |
| Ledger.OthersSplice | modeling/portfolio.py:35-36 | replacing a symbol's position by entries of the same symbol leaves the other symbols' positions unchanged |
| Ledger.OthersNone | modeling/portfolio.py:29-42 | positions all of one symbol leave nothing for the others |
| Ledger.OthersRemove | modeling/portfolio.py:68-69 | deleting a symbol's position leaves the others' unchanged |
| Ledger.OthersReplace | modeling/portfolio.py:35-36 | updating a symbol's position in place leaves the others' unchanged |
| Ledger.OthersPointwise | modeling/portfolio.py:82-84 | position lists differing only in entries of the symbol have the same other positions |
| Ledger.ApplySignal | modeling/portfolio.py:189-198 | the new portfolio is the traded state of the old one: a buy signal with cash for 100 shares buys 100 at the close, otherwise a sell signal on a held symbol sells min(100, held) at the close, anything else changes nothing |
| Ledger.BuyOnBar | modeling/portfolio.py:189-193 | given cash for the lot, the new portfolio is the purchase of the old one: 100 times the close leaves the cash, a new symbol opens a position of 100 at the close or a held one adds 100 at the weighted mean cost, and exactly one buy is logged |
| Ledger.SellHeld | modeling/portfolio.py:195-198 | on a held symbol the new portfolio is the sale of the old one: min(100, held) shares leave the position at the close, their proceeds join the cash and exactly one sell is logged; the cash never falls at a non-negative close |
| Ledger.TradeOnBar | modeling/portfolio.py:186-204 | one bar: the new portfolio is the traded state of the old one with the symbol's position marked at the close |
| Ledger.Marked | modeling/portfolio.py:200-204 | marking changes only the last price of the symbol's position, to the close; cash, transactions and other positions stay, and distinct symbols and positive holdings are kept |
| Ledger.TradedBuy | modeling/portfolio.py:189-193 | a buy signal with cash for 100 shares gives the purchase |
| Ledger.TradedSell | modeling/portfolio.py:195-198 | otherwise a sell signal on a held symbol gives the sale |
| Ledger.TradedIdle | modeling/portfolio.py:189-198 | any other signal, or a sell of an unheld symbol, leaves the portfolio as it was |
| Ledger.PurchaseByBuy | modeling/portfolio.py:189-193 | when cash covers 100 shares, the outcome Portfolio.Buy promises for them is the purchase |
| Ledger.SaleBySell | modeling/portfolio.py:195-198 | the outcome Portfolio.Sell promises for min(100, held) shares is the sale, and it never lowers the cash at a non-negative close |
| Ledger.TradedKeeps | modeling/portfolio.py:186-198 | whatever the signal, one trade keeps the symbols distinct and the other symbols' positions, logs at most one lot of 1 to 100 shares of the symbol and keeps a non-negative cash at a non-negative close |
| Ledger.BuyKeeps | modeling/portfolio.py:189-193 | the purchase keeps those |
| Ledger.SellKeeps | modeling/portfolio.py:195-198 | the sale keeps those |
| Ledger.BarKeeps | modeling/portfolio.py:186-204 | one bar keeps them too and leaves the symbol's position priced at the close |
| Ledger.MarkedByPrices | modeling/portfolio.py:201-204 | the price map the loop builds, applied by update_prices, is marking the symbol at the close |
| Ledger.OthersHas | modeling/portfolio.py:29-42 | a position is among the others exactly when it is held under a different symbol |
| Ledger.Gains | modeling/portfolio.py:288-295 | the i-th gain is the positive part of the i-th close-to-close change |
| Ledger.Losses | modeling/portfolio.py:288-295 | the i-th loss is the positive part of the negated change |
| Ledger.RsiSignal | modeling/portfolio.py:278-314 | one of buy, sell and wait; fewer than 15 closes always wait |
| Ledger.Rsi | modeling/portfolio.py:306-307 | the RSI lies in [0, 100); it is below 30 exactly when 7 times the average gain is below 3 times the average loss and above 70 exactly when 3 times the gain exceeds 7 times the loss |
| Ledger.RsiBounds | modeling/portfolio.py:306-312 | the same bounds and thresholds stated on the ratio rs |
| Ledger.TailSumsNonNegative | modeling/portfolio.py:300-301 | the sums of the last 14 gains and losses are non-negative |
| Ledger.TailNonNegative | modeling/portfolio.py:300-301 | the sum of the last 14 of non-negative values is non-negative |
| Ledger.GainSum | modeling/portfolio.py:300 | the gain sum of the last 14 changes is non-negative |
| Ledger.LossSum | modeling/portfolio.py:301 | the loss sum of the last 14 changes is non-negative |
| Ledger.RsiSignalOfSums | modeling/portfolio.py:297-314 | with 15 or more closes: a zero loss sum waits, otherwise the signal is buy below RSI 30, sell above 70 and wait between |
| Ledger.RsiSignalRatio | modeling/portfolio.py:297-314 | with 15 or more closes and losses, buy exactly when 7 x gains < 3 x losses and sell exactly when 3 x gains > 7 x losses |
| Ledger.ChangeLists | modeling/portfolio.py:285-294 | the loop builds exactly the gain list and the loss list of the close-to-close changes |
| Ledger.SimpleRsiStrategy | modeling/portfolio.py:278-314 | the loop over close-to-close changes computes the RSI rule |
| Ledger.RsiStrategy | modeling/portfolio.py:278-314 | the strategy as the simulator calls it answers buy, sell or wait, and waits while fewer than 15 closes are known |
| Ledger.Closes | modeling/portfolio.py:284 | the close column, one value per row |
| Ledger.Simulated | modeling/portfolio.py:186-199 | replaying a symbol's rows keeps holdings positive; a strategy that raises ends the symbol where it is |
| Ledger.SimulatedNext | modeling/portfolio.py:186-204 | a row whose signal the strategy returns is one bar, then the replay of the rest |
| Ledger.SimulatedRaise | modeling/portfolio.py:186-208 | a strategy raising on a row leaves the portfolio as it was at that row for the rest of the symbol |
| Ledger.SimulatedAll | modeling/portfolio.py:171-208 | replaying every symbol in order keeps holdings positive; a symbol with no rows is skipped |
| Ledger.SimulatedAllNext | modeling/portfolio.py:171-208 | one more symbol is its replay, or nothing for a symbol without rows, then the rest |
| Ledger.WaitingTradesNothing | modeling/portfolio.py:186-199 | a strategy that never answers buy or sell leaves the cash and the transactions as they were |
| Ledger.SimulatedKeeps | modeling/portfolio.py:186-204 | a symbol's replay keeps distinct symbols, other symbols' positions, a non-negative cash at non-negative closes, and logs only lots of that symbol, at most one per row |
| Ledger.SimulatedAllKeeps | modeling/portfolio.py:171-208 | the replay of all symbols keeps distinct symbols, holds only listed symbols and keeps a non-negative cash at non-negative closes |
| Ledger.ListedRun | modeling/portfolio.py:171-204 | replaying a listed symbol keeps every position's symbol listed |
| Ledger.SimulateSymbol | modeling/portfolio.py:186-204 | the new portfolio is the replay of the old one over the symbol's rows; non-negative cash stays non-negative, only lots of 1 to 100 shares of that symbol are appended, at most one per row, and other symbols' positions are untouched |
| Ledger.SimulateStrategy | modeling/portfolio.py:150-211 | the portfolio is the replay of all symbols from the initial cash; it holds only listed symbols, records only lots of 1 to 100 shares of listed symbols, and never goes below zero cash when closes are non-negative |
| Numeric.Plus | modeling/technical_indicators.py:134 | NaN-propagating addition: defined exactly when both operands are, and then their sum |
| Numeric.Minus | modeling/technical_indicators.py:76-77 | NaN-propagating subtraction: defined exactly when both operands are, and then their difference |
| Numeric.Times | modeling/technical_indicators.py:152 | NaN-propagating scaling: defined exactly when the operand is |
| Numeric.Round2Close | modeling/intelligent_options_agent.py:479-486 | rounding to cents moves a value by at most half a cent |
| Numeric.Round2OfHundredths | modeling/options_data.py:68 | a value already in whole cents is unchanged by rounding |
| Numeric.Round2Monotone | modeling/intelligent_options_agent.py:479-481 | rounding to cents never reverses the order of two values |
| Numeric.Round2Between | modeling/intelligent_options_agent.py:479-481 | a value between two whole-cent bounds rounds to a value between them |
| Sorting.SortBy | modeling/tradier_options_provider.py:163 | sorting keeps exactly the same elements with their multiplicities |
| Sorting.SortByOrdered | modeling/tradier_options_provider.py:163 | under a strict weak order no element of the sorted list is ahead of an earlier one |
| Sorting.SortByMembers | modeling/intelligent_options_agent.py:457 | an element is in the sorted list exactly when it is in the list given |
| Sorting.Take | modeling/tradier_options_provider.py:165 | `xs[:n]` is the prefix of length min(n, len(xs)) |
| Sorting.TakeLast | modeling/intelligent_options_agent.py:331 | `xs[-n:]` is the suffix of length min(n, len(xs)) |
| Sorting.TopOf | modeling/tradier_options_provider.py:163-165 | sorting then slicing selects the top k: min(k, n) elements drawn from the list, none left out strictly ahead of one kept |
| Sorting.Filter | modeling/intelligent_options_agent.py:330 | the comprehension keeps exactly the elements that pass, and no more elements than given |
| Sorting.FilterNone | modeling/intelligent_options_agent.py:330 | nothing is kept when no element passes |
| Technical.CrossExclusive | modeling/technical_indicators.py:65-66 | a row is never both an upward and a downward cross, and the first row, whose shifted value is NaN, is neither |
| Technical.CrossUpNotTwice | modeling/technical_indicators.py:65 | two consecutive rows are never both upward crosses |
| Technical.ReleaseNotTwice | modeling/technical_indicators.py:130-131 | a squeeze release never fires on two consecutive rows |
| Technical.FibHigh | modeling/technical_indicators.py:145 | the rolling 50-row high is defined exactly from row 49 on and bounds every high in its window from above |
| Technical.FibLow | modeling/technical_indicators.py:146 | the rolling 50-row low is defined exactly from row 49 on and bounds every low in its window from below |
| Technical.FibLevelsOrdered | modeling/technical_indicators.py:147-152 | the five retracement levels lie between the rolling high and low in descending order 23.6, 38.2, 50, 61.8, 78.6 |
| Technical.FibSupportResistanceExclusive | modeling/technical_indicators.py:155-168 | a row is never both near Fibonacci support (close falling) and near resistance (close rising) |
| Technical.Fired | modeling/technical_indicators.py:209-227 | only names of conditions that hold are collected, at most one per condition |
| Technical.Bullish | modeling/technical_indicators.py:180-189 | the eight bullish conditions in the source's order and with its names |
| Technical.Bearish | modeling/technical_indicators.py:192-201 | the eight bearish conditions in the source's order and with its names |
| Technical.AsEvaluated | modeling/technical_indicators.py:210-227 | as evaluated, the StochRSI condition (whose column names the RSI replacement corrupts) and the moving-average condition (where `&` binds before `>`) always raise and are skipped; the other six are unchanged |
| Technical.Final | modeling/technical_indicators.py:254-256 | BUY exactly at strength 3 or more, SELL exactly at -3 or less, HOLD in between |
| Technical.Tally | modeling/technical_indicators.py:204-251 | (corrected) the buy and sell names are the holding bullish and bearish conditions, and the strength is their count difference, between -8 and 8 |
| Technical.TallyAsWritten | modeling/technical_indicators.py:204-251 | as written, the strength is still the buy count minus the sell count |
| Technical.FiredOmits | modeling/technical_indicators.py:209-227 | a condition that does not hold contributes no name |
| Technical.FiredNames | modeling/technical_indicators.py:209-227 | a name no condition carries is never collected |
| Technical.FiredIncludes | modeling/technical_indicators.py:209-227 | a condition that holds contributes its name |
| Technical.AsWrittenNeverFires | modeling/technical_indicators.py:185-188 | as written, "StochRSI Bullish", "Moving Average Bullish", "StochRSI Bearish" and "Moving Average Bearish" are never reported on any row |
| Technical.IntendedFires | modeling/technical_indicators.py:185-200 | with the conditions evaluated as intended, each of those four is reported whenever its condition holds |
| Technical.OpposedConditions | modeling/technical_indicators.py:180-201 | RSI oversold and overbought, the two VWAP crosses and the two MACD crosses never hold on the same row |
| Technical.InitSignalColumns | modeling/technical_indicators.py:175-177 | assigning an empty list to a whole column succeeds exactly on an empty table; any other raises |
| Technical.GenerateSignals | modeling/technical_indicators.py:204-256 | (corrected) one tally per row, and the final signal is BUY or SELL exactly when the buy count minus the sell count reaches 3 or -3 |
| Technical.TallyRows | modeling/technical_indicators.py:204-251 | each row's entry holds exactly the names of the bullish and of the bearish conditions that hold on it, and their count difference |
| Technical.FinalLabels | modeling/technical_indicators.py:254-256 | a row's final label is BUY exactly when its strength is at least 3 and SELL exactly when it is at most -3 |
| Technical.SharesToBuy | modeling/technical_indicators.py:305 | int(capital*0.95/price) is defined exactly when the price is non-zero |
| Technical.Affordable | modeling/technical_indicators.py:305-308 | for non-negative capital and a positive price the shares bought are non-negative and cost at most 95% of the capital |
| Technical.Step | modeling/technical_indicators.py:298-331 | a row fails only for a BUY at price 0, where `capital * 0.95 / price` divides by zero; a row that trades nothing leaves capital and shares as they were |
| Technical.StepProperties | modeling/technical_indicators.py:298-331 | one row: a buy needs a BUY signal and capital above the price and adds shares; a sell needs a SELL signal and shares and sells them all; otherwise the account is unchanged; shares and capital stay non-negative and capital plus holdings at the row's price is conserved |
| Technical.Replay | modeling/technical_indicators.py:298-338 | a completed backtest has one value point per row and at most one trade per row |
| Technical.ReplayNext | modeling/technical_indicators.py:298-338 | the backtest over one more row is the backtest so far followed by one step |
| Technical.StepSound | modeling/technical_indicators.py:298-338 | at a positive price a step never raises and keeps capital and shares non-negative with a consistent value point |
| Technical.ReplaySound | modeling/technical_indicators.py:298-338 | with positive prices and non-negative capital the whole backtest succeeds and every point is consistent |
| Technical.Summary | modeling/technical_indicators.py:340-348 | defined exactly when initial capital is non-zero; the final value is the last point's value, or the initial capital for no rows with zero return; the return is positive exactly when the final value exceeds positive initial capital |
| Technical.BacktestOf | modeling/technical_indicators.py:288-352 | a completed backtest has one value point per row |
| Technical.BacktestSound | modeling/technical_indicators.py:288-352 | with positive prices and capital the backtest succeeds, the final value is non-negative, the return is at least -100% and zero for no rows |
| Technical.AmountNonNegative | modeling/technical_indicators.py:331 | non-negative shares at a non-negative price are worth a non-negative amount |
| Technical.ReturnAtLeast | modeling/technical_indicators.py:342 | a non-negative final value never loses more than 100% |
| Technical.TradeRow | modeling/technical_indicators.py:303-331 | the loop body computes one step |
| Technical.RunBacktest | modeling/technical_indicators.py:288-352 | the loop computes the backtest function, including its failures |
| Technical.ReplayFailsAt | modeling/technical_indicators.py:298-305 | a row whose step raises (a zero price) makes the whole backtest raise that same error |
| Technical.ReplayFailureSticks | modeling/technical_indicators.py:298-305 | once a prefix of the rows raises, every longer prefix raises the same error |
| OptionsAgent.NoThreeWeekendDays | modeling/intelligent_options_agent.py:48-49 | no three consecutive days are all weekend days, so the walk back stops within two days |
| OptionsAgent.LastTradingDay | modeling/intelligent_options_agent.py:37-53 | the day returned is a weekday, at most two days before today, and every day after it up to today is a weekend day |
| OptionsAgent.VoteCount | modeling/intelligent_options_agent.py:182-235 | a count of one kind of vote never exceeds the number of indicator sections |
| OptionsAgent.VoteShape | modeling/intelligent_options_agent.py:185-250 | the EMA, VWAP, MACD and moving-average-cross sections vote exactly when their indicators are present and non-zero; an RSI from 45 to 55 does not vote; the zone and squeeze sections never vote; at most five votes are cast |
| OptionsAgent.VoteCountSplit | modeling/intelligent_options_agent.py:182-235 | bullish plus bearish votes never exceed the sections |
| OptionsAgent.DecideByMajority | modeling/intelligent_options_agent.py:252-279 | the percentage thresholds and the tie-breaks reduce to majority: CALL/BULLISH exactly when bullish votes outnumber bearish, PUT/BEARISH exactly when bearish outnumber bullish, WAIT/NEUTRAL exactly on a tie |
| OptionsAgent.Strength | modeling/intelligent_options_agent.py:288 | the confidence is between 1 and 5, and 5 exactly when the larger vote count or half the signal count reaches 5 |
| OptionsAgent.AnalyzeTrendAndSignals | modeling/intelligent_options_agent.py:177-301 | the vote counts are the sections' bullish and bearish votes, the notes are all section notes in order, the recommendation is the majority, signals aligned is the larger count, the total counts notes without "Neutral", and the confidence is the clamped strength |
| OptionsAgent.Highs | modeling/intelligent_options_agent.py:316 | one high per candle |
| OptionsAgent.Lows | modeling/intelligent_options_agent.py:317 | one low per candle |
| OptionsAgent.PivotLowMeaning | modeling/intelligent_options_agent.py:317-326 | a support pivot is a low no lower than any low in the centred five-candle window |
| OptionsAgent.PivotHighMeaning | modeling/intelligent_options_agent.py:316-324 | a resistance pivot is a high at least as high as every high in the centred five-candle window |
| OptionsAgent.PivotHighs | modeling/intelligent_options_agent.py:319-324 | at most one resistance level per scanned candle |
| OptionsAgent.PivotLows | modeling/intelligent_options_agent.py:320-326 | at most one support level per scanned candle |
| OptionsAgent.PivotHighsSound | modeling/intelligent_options_agent.py:322-324 | every resistance level is the high of a pivot candle at index 2 to len-3 |
| OptionsAgent.PivotLowsSound | modeling/intelligent_options_agent.py:322-326 | every support level is the low of a pivot candle at index 2 to len-3 |
| OptionsAgent.PivotsNext | modeling/intelligent_options_agent.py:322-326 | scanning one more candle appends its high and its low exactly when they are pivots |
| OptionsAgent.Above | modeling/intelligent_options_agent.py:330 | keeps exactly the resistance levels strictly above the price |
| OptionsAgent.Below | modeling/intelligent_options_agent.py:331 | keeps exactly the support levels strictly below the price |
| OptionsAgent.NearbyLevels | modeling/intelligent_options_agent.py:330-337 | at most three resistance and three support levels, reported with the given current price |
| OptionsAgent.ResistanceShape | modeling/intelligent_options_agent.py:330-334 | the resistance levels are the first three pivot highs above the current price (all of them when fewer), as a multiset, sorted ascending |
| OptionsAgent.SupportShape | modeling/intelligent_options_agent.py:331-335 | the support levels are the last three pivot lows below the current price (all of them when fewer), as a multiset, sorted descending |
| OptionsAgent.DetectSupportResistance | modeling/intelligent_options_agent.py:312-340 | fails exactly on an empty table; otherwise the nearby levels of the pivots scanned, around the last close |
| OptionsAgent.Body | modeling/intelligent_options_agent.py:350 | a candle body is never negative |
| OptionsAgent.Bodies | modeling/intelligent_options_agent.py:350 | one non-negative body per candle |
| OptionsAgent.AverageBody | modeling/intelligent_options_agent.py:356 | the mean body is never negative |
| OptionsAgent.Patterns | modeling/intelligent_options_agent.py:353-365 | at most two patterns: a doji exactly when the body is under 30% of the mean body, a hammer exactly when the lower wick exceeds twice the body, a shooting star exactly when it is not a hammer and the upper wick exceeds twice the body |
| OptionsAgent.AnalyzePriceAction | modeling/intelligent_options_agent.py:342-378 | fails exactly on an empty table; otherwise reports the latest candle's body and wicks, the mean body of the last ten bars (non-negative), and that candle's patterns against that mean: doji exactly when the body is under a tenth of it, hammer exactly when the lower wick exceeds twice the body, shooting star exactly when it does not and the upper wick does |
| OptionsAgent.Kept | modeling/intelligent_options_agent.py:426-454 | when it does not raise, only contracts of the requested type meeting the delta, volume, ask and open-interest thresholds are kept, at most one per option |
| OptionsAgent.ContractOf | modeling/intelligent_options_agent.py:446-454 | a contract built from a qualifying option is eligible for the requested type and carries the option's symbol, volume, delta and the strike read |
| OptionsAgent.KeptFailureSticks | modeling/intelligent_options_agent.py:429-437 | once an option without a type or strike raises, the whole filter raises with that error |
| OptionsAgent.VolumeFirstIsStrictWeakOrder | modeling/intelligent_options_agent.py:457 | the sort key comparison is a strict weak order, so the sort is well defined |
| OptionsAgent.FilterOptionsContracts | modeling/intelligent_options_agent.py:423-465 | succeeds exactly when filtering does not raise; then the top five of the kept contracts after the descending stable sort, and the count of all kept |
| OptionsAgent.KeptComplete | modeling/intelligent_options_agent.py:429-454 | every option of the requested type that meets the thresholds and has a strike is kept, so the filter keeps exactly the qualifying options |
| OptionsAgent.KeptHaveStrikes | modeling/intelligent_options_agent.py:439-446 | when the filter does not raise, every qualifying option of the requested type has a strike |
| OptionsAgent.ShortlistShape | modeling/intelligent_options_agent.py:456-461 | the shortlist holds at most five contracts, each eligible (requested type, thresholds met), in non-increasing volume |
| OptionsAgent.Busiest | modeling/intelligent_options_agent.py:457-460 | the shortlist is a top-five selection: min(5, kept) contracts drawn from the kept ones, and no kept contract left out has more volume than a shortlisted one (or equal volume and delta farther from 0.5) |
| OptionsAgent.BuildTradePlan | modeling/intelligent_options_agent.py:469-487 | entry, +35% target, -17.5% stop, max risk and max profit each rounded to cents, ratio 2.0; for a non-negative ask, stop <= entry <= target |
| OptionsAgent.RoundedBrackets | modeling/intelligent_options_agent.py:474-481 | rounding to cents keeps the stop, entry and target in order |
| OptionsAgent.TradePlanBrackets | modeling/intelligent_options_agent.py:474-476 | before rounding the stop is strictly below and the target strictly above a positive entry |
| OptionsAgent.First | modeling/intelligent_options_agent.py:522-523 | the best contract of a list is its first, and none exactly for an empty list |
| OptionsAgent.Select | modeling/intelligent_options_agent.py:507-553 | the recommendation is never WAIT: CALL or PUT follow the analysis, WAIT becomes CALL exactly when calls exist; no contract exactly when both lists are empty; otherwise the primary side's first contract, falling back to the other side's, with its trade plan |
| ChainStats.Add | modeling/tradier_options_provider.py:218-221 | adding a contract's open interest keeps one total per listed strike, lists the strike and loses no strike already tallied |
| ChainStats.TallyOf | modeling/tradier_options_provider.py:217-221 | the strike tally is well formed: its strike list and its totals have the same strikes, each listed once |
| ChainStats.TallyOfSums | modeling/tradier_options_provider.py:217-221 | a strike is tallied exactly when some contract quotes it, and its total is the sum of the open interest of the contracts at that strike |
| ChainStats.NoneQuoted | modeling/tradier_options_provider.py:217-221 | a strike no contract quotes has zero open interest |
| ChainStats.Best | modeling/tradier_options_provider.py:223 | `max` over the strikes in insertion order returns a strike with the largest total, the first such strike |
| ChainStats.MostInterest | modeling/tradier_options_provider.py:223 | there is no busiest strike exactly when nothing was tallied; otherwise its total is at least every strike's total |
| ChainStats.PutCallRatio | modeling/tradier_options_provider.py:208 | put volume over the call volume floored at 1: the ratio times max(call volume, 1) is the put volume, non-negative for non-negative put volume, and the put volume itself when call volume is at most 1 |
| Tradier.Convert | modeling/tradier_options_provider.py:130-134 | a field converts to its value when given, to the default when missing, and raises exactly when it cannot be converted |
| Tradier.Options | modeling/tradier_options_provider.py:96-99 | a single quote is wrapped into a one-element list and a missing payload becomes the empty list |
| Tradier.ChainOf | modeling/tradier_options_provider.py:94-112 | the chain's contract count is the number of options in the payload |
| Tradier.ChainSplit | modeling/tradier_options_provider.py:101-103 | the calls are exactly the payload's options typed "call", the puts exactly those typed "put", and together they are at most the whole chain |
| Tradier.SplitCount | modeling/tradier_options_provider.py:102-103 | no option is both a call and a put |
| Tradier.ReadQuote | modeling/tradier_options_provider.py:130-134 | the delta read is an absolute value; reading raises exactly when the delta, volume, ask, open interest or bid cannot be converted |
| Tradier.ListingOf | modeling/tradier_options_provider.py:144-160 | the listing of a passing quote is built exactly when its strike is given and its extra numeric fields convert; it carries the quote's symbol and strike, the values read and the upper-cased type |
| Tradier.Screen | modeling/tradier_options_provider.py:127-160 | when no conversion raises, every listing kept meets all six criteria and has the requested type, at most one per quote |
| Tradier.ScreenFailureSticks | modeling/tradier_options_provider.py:124-169 | once a conversion raises, the whole filter fails |
| Tradier.UnreadableFails | modeling/tradier_options_provider.py:130-134 | one unreadable quote on the chosen side makes the filter fail |
| Tradier.ScreenSound | modeling/tradier_options_provider.py:128-160 | every listing kept comes from a quote of that side whose reading passes the criteria |
| Tradier.ScreenComplete | modeling/tradier_options_provider.py:128-160 | conversely, every quote of the side that reads, passes the criteria and builds a listing has that listing kept |
| Tradier.ScreenPassingBuilds | modeling/tradier_options_provider.py:137-160 | when the screen does not fail, every passing quote builds its listing, so with ScreenComplete every passing quote is kept |
| Tradier.LiquidityIsStrictWeakOrder | modeling/tradier_options_provider.py:163 | the sort key comparison is a strict weak order |
| Tradier.FilterContracts | modeling/tradier_options_provider.py:119-169 | the loop computes the shortlist: the top ten of the screened listings after the descending stable sort, or nothing when a conversion raised |
| Tradier.ShortlistedShape | modeling/tradier_options_provider.py:162-169 | at most ten listings, each meeting the criteria with the requested type, in non-increasing volume with ties by delta nearer 0.5 |
| Tradier.Shortlisted | modeling/tradier_options_provider.py:162-165 | the shortlist never holds more than ten listings |
| Tradier.MostLiquid | modeling/tradier_options_provider.py:163-165 | sorting and keeping ten is a top-ten selection: min(10, n) listings drawn from the n given, none left out ranking strictly ahead (more volume, or equal volume and delta nearer 0.5) of one kept |
| Tradier.ShortlistedMostLiquid | modeling/tradier_options_provider.py:119-169 | nothing when a conversion raised; otherwise min(10, screened) listings drawn from the screened ones, and no screened listing left out ranks strictly ahead of a shortlisted one |
| Tradier.SideChoice | modeling/tradier_options_provider.py:125 | "call" in any case selects the calls; any other type selects the puts |
| Tradier.TotalVolume | modeling/tradier_options_provider.py:205-206 | the volume sum raises exactly when some volume cannot be converted |
| Tradier.StrikePairs | modeling/tradier_options_provider.py:217-221 | one (strike, open interest) pair per contract when every conversion succeeds |
| Tradier.AnalysisOf | modeling/tradier_options_provider.py:189-246 | a zero price fails; an empty chain gives ratio 0, max pain at the rounded current price and zero totals; a success counts every call and put contract |
| Tradier.Analyze | modeling/tradier_options_provider.py:189-246 | the loop computes the analysis: a zero price fails; otherwise the rounded put/call ratio and max pain, the two volume totals and the contract counts |
| Tradier.MaxPainIsBusiestStrike | modeling/tradier_options_provider.py:216-223 | with no contracts there is no busiest strike (the current price is used); otherwise the chosen strike is quoted by some contract and has the largest summed open interest |
| Alpaca.DaysUntilFriday | modeling/alpaca_options.py:52-55 | between 1 and 7 days, landing on a Friday: today being Friday gives a week |
| Alpaca.NextFridayIsFriday | modeling/alpaca_options.py:52-56 | the expiry before the extra days ahead falls on a Friday |
| Alpaca.SymbolsFor | modeling/alpaca_options.py:60-71 | two symbols, a call and a put, per strike offset |
| Alpaca.SymbolsForPairs | modeling/alpaca_options.py:61-71 | the symbols come in pairs: call then put for the k-th offset |
| Alpaca.GenerateOptionSymbols | modeling/alpaca_options.py:51-73 | the loop produces the call/put pairs for offsets -20, -10, -5, 0, 5, 10, 20 with the expiry `days_until_friday + days_ahead` days away, formatted yymmdd |
| Alpaca.SymbolShape | modeling/alpaca_options.py:62-70 | a symbol is the underlying, the six-character expiry, C or P, then the strike zero-padded to eight digits |
| Alpaca.StrikeAsWrittenScaled | modeling/alpaca_options.py:97-98 | as written, the strike read back is the generated strike divided by 100 |
| Alpaca.StrikeAsWrittenLosesScale | modeling/alpaca_options.py:62-63 | (finding) a 150 strike generated for AAPL is read back as 1.5 |
| Alpaca.PutOnCReadAsCall | modeling/alpaca_options.py:96 | (finding) a put on an underlying containing C, such as "C", is read back as a call |
| Alpaca.SymbolRoundTrip | modeling/alpaca_options.py:59-73 | (corrected) reading the eight digits as the strike and the letter before them as the type gives back exactly the strike and type generated |
| Alpaca.GeneratedPairReadsBack | modeling/alpaca_options.py:61-71 | each generated pair reads back as a call and a put at int(price + offset) |
| Text.PadIntLength | modeling/alpaca_options.py:63 | `f"{n:08d}"` is as long as `str(n)` or the width, whichever is longer, and starts with a minus sign exactly for negative n |
| Text.PadIntValue | modeling/alpaca_options.py:63 | the padded text reads back as n under `int(...)`, negative n included |
| Text.NegativeValue | modeling/alpaca_options.py:63 | a minus sign before a run of digits reads back as the negated digits value |
| Alpaca.Delta | modeling/alpaca_options.py:134-136 | the delta raises exactly for a zero strike |
| Alpaca.DeltaBuckets | modeling/alpaca_options.py:137-154 | call deltas are 0.2, 0.4, 0.6 or 0.8 and put deltas -0.8 to -0.2, both non-decreasing in spot/strike |
| Alpaca.DeltaParity | modeling/alpaca_options.py:137-154 | call minus put delta is 1.0 except exactly at the bucket edges 0.9, 1.0 and 1.1, where it is 0.8 |
| Alpaca.MockQuote | modeling/alpaca_options.py:96-121 | a priced quote has a 0.10 spread with a positive bid, a last price of at least 0.5 above intrinsic value, volume at least 50, open interest at least 100 and volatility at least 0.25 |
| Alpaca.MockQuoteOfGenerated | modeling/alpaca_options.py:62-98 | a generated symbol is quoted at a hundredth of the strike written into it, and as a call whenever it is a call or the underlying or the expiry holds a C |
| Alpaca.MockQuoteMisprices | modeling/alpaca_options.py:96-121 | the AAPL call at 150 with the stock at 150 is quoted at strike 1.5 with last 149, volume 1535 and delta 0.8 |
| Alpaca.GeneratedPairQuotes | modeling/alpaca_options.py:61-98 | each generated pair is quoted at the hundredth strike, the call as a call and the put as a put unless the underlying or expiry holds a C |
| Alpaca.MockChainOfGenerated | modeling/alpaca_options.py:61-121 | the chain over the generated symbols never fails, holds fourteen quotes, and quotes each pair as above |
| Alpaca.MockQuotes | modeling/alpaca_options.py:94-96 | one quote result per symbol, each that symbol's own quote |
| Alpaca.MockChain | modeling/alpaca_options.py:93-132 | the chain is priced exactly when no symbol's quote raises, and then holds each symbol's quote in order; one failing quote makes the whole chain fail |
| Alpaca.GetOptionsChain | modeling/alpaca_options.py:75-132 | the priced chain for the generated symbols, or the empty mock chain at 150.0 when building it raises |
| Alpaca.SentimentOf | modeling/alpaca_options.py:219-226 | BEARISH exactly when the ratio exceeds 1.2 and volatility 0.3, BULLISH exactly when the ratio is under 0.8 and volatility under 0.25, NEUTRAL otherwise |
| Alpaca.SentimentMonotone | modeling/alpaca_options.py:219-226 | raising the put/call ratio keeps a bearish reading bearish and lowering it keeps a bullish reading bullish |
| Alpaca.StrategiesFor | modeling/alpaca_options.py:228-267 | one to three strategies, the protective put always last |
| Alpaca.StrategiesShape | modeling/alpaca_options.py:228-267 | one to three distinct strategies ending with the protective put; the bull call spread appears exactly when the ratio is under 0.9, and first; the iron condor exactly when volatility exceeds 0.25 |
| Alpaca.GenerateStrategies | modeling/alpaca_options.py:228-267 | the method builds that list |
| Alpaca.ImpliedVolatilities | modeling/alpaca_options.py:187 | one volatility per quote |
| Alpaca.StrikePairs | modeling/alpaca_options.py:190-195 | each quote's strike with its open interest, in chain order |
| Alpaca.GetOptionsAnalysis | modeling/alpaca_options.py:156-217 | the loop computes the analysis: the mock analysis for an empty chain (the volatility average divides by zero), otherwise the ratio, the mean volatility, the busiest strike, the sentiment and the strategies |
| Alpaca.MaxPainIsBusiestStrike | modeling/alpaca_options.py:189-197 | for a non-empty chain max pain is a quoted strike whose summed open interest is the largest |
| OptionsData.DaysAhead | modeling/options_data.py:60-62 | between 1 and 7 days ahead, landing on a Friday; a Friday or weekend today moves to the next week's Friday |
| OptionsData.DaysAheadAgrees | modeling/options_data.py:60-62 | this rule and the Alpaca provider's `(4 - weekday) % 7`, 0 replaced by 7, give the same day |
| OptionsData.Expiration | modeling/options_data.py:57-63 | a given expiration is kept; otherwise the ISO date of a Friday within the next seven days |
| OptionsData.StrikeGrid | modeling/options_data.py:66-69 | 21 strikes, the k-th being the price plus (k - 10) x 5 rounded to cents |
| OptionsData.GridOfCents | modeling/options_data.py:66-69 | for a price in whole cents the rounding changes no strike |
| OptionsData.Strikes | modeling/options_data.py:246 | the strike column, one per row |
| OptionsData.Dedup | modeling/options_data.py:246 | `set` keeps exactly the strikes given, each once |
| OptionsData.PainStrikes | modeling/options_data.py:246 | the candidate strikes are exactly the strikes quoted by calls or puts, in ascending order |
| OptionsData.LessOrder | modeling/options_data.py:246 | ascending comparison of strikes is a strict weak order |
| OptionsData.FirstMinimum | modeling/options_data.py:256 | `min` by pain returns the first position holding the least value |
| OptionsData.PainsAsWritten | modeling/options_data.py:249-253 | as written, one pain value per candidate strike |
| OptionsData.Pains | modeling/options_data.py:249-253 | (corrected) the pain at each candidate strike is the open-interest-weighted distance of the calls above it and the puts below it |
| OptionsData.CalculateMaxPain | modeling/options_data.py:241-257 | (corrected) the loop returns the max-pain strike: 0.0 when either side is empty, else the first candidate strike of least pain |
| OptionsData.MaxPain | modeling/options_data.py:241-257 | (corrected) 0.0 when either side is empty; otherwise a strike quoted by some call or put |
| OptionsData.MaxPainAsWritten | modeling/options_data.py:241-257 | as written, 0.0 when either side is empty; otherwise a strike quoted by some call or put |
| OptionsData.FirstMinimumOfAscending | modeling/options_data.py:255-256 | over ascending strikes, the first minimum is no larger than any pain and strictly smaller than the pain of every lower strike |
| OptionsData.MaxPainMinimises | modeling/options_data.py:241-257 | (corrected) with both sides quoted, max pain is a quoted strike whose pain is at most that of every quoted strike, strictly less than that of every lower one |
| OptionsData.MaxPainAsWrittenMinimises | modeling/options_data.py:241-257 | as written, with both sides quoted, max pain is a quoted strike whose as-written pain is at most that of every quoted strike and strictly less than that of every lower one |
| OptionsData.MaxPainAsWrittenDiffers | modeling/options_data.py:250-251 | (finding) multiplying summed open interest by summed distance picks strike 2.0 for calls at 1, 2, 3 (open interest 1 each) and a put at 1, where the weighted sum picks 1.0 |
| OptionsData.PainAtOne | modeling/options_data.py:250-252 | at strike 1.0 of that chain the pain as written is 6.0, the weighted pain 3.0 |
| OptionsData.PainAtTwo | modeling/options_data.py:250-252 | at strike 2.0 both are 3.0 |
| OptionsData.PainAtThree | modeling/options_data.py:250-252 | at strike 3.0 both are 4.0 |
| OptionsData.FindAtm | modeling/options_data.py:259-265 | none exactly for an empty side; otherwise a row of that side whose strike is nearest the price |
| OptionsData.Quantile | modeling/options_data.py:273 | the 0.8 quantile lies between two values of the column |
| OptionsData.InterpolationBetween | modeling/options_data.py:273 | linear interpolation stays within the gap between neighbouring values |
| OptionsData.Interests | modeling/options_data.py:273 | the open-interest column, one value per row |
| OptionsData.HighInterest | modeling/options_data.py:273 | keeps exactly the rows whose open interest is strictly above the 0.8 quantile |
| OptionsData.NLargest | modeling/options_data.py:274 | `nlargest(3, 'open_interest')` keeps min(3, n) of the rows, and no row left out has more open interest than a row kept |
| OptionsData.MostInterest | modeling/options_data.py:274 | the three rows kept are drawn from the rows given, min(3, n) of them, and no row left out has more open interest than a row kept |
| OptionsData.OpenInterestLevelsShape | modeling/options_data.py:267-276 | none for an empty chain; otherwise exactly the strikes of the min(3, n) rows of largest open interest among the n rows above the 0.8 quantile, in ascending order, each the strike of such a row |
| OptionsData.OpenInterestLevels | modeling/options_data.py:267-276 | at most three levels, and none for an empty chain |
| OptionsData.UniformInterestNoLevels | modeling/options_data.py:273-276 | when every row has the same open interest no row exceeds the quantile and there are no levels |
| OptionsData.SentimentOf | modeling/options_data.py:288-306 | NEUTRAL when a side is empty; BEARISH exactly when the put/call volume ratio exceeds 1.2 and put open interest leads; BULLISH exactly when the ratio is under 0.8 and call open interest leads |
| OptionsData.SentimentNeedsInterestLead | modeling/options_data.py:301-306 | a directional reading needs its side to lead in open interest, so equal open interest is always NEUTRAL |
| OptionsData.StrategyMenu | modeling/options_data.py:308-388 | no strategies without a chain; otherwise two distinct strategies, the long call exactly for a bullish outlook, the long put exactly for a bearish one, the straddle exactly for any other |
| OptionsData.MenusDisjoint | modeling/options_data.py:328-386 | outlooks that fall in different branches share no strategy |
| Storage.ParamOf | data_ingestion/storage.py:90-98 | a filter argument contributes one parameter exactly when it is given and non-empty, and that parameter is the argument |
| Storage.BuildQuery | data_ingestion/storage.py:88-98 | the query is the base SELECT followed by the symbol, start and end clauses of the given filters, in that order; the parameters are those filters' values in the same order; the query has exactly one `?` per parameter |
| Storage.PlaceholderCounts | data_ingestion/storage.py:88-97 | the base query has no placeholder and each clause exactly one |
| Storage.FlattenTuple | data_ingestion/storage.py:33 | a MultiIndex column name joins its non-empty parts with `_`: no parts give "", one part gives that part |
| Storage.FlatNames | data_ingestion/storage.py:32-35 | flattening keeps one name per column |
| Storage.JoinUnderscores | data_ingestion/storage.py:33 | joining adds exactly one `_` between consecutive parts |
| Storage.FlattenSkipsEmpty | data_ingestion/storage.py:33 | empty parts never affect the flattened name |
| Storage.Nulls | data_ingestion/storage.py:43 | a column of n missing values |
| Storage.WithDate | data_ingestion/storage.py:38-43 | after the date step every column has one cell per row and a Date or Datetime column exists |
| Storage.Alias | data_ingestion/storage.py:46-57 | Datetime becomes Date and "Adj Close" becomes Adj_Close; every other name is kept |
| Storage.Renamed | data_ingestion/storage.py:57 | renaming maps each column name through the alias table |
| Storage.ColumnNamed | data_ingestion/storage.py:60-63 | a missing required column is all missing values; a present one is the first column of that name |
| Storage.ToNumeric | data_ingestion/storage.py:66-69 | coercion yields a number or a missing value and keeps numbers |
| Storage.Coerced | data_ingestion/storage.py:66-69 | a column is coerced cell by cell |
| Storage.NumericColumn | data_ingestion/storage.py:60-69 | a required numeric column has one numeric or missing cell per row |
| Storage.Normalise | data_ingestion/storage.py:29-72 | the saved table has exactly the schema's eight columns in order, each one cell per row, Open to Volume numeric or missing, and Symbol the given symbol on every row |
| Storage.NumericColumnSource | data_ingestion/storage.py:60-63 | a numeric column that no input column renames to is all missing |
| Storage.NumericColumnPresent | data_ingestion/storage.py:57-69 | otherwise it is the coerced first input column renamed to it |
| Storage.FirstColumn | data_ingestion/storage.py:72 | selecting by name takes the first column bearing it |
| Storage.DateColumnSource | data_ingestion/storage.py:38-43 | without a date column the Date column is the index when the index is named Date or Datetime, and all missing otherwise |
| EnvFile.ParseLine | ingest_fresh_data.py:22-26 | a line assigns exactly when, stripped, it is non-empty, not a comment and holds `=`; key and value come out stripped |
| EnvFile.SplitAssignment | ingest_fresh_data.py:25-26 | splitting at `=` yields a stripped key and value |
| EnvFile.StripTrimmed | ingest_fresh_data.py:23 | `strip()` always yields a trimmed string and keeps a trimmed one |
| EnvFile.SplitsAtFirstEquals | test_alpaca_connection.py:18-19 | the split is at the first `=`: the key is what precedes it, the value all that follows, further `=` included |
| EnvFile.ParseLineRoundTrip | test_alpaca_connection.py:16-20 | writing `key=value` with whitespace padding and reading the line back gives the key and the value |
| EnvFile.StripPadding | test_alpaca_connection.py:17 | `strip()` removes whitespace padding around a trimmed text |
| EnvFile.IgnoredLines | test_alpaca_connection.py:17-18 | blank lines, comments and lines without `=` assign nothing |
| EnvFile.Entries | ingest_fresh_data.py:22-23 | one parse result per line of the file |
| EnvFile.Apply | ingest_fresh_data.py:22-26 | applying the assignments never unsets a key that was set |
| EnvFile.AppliedKeys | ingest_fresh_data.py:20-26 | after loading a key is set exactly when it was set before or some line assigns it, and an unassigned key keeps its value |
| EnvFile.LastWriteWins | ingest_fresh_data.py:22-26 | the last line assigning a key decides its value |
| EnvFile.Environment.constructor | ingest_fresh_data.py:17 | the environment starts as given |
| EnvFile.Environment.LoadEnvFile | ingest_fresh_data.py:17-29 | a missing file changes nothing; otherwise the lines' assignments are applied in order up to the first line with an empty key, where `os.environ[""]` raises OSError, and the error is reported exactly when such a line exists |
| EnvFile.Environment.ApplyEntries | ingest_fresh_data.py:22-26 | the loop applies the parsed lines in order up to the first empty key and raises OSError exactly when one exists |
| EnvFile.EmptyKeyLine | ingest_fresh_data.py:24-26 | a line `=value` parses to the empty key, so it is one that raises |
| EnvFile.LoadedKeysNonEmpty | ingest_fresh_data.py:20-26 | loading never sets the empty key: it is set afterwards iff it was set before |
| EnvFile.LoadStep | ingest_fresh_data.py:22-26 | before the first empty key, one more line applies its assignment or, when it assigns nothing, keeps the environment |
| EnvFile.StopsAtEmptyKey | ingest_fresh_data.py:26 | a line with an empty key reached by the loop is the first one |

## Left out

- Indicator computation by `pandas_ta` and pandas rolling windows (modeling/indicators.py:9-35, modeling/technical_indicators.py:44-134, modeling/intelligent_options_agent.py:127-155). The model takes the indicator columns as given. Only the column names and the comparisons made on them are modelled.
- Python `eval` of condition strings in modeling/technical_indicators.py is modelled by evaluating each condition as an explicit predicate. The string substitutions that corrupt some conditions are modelled separately (see Findings).
- Black–Scholes pricing, the Greeks, the implied-volatility average of modeling/tradier_options_provider.py:212-214 (Alpaca's `avg_iv` is modelled by Alpaca.GetOptionsAnalysis), most-active strikes and gamma exposure in the options modules. These are floating-point formulas with no control logic worth proving.
- The random mock volumes and open interest drawn with `np.random.randint` in modeling/options_data.py:90-91 and 106-107. The drawn values are parameters: they are the `volume` and `openInterest` fields of the `OptionsData.OptionRow` inputs, which OptionsData.MaxPain, OptionsData.CalculateMaxPain, OptionsData.OpenInterestLevels and OptionsData.SentimentOf take. The mock quotes of modeling/alpaca_options.py:96-121 draw nothing and are modelled in full by Alpaca.MockQuote.
- Network clients: Tradier and Alpaca HTTP requests, modeling/alpaca_data.py, the download part of ingest_fresh_data.py, and the connection calls of test_alpaca_connection.py. Their responses are parameters.
- SQLite and file I/O: table creation, `to_sql`, reading and writing CSV and JSON, and the data loading of `PortfolioSimulator`. The database and files are given as values: a table of rows, or the lines of a file.
- `backtest_agent_decisions`, `to_dict` and `from_dict` serialisation, and explanation and description strings. They format text and hold no decisions.
- The alert monitor's run loop with `time.sleep`, the scheduler, channel configuration, the example scripts and the API servers. Only one tick (`check_all_symbols`) is modelled.
- `datetime.now()` is a parameter of the members that use it.
- Floating point: all prices and indicator values are exact reals. Rounding is modelled only where the source rounds explicitly.
- `get_current_signals` of modeling/technical_indicators.py reads the last row of the frame that the modelled `GenerateSignals` produces. It adds only dictionary formatting.
- OptionsData.Quantile: states only that the interpolated quantile lies between two values of the column, not the exact linear-interpolation value.
- Storage.ToNumeric: only optionally signed decimal integers parse as numbers; any other text, including decimal fractions, becomes missing, as `pd.to_numeric(errors='coerce')` does for non-numeric text.
- Storage.ColumnNamed: when renaming produces duplicate column names, the first column of that name is read; pandas would return a frame of all of them.
- Storage.Normalise: inherits the duplicate-name simplification of Storage.ColumnNamed.
- Ledger.RsiStrategy: states only the answer set and the warm-up wait; what the RSI decides is stated about Ledger.RsiSignal, Ledger.Rsi and Ledger.RsiSignalOfSums.
- Agent.Tokens: `\b` and `[A-Z]` are read over ASCII: a word character is an ASCII letter, digit or underscore and a capital is `A` to `Z`. Python's `re` on `str` also counts other Unicode letters and digits as word characters, so a capital run next to, say, an accented letter is a match in the model but not in Python.
- Text.Lower, Text.Upper and Text.Strip: only ASCII letters change case and only ASCII whitespace is stripped. Python's `str.lower`, `str.upper` and `str.strip` also handle non-ASCII letters and Unicode spaces.
- OptionsAgent.Kept: a field that is present but JSON `null` is read like an absent field and takes its `.get` default. In Python `.get` returns `None` for it, and `float(None)`, `int(None)` or a comparison with it raises TypeError. Tradier.Convert does tell the two apart (`Unreadable`).
- Report.Drawdown and Report.TotalReturn: a zero peak (modeling/simulation/report.py:15) or a zero initial cash (report.py:8) raises ZeroDivisionError, as Python floats do. When the equity points are numpy floats (closes read from a DataFrame), numpy instead yields inf or NaN with a warning.
- Ledger.SimulateStrategy: a failing SQL query or `pd.to_datetime` call is modelled as a symbol with no table, which the `except` clause skips. A NULL close in the table is not modelled: a row's close is a real.

## Findings

| source | as written | input that shows it | evidently intended | confidence | as-written member | corrected member |
|---|---|---|---|---|---|---|
| modeling/agent.py:15 | `parse_goal` calls `get_symbols`, which the module neither defines nor imports | any goal, such as "Should I buy AAPL?" | read the known symbols from the database | not executed | Agent.ParseGoalAsWrittenAlwaysRaises | Agent.StockAgent.ParseGoal |
| modeling/technical_indicators.py:185-215 | replacing `RSI` inside `StochRSI_...` names corrupts the StochRSI conditions, and `&` binds tighter than `>` in the moving-average condition | any row, including one where StochRSI_K crosses above StochRSI_D below 20 | each condition evaluated as its column names say | not executed | Technical.AsWrittenNeverFires | Technical.IntendedFires |
| modeling/technical_indicators.py:175-177 | `df['Buy_Signals'] = []` assigns an empty list to a whole column | any frame with at least one row | one empty list per row | not executed | Technical.InitSignalColumns | Technical.GenerateSignals |
| modeling/alpaca_options.py:62-98 | the strike is written as whole dollars in eight digits and read back divided by 100 | AAPL with a 150 strike reads back as 1.5 | read back the strike that was written | not executed | Alpaca.StrikeAsWrittenLosesScale | Alpaca.SymbolRoundTrip |
| modeling/alpaca_options.py:96 | `'C' in symbol` decides whether the contract is a call | a put on underlying "C" reads as a call | read the type letter before the strike | not executed | Alpaca.PutOnCReadAsCall | Alpaca.SymbolRoundTrip |
| modeling/options_data.py:250-251 | each side's pain is total open interest times the sum of strike distances | calls at 1, 2, 3 with one open each and two puts open at 1: max pain 2 | sum of open interest times distance per contract, max pain 1 | not executed | OptionsData.MaxPainAsWrittenDiffers | OptionsData.MaxPainMinimises |
