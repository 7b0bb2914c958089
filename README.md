# Seven ETF strategies: a verified model

This project models the decision core of a daily ETF trading system built on
the seven strategies of *High Probability ETF Trading*: 3-day high/low,
RSI 25/75, R3, %b, MDD/MDU, RSI 10/6 & 90/94, and the stateful TPS
scale-in strategy. It covers five parts of that system:

- **Indicator pipeline** (`indicators.dfy`, `frames.dfy`).
  `calculate_indicators` adds SMA_5, SMA_200, RSI_2, RSI_4 and %b to a
  price DataFrame. It changes that DataFrame in place. In the model it is a
  `DataFrame` class whose method reassigns columns, proved equal to the pure
  function `WithIndicators`. SMA and RSI are rolling means over
  `Option<real>` cells, and `None` stands for pandas' NaN.
- **Seven evaluators** (`tps.dfy`, `r3.dfy`, `mdd_mdu.dfy`, `percent_b.dfy`,
  `rsi_10_6_90_94.dfy`, `rsi_25_75.dfy`, `three_day_hl.dfy`). Each is a
  function from the frame to a result datatype. Its contract states the flags
  in terms of the latest bars, and states the status string that the
  source's sequence of overwrites leaves. The flags are stated as
  if-and-only-if, with two exceptions:
  - the mdd_mdu entries are stated one way in `CheckMddMdu`, and the
    if-and-only-if is the separate lemma `MddMduEntries`;
  - TPS's signal is stated both ways through paired clauses: each rule
    forces its signal, and each signal implies one of its rules. The source's
  KeyErrors are `Outcome.KeyError`:
  - three_day_hl has no column check;
  - TPS reads `last_entry_price` on a scale-in.
- **Signal lookup and registry** (`signals.dfy`, `strategies.dfy`).
  `signals.get(name)` is read through one flag vocabulary, and the
  `symbol_strategy` portfolio key is proved injective.
- **End-to-end backtest** (`backtest.dfy`). This is `run_e2e_test`: every
  strategy is replayed bar by bar over the prefix `iloc[:i+1]` of every
  symbol's history.
  - A `Tracker` class holds the portfolio-state map, the per-strategy
    portfolio values, and the trade and equity logs. Its methods are proved
    against the specification functions `BarStep`, `ReplayBars`,
    `ReplayStrategies` and `ReplayUniverse`.
  - Position sizing and P&L are proved to be `int(unit / price)` and
    `(exit - entry) * qty`.
  - The books balance: every strategy's value is 25000 plus the P&L of its
    own logged trades.
- **Daily scanner** (`scanner.dfy`). This is `run_daily_scanner`:
  - the live-portfolio CSV is loaded into a key → row dictionary, where the
    last row wins;
  - the TPS position snapshot is built;
  - each report row is classified as TRIGGERED, HOLDING, EXIT SIGNAL,
    AGGRESSIVE ENTRY or No Signal;
  - the scan loop skips histories shorter than 200 bars.

Price history, the ETF universe and the portfolio files are inputs.
`STRATEGY_MAP[name]` is modelled as an `Evaluator` function value. The
top-level methods pass it the registry's `Evaluate`.

Where the prose description of the system and the code disagree, the model
follows the code:

- **Exceptions.** Missing columns do not always give an "insufficient data"
  result:
  - three_day_hl raises a KeyError;
  - in the backtest, TPS receives the stored record, which has no
    `last_entry_price`, so a TPS scale-in raises.

  The exception is not caught, so it aborts the whole run or scan.
- **RSI.** The first missing price change is replaced by 0, so RSI is
  defined from index `length - 1` on. A window with no change at all gives
  0/0, which is NaN.
- **TPS scale-in.** A scale-in happens only inside the matching trend
  filter, because the scale-in branch sits inside `if is_uptrend` or
  `if is_downtrend`.
- **mdd_mdu.** "At least 4 down days" over the last five closes means all
  four changes are down.
- **three_day_hl.** The rule compares four bars.
- **Scale-in flags.** The backtest never acts on a scale-in flag. The
  scanner reports AGGRESSIVE ENTRY only for the `*_aggressive_entry` flags
  of rsi_25_75.

## Model

| member | source | states |
|---|---|---|
| Frames.FallingThree | strategies/r3_strategy.py:55 | a three-value window falls (rises) strictly iff both steps do |
| Frames.FallingFour | strategies/three_day_hl.py:38-39 | a four-value window falls (rises) strictly iff all three steps do |
| Frames.WithColumn | utils/financial_calculations.py:63-70 | assigning a column adds it to the column set and overwrites exactly that cell of every row |
| Frames.DataFrame.AssignColumn | utils/financial_calculations.py:63 | `data[c] = values` updates the DataFrame object in place to `WithColumn` of its old value |
| Indicators.MeanBetweenMinAndMax | utils/financial_calculations.py:13 | a rolling mean lies between the window's minimum and maximum |
| Indicators.Sma | utils/financial_calculations.py:11-13 | one value per bar, NaN over the first length−1 bars |
| Indicators.RsiFromAverages | utils/financial_calculations.py:21-22 | `100 - 100/(1 + gain/loss)` under IEEE division is defined iff gain or loss is positive, lies in [0, 100], and is 100 iff the loss is zero |
| Indicators.Rsi | utils/financial_calculations.py:15-23 | one value per bar, NaN over the first length−1 bars, and every defined value within [0, 100] |
| Indicators.SmaWithinWindow | utils/financial_calculations.py:11-13 | SMA at i is defined iff i >= length-1 and the window has no NaN, and then lies within the window's range |
| Indicators.RollingMeanCausal | utils/financial_calculations.py:13 | the rolling mean at i depends only on the values up to i |
| Indicators.GainAverage | utils/financial_calculations.py:17-18 | the gain average is defined from index length-1 on, is non-negative, and is positive iff the window holds a rise |
| Indicators.LossAverage | utils/financial_calculations.py:17-19 | the loss average is defined from index length-1 on, is non-negative, and is positive iff the window holds a fall |
| Indicators.RsiDefined | utils/financial_calculations.py:15-23 | RSI at i is defined iff i >= length-1 and the window holds a rise or a fall (a flat window is 0/0) |
| Indicators.RsiRange | utils/financial_calculations.py:21-22 | a defined RSI equals 100·gain/(gain+loss), lies in [0, 100], and is 100 iff the window holds no fall |
| Indicators.RsiCausal | utils/financial_calculations.py:15-23 | RSI at i depends only on the closes up to i |
| Indicators.WithIndicators | utils/financial_calculations.py:59-70 | without a Close column or rows the frame is unchanged; otherwise exactly the five indicator columns are added and the row count is kept |
| Indicators.IndicatorRow | utils/financial_calculations.py:63-70 | row i gets SMA_5, SMA_200, RSI_2 and RSI_4 of the Close column at i, and every other cell is unchanged |
| Indicators.IndicatorsCausal | utils/financial_calculations.py:42-72 | computing the indicators on the first n bars gives the first n bars of the full computation (no look-ahead) |
| Indicators.CalculateIndicators | utils/financial_calculations.py:42-72 | the caller's DataFrame is updated in place to `WithIndicators` of its old value, and the same object is returned |
| TpsStrategy.CheckTps | strategies/tps_strategy.py:39-107 | the insufficient-data guard; exits pre-empt everything; from flat, two RSI_2 days below 25 (above 75) in the trend give tranche 1; an open long (short) in its trend with fewer than 4 tranches and the close below (above) the last entry gives tranche n+1; conversely BUY / SELL_SHORT only arise from these rules; an open position against the trend only holds or exits; a KeyError on `last_entry_price` iff a scale-in check reads it when it is missing; a HOLD result is the default `No new signal` dictionary |
| TpsStrategy.FlatIgnoresSnapshot | strategies/tps_strategy.py:55-97 | with no open position the rest of the snapshot is never read |
| R3Strategy.CheckR3 | strategies/r3_strategy.py:32-88 | each flag iff its RSI_2 condition holds (three-day strict fall from below 60 to below 10 in an uptrend, and its mirror; exits above 70 / below 30); entry and exit on one side exclude each other; the status is the one the overwrites leave |
| MddMduStrategy.AllDownDays | strategies/mdd_mdu.py:54-56 | every step of the window is a down day iff the window falls strictly |
| MddMduStrategy.AllUpDays | strategies/mdd_mdu.py:73-75 | every step of the window is an up day iff the window rises strictly |
| MddMduStrategy.CheckMddMdu | strategies/mdd_mdu.py:31-85 | exits iff Close is beyond SMA_5; an entry only in its trend, and it implies the opposite side's exit; the status is the one the overwrites leave |
| MddMduStrategy.MddMduEntries | strategies/mdd_mdu.py:51-77 | `down_days >= 4` over five closes holds iff all four changes are down (and the mirror for up days) |
| PercentBStrategy.CheckPercentB | strategies/percent_b_strategy.py:32-80 | long entry iff uptrend and %b < 0.2 on three bars; short is the mirror at 0.8; exits iff %b > 0.8 / < 0.2; the status is the one the overwrites leave |
| Rsi10_6_90_94Strategy.CheckRsi10_6_90_94 | strategies/rsi_10_6_90_94.py:26-87 | each tier iff its RSI_2 threshold in its trend; the second tier implies the first; the sides never fire together; exits on SMA_5; the second tier's status wins |
| Rsi25_75Strategy.CheckRsi25_75 | strategies/rsi_25_75.py:31-75 | each of the six flags iff its RSI_4 condition; an aggressive entry implies the entry; opposing flags never fire together |
| ThreeDayHLStrategy.MissingColumn | strategies/three_day_hl.py:36-39 | the KeyError names the first missing column in the order the rules read them: Close, SMA_200, SMA_5, High, Low |
| ThreeDayHLStrategy.CheckThreeDayHL | strategies/three_day_hl.py:25-53 | fewer than 4 bars is "Insufficient data"; a KeyError iff a read column is missing; long iff uptrend, close below SMA_5 and four strictly falling highs and lows; short is the mirror; never both |
| Signals.AggressiveKeysOnlyInAggressive | daily_scanner.py:188-189 | only the rsi_25_75 dictionary carries the aggressive-entry keys |
| Strategies.AllStrategiesListsEachOnce | tests/test_e2e_strategies.py:46-54 | the registry lists each of the seven strategies exactly once |
| Strategies.KeyParts | tests/test_e2e_strategies.py:167 | the portfolio key is the symbol, "_" and the strategy name |
| Strategies.KeyInjective | tests/test_e2e_strategies.py:167 | distinct (symbol, strategy) pairs never share a portfolio key |
| Strategies.Evaluate | tests/test_e2e_strategies.py:170-173 | only three_day_hl and TPS can raise; each strategy answers with its own dictionary shape |
| Strategies.OnlyRsi25_75ScalesIn | strategies/rsi_25_75.py:67-75 | an aggressive-entry flag comes only from rsi_25_75 |
| Strategies.TpsHasNoFlags | strategies/tps_strategy.py:39-43 | the TPS dictionary has none of the entry, exit or aggressive flags the consumers read |
| Strategies.RegistryAnswersTpsWithTps | tests/test_e2e_strategies.py:53 | the registered TPS evaluator answers with a TPS dictionary |
| Backtest.Truncate | tests/test_e2e_strategies.py:130 | `int(x)` truncates toward zero |
| Backtest.SharesForIsQuotient | tests/test_e2e_strategies.py:130 | the share count q satisfies q·price <= unit < (q+1)·price |
| Backtest.FloorOfQuotient | tests/test_e2e_strategies.py:130 | such a q is `int(unit / price)` |
| Backtest.PositionSize | tests/test_e2e_strategies.py:125-130 | 0 for a non-positive price; otherwise the largest share count whose cost stays within the trade unit |
| Backtest.PositionSizeMeaning | tests/test_e2e_strategies.py:125-130 | size 0 when price <= 0; a positive size iff the trade unit covers one share; the size is `int(trade_unit / price)` |
| Backtest.PositionSizeExample | tests/test_e2e_strategies.py:125-130 | 25000 at 0.25 % and price 50 buys one share |
| Backtest.GainIsProduct | tests/test_e2e_strategies.py:110-112 | the accumulated gain is per-share difference × quantity |
| Backtest.Pnl | tests/test_e2e_strategies.py:106-112 | a trade of positive size gains iff the price moved the side's way (up for "long", down otherwise); an unchanged price or zero quantity books nothing |
| Backtest.PnlMeaning | tests/test_e2e_strategies.py:108-112 | P&L is (exit − entry)·qty for a long and (entry − exit)·qty otherwise |
| Backtest.PnlSidesMirror | tests/test_e2e_strategies.py:108-112 | long and short P&L over the same prices are opposite |
| Backtest.InitialValues | tests/test_e2e_strategies.py:147 | every strategy starts at PORTFOLIO_VALUE_USD |
| Backtest.BarStep | tests/test_e2e_strategies.py:161-207 | a successful step keeps the portfolio-value entry of every strategy |
| Backtest.RecordSnapshot | tests/test_e2e_strategies.py:164-169 | TPS receives the stored record: open iff an open record exists, its side and tranche count, and never a `last_entry_price` |
| Backtest.Settlement | tests/test_e2e_strategies.py:177-207 | a trade, with its equity point, is logged iff the open record closes on its exit flag; an open record is never replaced (no scale-in); other records, other strategies' values and earlier log entries are unchanged |
| Backtest.ExitBlock | tests/test_e2e_strategies.py:177-191 | without the side's exit flag nothing changes; with it the record is deleted, one trade carrying the P&L at the close is appended, that P&L is added to the strategy's value alone, and the equity point records the new value |
| Backtest.EntryBlock | tests/test_e2e_strategies.py:193-207 | an entry books nothing and touches no other record; a record (open, side with long winning ties, date, close, size, one tranche) is written iff an entry flag is set and the size is positive, otherwise nothing changes |
| Backtest.BarStepTouchesOnlyItsKey | tests/test_e2e_strategies.py:167-207 | likewise for a whole evaluation step |
| Backtest.BarStepTransition | tests/test_e2e_strategies.py:177-207 | an open record is deleted iff its side's exit flag is set, booking the P&L at the close into its strategy's value; otherwise nothing changes; from flat, an entry flag with a positive size opens the record (open, one tranche, long winning ties) and anything else leaves the ledger unchanged; a record is created only from flat |
| Backtest.TpsStepChangesNothing | tests/test_e2e_strategies.py:170-198 | a TPS step never changes the ledger |
| Backtest.BarStepFailures | tests/test_e2e_strategies.py:164-171 | a step fails only on a missing Close column, a column three_day_hl lacks, or a TPS scale-in of an open stored record |
| Backtest.RealizedPnlAppend | tests/test_e2e_strategies.py:188-189 | appending a trade adds its P&L to its own strategy's realised total only |
| Backtest.ExitBlockBalances | tests/test_e2e_strategies.py:181-191 | closing a position keeps each value equal to start plus realised P&L, with one equity point per trade |
| Backtest.SettlementBalances | tests/test_e2e_strategies.py:177-207 | settling a bar keeps the books balanced |
| Backtest.BarStepBalances | tests/test_e2e_strategies.py:161-207 | an evaluation step keeps the books balanced |
| Backtest.ReplayBars | tests/test_e2e_strategies.py:161-162 | a successful bar replay keeps the portfolio-value entry of every strategy |
| Backtest.ReplayBarsNext | tests/test_e2e_strategies.py:161-162 | bar n+1 is evaluated on `iloc[:n+1]` after the first n bars |
| Backtest.ReplayBarsFailurePersists | tests/test_e2e_strategies.py:161-171 | after a KeyError, no later bar runs |
| Backtest.ReplayBarsBalances | tests/test_e2e_strategies.py:161-207 | the bar loop keeps the books balanced |
| Backtest.ReplayBarsStepBalances | tests/test_e2e_strategies.py:161-207 | one more bar keeps the books balanced |
| Backtest.TpsReplayChangesNothing | tests/test_e2e_strategies.py:161-198 | replaying TPS over any history leaves the ledger unchanged |
| Backtest.ReplayStrategies | tests/test_e2e_strategies.py:158-159 | the strategy loop keeps a value for every strategy |
| Backtest.ReplayStrategiesFailurePersists | tests/test_e2e_strategies.py:158-173 | after a KeyError, no later strategy runs |
| Backtest.ReplayStrategiesBalances | tests/test_e2e_strategies.py:158-207 | the strategy loop keeps the books balanced |
| Backtest.IndicatorsKeepCloses | utils/financial_calculations.py:63-70 | adding the indicators keeps every close present |
| Backtest.ReplayUniverse | tests/test_e2e_strategies.py:150-155 | the symbol loop keeps a value for every strategy |
| Backtest.ReplayUniverseFailurePersists | tests/test_e2e_strategies.py:150-173 | after a KeyError, no later symbol runs |
| Backtest.ReplayUniverseBalances | tests/test_e2e_strategies.py:150-207 | the symbol loop keeps the books balanced |
| Backtest.FinalValuesAreRealizedPnl | tests/test_e2e_strategies.py:147-191 | at the end, each strategy's value is 25000 plus the P&L of its own logged trades, with one equity point per trade |
| Backtest.Tracker.constructor | tests/test_e2e_strategies.py:144-147 | the tracker starts from the loaded portfolio state, with every value at 25000 and empty logs |
| Backtest.Tracker.Settle | tests/test_e2e_strategies.py:177-207 | the exit-or-entry block updates the tracker to `Settlement` of its old state |
| Backtest.Tracker.Exit | tests/test_e2e_strategies.py:177-191 | closing on an exit flag: delete the record, book the P&L, log the trade and the equity point |
| Backtest.Tracker.Enter | tests/test_e2e_strategies.py:193-207 | opening from flat: store the new record when the side is chosen and the size is positive |
| Backtest.Tracker.Step | tests/test_e2e_strategies.py:162-207 | one evaluation updates the tracker to `BarStep` of its old state, or reports its KeyError |
| Backtest.Tracker.RunStrategy | tests/test_e2e_strategies.py:161-207 | the bar loop leaves the tracker at `ReplayBars` of its old state, or reports the first KeyError |
| Backtest.Tracker.AdvanceBar | tests/test_e2e_strategies.py:161-207 | one more bar advances the replay by one |
| Backtest.Tracker.RunSymbol | tests/test_e2e_strategies.py:158-207 | the strategy loop leaves the tracker at `ReplayStrategies` of its old state |
| Backtest.Tracker.RunListing | tests/test_e2e_strategies.py:150-207 | one symbol: an empty history is skipped; otherwise the indicators are added in place and every strategy is replayed |
| Backtest.RunE2E | tests/test_e2e_strategies.py:134-207 | the run's result is `ReplayUniverse` from the loaded state, or the KeyError that aborts it |
| Scanner.Index | daily_scanner.py:99-104 | every record is stored under its own row's key |
| Scanner.IndexLastWriteWins | daily_scanner.py:99-104 | a key is in the loaded dictionary iff some row has it, and then it holds the last such row |
| Scanner.LivePortfolioOf | daily_scanner.py:87-108 | the dictionary is empty iff the file is missing or unreadable, lacks a Ticker or Strategy column, or has no rows; otherwise it keeps the file's columns, and each record sits under its own key |
| Scanner.LoadLivePortfolio | daily_scanner.py:87-108 | a missing or unreadable file, or one without Ticker/Strategy columns, gives `{}`; otherwise the result is the row-by-row dictionary |
| Scanner.PositionIsLastMatchingRow | daily_scanner.py:135-136 | the position consulted for (symbol, strategy) is the last CSV row with that key, and none when no row has it |
| Scanner.TpsSnapshot | daily_scanner.py:141-146 | open iff a record exists; the side only if the file has it; the defaults are 0 tranches and 0.0 as last entry price |
| Scanner.Classify | daily_scanner.py:151-191 | KeyError iff a held record lacks Side (first) or EntryPrice; flat: TRIGGERED iff an entry flag, long first, at the close; held: EXIT SIGNAL iff the side's exit flag, else AGGRESSIVE ENTRY iff its aggressive flag, else HOLDING, with the side in upper case and the recorded entry price |
| Scanner.TpsRowOnlyHoldsOrIsQuiet | daily_scanner.py:168-191 | a TPS row is only ever "No Signal" or HOLDING |
| Scanner.ScannerTpsNeverRaises | daily_scanner.py:139-147 | the scanner's TPS evaluation never raises, since the snapshot always has a last entry price |
| Scanner.ScaleInOnlyFromRsi25_75 | daily_scanner.py:188-191 | only rsi_25_75 rows become AGGRESSIVE ENTRY |
| Scanner.SecondEntryIsNotScaleIn | daily_scanner.py:188-189 | the second-tier entry flags never give AGGRESSIVE ENTRY |
| Scanner.ScanStrategy | daily_scanner.py:134-194 | a row is exactly the classification of the evaluator's signals for the recorded position, and exists iff the evaluator, the Close read, the classification and (where the strategy lists it) the SMA_5 read all succeed; it names the symbol, the strategy and the latest close; a KeyError is the evaluator's own or one of Close, Side, EntryPrice, SMA_5 |
| Scanner.ScanStrategies | daily_scanner.py:133-202 | a symbol gives one row per strategy, in registry order, each naming the symbol and the strategy |
| Scanner.ScanStrategiesFailurePersists | daily_scanner.py:133-202 | after a KeyError, no later strategy runs |
| Scanner.ScanFailurePersists | daily_scanner.py:124-202 | after a KeyError, no later symbol runs |
| Scanner.Scan | daily_scanner.py:124-202 | a completed scan has seven rows per ETF with at least 200 bars, and no such ETF means an empty report |
| Scanner.ScanSymbol | daily_scanner.py:133-202 | the strategy loop's result is `ScanStrategies` |
| Scanner.DailyScan | daily_scanner.py:111-202 | the report of the whole universe has seven rows per ETF with at least 200 bars, and is empty when no ETF has that much history |
| Scanner.RunDailyScanner | daily_scanner.py:111-207 | the scan's result is the specification `DailyScan` of the universe and the live portfolio file |

## Left out

- **Bollinger %b.** It needs a rolling standard deviation, which is a
  square root, so it is not computed. Each bar's %b is an input, and
  `calculate_indicators` only exposes it as a column.
- **Floating point.** Values are exact reals.
  - NaN is `None`, and every comparison with it is false.
  - Infinity appears only where the RSI saturates, which is modelled
    explicitly.
  - `round(..., 2)` in the reports and the trade log is not modelled.
  - Report prices are the unrounded values.
- **NaN closes in the backtest.** The backtest requires every close to be
  present (`ClosesPresent`). In the source, no entry fires on a NaN-close
  bar, because every entry compares Close with SMA_200. A NaN close can
  reach only an exit's P&L, which turns that strategy's value into NaN
  (tests/test_e2e_strategies.py:189). The next sizing for that strategy,
  `int(nan)` at tests/test_e2e_strategies.py:130, then raises ValueError
  and aborts the run. None of this is modelled.
- **NaN cells in the live CSV.** Such cells are not modelled. The CSV
  columns are typed: strings, a real entry price, an int tranche count.
- Backtest.PositionSize: a negative trade unit, which needs a negative
  portfolio value, yields 0 where Python's `int()` would give a negative
  number. The only use is the `quantity > 0` test, which both fail.
- **Repeated addition.** Backtest.Pnl and Backtest.PositionSize are computed
  by repeated addition and subtraction (`Gain`, `SharesFor`). They are proved
  equal to the source's product and truncated quotient.
- **`STRATEGY_MAP` dispatch.** It is an `Evaluator` parameter of the
  specification functions. The top-level methods pass the registry
  `Evaluate`.
- **I/O and plumbing.** Logging, the signal/trade/equity CSV writes, the JSON
  load and save of the portfolio state, `initialize_log_files`, `datetime`
  timestamps and tqdm progress bars are left out.
  - The trade and equity logs are kept as sequences in the ledger.
  - The per-bar signal log (`log_signal`) writes nothing the tracker reads.
  - The free-text report columns "Entry Condition", "Exit Condition/Value",
    "Key Indicator Value" and "Date" are left out.
- **Reading the ETF universe.** `load_etf_universe` is replaced by the
  universe given as input. An empty universe returns early in the source
  and writes no report. The model gives an empty row list for it.
- **Data fetching.** `data_manager.py`, `handlers/yfinance_handler.py` and
  `main.py` are not part of this model. They cover network fetching, caching
  and broker order placement. The fetched histories are inputs.
- **Configuration.** `configs/ibkr_config.py` contributes only the two
  constants PORTFOLIO_VALUE_USD = 25000 and RISK_PER_TRADE_PERCENT = 0.25,
  lines 36 and 40.
- **Malformed portfolio JSON.** The backtest's stored records are taken as
  well-formed `Position` values.
- **Live portfolio file.** Creating the empty file when it is missing is
  not modelled. An unreadable file is the same as a missing one: both give
  `{}`.
- Common.UpperAscii models `str.upper()` for ASCII letters only; other
  letters are left unchanged.
- **Empty histories.** Backtest.ReplayUniverse and Backtest.Tracker.RunListing
  skip a history only when it has no rows. The source tests
  `historical_data.empty` (tests/test_e2e_strategies.py:152), which is also
  true for a frame with rows and no columns. The fetched frames are taken to
  have columns.
- Backtest.RunE2E: when a KeyError aborts the run, the result is the KeyError
  alone. The source has already appended the trades and equity points booked
  before the exception to its CSV logs (tests/test_e2e_strategies.py:115-122,
  188-190). The model does not keep those partial logs.
