/** The daily scanner: the live portfolio read from its CSV file, and, for
    every ETF with at least 200 bars and every registered strategy, one report
    row that classifies the day's signals against the position held under
    `symbol_strategy`. */
module Scanner {
  import opened Common
  import opened Frames
  import opened Signals
  import opened Strategies
  import TpsStrategy
  import Indicators

  // ---------------------------------------------------------------------
  // The live portfolio
  // ---------------------------------------------------------------------

  /** The columns of the live portfolio CSV that the scanner reads. */
  datatype LiveColumn = TickerColumn | StrategyColumn | SideColumn | EntryDateColumn | EntryPriceColumn | TranchesFilledColumn

  /** One CSV row; a field whose column is not in the file carries no meaning. */
  datatype LiveRow = LiveRow(
    ticker: string,
    strategy: string,
    side: string,
    entryDate: string,
    entryPrice: real,
    tranchesFilled: int)

  datatype LiveCsv = LiveCsv(columns: set<LiveColumn>, rows: seq<LiveRow>)

  /** The `{symbol_strategy: row.to_dict()}` dictionary: every record has the
      file's columns as its keys. */
  datatype LivePortfolio = LivePortfolio(columns: set<LiveColumn>, records: map<string, LiveRow>)

  const EmptyPortfolio := LivePortfolio({}, map[])

  /** `f"{row['Ticker']}_{row['Strategy']}"` */
  function RowKey(row: LiveRow): string
  {
    row.ticker + ("_" + row.strategy)
  }

  /** The dictionary the row loop leaves behind: each row stored under its
      key, in file order. */
  function Index(rows: seq<LiveRow>): (records: map<string, LiveRow>)
    ensures forall k :: k in records ==> RowKey(records[k]) == k
  {
    if |rows| == 0 then map[]
    else Index(rows[..|rows| - 1])[RowKey(rows[|rows| - 1]) := rows[|rows| - 1]]
  }

  /** A key is present exactly when some row has it, and then it holds the
      last such row: a later duplicate overwrites an earlier one. */
  lemma {:induction false} IndexLastWriteWins(rows: seq<LiveRow>, k: string)
    ensures k in Index(rows) <==> exists i :: 0 <= i < |rows| && RowKey(rows[i]) == k
    ensures k in Index(rows) ==>
              exists i :: 0 <= i < |rows| && RowKey(rows[i]) == k && Index(rows)[k] == rows[i] &&
                          forall j :: i < j < |rows| ==> RowKey(rows[j]) != k
  {
    if |rows| > 0 {
      var n := |rows| - 1;
      if RowKey(rows[n]) == k {
        assert Index(rows)[k] == rows[n];
      } else {
        IndexLastWriteWins(rows[..n], k);
        LastWriteOfEarlierRow(rows, k);
      }
    }
  }

  /** The inductive step of `IndexLastWriteWins` when the last row has
      another key: the entry for k is the one the earlier rows left. */
  lemma LastWriteOfEarlierRow(rows: seq<LiveRow>, k: string)
    requires |rows| > 0 && RowKey(rows[|rows| - 1]) != k
    requires var init := rows[..|rows| - 1];
             && (k in Index(init) <==> exists i :: 0 <= i < |init| && RowKey(init[i]) == k)
             && (k in Index(init) ==>
                   exists i :: 0 <= i < |init| && RowKey(init[i]) == k && Index(init)[k] == init[i] &&
                               forall j :: i < j < |init| ==> RowKey(init[j]) != k)
    ensures k in Index(rows) <==> exists i :: 0 <= i < |rows| && RowKey(rows[i]) == k
    ensures k in Index(rows) ==>
              exists i :: 0 <= i < |rows| && RowKey(rows[i]) == k && Index(rows)[k] == rows[i] &&
                          forall j :: i < j < |rows| ==> RowKey(rows[j]) != k
  {
    var n := |rows| - 1;
    var init := rows[..n];
    assert Index(rows) == Index(init)[RowKey(rows[n]) := rows[n]];
    if exists i :: 0 <= i < |rows| && RowKey(rows[i]) == k {
      var i :| 0 <= i < |rows| && RowKey(rows[i]) == k;
      assert i < n && RowKey(init[i]) == k;
    }
    if k in Index(init) {
      var i :| 0 <= i < |init| && RowKey(init[i]) == k && Index(init)[k] == init[i] &&
               forall j :: i < j < |init| ==> RowKey(init[j]) != k;
      assert rows[i] == init[i];
      forall j | i < j < |rows| ensures RowKey(rows[j]) != k {
        if j < n {
          assert rows[j] == init[j];
        }
      }
    }
  }

  /** `load_live_portfolio_from_csv`: a missing or unreadable file gives `{}`;
      so does a file without a Ticker or a Strategy column, whose first row
      raises the KeyError that the `except` turns into `{}`. */
  function LivePortfolioOf(file: Option<LiveCsv>): (p: LivePortfolio)
    ensures p.records == map[] <==>
              file.None? || TickerColumn !in file.value.columns || StrategyColumn !in file.value.columns ||
              |file.value.rows| == 0
    ensures p.records != map[] ==> p.columns == file.value.columns
    ensures forall k :: k in p.records ==> RowKey(p.records[k]) == k
  {
    match file
    case None => EmptyPortfolio
    case Some(csv) =>
      if TickerColumn in csv.columns && StrategyColumn in csv.columns && |csv.rows| > 0
      then
        assert RowKey(csv.rows[|csv.rows| - 1]) in Index(csv.rows);
        LivePortfolio(csv.columns, Index(csv.rows))
      else EmptyPortfolio
  }

  method LoadLivePortfolio(file: Option<LiveCsv>) returns (p: LivePortfolio)
    ensures p == LivePortfolioOf(file)
  {
    if file.None? {
      return EmptyPortfolio;
    }
    var csv := file.value;
    if TickerColumn !in csv.columns || StrategyColumn !in csv.columns || |csv.rows| == 0 {
      return EmptyPortfolio;
    }
    var records: map<string, LiveRow> := map[];
    for i := 0 to |csv.rows|
      invariant records == Index(csv.rows[..i])
    {
      var row := csv.rows[i];
      assert csv.rows[..i + 1][..i] == csv.rows[..i];
      records := records[RowKey(row) := row];
    }
    assert csv.rows[..|csv.rows|] == csv.rows;
    return LivePortfolio(csv.columns, records);
  }

  /** `live_portfolio.get(portfolio_key, {})`, with `{}` as None. */
  function PositionFor(live: LivePortfolio, symbol: string, s: Strategy): Option<LiveRow>
  {
    if Key(symbol, s) in live.records then Some(live.records[Key(symbol, s)]) else None
  }

  /** The position the scanner consults for (symbol, strategy) is the last
      row of the file whose Ticker and Strategy spell the same key; no row
      with that key means no position. */
  lemma PositionIsLastMatchingRow(csv: LiveCsv, symbol: string, s: Strategy)
    requires TickerColumn in csv.columns && StrategyColumn in csv.columns
    ensures var p := PositionFor(LivePortfolioOf(Some(csv)), symbol, s);
            && (p.None? <==> forall i :: 0 <= i < |csv.rows| ==> RowKey(csv.rows[i]) != Key(symbol, s))
            && (p.Some? ==> exists i :: 0 <= i < |csv.rows| && csv.rows[i] == p.value &&
                                        RowKey(csv.rows[i]) == Key(symbol, s) &&
                                        forall j :: i < j < |csv.rows| ==> RowKey(csv.rows[j]) != Key(symbol, s))
  {
    IndexLastWriteWins(csv.rows, Key(symbol, s));
  }

  /** The `tps_position_state` dictionary: open exactly when a record exists,
      the recorded side if the file has that column, and the defaults 0
      tranches and 0.0 entry price for missing keys. */
  function TpsSnapshot(live: LivePortfolio, position: Option<LiveRow>): (pos: TpsStrategy.PositionState)
    ensures pos.isOpen <==> position.Some?
    ensures pos.lastEntryPrice.Some?
    ensures position.None? ==> pos == TpsStrategy.PositionState(false, None, 0, Some(0.0))
    ensures position.Some? ==>
              && (pos.side.Some? <==> SideColumn in live.columns)
              && (pos.side.Some? ==> pos.side.value == position.value.side)
              && pos.tranchesFilled == (if TranchesFilledColumn in live.columns then position.value.tranchesFilled else 0)
              && pos.lastEntryPrice.value == (if EntryPriceColumn in live.columns then position.value.entryPrice else 0.0)
  {
    match position
    case None => TpsStrategy.PositionState(false, None, 0, Some(0.0))
    case Some(p) =>
      TpsStrategy.PositionState(
        true,
        if SideColumn in live.columns then Some(p.side) else None,
        if TranchesFilledColumn in live.columns then p.tranchesFilled else 0,
        Some(if EntryPriceColumn in live.columns then p.entryPrice else 0.0))
  }

  // ---------------------------------------------------------------------
  // One report row
  // ---------------------------------------------------------------------

  const StatusNoSignal := "No Signal"
  const StatusTriggered := "TRIGGERED"
  const StatusHolding := "HOLDING"
  const StatusExit := "EXIT SIGNAL"
  const StatusScaleIn := "AGGRESSIVE ENTRY"

  /** The "Entry Price" cell: "N/A", the current close, or the recorded price. */
  datatype EntryPriceCell = NotApplicable | AtClose(close: Option<real>) | AsRecorded(price: real)

  datatype ScanRow = ScanRow(
    symbol: string,
    strategy: string,
    currentPrice: Option<real>,
    signalType: string,
    status: string,
    entryPrice: EntryPriceCell)

  /** The result-row block: without a position a long entry flag, else a
      short one, triggers an entry at the close; with one, the row is
      HOLDING, turned into EXIT SIGNAL by the side's exit flag or else into
      AGGRESSIVE ENTRY by the side's aggressive flag. A record lacking Side
      or EntryPrice raises the KeyError. */
  function Classify(symbol: string, s: Strategy, close: Option<real>, live: LivePortfolio,
                    position: Option<LiveRow>, signals: SignalResult): (r: Outcome<ScanRow>)
    ensures r.KeyError? <==> position.Some? && (SideColumn !in live.columns || EntryPriceColumn !in live.columns)
    ensures r.KeyError? ==> r.key == if SideColumn !in live.columns then "Side" else "EntryPrice"
    ensures r.Ok? ==> r.value.symbol == symbol && r.value.strategy == Name(s) && r.value.currentPrice == close
    // flat: an entry is triggered on either side's entry flag, long first
    ensures r.Ok? ==> (r.value.status == StatusTriggered <==> position.None? && (LongEntryFlag(signals) || ShortEntryFlag(signals)))
    ensures r.Ok? && r.value.status == StatusTriggered ==>
              r.value.entryPrice == AtClose(close) &&
              r.value.signalType == if LongEntryFlag(signals) then "Long Entry" else "Short Entry"
    ensures r.Ok? ==> (r.value.status == StatusNoSignal <==> position.None? && !LongEntryFlag(signals) && !ShortEntryFlag(signals))
    ensures r.Ok? && r.value.status == StatusNoSignal ==> r.value.signalType == "None" && r.value.entryPrice == NotApplicable
    // held: exit dominates scale-in, which dominates plain holding
    ensures r.Ok? ==> (r.value.status == StatusExit <==> position.Some? && ExitFlag(signals, position.value.side))
    ensures r.Ok? ==> (r.value.status == StatusScaleIn <==>
                         position.Some? && !ExitFlag(signals, position.value.side) && AggressiveFlag(signals, position.value.side))
    ensures r.Ok? ==> (r.value.status == StatusHolding <==>
                         position.Some? && !ExitFlag(signals, position.value.side) && !AggressiveFlag(signals, position.value.side))
    ensures r.Ok? && position.Some? ==>
              r.value.entryPrice == AsRecorded(position.value.entryPrice) &&
              r.value.signalType == (if r.value.status == StatusExit then "Exit "
                                     else if r.value.status == StatusScaleIn then "Scale-In "
                                     else "Holding ") + UpperAscii(position.value.side)
  {
    var row := ScanRow(symbol, Name(s), close, "None", StatusNoSignal, NotApplicable);
    match position
    case None =>
      if LongEntryFlag(signals) then Ok(row.(status := StatusTriggered, signalType := "Long Entry", entryPrice := AtClose(close)))
      else if ShortEntryFlag(signals) then Ok(row.(status := StatusTriggered, signalType := "Short Entry", entryPrice := AtClose(close)))
      else Ok(row)
    case Some(p) =>
      if SideColumn !in live.columns then KeyError("Side")
      else if EntryPriceColumn !in live.columns then KeyError("EntryPrice")
      else
        var held := row.(status := StatusHolding, signalType := "Holding " + UpperAscii(p.side), entryPrice := AsRecorded(p.entryPrice));
        if ExitFlag(signals, p.side) then Ok(held.(status := StatusExit, signalType := "Exit " + UpperAscii(p.side)))
        else if AggressiveFlag(signals, p.side) then Ok(held.(status := StatusScaleIn, signalType := "Scale-In " + UpperAscii(p.side)))
        else Ok(held)
  }

  /** The strategies whose indicator list names SMA_5, for which the row's
      exit column reads `latest_data['SMA_5']`. */
  predicate ReadsSma5(s: Strategy)
  {
    s == ThreeDayHighLow || s == MddMdu || s == Rsi10_6_90_94
  }

  /** One pass of the inner loop: evaluate (TPS with its snapshot), read the
      latest close, classify, then read SMA_5 where the strategy lists it.
      Each read of a missing column raises its KeyError, in that order. */
  function ScanStrategy(symbol: string, s: Strategy, data: Frame, live: LivePortfolio, eval: Evaluator): (r: Outcome<ScanRow>)
    requires |data.rows| >= 1
    ensures r.Ok? ==> r.value.symbol == symbol && r.value.strategy == Name(s) && r.value.currentPrice == Latest(data).close
    ensures r.Ok? ==> Close in data.columns && (ReadsSma5(s) ==> Sma5 in data.columns)
    ensures var e := eval(s, data, TpsSnapshot(live, PositionFor(live, symbol, s)));
            r.KeyError? ==> (e.KeyError? && r.key == e.key) || (e.Ok? && r.key in {"Close", "Side", "EntryPrice", "SMA_5"})
    // the row is the classification of the evaluator's signals, and it
    // exists exactly when no read fails
    ensures var p := PositionFor(live, symbol, s);
            var e := eval(s, data, TpsSnapshot(live, p));
            r.Ok? ==> e.Ok? && r == Classify(symbol, s, Latest(data).close, live, p, e.value)
    ensures var p := PositionFor(live, symbol, s);
            var e := eval(s, data, TpsSnapshot(live, p));
            r.Ok? <==> e.Ok? && Close in data.columns && Classify(symbol, s, Latest(data).close, live, p, e.value).Ok? &&
                       (ReadsSma5(s) ==> Sma5 in data.columns)
  {
    var position := PositionFor(live, symbol, s);
    match eval(s, data, TpsSnapshot(live, position))
    case KeyError(k) => KeyError(k)
    case Ok(signals) =>
      if Close !in data.columns then KeyError("Close")
      else
        match Classify(symbol, s, Latest(data).close, live, position, signals)
        case KeyError(k) => KeyError(k)
        case Ok(row) => if ReadsSma5(s) && Sma5 !in data.columns then KeyError("SMA_5") else Ok(row)
  }

  /** The TPS row is never TRIGGERED, EXIT SIGNAL or AGGRESSIVE ENTRY: the TPS
      dictionary has none of the flags the classification consults. */
  lemma TpsRowOnlyHoldsOrIsQuiet(symbol: string, data: Frame, live: LivePortfolio)
    requires |data.rows| >= 1
    requires ScanStrategy(symbol, Tps, data, live, Evaluate).Ok?
    ensures ScanStrategy(symbol, Tps, data, live, Evaluate).value.status in {StatusNoSignal, StatusHolding}
  {
    var position := PositionFor(live, symbol, Tps);
    var side := if position.Some? then position.value.side else "";
    TpsHasNoFlags(data, TpsSnapshot(live, position), side);
  }

  /** The scanner always hands TPS a last entry price, so unlike the backtest
      its TPS evaluation never raises. */
  lemma ScannerTpsNeverRaises(symbol: string, data: Frame, live: LivePortfolio)
    ensures Evaluate(Tps, data, TpsSnapshot(live, PositionFor(live, symbol, Tps))).Ok?
  {
    var pos := TpsSnapshot(live, PositionFor(live, symbol, Tps));
    assert pos.lastEntryPrice.Some?;
  }

  /** Only rsi_25_75 produces AGGRESSIVE ENTRY; in particular the second-tier
      entry flags of rsi_10_6_90_94 never do. */
  lemma ScaleInOnlyFromRsi25_75(symbol: string, s: Strategy, data: Frame, live: LivePortfolio)
    requires |data.rows| >= 1
    requires ScanStrategy(symbol, s, data, live, Evaluate).Ok?
    requires ScanStrategy(symbol, s, data, live, Evaluate).value.status == StatusScaleIn
    ensures s == Rsi25_75
  {
    var position := PositionFor(live, symbol, s);
    var signals := Evaluate(s, data, TpsSnapshot(live, position)).value;
    assert AggressiveFlag(signals, position.value.side);
    OnlyRsi25_75ScalesIn(s, data, TpsSnapshot(live, position));
  }

  /** The second-tier entry flags alone never make a held row scale in. */
  lemma SecondEntryIsNotScaleIn(symbol: string, s: Strategy, close: Option<real>, live: LivePortfolio,
                                position: Option<LiveRow>, signals: SignalResult)
    requires signals.FromTiered?
    requires Classify(symbol, s, close, live, position, signals).Ok?
    ensures Classify(symbol, s, close, live, position, signals).value.status != StatusScaleIn
  {
    AggressiveKeysOnlyInAggressive(signals);
  }

  // ---------------------------------------------------------------------
  // The scan
  // ---------------------------------------------------------------------

  /** The first k rows of one symbol, in registry order; the first KeyError
      aborts. */
  function ScanStrategies(symbol: string, data: Frame, live: LivePortfolio, k: nat, eval: Evaluator): (r: Outcome<seq<ScanRow>>)
    requires k <= |AllStrategies| && |data.rows| >= 1
    ensures r.Ok? ==> |r.value| == k
    ensures r.Ok? ==> forall i :: 0 <= i < k ==> r.value[i].symbol == symbol && r.value[i].strategy == Name(AllStrategies[i])
    decreases k
  {
    if k == 0 then Ok([])
    else
      match ScanStrategies(symbol, data, live, k - 1, eval)
      case KeyError(e) => KeyError(e)
      case Ok(rows) =>
        match ScanStrategy(symbol, AllStrategies[k - 1], data, live, eval)
        case KeyError(e) => KeyError(e)
        case Ok(row) =>
          Ok(rows + [row])
  }

  lemma {:induction false} ScanStrategiesFailurePersists(symbol: string, data: Frame, live: LivePortfolio, k: nat, m: nat, eval: Evaluator)
    requires k <= m <= |AllStrategies| && |data.rows| >= 1
    requires ScanStrategies(symbol, data, live, k, eval).KeyError?
    ensures ScanStrategies(symbol, data, live, m, eval) == ScanStrategies(symbol, data, live, k, eval)
    decreases m
  {
    if m > k {
      ScanStrategiesFailurePersists(symbol, data, live, k, m - 1, eval);
    }
  }

  /** The minimum history length the scanner accepts. */
  const MinHistory := 200

  /** How many of the first n listings have enough history to be scanned. */
  function Scanned(universe: seq<Listing>, n: nat): nat
    requires n <= |universe|
  {
    if n == 0 then 0
    else Scanned(universe, n - 1) + (if |universe[n - 1].history.rows| < MinHistory then 0 else 1)
  }

  /** The rows for the first n listings: a history shorter than 200 bars is
      skipped, any other gets its indicators and one row per strategy. */
  function Scan(universe: seq<Listing>, live: LivePortfolio, n: nat, eval: Evaluator): (r: Outcome<seq<ScanRow>>)
    requires n <= |universe|
    ensures r.Ok? ==> |r.value| == |AllStrategies| * Scanned(universe, n)
    ensures Scanned(universe, n) == 0 ==> r == Ok([])
    decreases n
  {
    if n == 0 then Ok([])
    else
      match Scan(universe, live, n - 1, eval)
      case KeyError(e) => KeyError(e)
      case Ok(rows) =>
        var h := universe[n - 1].history;
        if |h.rows| < MinHistory then Ok(rows)
        else
          match ScanStrategies(universe[n - 1].symbol, Indicators.WithIndicators(h), live, |AllStrategies|, eval)
          case KeyError(e) => KeyError(e)
          case Ok(more) => Ok(rows + more)
  }

  lemma {:induction false} ScanFailurePersists(universe: seq<Listing>, live: LivePortfolio, n: nat, m: nat, eval: Evaluator)
    requires n <= m <= |universe|
    requires Scan(universe, live, n, eval).KeyError?
    ensures Scan(universe, live, m, eval) == Scan(universe, live, n, eval)
    decreases m
  {
    if m > n {
      ScanFailurePersists(universe, live, n, m - 1, eval);
    }
  }

  /** The scan of the whole universe against the loaded live portfolio. */
  function DailyScan(universe: seq<Listing>, file: Option<LiveCsv>): (r: Outcome<seq<ScanRow>>)
    ensures r.Ok? ==> |r.value| == |AllStrategies| * Scanned(universe, |universe|)
    ensures Scanned(universe, |universe|) == 0 ==> r == Ok([])
  {
    Scan(universe, LivePortfolioOf(file), |universe|, Evaluate)
  }

  /** The strategy loop for one symbol, appending to the report. */
  method ScanSymbol(symbol: string, data: Frame, live: LivePortfolio, eval: Evaluator) returns (r: Outcome<seq<ScanRow>>)
    requires |data.rows| >= 1
    ensures r == ScanStrategies(symbol, data, live, |AllStrategies|, eval)
  {
    var rows: seq<ScanRow> := [];
    var error: Option<string> := None;
    var k := 0;
    while k < |AllStrategies| && error.None?
      invariant 0 <= k <= |AllStrategies|
      invariant ScanStrategies(symbol, data, live, k, eval) == if error.None? then Ok(rows) else KeyError(error.value)
    {
      var row := ScanStrategy(symbol, AllStrategies[k], data, live, eval);
      if row.KeyError? {
        error := Some(row.key);
      } else {
        rows := rows + [row.value];
      }
      k := k + 1;
    }
    if error.Some? {
      ScanStrategiesFailurePersists(symbol, data, live, k, |AllStrategies|, eval);
      return KeyError(error.value);
    }
    return Ok(rows);
  }

  /** `run_daily_scanner` with the fetched histories and the live portfolio
      file as inputs: the rows the report would hold, or the KeyError that
      aborts the scan. */
  method RunDailyScanner(universe: seq<Listing>, file: Option<LiveCsv>) returns (r: Outcome<seq<ScanRow>>)
    ensures r == DailyScan(universe, file)
  {
    var live := LoadLivePortfolio(file);
    var results: seq<ScanRow> := [];
    var error: Option<string> := None;
    var n := 0;
    while n < |universe| && error.None?
      invariant 0 <= n <= |universe|
      invariant Scan(universe, live, n, Evaluate) == if error.None? then Ok(results) else KeyError(error.value)
    {
      var listing := universe[n];
      if |listing.history.rows| >= MinHistory {
        var frame := new DataFrame(listing.history);
        var _ := Indicators.CalculateIndicators(frame);
        var rows := ScanSymbol(listing.symbol, frame.Value(), live, Evaluate);
        if rows.KeyError? {
          error := Some(rows.key);
        } else {
          results := results + rows.value;
        }
      }
      n := n + 1;
    }
    if error.Some? {
      ScanFailurePersists(universe, live, n, |universe|, Evaluate);
      return KeyError(error.value);
    }
    return Ok(results);
  }
}
