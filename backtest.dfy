/** The end-to-end backtest: every strategy replayed bar by bar over every
    symbol's history, a book of open positions keyed `symbol_strategy`, one
    portfolio value per strategy, and the trade and equity-curve logs. */
module Backtest {
  import opened Common
  import opened Frames
  import opened Signals
  import opened Strategies
  import TpsStrategy
  import Indicators

  /** PORTFOLIO_VALUE_USD, the starting value of every strategy's portfolio. */
  const PortfolioValueUsd: real := 25000.0
  /** RISK_PER_TRADE_PERCENT */
  const RiskPerTradePercent: real := 0.25

  /** One record of the portfolio-state map, as the tracker stores it. */
  datatype Position = Position(
    isOpen: bool,
    side: string,
    entryDate: string,
    entryPrice: real,
    quantity: nat,
    tranchesFilled: int)

  /** A row of the trade log, with the unrounded P&L that is booked. */
  datatype Trade = Trade(
    symbol: string,
    strategy: string,
    side: string,
    entryDate: string,
    entryPrice: real,
    exitDate: string,
    exitPrice: real,
    quantity: nat,
    pnl: real)

  /** A row of the equity-curve log. */
  datatype EquityPoint = EquityPoint(date: string, strategy: string, portfolioValue: real)

  /** Everything the run updates: the position book, the per-strategy
      portfolio values, and the two logs. */
  datatype Ledger = Ledger(
    positions: map<string, Position>,
    values: map<Strategy, real>,
    trades: seq<Trade>,
    equity: seq<EquityPoint>)

  /** Python's `int(x)` on a float: truncation toward zero. */
  function Truncate(x: real): (n: int)
    ensures x >= 0.0 ==> 0 <= n && n as real <= x < n as real + 1.0
    ensures x < 0.0 ==> n <= 0 && n as real - 1.0 < x <= n as real
  {
    if x >= 0.0 then x.Floor else -((-x).Floor)
  }

  /** The cash one trade may commit: RISK_PER_TRADE_PERCENT percent of the
      portfolio. */
  function TradeUnit(portfolioValue: real): real
  {
    portfolioValue * (RiskPerTradePercent / 100.0)
  }

  /** Multiplying both sides of a comparison by a positive factor. */
  lemma ScaleComparison(a: real, b: real, c: real)
    requires c > 0.0
    ensures a <= b <==> a * c <= b * c
    ensures a < b <==> a * c < b * c
  {
    assert (b - a) * c == b * c - a * c;
    if a < b {
      assert (b - a) * c > 0.0;
    } else {
      assert (a - b) * c >= 0.0;
    }
  }

  /** Paying for one share lowers the quotient by one. */
  lemma QuotientStep(unit: real, price: real)
    requires price > 0.0
    ensures (unit - price) / price == unit / price - 1.0
  {
    var x := unit / price;
    var y := (unit - price) / price;
    assert x * price == unit;
    assert y * price == unit - price;
    assert (x - 1.0) * price == x * price - price;
    ScaleComparison(y, x - 1.0, price);
    ScaleComparison(x - 1.0, y, price);
  }

  /** The whole shares of `price` that `unit` pays for, counted one share at
      a time (a negative unit buys none). */
  function SharesFor(unit: real, price: real): nat
    requires price > 0.0
    decreases if unit < price then 0 else (unit / price).Floor
  {
    if unit < price then 0
    else
      QuotientStep(unit, price);
      1 + SharesFor(unit - price, price)
  }

  /** For a non-negative unit the count is the floor of `unit / price`: it
      pays for that many shares and not one more. */
  lemma {:induction false} SharesForIsQuotient(unit: real, price: real)
    requires price > 0.0 && unit >= 0.0
    ensures var q := SharesFor(unit, price) as real;
            q * price <= unit < (q + 1.0) * price
    decreases if unit < price then 0 else (unit / price).Floor
  {
    if unit >= price {
      QuotientStep(unit, price);
      SharesForIsQuotient(unit - price, price);
      SharesForStep(unit, price);
    } else {
      SharesForNone(unit, price);
    }
  }

  /** Below one share's price the count is zero, which brackets the unit. */
  lemma SharesForNone(unit: real, price: real)
    requires 0.0 <= unit < price
    ensures var q := SharesFor(unit, price) as real;
            q * price <= unit < (q + 1.0) * price
  {
    assert SharesFor(unit, price) as real == 0.0;
  }

  /** Paying for one share first: a bracket for `unit - price` is a bracket
      one share higher for `unit`. */
  lemma SharesForStep(unit: real, price: real)
    requires price > 0.0 && unit >= price
    requires var p := SharesFor(unit - price, price) as real;
             p * price <= unit - price < (p + 1.0) * price
    ensures var q := SharesFor(unit, price) as real;
            q * price <= unit < (q + 1.0) * price
  {
    var p := SharesFor(unit - price, price) as real;
    assert SharesFor(unit, price) as real == p + 1.0;
    assert (p + 1.0) * price == p * price + price;
    assert (p + 2.0) * price == (p + 1.0) * price + price;
  }

  /** `calculate_position_size(price, portfolio_value)`: `int(trade_unit / price)`,
      zero for a non-positive price. */
  function PositionSize(price: real, portfolioValue: real): (n: nat)
    ensures price <= 0.0 ==> n == 0
    ensures price > 0.0 && portfolioValue >= 0.0 ==>
              n as real * price <= TradeUnit(portfolioValue) < (n as real + 1.0) * price
  {
    if price <= 0.0 then 0
    else
      var unit := TradeUnit(portfolioValue);
      if portfolioValue >= 0.0 then SharesForIsQuotient(unit, price); SharesFor(unit, price)
      else SharesFor(unit, price)
  }

  /** A position is possible exactly when the trade unit covers one share at
      a positive price, and the size is then Python's `int(trade_unit / price)`. */
  lemma PositionSizeMeaning(price: real, portfolioValue: real)
    ensures price <= 0.0 ==> PositionSize(price, portfolioValue) == 0
    ensures PositionSize(price, portfolioValue) > 0 <==> price > 0.0 && TradeUnit(portfolioValue) >= price
    ensures price > 0.0 && portfolioValue >= 0.0 ==>
              PositionSize(price, portfolioValue) == Truncate(TradeUnit(portfolioValue) / price)
  {
    if price > 0.0 && portfolioValue >= 0.0 {
      var unit := TradeUnit(portfolioValue);
      SharesForIsQuotient(unit, price);
      FloorOfQuotient(unit, price, PositionSize(price, portfolioValue));
    }
  }

  /** A whole number bracketed by `q * price <= unit < (q + 1) * price` is the
      floor of the quotient. */
  lemma FloorOfQuotient(unit: real, price: real, q: nat)
    requires price > 0.0 && q as real * price <= unit < (q as real + 1.0) * price
    ensures Truncate(unit / price) == q
  {
    var x := unit / price;
    assert x * price == unit;
    assert q as real * price <= x * price;
    ScaleComparison(q as real, x, price);
    var hi := q as real + 1.0;
    assert unit < hi * price;
    assert x * price < hi * price;
    ScaleComparison(x, hi, price);
    assert q as real <= x < q as real + 1.0;
  }

  /** With the configured 25000 and 0.25 %, a 50.00 share price buys one share. */
  lemma PositionSizeExample()
    ensures PositionSize(50.0, PortfolioValueUsd) == 1
  {
    assert TradeUnit(PortfolioValueUsd) == 62.5;
  }

  /** `quantity` shares each moving by `perShare`, summed one share at a time. */
  function Gain(perShare: real, quantity: nat): real
  {
    if quantity == 0 then 0.0 else Gain(perShare, quantity - 1) + perShare
  }

  lemma {:induction false} GainIsProduct(perShare: real, quantity: nat)
    ensures Gain(perShare, quantity) == perShare * quantity as real
  {
    if quantity > 0 {
      GainIsProduct(perShare, quantity - 1);
      assert perShare * quantity as real == perShare * (quantity - 1) as real + perShare;
    }
  }

  /** The P&L computed in `log_trade`: the price move in the side's favour
      times the quantity; any side other than "long" is treated as short.
      A trade of positive size gains exactly when the price moved its way,
      and an unchanged price books nothing. */
  function Pnl(side: string, entryPrice: real, exitPrice: real, quantity: nat): (pnl: real)
    ensures quantity > 0 ==>
              (pnl > 0.0 <==> (if side == "long" then exitPrice > entryPrice else exitPrice < entryPrice))
    ensures exitPrice == entryPrice || quantity == 0 ==> pnl == 0.0
  {
    var d := if side == "long" then exitPrice - entryPrice else entryPrice - exitPrice;
    GainIsProduct(d, quantity);
    if quantity > 0 then ScaleComparison(0.0, d, quantity as real); Gain(d, quantity)
    else Gain(d, quantity)
  }

  /** The booked P&L is `(exit - entry) * quantity` for a long and
      `(entry - exit) * quantity` otherwise. */
  lemma PnlMeaning(side: string, entryPrice: real, exitPrice: real, quantity: nat)
    ensures Pnl(side, entryPrice, exitPrice, quantity) ==
            if side == "long" then (exitPrice - entryPrice) * quantity as real
            else (entryPrice - exitPrice) * quantity as real
  {
    var d := if side == "long" then exitPrice - entryPrice else entryPrice - exitPrice;
    GainIsProduct(d, quantity);
  }

  /** A long and a short over the same prices and size mirror each other. */
  lemma PnlSidesMirror(entryPrice: real, exitPrice: real, quantity: nat)
    ensures Pnl("long", entryPrice, exitPrice, quantity) == -Pnl("short", entryPrice, exitPrice, quantity)
  {
    PnlMeaning("long", entryPrice, exitPrice, quantity);
    PnlMeaning("short", entryPrice, exitPrice, quantity);
  }

  /** `{strategy: PORTFOLIO_VALUE_USD for strategy in STRATEGY_MAP}` */
  function InitialValues(): (m: map<Strategy, real>)
    ensures forall s: Strategy :: s in m && m[s] == PortfolioValueUsd
  {
    AllStrategiesListsEachOnce();
    map s | s in AllStrategies :: PortfolioValueUsd
  }

  function InitialLedger(portfolio: map<string, Position>): Ledger
  {
    Ledger(portfolio, InitialValues(), [], [])
  }

  predicate HasAllValues(l: Ledger)
  {
    forall s: Strategy :: s in l.values
  }

  /** Every bar carries a close price (a NaN close is outside the model). */
  predicate ClosesPresent(f: Frame)
  {
    Close in f.columns ==> forall i :: 0 <= i < |f.rows| ==> f.rows[i].close.Some?
  }

  /** The dictionary handed to the TPS evaluator: the stored record itself,
      which has no `last_entry_price` key; an absent record is `{}`. */
  function RecordSnapshot(held: Option<Position>): (pos: TpsStrategy.PositionState)
    ensures pos.isOpen <==> held.Some? && held.value.isOpen
    ensures pos.lastEntryPrice.None?
    ensures pos.side.Some? <==> held.Some?
    ensures held.Some? ==> pos.side == Some(held.value.side) && pos.tranchesFilled == held.value.tranchesFilled
  {
    match held
    case None => TpsStrategy.PositionState(false, None, 0, None)
    case Some(p) => TpsStrategy.PositionState(p.isOpen, Some(p.side), p.tranchesFilled, None)
  }

  /** The side a flat book enters on: long when any long entry flag is set,
      short only otherwise. */
  function EntrySide(signals: SignalResult): Option<string>
  {
    if LongEntryFlag(signals) then Some("long")
    else if ShortEntryFlag(signals) then Some("short")
    else None
  }

  function Held(l: Ledger, key: string): Option<Position>
  {
    if key in l.positions then Some(l.positions[key]) else None
  }

  /** The exit-or-entry block that follows the evaluation: an open record is
      closed on its side's exit flag, booking the P&L at the current close; a
      flat book opens a record when an entry flag is set and the size is
      positive. */
  function Settlement(l: Ledger, symbol: string, s: Strategy, day: Bar, signals: SignalResult): (r: Ledger)
    requires s in l.values && day.close.Some?
    // a trade is logged, with its equity point, exactly when the open record closes
    ensures var held := Held(l, Key(symbol, s));
            |r.trades| == |l.trades| + (if held.Some? && held.value.isOpen && ExitFlag(signals, held.value.side) then 1 else 0)
    ensures |r.equity| - |l.equity| == |r.trades| - |l.trades|
    // an open record is never replaced: the backtest does not scale in
    ensures var held := Held(l, Key(symbol, s));
            held.Some? && held.value.isOpen ==> Held(r, Key(symbol, s)) in {held, None}
    // nothing else changes: other records, other strategies' values, earlier log entries
    ensures forall k :: k != Key(symbol, s) ==> Held(r, k) == Held(l, k)
    ensures forall t :: t in l.values ==> t in r.values && (t != s ==> r.values[t] == l.values[t])
    ensures l.trades <= r.trades && l.equity <= r.equity
  {
    var held := Held(l, Key(symbol, s));
    if held.Some? && held.value.isOpen then ExitBlock(l, symbol, s, day, signals, held.value)
    else EntryBlock(l, symbol, s, day, signals)
  }

  /** The exit block for the open record `p`. */
  function ExitBlock(l: Ledger, symbol: string, s: Strategy, day: Bar, signals: SignalResult, p: Position): (r: Ledger)
    requires s in l.values && day.close.Some?
    ensures !ExitFlag(signals, p.side) ==> r == l
    ensures forall k :: k != Key(symbol, s) ==> Held(r, k) == Held(l, k)
    ensures ExitFlag(signals, p.side) ==>
              && Held(r, Key(symbol, s)).None?
              && |r.trades| == |l.trades| + 1 && l.trades <= r.trades
              && |r.equity| == |l.equity| + 1 && l.equity <= r.equity
              && r.trades[|l.trades|].pnl == Pnl(p.side, p.entryPrice, day.close.value, p.quantity)
              && r.values == l.values[s := l.values[s] + r.trades[|l.trades|].pnl]
              && r.equity[|l.equity|].portfolioValue == r.values[s]
  {
    if ExitFlag(signals, p.side) then
      var price := day.close.value;
      var pnl := Pnl(p.side, p.entryPrice, price, p.quantity);
      var v := l.values[s] + pnl;
      var trade := Trade(symbol, Name(s), p.side, p.entryDate, p.entryPrice, day.date, price, p.quantity, pnl);
      Ledger(l.positions - {Key(symbol, s)}, l.values[s := v], l.trades + [trade],
             l.equity + [EquityPoint(day.date, Name(s), v)])
    else l
  }

  /** The entry block for a flat book. */
  function EntryBlock(l: Ledger, symbol: string, s: Strategy, day: Bar, signals: SignalResult): (r: Ledger)
    requires s in l.values && day.close.Some?
    // an entry books nothing and touches no other record
    ensures r.values == l.values && r.trades == l.trades && r.equity == l.equity
    ensures forall k :: k != Key(symbol, s) ==> Held(r, k) == Held(l, k)
    // a record is written exactly when an entry flag is set and the size is positive
    ensures var q := PositionSize(day.close.value, l.values[s]);
            if EntrySide(signals).Some? && q > 0
            then Held(r, Key(symbol, s)) == Some(Position(true, EntrySide(signals).value, day.date, day.close.value, q, 1))
            else r == l
  {
    var side := EntrySide(signals);
    var q := PositionSize(day.close.value, l.values[s]);
    if side.Some? && q > 0 then
      l.(positions := l.positions[Key(symbol, s) := Position(true, side.value, day.date, day.close.value, q, 1)])
    else l
  }

  /** One pass of the bar loop's body for (symbol, strategy) on the slice that
      ends at the current bar: read the close, evaluate, settle. */
  function BarStep(l: Ledger, symbol: string, s: Strategy, slice: Frame, eval: Evaluator): (r: Outcome<Ledger>)
    requires |slice.rows| >= 1 && s in l.values
    requires Close in slice.columns ==> Latest(slice).close.Some?
    ensures r.Ok? ==> forall t :: t in l.values ==> t in r.value.values
  {
    if Close !in slice.columns then KeyError("Close")
    else
      match eval(s, slice, RecordSnapshot(Held(l, Key(symbol, s))))
      case KeyError(k) => KeyError(k)
      case Ok(signals) => Ok(Settlement(l, symbol, s, Latest(slice), signals))
  }

  /** A step touches only its own `symbol_strategy` record and its own
      strategy's portfolio value, and the logs only grow. */
  lemma BarStepTouchesOnlyItsKey(l: Ledger, symbol: string, s: Strategy, slice: Frame, eval: Evaluator)
    requires |slice.rows| >= 1 && s in l.values
    requires Close in slice.columns ==> Latest(slice).close.Some?
    requires BarStep(l, symbol, s, slice, eval).Ok?
    ensures var r := BarStep(l, symbol, s, slice, eval).value;
            (forall k :: k != Key(symbol, s) ==> Held(r, k) == Held(l, k)) &&
            (forall t :: t in l.values && t != s ==> r.values[t] == l.values[t]) &&
            l.trades <= r.trades && l.equity <= r.equity
  {
    var signals := eval(s, slice, RecordSnapshot(Held(l, Key(symbol, s)))).value;
  }

  /** What a step does to its own record: an open position is closed exactly
      when its side's exit flag is set, booking the P&L at the current close;
      a record is created only from flat, open, with a positive size, one
      tranche, long winning ties; and from flat, an entry flag with a positive
      size always opens it, while no entry leaves the ledger as it was. */
  lemma BarStepTransition(l: Ledger, symbol: string, s: Strategy, slice: Frame, eval: Evaluator)
    requires |slice.rows| >= 1 && s in l.values && Close in slice.columns
    requires Latest(slice).close.Some?
    requires BarStep(l, symbol, s, slice, eval).Ok?
    ensures var key := Key(symbol, s);
            var r := BarStep(l, symbol, s, slice, eval).value;
            var signals := eval(s, slice, RecordSnapshot(Held(l, key))).value;
            var price := Latest(slice).close.value;
            (Held(l, key).Some? && Held(l, key).value.isOpen ==>
               var p := Held(l, key).value;
               if ExitFlag(signals, p.side) then
                 Held(r, key).None? && |r.trades| == |l.trades| + 1 &&
                 r.trades[|l.trades|].pnl == Pnl(p.side, p.entryPrice, price, p.quantity) &&
                 r.values[s] == l.values[s] + Pnl(p.side, p.entryPrice, price, p.quantity)
               else r == l) &&
            (Held(r, key) != Held(l, key) && Held(r, key).Some? ==>
               (Held(l, key).None? || !Held(l, key).value.isOpen) &&
               Held(r, key).value == Position(true, if LongEntryFlag(signals) then "long" else "short",
                                              Latest(slice).date, price, PositionSize(price, l.values[s]), 1) &&
               PositionSize(price, l.values[s]) > 0 && (LongEntryFlag(signals) || ShortEntryFlag(signals))) &&
            ((Held(l, key).None? || !Held(l, key).value.isOpen) ==>
               if EntrySide(signals).Some? && PositionSize(price, l.values[s]) > 0 then
                 r == l.(positions := l.positions[key := Position(true, EntrySide(signals).value, Latest(slice).date,
                                                                  price, PositionSize(price, l.values[s]), 1)])
               else r == l)
  {
  }

  /** The TPS dictionary has none of the flags the tracker consults, so a
      TPS step never changes the ledger. */
  lemma TpsStepChangesNothing(l: Ledger, symbol: string, slice: Frame, eval: Evaluator)
    requires |slice.rows| >= 1 && Tps in l.values && AnswersTpsWithTps(eval)
    requires Close in slice.columns ==> Latest(slice).close.Some?
    requires BarStep(l, symbol, Tps, slice, eval).Ok?
    ensures BarStep(l, symbol, Tps, slice, eval).value == l
  {
    var signals := eval(Tps, slice, RecordSnapshot(Held(l, Key(symbol, Tps))));
    assert signals.value.FromTps?;
  }

  /** A step fails only on a missing Close column, on a column three_day_hl
      reads but the frame lacks, or on a TPS scale-in of a stored record,
      which never has `last_entry_price`. */
  lemma BarStepFailures(l: Ledger, symbol: string, s: Strategy, slice: Frame)
    requires |slice.rows| >= 1 && s in l.values
    requires Close in slice.columns ==> Latest(slice).close.Some?
    requires BarStep(l, symbol, s, slice, Evaluate).KeyError?
    ensures var k := BarStep(l, symbol, s, slice, Evaluate).key;
            (Close !in slice.columns && k == "Close") ||
            (s == ThreeDayHighLow && !(ThreeDayHLStrategy.ReadColumns <= slice.columns)) ||
            (s == Tps && k == "last_entry_price" && Key(symbol, Tps) in l.positions &&
             l.positions[Key(symbol, Tps)].isOpen)
  {
  }

  /** The realised P&L that the trade log holds for one strategy. */
  function RealizedPnl(trades: seq<Trade>, strategy: string): real
  {
    if |trades| == 0 then 0.0
    else
      var last := trades[|trades| - 1];
      RealizedPnl(trades[..|trades| - 1], strategy) + (if last.strategy == strategy then last.pnl else 0.0)
  }

  lemma RealizedPnlAppend(trades: seq<Trade>, trade: Trade, strategy: string)
    ensures RealizedPnl(trades + [trade], strategy) ==
            RealizedPnl(trades, strategy) + (if trade.strategy == strategy then trade.pnl else 0.0)
  {
    assert (trades + [trade])[..|trades|] == trades;
  }

  /** The books balance: every strategy's portfolio value is its starting
      value plus the P&L of its logged trades, and every trade has its
      equity-curve point. */
  predicate Balanced(l: Ledger, start: map<Strategy, real>)
  {
    |l.equity| == |l.trades| &&
    forall t :: t in start ==> t in l.values && l.values[t] == start[t] + RealizedPnl(l.trades, Name(t))
  }

  lemma NameInjective(s: Strategy, t: Strategy)
    requires Name(s) == Name(t)
    ensures s == t
  {
    KeyInjective("", s, "", t);
  }

  /** Closing a trade moves its strategy's value by exactly the P&L it logs. */
  lemma ExitBlockBalances(l: Ledger, start: map<Strategy, real>, symbol: string, s: Strategy, day: Bar, signals: SignalResult, p: Position)
    requires s in l.values && day.close.Some? && Balanced(l, start)
    ensures Balanced(ExitBlock(l, symbol, s, day, signals, p), start)
  {
    if ExitFlag(signals, p.side) {
      var price := day.close.value;
      var pnl := Pnl(p.side, p.entryPrice, price, p.quantity);
      var trade := Trade(symbol, Name(s), p.side, p.entryDate, p.entryPrice, day.date, price, p.quantity, pnl);
      var r := ExitBlock(l, symbol, s, day, signals, p);
      assert r.trades == l.trades + [trade] && r.values == l.values[s := l.values[s] + pnl];
      assert |r.equity| == |r.trades|;
      forall t | t in start
        ensures r.values[t] == start[t] + RealizedPnl(r.trades, Name(t))
      {
        RealizedPnlAppend(l.trades, trade, Name(t));
        if t != s && Name(t) == Name(s) {
          NameInjective(t, s);
        }
      }
    }
  }

  /** Settling a bar keeps the books balanced. */
  lemma SettlementBalances(l: Ledger, start: map<Strategy, real>, symbol: string, s: Strategy, day: Bar, signals: SignalResult)
    requires s in l.values && day.close.Some? && Balanced(l, start)
    ensures Balanced(Settlement(l, symbol, s, day, signals), start)
  {
    var held := Held(l, Key(symbol, s));
    if held.Some? && held.value.isOpen {
      ExitBlockBalances(l, start, symbol, s, day, signals, held.value);
    }
  }

  /** Every successful step keeps the books balanced. */
  lemma BarStepBalances(l: Ledger, start: map<Strategy, real>, symbol: string, s: Strategy, slice: Frame, eval: Evaluator)
    requires |slice.rows| >= 1 && s in l.values
    requires Close in slice.columns ==> Latest(slice).close.Some?
    requires Balanced(l, start) && BarStep(l, symbol, s, slice, eval).Ok?
    ensures Balanced(BarStep(l, symbol, s, slice, eval).value, start)
  {
    var signals := eval(s, slice, RecordSnapshot(Held(l, Key(symbol, s)))).value;
    SettlementBalances(l, start, symbol, s, Latest(slice), signals);
  }

  /** The bars of the loop `for i in range(1, n)`, each evaluated on the
      slice `iloc[:i+1]`, applied to the ledger in order; the first KeyError
      ends the run. */
  function ReplayBars(l: Ledger, symbol: string, s: Strategy, data: Frame, n: nat, eval: Evaluator): (r: Outcome<Ledger>)
    requires 1 <= n <= |data.rows| && s in l.values && ClosesPresent(data)
    ensures r.Ok? ==> forall t :: t in l.values ==> t in r.value.values
    decreases n
  {
    if n == 1 then Ok(l)
    else
      match ReplayBars(l, symbol, s, data, n - 1, eval)
      case KeyError(k) => KeyError(k)
      case Ok(m) => BarStep(m, symbol, s, Prefix(data, n), eval)
  }

  /** One more bar: the replay up to `n + 1` is the step on `iloc[:n+1]`
      after the replay up to `n`. */
  lemma {:induction false} ReplayBarsNext(l: Ledger, symbol: string, s: Strategy, data: Frame, n: nat, m: Ledger, eval: Evaluator)
    requires 1 <= n < |data.rows| && s in l.values && ClosesPresent(data)
    requires ReplayBars(l, symbol, s, data, n, eval) == Ok(m)
    ensures s in m.values && (Close in data.columns ==> Latest(Prefix(data, n + 1)).close.Some?)
    ensures ReplayBars(l, symbol, s, data, n + 1, eval) == BarStep(m, symbol, s, Prefix(data, n + 1), eval)
  {
    assert s in m.values;
    assert Prefix(data, n + 1).rows[n] == data.rows[n];
  }

  lemma {:induction false} ReplayBarsFailurePersists(l: Ledger, symbol: string, s: Strategy, data: Frame, n: nat, m: nat, eval: Evaluator)
    requires 1 <= n <= m <= |data.rows| && s in l.values && ClosesPresent(data)
    requires ReplayBars(l, symbol, s, data, n, eval).KeyError?
    ensures ReplayBars(l, symbol, s, data, m, eval) == ReplayBars(l, symbol, s, data, n, eval)
    decreases m
  {
    if m > n {
      ReplayBarsFailurePersists(l, symbol, s, data, n, m - 1, eval);
    }
  }

  /** The strategy loop for one symbol, over the registry in order. */
  function ReplayStrategies(l: Ledger, symbol: string, data: Frame, k: nat, eval: Evaluator): (r: Outcome<Ledger>)
    requires k <= |AllStrategies| && 1 <= |data.rows| && HasAllValues(l) && ClosesPresent(data)
    ensures r.Ok? ==> HasAllValues(r.value)
    decreases k
  {
    if k == 0 then Ok(l)
    else
      match ReplayStrategies(l, symbol, data, k - 1, eval)
      case KeyError(e) => KeyError(e)
      case Ok(m) => ReplayBars(m, symbol, AllStrategies[k - 1], data, |data.rows|, eval)
  }

  lemma {:induction false} ReplayStrategiesFailurePersists(l: Ledger, symbol: string, data: Frame, k: nat, m: nat, eval: Evaluator)
    requires k <= m <= |AllStrategies| && 1 <= |data.rows| && HasAllValues(l) && ClosesPresent(data)
    requires ReplayStrategies(l, symbol, data, k, eval).KeyError?
    ensures ReplayStrategies(l, symbol, data, m, eval) == ReplayStrategies(l, symbol, data, k, eval)
    decreases m
  {
    if m > k {
      ReplayStrategiesFailurePersists(l, symbol, data, k, m - 1, eval);
    }
  }

  /** Replaying the bars of one (symbol, strategy) keeps the books balanced. */
  lemma {:induction false} ReplayBarsBalances(l: Ledger, start: map<Strategy, real>, symbol: string, s: Strategy, data: Frame, n: nat, eval: Evaluator)
    requires 1 <= n <= |data.rows| && s in l.values && ClosesPresent(data) && Balanced(l, start)
    requires ReplayBars(l, symbol, s, data, n, eval).Ok?
    ensures Balanced(ReplayBars(l, symbol, s, data, n, eval).value, start)
    decreases n
  {
    if n > 1 {
      ReplayBarsBalances(l, start, symbol, s, data, n - 1, eval);
      ReplayBarsStepBalances(l, start, symbol, s, data, n - 1, ReplayBars(l, symbol, s, data, n - 1, eval).value, eval);
    }
  }

  lemma ReplayBarsStepBalances(l: Ledger, start: map<Strategy, real>, symbol: string, s: Strategy, data: Frame, n: nat, m: Ledger, eval: Evaluator)
    requires 1 <= n < |data.rows| && s in l.values && ClosesPresent(data)
    requires ReplayBars(l, symbol, s, data, n, eval) == Ok(m) && Balanced(m, start)
    requires ReplayBars(l, symbol, s, data, n + 1, eval).Ok?
    ensures Balanced(ReplayBars(l, symbol, s, data, n + 1, eval).value, start)
  {
    ReplayBarsNext(l, symbol, s, data, n, m, eval);
    BarStepBalances(m, start, symbol, s, Prefix(data, n + 1), eval);
  }

  /** The TPS strategy never changes the ledger in the backtest: its
      dictionary carries none of the entry or exit flags the tracker reads. */
  lemma {:induction false} TpsReplayChangesNothing(l: Ledger, symbol: string, data: Frame, n: nat, eval: Evaluator)
    requires 1 <= n <= |data.rows| && Tps in l.values && ClosesPresent(data) && AnswersTpsWithTps(eval)
    requires ReplayBars(l, symbol, Tps, data, n, eval).Ok?
    ensures ReplayBars(l, symbol, Tps, data, n, eval).value == l
    decreases n
  {
    if n > 1 {
      TpsReplayChangesNothing(l, symbol, data, n - 1, eval);
      ReplayBarsNext(l, symbol, Tps, data, n - 1, l, eval);
      TpsStepChangesNothing(l, symbol, Prefix(data, n), eval);
    }
  }

  /** Every history of the universe carries its close prices. */
  predicate Priced(universe: seq<Listing>)
  {
    forall i :: 0 <= i < |universe| ==> ClosesPresent(universe[i].history)
  }

  lemma IndicatorsKeepCloses(f: Frame)
    requires ClosesPresent(f)
    ensures ClosesPresent(Indicators.WithIndicators(f))
  {
    if Close in f.columns && |f.rows| > 0 {
      forall i | 0 <= i < |f.rows|
        ensures Indicators.WithIndicators(f).rows[i].close.Some?
      {
        Indicators.IndicatorRow(f, i);
      }
    }
  }

  /** The strategy loop for one symbol keeps the books balanced. */
  lemma {:induction false} ReplayStrategiesBalances(l: Ledger, start: map<Strategy, real>, symbol: string, data: Frame, k: nat, eval: Evaluator)
    requires k <= |AllStrategies| && 1 <= |data.rows| && HasAllValues(l) && ClosesPresent(data) && Balanced(l, start)
    requires ReplayStrategies(l, symbol, data, k, eval).Ok?
    ensures Balanced(ReplayStrategies(l, symbol, data, k, eval).value, start)
    decreases k
  {
    if k > 0 {
      var m := ReplayStrategies(l, symbol, data, k - 1, eval).value;
      ReplayStrategiesBalances(l, start, symbol, data, k - 1, eval);
      ReplayBarsBalances(m, start, symbol, AllStrategies[k - 1], data, |data.rows|, eval);
    }
  }

  /** The symbol loop of `run_e2e_test`: a symbol with an empty history is
      skipped, every other one gets its indicators and the strategy loop. */
  function ReplayUniverse(l: Ledger, universe: seq<Listing>, n: nat, eval: Evaluator): (r: Outcome<Ledger>)
    requires n <= |universe| && HasAllValues(l) && Priced(universe)
    ensures r.Ok? ==> HasAllValues(r.value)
    decreases n
  {
    if n == 0 then Ok(l)
    else
      match ReplayUniverse(l, universe, n - 1, eval)
      case KeyError(e) => KeyError(e)
      case Ok(m) =>
        var h := universe[n - 1].history;
        if |h.rows| == 0 then Ok(m)
        else
          IndicatorsKeepCloses(h);
          ReplayStrategies(m, universe[n - 1].symbol, Indicators.WithIndicators(h), |AllStrategies|, eval)
  }

  lemma {:induction false} ReplayUniverseFailurePersists(l: Ledger, universe: seq<Listing>, n: nat, m: nat, eval: Evaluator)
    requires n <= m <= |universe| && HasAllValues(l) && Priced(universe)
    requires ReplayUniverse(l, universe, n, eval).KeyError?
    ensures ReplayUniverse(l, universe, m, eval) == ReplayUniverse(l, universe, n, eval)
    decreases m
  {
    if m > n {
      ReplayUniverseFailurePersists(l, universe, n, m - 1, eval);
    }
  }

  /** The `portfolio_state` and `portfolio_values` dictionaries and the two
      logs, updated in place by the loops. */
  class Tracker {
    var positions: map<string, Position>
    var values: map<Strategy, real>
    var trades: seq<Trade>
    var equity: seq<EquityPoint>

    function State(): Ledger
      reads this
    {
      Ledger(positions, values, trades, equity)
    }

    /** Starts from the loaded portfolio state with every strategy at
        PORTFOLIO_VALUE_USD and empty logs. */
    constructor (portfolio: map<string, Position>)
      ensures State() == InitialLedger(portfolio)
    {
      positions := portfolio;
      values := InitialValues();
      trades := [];
      equity := [];
    }

    /** The exit and entry blocks of the bar loop, given the evaluator's answer. */
    method Settle(symbol: string, s: Strategy, day: Bar, signals: SignalResult)
      requires s in values && day.close.Some?
      modifies this
      ensures State() == Settlement(old(State()), symbol, s, day, signals)
    {
      var key := Key(symbol, s);
      if key in positions && positions[key].isOpen {
        Exit(symbol, s, day, signals, positions[key]);
      } else {
        Enter(symbol, s, day, signals);
      }
    }

    method Exit(symbol: string, s: Strategy, day: Bar, signals: SignalResult, p: Position)
      requires s in values && day.close.Some?
      modifies this
      ensures State() == ExitBlock(old(State()), symbol, s, day, signals, p)
    {
      if ExitFlag(signals, p.side) {
        var price := day.close.value;
        var pnl := Pnl(p.side, p.entryPrice, price, p.quantity);
        var v := values[s] + pnl;
        trades := trades + [Trade(symbol, Name(s), p.side, p.entryDate, p.entryPrice, day.date, price, p.quantity, pnl)];
        values := values[s := v];
        equity := equity + [EquityPoint(day.date, Name(s), v)];
        positions := positions - {Key(symbol, s)};
      }
    }

    method Enter(symbol: string, s: Strategy, day: Bar, signals: SignalResult)
      requires s in values && day.close.Some?
      modifies this
      ensures State() == EntryBlock(old(State()), symbol, s, day, signals)
    {
      var side := EntrySide(signals);
      if side.Some? {
        var quantity := PositionSize(day.close.value, values[s]);
        if quantity > 0 {
          positions := positions[Key(symbol, s) := Position(true, side.value, day.date, day.close.value, quantity, 1)];
        }
      }
    }

    /** One iteration of the bar loop. On a KeyError nothing has changed. */
    method Step(symbol: string, s: Strategy, slice: Frame, eval: Evaluator) returns (error: Option<string>)
      requires |slice.rows| >= 1 && s in values
      requires Close in slice.columns ==> Latest(slice).close.Some?
      modifies this
      ensures BarStep(old(State()), symbol, s, slice, eval).Ok? ==>
                error.None? && State() == BarStep(old(State()), symbol, s, slice, eval).value
      ensures BarStep(old(State()), symbol, s, slice, eval).KeyError? ==>
                error == Some(BarStep(old(State()), symbol, s, slice, eval).key) && State() == old(State())
    {
      if Close !in slice.columns {
        return Some("Close");
      }
      var key := Key(symbol, s);
      var held := if key in positions then Some(positions[key]) else None;
      var signals := eval(s, slice, RecordSnapshot(held));
      if signals.KeyError? {
        return Some(signals.key);
      }
      Settle(symbol, s, Latest(slice), signals.value);
      return None;
    }

    /** `for i in range(1, len(data))` for one (symbol, strategy). */
    method RunStrategy(symbol: string, s: Strategy, data: Frame, eval: Evaluator) returns (error: Option<string>)
      requires 1 <= |data.rows| && s in values && ClosesPresent(data)
      modifies this
      ensures ReplayBars(old(State()), symbol, s, data, |data.rows|, eval) ==
              if error.None? then Ok(State()) else KeyError(error.value)
    {
      ghost var start := State();
      var i := 1;
      error := None;
      while i < |data.rows| && error.None?
        invariant 1 <= i <= |data.rows|
        invariant ReplayBars(start, symbol, s, data, i, eval) ==
                  if error.None? then Ok(State()) else KeyError(error.value)
      {
        error := AdvanceBar(start, symbol, s, data, i, eval);
        i := i + 1;
      }
      if error.Some? {
        ReplayBarsFailurePersists(start, symbol, s, data, i, |data.rows|, eval);
      }
    }

    /** The body of the bar loop for bar `i`, evaluated on `iloc[:i+1]`. */
    method AdvanceBar(ghost start: Ledger, symbol: string, s: Strategy, data: Frame, i: nat, eval: Evaluator) returns (error: Option<string>)
      requires 1 <= i < |data.rows| && s in start.values && ClosesPresent(data)
      requires ReplayBars(start, symbol, s, data, i, eval) == Ok(State())
      modifies this
      ensures ReplayBars(start, symbol, s, data, i + 1, eval) ==
              if error.None? then Ok(State()) else KeyError(error.value)
    {
      ReplayBarsNext(start, symbol, s, data, i, State(), eval);
      error := Step(symbol, s, Prefix(data, i + 1), eval);
    }

    /** The strategy loop for one symbol. */
    method RunSymbol(symbol: string, data: Frame, eval: Evaluator) returns (error: Option<string>)
      requires 1 <= |data.rows| && HasAllValues(State()) && ClosesPresent(data)
      modifies this
      ensures ReplayStrategies(old(State()), symbol, data, |AllStrategies|, eval) ==
              if error.None? then Ok(State()) else KeyError(error.value)
    {
      ghost var start := State();
      var k := 0;
      error := None;
      while k < |AllStrategies| && error.None?
        invariant 0 <= k <= |AllStrategies|
        invariant error.None? ==> HasAllValues(State())
        invariant ReplayStrategies(start, symbol, data, k, eval) ==
                  if error.None? then Ok(State()) else KeyError(error.value)
      {
        error := RunStrategy(symbol, AllStrategies[k], data, eval);
        k := k + 1;
      }
      if error.Some? {
        ReplayStrategiesFailurePersists(start, symbol, data, k, |AllStrategies|, eval);
      }
    }

    /** One listing of the universe: an empty history is skipped, otherwise
        the indicators are added in place and every strategy is replayed. */
    method RunListing(ghost start: Ledger, universe: seq<Listing>, n: nat) returns (error: Option<string>)
      requires n < |universe| && HasAllValues(start) && Priced(universe)
      requires ReplayUniverse(start, universe, n, Evaluate) == Ok(State())
      modifies this
      ensures ReplayUniverse(start, universe, n + 1, Evaluate) ==
              if error.None? then Ok(State()) else KeyError(error.value)
    {
      var listing := universe[n];
      error := None;
      if |listing.history.rows| > 0 {
        var frame := new DataFrame(listing.history);
        var _ := Indicators.CalculateIndicators(frame);
        var data := frame.Value();
        IndicatorsKeepCloses(listing.history);
        error := RunSymbol(listing.symbol, data, Evaluate);
      }
    }
  }

  /** `run_e2e_test` with the fetched histories and the loaded portfolio state
      as inputs; a KeyError aborts the run. */
  method RunE2E(universe: seq<Listing>, portfolio: map<string, Position>) returns (r: Outcome<Ledger>)
    requires Priced(universe)
    ensures r == ReplayUniverse(InitialLedger(portfolio), universe, |universe|, Evaluate)
  {
    var tracker := new Tracker(portfolio);
    var n := 0;
    var error: Option<string> := None;
    while n < |universe| && error.None?
      invariant 0 <= n <= |universe|
      invariant ReplayUniverse(InitialLedger(portfolio), universe, n, Evaluate) ==
                if error.None? then Ok(tracker.State()) else KeyError(error.value)
    {
      error := tracker.RunListing(InitialLedger(portfolio), universe, n);
      n := n + 1;
    }
    if error.Some? {
      ReplayUniverseFailurePersists(InitialLedger(portfolio), universe, n, |universe|, Evaluate);
      return KeyError(error.value);
    }
    return Ok(tracker.State());
  }

  /** The whole symbol loop keeps the books balanced. */
  lemma {:induction false} ReplayUniverseBalances(l: Ledger, start: map<Strategy, real>, universe: seq<Listing>, n: nat, eval: Evaluator)
    requires n <= |universe| && HasAllValues(l) && Priced(universe) && Balanced(l, start)
    requires ReplayUniverse(l, universe, n, eval).Ok?
    ensures Balanced(ReplayUniverse(l, universe, n, eval).value, start)
    decreases n
  {
    if n > 0 {
      var m := ReplayUniverse(l, universe, n - 1, eval).value;
      ReplayUniverseBalances(l, start, universe, n - 1, eval);
      var h := universe[n - 1].history;
      if |h.rows| > 0 {
        IndicatorsKeepCloses(h);
        ReplayStrategiesBalances(m, start, universe[n - 1].symbol, Indicators.WithIndicators(h), |AllStrategies|, eval);
      }
    }
  }

  /** At the end of a completed run every strategy's final portfolio value is
      PORTFOLIO_VALUE_USD plus the P&L of the trades it logged, and the equity
      curve has one point per trade. */
  lemma FinalValuesAreRealizedPnl(universe: seq<Listing>, portfolio: map<string, Position>)
    requires Priced(universe)
    requires ReplayUniverse(InitialLedger(portfolio), universe, |universe|, Evaluate).Ok?
    ensures var r := ReplayUniverse(InitialLedger(portfolio), universe, |universe|, Evaluate).value;
            |r.equity| == |r.trades| &&
            forall t: Strategy :: t in r.values && r.values[t] == PortfolioValueUsd + RealizedPnl(r.trades, Name(t))
  {
    var l := InitialLedger(portfolio);
    assert Balanced(l, InitialValues());
    ReplayUniverseBalances(l, InitialValues(), universe, |universe|, Evaluate);
  }
}
