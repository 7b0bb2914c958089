/** The TPS (time-price-scale-in) evaluator: the one stateful strategy. It
    reads a snapshot of the current position and answers with a single
    action and the tranche (1 to 4) that action executes. */
module TpsStrategy {
  import opened Common
  import opened Frames
  import opened Signals

  /** The `position_state` dictionary. `side` is None when the key is absent;
      `lastEntryPrice` is None when the key `last_entry_price` is absent, which
      `position_state['last_entry_price']` turns into a KeyError. */
  datatype PositionState = PositionState(
    isOpen: bool,
    side: Option<string>,
    tranchesFilled: int,
    lastEntryPrice: Option<real>)

  const RequiredColumns: set<Column> := {Close, Sma200, Rsi2}

  /** At least two bars and every required column. */
  predicate Sufficient(data: Frame)
  {
    |data.rows| >= 2 && RequiredColumns <= data.columns
  }

  predicate OpenOn(pos: PositionState, side: string)
  {
    pos.isOpen && pos.side == Some(side)
  }

  predicate ExitsLong(data: Frame, pos: PositionState)
    requires Sufficient(data)
  {
    OpenOn(pos, "long") && Gt(Latest(data).rsi2, Some(70.0))
  }

  predicate ExitsShort(data: Frame, pos: PositionState)
    requires Sufficient(data)
  {
    OpenOn(pos, "short") && Lt(Latest(data).rsi2, Some(30.0))
  }

  /** RSI_2 below 25 on the latest and the previous bar. */
  predicate OversoldTwoDays(data: Frame)
    requires Sufficient(data)
  {
    Lt(Latest(data).rsi2, Some(25.0)) && Lt(Back(data, 1).rsi2, Some(25.0))
  }

  /** RSI_2 above 75 on the latest and the previous bar. */
  predicate OverboughtTwoDays(data: Frame)
    requires Sufficient(data)
  {
    Gt(Latest(data).rsi2, Some(75.0)) && Gt(Back(data, 1).rsi2, Some(75.0))
  }

  /** A long held in an uptrend with tranches left and the close below the
      last entry price. */
  predicate ScalesInLong(data: Frame, pos: PositionState)
    requires Sufficient(data)
  {
    OpenOn(pos, "long") && Uptrend(Latest(data)) && pos.tranchesFilled < 4 &&
    pos.lastEntryPrice.Some? && Lt(Latest(data).close, pos.lastEntryPrice)
  }

  /** A short held in a downtrend with tranches left and the close above the
      last entry price. */
  predicate ScalesInShort(data: Frame, pos: PositionState)
    requires Sufficient(data)
  {
    OpenOn(pos, "short") && Downtrend(Latest(data)) && pos.tranchesFilled < 4 &&
    pos.lastEntryPrice.Some? && Gt(Latest(data).close, pos.lastEntryPrice)
  }

  const NoNewSignal := "No new signal"
  const HoldResult := TpsSignals(Hold, 0, NoNewSignal)

  /** The long-side block: Some(result) when it returns, None when control
      falls through to the short side. */
  function LongSide(data: Frame, pos: PositionState): Option<Outcome<TpsSignals>>
    requires Sufficient(data)
  {
    if !Uptrend(Latest(data)) then None
    else if !pos.isOpen then
      if OversoldTwoDays(data) then Some(Ok(TpsSignals(Buy, 1, "TPS Long Tranche 1: RSI < 25 for 2 days")))
      else None
    else if pos.side == Some("long") && pos.tranchesFilled < 4 then
      match pos.lastEntryPrice
      case None => Some(KeyError("last_entry_price"))
      case Some(p) =>
        if Lt(Latest(data).close, Some(p)) then
          var next := pos.tranchesFilled + 1;
          Some(Ok(TpsSignals(Buy, next, "TPS Long Tranche " + IntToDecimal(next) + ": Price below last entry")))
        else None
    else None
  }

  /** The short-side block, the mirror of `LongSide`. */
  function ShortSide(data: Frame, pos: PositionState): Option<Outcome<TpsSignals>>
    requires Sufficient(data)
  {
    if !Downtrend(Latest(data)) then None
    else if !pos.isOpen then
      if OverboughtTwoDays(data) then Some(Ok(TpsSignals(SellShort, 1, "TPS Short Tranche 1: RSI > 75 for 2 days")))
      else None
    else if pos.side == Some("short") && pos.tranchesFilled < 4 then
      match pos.lastEntryPrice
      case None => Some(KeyError("last_entry_price"))
      case Some(p) =>
        if Gt(Latest(data).close, Some(p)) then
          var next := pos.tranchesFilled + 1;
          Some(Ok(TpsSignals(SellShort, next, "TPS Short Tranche " + IntToDecimal(next) + ": Price above last entry")))
        else None
    else None
  }

  /** `check_tps_conditions(data, position_state)`. Exits are checked first and
      return at once; then the long block, then the short block; HOLD is the
      default. */
  function CheckTps(data: Frame, pos: PositionState): (r: Outcome<TpsSignals>)
    // the insufficient-data guard
    ensures !Sufficient(data) ==> r == Ok(TpsSignals(Hold, 0, InsufficientStatus))
    // exits pre-empt everything else
    ensures Sufficient(data) && ExitsLong(data, pos) ==>
              r == Ok(TpsSignals(ExitLong, 0, "Long exit signal: RSI > 70"))
    ensures Sufficient(data) && ExitsShort(data, pos) ==>
              r == Ok(TpsSignals(ExitShort, 0, "Short exit signal: RSI < 30"))
    ensures r.Ok? && r.value.signal == ExitLong ==> Sufficient(data) && ExitsLong(data, pos)
    ensures r.Ok? && r.value.signal == ExitShort ==> Sufficient(data) && ExitsShort(data, pos)
    // the first tranche from flat
    ensures Sufficient(data) && !pos.isOpen && Uptrend(Latest(data)) && OversoldTwoDays(data) ==>
              r == Ok(TpsSignals(Buy, 1, "TPS Long Tranche 1: RSI < 25 for 2 days"))
    ensures Sufficient(data) && !pos.isOpen && Downtrend(Latest(data)) && OverboughtTwoDays(data) ==>
              r == Ok(TpsSignals(SellShort, 1, "TPS Short Tranche 1: RSI > 75 for 2 days"))
    // BUY only in an uptrend, as tranche 1 from flat or as the next scale-in tranche
    ensures r.Ok? && r.value.signal == Buy ==>
              Sufficient(data) && Uptrend(Latest(data)) &&
              ((!pos.isOpen && r.value.trancheToExecute == 1 && OversoldTwoDays(data)) ||
               (OpenOn(pos, "long") && pos.tranchesFilled < 4 && r.value.trancheToExecute == pos.tranchesFilled + 1 &&
                Lt(Latest(data).close, pos.lastEntryPrice)))
    // SELL_SHORT only in a downtrend, likewise
    ensures r.Ok? && r.value.signal == SellShort ==>
              Sufficient(data) && Downtrend(Latest(data)) &&
              ((!pos.isOpen && r.value.trancheToExecute == 1 && OverboughtTwoDays(data)) ||
               (OpenOn(pos, "short") && pos.tranchesFilled < 4 && r.value.trancheToExecute == pos.tranchesFilled + 1 &&
                Gt(Latest(data).close, pos.lastEntryPrice)))
    // tranche numbering
    ensures r.Ok? ==> r.value.trancheToExecute <= 4
    ensures r.Ok? && pos.tranchesFilled >= 0 ==>
              (r.value.trancheToExecute == 0 <==> r.value.signal in {Hold, ExitLong, ExitShort})
    // an open position against the trend only ever holds or exits
    ensures r.Ok? && Sufficient(data) && OpenOn(pos, "short") && Uptrend(Latest(data)) ==> r.value.signal in {Hold, ExitShort}
    ensures r.Ok? && Sufficient(data) && OpenOn(pos, "long") && Downtrend(Latest(data)) ==> r.value.signal in {Hold, ExitLong}
    // an open position in its trend scales in below (long) or above (short) the last entry
    ensures Sufficient(data) && !ExitsLong(data, pos) && ScalesInLong(data, pos) ==>
              var next := pos.tranchesFilled + 1;
              r == Ok(TpsSignals(Buy, next, "TPS Long Tranche " + IntToDecimal(next) + ": Price below last entry"))
    ensures Sufficient(data) && !ExitsShort(data, pos) && ScalesInShort(data, pos) ==>
              var next := pos.tranchesFilled + 1;
              r == Ok(TpsSignals(SellShort, next, "TPS Short Tranche " + IntToDecimal(next) + ": Price above last entry"))
    // the only failure is a scale-in check that reads the missing last entry price
    ensures r.KeyError? <==>
              Sufficient(data) && pos.lastEntryPrice.None? && pos.tranchesFilled < 4 &&
              ((!ExitsLong(data, pos) && OpenOn(pos, "long") && Uptrend(Latest(data))) ||
               (!ExitsShort(data, pos) && OpenOn(pos, "short") && Downtrend(Latest(data))))
    ensures r.KeyError? ==> r.key == "last_entry_price"
    // the default result when no rule fires
    ensures Sufficient(data) && r.Ok? && r.value.signal == Hold ==> r.value == HoldResult
  {
    if !Sufficient(data) then Ok(TpsSignals(Hold, 0, InsufficientStatus))
    else if ExitsLong(data, pos) then Ok(TpsSignals(ExitLong, 0, "Long exit signal: RSI > 70"))
    else if ExitsShort(data, pos) then Ok(TpsSignals(ExitShort, 0, "Short exit signal: RSI < 30"))
    else
      var long := LongSide(data, pos);
      if long.Some? then long.value
      else
        var short := ShortSide(data, pos);
        if short.Some? then short.value else Ok(HoldResult)
  }

  /** When no position is open, the snapshot's other fields are never read. */
  lemma FlatIgnoresSnapshot(data: Frame, p: PositionState, q: PositionState)
    requires !p.isOpen && !q.isOpen
    ensures CheckTps(data, p) == CheckTps(data, q)
  {
  }
}
