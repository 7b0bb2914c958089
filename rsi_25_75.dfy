/** The RSI 25/75 evaluator: RSI_4 entries and aggressive entries inside the
    trend, with RSI_4 exits. */
module Rsi25_75Strategy {
  import opened Common
  import opened Frames
  import opened Signals

  const RequiredColumns: set<Column> := {Close, Sma200, Rsi4}

  predicate Sufficient(data: Frame)
  {
    |data.rows| >= 1 && RequiredColumns <= data.columns
  }

  const ChecksComplete := "Checks complete"

  /** `check_rsi_25_75_conditions(data)`: six independent conditions returned
      in one dictionary. */
  function CheckRsi25_75(data: Frame): (r: Aggressive)
    ensures !Sufficient(data) ==> r == Aggressive(false, false, false, false, false, false, InsufficientStatus)
    ensures Sufficient(data) ==> r.status == ChecksComplete
    ensures r.longEntry <==> Sufficient(data) && Uptrend(Latest(data)) && Lt(Latest(data).rsi4, Some(25.0))
    ensures r.longAggressiveEntry <==> Sufficient(data) && Uptrend(Latest(data)) && Lt(Latest(data).rsi4, Some(20.0))
    ensures r.shortEntry <==> Sufficient(data) && Downtrend(Latest(data)) && Gt(Latest(data).rsi4, Some(75.0))
    ensures r.shortAggressiveEntry <==> Sufficient(data) && Downtrend(Latest(data)) && Gt(Latest(data).rsi4, Some(80.0))
    ensures r.longExit <==> Sufficient(data) && Gt(Latest(data).rsi4, Some(55.0))
    ensures r.shortExit <==> Sufficient(data) && Lt(Latest(data).rsi4, Some(45.0))
    // an aggressive entry is also an entry
    ensures r.longAggressiveEntry ==> r.longEntry
    ensures r.shortAggressiveEntry ==> r.shortEntry
    // no two opposing flags at once
    ensures !(r.longExit && r.shortExit) && !(r.longEntry && r.shortEntry)
    ensures !(r.longEntry && r.longExit) && !(r.shortEntry && r.shortExit)
  {
    if !Sufficient(data) then Aggressive(false, false, false, false, false, false, InsufficientStatus)
    else
      var latest := Latest(data);
      var up := Uptrend(latest);
      var down := Downtrend(latest);
      Aggressive(
        up && Lt(latest.rsi4, Some(25.0)),
        up && Lt(latest.rsi4, Some(20.0)),
        Gt(latest.rsi4, Some(55.0)),
        down && Gt(latest.rsi4, Some(75.0)),
        down && Gt(latest.rsi4, Some(80.0)),
        Lt(latest.rsi4, Some(45.0)),
        ChecksComplete)
  }
}
