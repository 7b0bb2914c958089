/** The RSI 10/6 and 90/94 evaluator: a two-tier entry on RSI_2 inside the
    trend, with SMA_5 exits. */
module Rsi10_6_90_94Strategy {
  import opened Common
  import opened Frames
  import opened Signals

  const RequiredColumns: set<Column> := {Close, Sma200, Sma5, Rsi2}

  predicate Sufficient(data: Frame)
  {
    |data.rows| >= 1 && RequiredColumns <= data.columns
  }

  const LongInitialStatus := "Long initial entry signal detected"
  const LongSecondStatus := "Long second entry signal detected"
  const ShortInitialStatus := "Short initial entry signal detected"
  const ShortSecondStatus := "Short second entry signal detected"

  /** The status the overwrites leave: the last entry message written wins,
      and an exit message is written only over "No signal". */
  function TieredStatus(r: Tiered): string
  {
    if r.shortSecondEntry then ShortSecondStatus
    else if r.shortInitialEntry then ShortInitialStatus
    else if r.longSecondEntry then LongSecondStatus
    else if r.longInitialEntry then LongInitialStatus
    else if r.longExit then LongExitStatus
    else if r.shortExit then ShortExitStatus
    else NoSignal
  }

  /** `check_rsi_10_6_90_94_conditions(data)` */
  function CheckRsi10_6_90_94(data: Frame): (r: Tiered)
    ensures !Sufficient(data) ==> r == Tiered(false, false, false, false, false, false, InsufficientStatus)
    ensures r.longInitialEntry <==> Sufficient(data) && Uptrend(Latest(data)) && Lt(Latest(data).rsi2, Some(10.0))
    ensures r.longSecondEntry <==> Sufficient(data) && Uptrend(Latest(data)) && Lt(Latest(data).rsi2, Some(6.0))
    ensures r.shortInitialEntry <==> Sufficient(data) && Downtrend(Latest(data)) && Gt(Latest(data).rsi2, Some(90.0))
    ensures r.shortSecondEntry <==> Sufficient(data) && Downtrend(Latest(data)) && Gt(Latest(data).rsi2, Some(94.0))
    ensures r.longExit <==> Sufficient(data) && Gt(Latest(data).close, Latest(data).sma5)
    ensures r.shortExit <==> Sufficient(data) && Lt(Latest(data).close, Latest(data).sma5)
    // the second tier implies the first
    ensures r.longSecondEntry ==> r.longInitialEntry
    ensures r.shortSecondEntry ==> r.shortInitialEntry
    // the sides never fire together
    ensures !((r.longInitialEntry || r.longSecondEntry) && (r.shortInitialEntry || r.shortSecondEntry))
    ensures !(r.longExit && r.shortExit)
    ensures r.longSecondEntry ==> r.status == LongSecondStatus
    ensures r.shortSecondEntry ==> r.status == ShortSecondStatus
    ensures Sufficient(data) ==> r.status == TieredStatus(r)
  {
    if !Sufficient(data) then Tiered(false, false, false, false, false, false, InsufficientStatus)
    else
      var latest := Latest(data);
      var up := Uptrend(latest);
      var longInitial := up && Lt(latest.rsi2, Some(10.0));
      var s1 := if longInitial then LongInitialStatus else NoSignal;
      var longSecond := up && Lt(latest.rsi2, Some(6.0));
      var s2 := if longSecond then LongSecondStatus else s1;
      var longExit := Gt(latest.close, latest.sma5);
      var s3 := if longExit && s2 == NoSignal then LongExitStatus else s2;
      var down := Downtrend(latest);
      var shortInitial := down && Gt(latest.rsi2, Some(90.0));
      var s4 := if shortInitial then ShortInitialStatus else s3;
      var shortSecond := down && Gt(latest.rsi2, Some(94.0));
      var s5 := if shortSecond then ShortSecondStatus else s4;
      var shortExit := Lt(latest.close, latest.sma5);
      var s6 := if shortExit && s5 == NoSignal then ShortExitStatus else s5;
      Tiered(longInitial, longSecond, longExit, shortInitial, shortSecond, shortExit, s6)
  }
}
